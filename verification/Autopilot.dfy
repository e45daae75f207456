/** One look of autopilot at a project's proposed actions, chat by chat: which it takes over,
    which it holds or leaves to the user, and which it hands over to be applied. */
module Autopilot {
  import opened Options
  import opened Proposals

  const SAFETY_CAP: nat := 16
  const MAX_AUTO_CONTINUES: nat := 8

  datatype WorkOrder = WorkOrder(id: Order, state: State, background: bool, session: bool)

  /** What one chat's turn of a look reads besides the chat: the project's work orders, the
      other chats' actions, and what the environment answers about recoveries and blockers. */
  datatype View = View(
    builds: bool, ours: set<Order>, made: set<Order>, titles: map<Order, string>, states: map<Order, State>,
    work: seq<WorkOrder>, steps: map<Order, string>, goal: Option<Goal>, elsewhere: seq<Action>,
    exhausted: set<Order>, blocked: set<Order>, canTell: bool, now: int)

  /** What a look carries from chat to chat. */
  datatype Look = Look(started: bool, claims: map<Item, seq<Order>>, created: set<Order>, closing: set<Order>, running: nat)

  /** A look in the middle of a chat: the chat's actions and the continues counted so far, what
      was handed over, and whether the chat has to be written. */
  datatype Pass = Pass(look: Look, actions: seq<Action>, continues: map<Order, int>, handed: seq<Action>, noted: bool)

  const NOTHING_SEEN := Look(false, map[], {}, {}, 0)

  /******* What a look starts from *******/

  function ClaimsOf(claims: map<Item, seq<Order>>, item: Item): seq<Order> {
    if item in claims then claims[item] else []
  }

  function Claim(claims: map<Item, seq<Order>>, item: Item, order: Order): map<Item, seq<Order>> {
    claims[item := ClaimsOf(claims, item) + [order]]
  }

  function GoalItems(goal: Option<Goal>): seq<(Item, Order)> {
    if Active(goal) then goal.value.items else []
  }

  function GoalOrders(goal: Option<Goal>): set<Order> {
    set i | 0 <= i < |GoalItems(goal)| && GoalItems(goal)[i].1 != "" :: GoalItems(goal)[i].1
  }

  predicate InItems(goal: Option<Goal>, item: Item) {
    exists i :: 0 <= i < |GoalItems(goal)| && GoalItems(goal)[i].0 == item
  }

  predicate IsCreated(action: Action) { action.kind.Create? && action.status.Applied? }

  function ItemClaims(items: seq<(Item, Order)>): map<Item, seq<Order>> {
    if items == [] then map[]
    else
      var before, last := ItemClaims(items[..|items| - 1]), items[|items| - 1];
      if last.1 == "" then before else Claim(before, last.0, last.1)
  }

  function CreateClaims(claims: map<Item, seq<Order>>, actions: seq<Action>): map<Item, seq<Order>> {
    if actions == [] then claims
    else
      var before, last := CreateClaims(claims, actions[..|actions| - 1]), actions[|actions| - 1];
      if IsCreated(last) then Claim(before, last.item, last.order) else before
  }

  function CreatedOrders(actions: seq<Action>): set<Order> {
    set i | 0 <= i < |actions| && IsCreated(actions[i]) && actions[i].autoTried && actions[i].order != "" :: actions[i].order
  }

  function EarlyPlanners(actions: seq<Action>): set<Order> {
    set i | 0 <= i < |actions| && actions[i].plansEarly && actions[i].status.Applied? && actions[i].order != "" :: actions[i].order
  }

  predicate Counts(work: WorkOrder, early: set<Order>) {
    && !work.background && !work.session
    && ((work.state.Planning? && work.id !in early) || work.state.Implementing? || work.state.Reviewing?)
  }

  function Working(work: seq<WorkOrder>, early: set<Order>): nat {
    if work == [] then 0
    else Working(work[..|work| - 1], early) + if Counts(work[|work| - 1], early) then 1 else 0
  }

  function Begun(v: View, look: Look, actions: seq<Action>): Look {
    if look.started then look
    else
      var every := actions + v.elsewhere;
      Look(true, CreateClaims(ItemClaims(GoalItems(v.goal)), every), CreatedOrders(every), {}, Working(v.work, EarlyPlanners(every)))
  }

  /******* One action *******/

  // An open claim: a create handed over, or a work order neither cancelled nor being closed.
  predicate Open(v: View, look: Look, order: Order) {
    order == "" || (order !in look.closing && Lookup(v.states, order) != Some(Cancelled))
  }

  predicate Claimed(v: View, look: Look, item: Item) {
    exists i :: 0 <= i < |ClaimsOf(look.claims, item)| && Open(v, look, ClaimsOf(look.claims, item)[i])
  }

  // Whether the assistant may act on a work order without the user's approval.
  predicate MayAct(v: View, actions: seq<Action>, order: Order, ours: set<Order>) {
    order in ours || Hands(v.goal, order)
    || exists i :: 0 <= i < |actions + v.elsewhere| && IsCreated((actions + v.elsewhere)[i]) && (actions + v.elsewhere)[i].order == order
  }

  // A create for an item the work order claims waits to be applied.
  predicate Replaced(v: View, p: Pass, order: Order) {
    var every := p.actions + v.elsewhere;
    exists i :: 0 <= i < |every| && every[i].kind.Create? && every[i].status.Proposed? && !every[i].autoTried
      && order in ClaimsOf(p.look.claims, every[i].item)
  }

  function Target(action: Action): Order {
    match action.kind
    case Create => "" case StartAutopilot => "" case SetUp => "" case SentAtOnce => "" case Other => ""
    case _ => action.order
  }

  predicate InGoal(v: View, p: Pass, action: Action) {
    var target := Target(action);
    match action.kind
    case Create => InItems(v.goal, action.item) || v.builds
    case Start => target in GoalOrders(v.goal) || v.builds
    case ChangeModels => target in GoalOrders(v.goal) || v.builds
    case Continue => target in GoalOrders(v.goal) || v.builds
    case Recover => target in GoalOrders(v.goal) || v.builds
    case Close =>
      ((target in p.look.created || v.builds) && target !in GoalOrders(v.goal))
      || (target in GoalOrders(v.goal)
          && (target in v.exhausted
              || (v.builds && MayAct(v, p.actions, target, v.made) && Replaced(v, p, target) && target in v.blocked)))
    case AddItem => v.builds
    case StartAutopilot => v.builds && !Active(v.goal)
    case SetUp => v.builds
    case Brief => v.builds
    case SentAtOnce => true
    case Other => false
  }

  ghost function WaitOf(v: View, p: Pass, action: Action): Waiting {
    WaitsFor(p.actions + v.elsewhere, action, v.titles, v.states)
  }

  function StepsOf(v: View, action: Action): Option<string> {
    if action.steps != "" then Some(action.steps) else Lookup(v.steps, action.order)
  }

  // A start that makes a plan before it implements; quick work has none.
  predicate PlansFirst(v: View, action: Action) {
    StepsOf(v, action).Some? && StepsOf(v, action).value != "quick"
  }

  predicate MayPlanEarly(v: View, action: Action, waiting: Waiting) {
    waiting.OnOrder? && waiting.order in v.states && v.states[waiting.order].IsImplementing() && PlansFirst(v, action)
  }

  predicate TakesSlot(action: Action, holdStart: bool) {
    (action.kind.Start? && !action.plansEarly) || (action.kind.Create? && !holdStart && !action.brief)
  }

  datatype Hold = Hold(action: Action, holdStart: bool, running: nat, later: bool, noted: bool)

  // Work that follows other work waits for it: a create is only kept from starting, and a start
  // may plan early.
  function Followed(v: View, running: nat, action: Action, waiting: Waiting): Hold {
    if waiting.Free? then Hold(action, false, running, false, false)
    else if action.kind.Create? then Hold(action, true, running, false, true)
    else if MayPlanEarly(v, action, waiting) then Hold(action.(plansEarly := true), false, running, false, !action.plansEarly)
    else Hold(action.(queued := true), false, running, true, !action.queued)
  }

  // Beyond the cap a start waits for a slot, and a create is kept from starting.
  function Slotted(h: Hold): Hold {
    if h.later || !TakesSlot(h.action, h.holdStart) then h
    else if h.running < SAFETY_CAP then h.(running := h.running + 1)
    else if h.action.kind.Create? then h.(holdStart := true, noted := true)
    else h.(action := h.action.(queued := true), later := true, noted := h.noted || !h.action.queued)
  }

  function Held(v: View, running: nat, action: Action, waiting: Waiting): Hold {
    Slotted(Followed(v, running, action, waiting))
  }

  predicate CountsContinue(action: Action) { action.kind.Continue? || action.kind.Recover? }

  function Count(continues: map<Order, int>, order: Order): int {
    if order in continues then continues[order] else 0
  }

  // Not the assistant's to do: the user's own work order, or work thrown away, or one try too many.
  predicate NotItsOwn(v: View, p: Pass, action: Action) {
    || (Target(action) != "" && !MayAct(v, p.actions, Target(action), v.ours))
    || (action.kind.Recover? && action.backToReady && !v.builds)
    || (CountsContinue(action) && Count(p.continues, action.order) >= MAX_AUTO_CONTINUES)
  }

  predicate LeftToUser(v: View, p: Pass, action: Action) {
    || NotItsOwn(v, p, action)
    || (action.kind.Create? && action.item != "" && Claimed(v, p.look, action.item))
    || action.premium
  }

  function Counted(v: View, p: Pass, action: Action): map<Order, int> {
    if CountsContinue(action) && !NotItsOwn(v, p, action)
    then p.continues[action.order := Count(p.continues, action.order) + 1] else p.continues
  }

  predicate Skips(v: View, p: Pass, action: Action) {
    !action.status.Proposed? || action.autoTried || !InGoal(v, p, action)
  }

  function Waited(p: Pass, i: nat, h: Hold): Pass
    requires i < |p.actions|
  {
    p.(look := p.look.(running := h.running), actions := p.actions[i := h.action], noted := p.noted || h.noted)
  }

  // What becomes of an action that nothing holds: it is tried, once, and left or handed over.
  function Tried(v: View, p: Pass, i: nat, h: Hold): Pass
    requires i < |p.actions|
  {
    var tried := h.action.(queued := false, autoTried := true);
    var given := tried.(holdStart := h.holdStart);
    var look := p.look.(running := h.running);
    if LeftToUser(v, p, tried) then
      p.(look := look, actions := p.actions[i := tried.(leftForUser := true)], continues := Counted(v, p, tried), noted := true)
    else Pass(
      look.(claims := if given.kind.Create? then Claim(look.claims, given.item, "") else look.claims,
            closing := if given.kind.Close? then look.closing + {given.order} else look.closing),
      p.actions[i := given], Counted(v, p, tried), p.handed + [given], p.noted || h.noted)
  }

  // What one proposed action makes of the pass.
  ghost function Take(v: View, p: Pass, i: nat): Pass
    requires i < |p.actions|
  {
    var action := p.actions[i];
    if Skips(v, p, action) then p
    else
      var h := Held(v, p.look.running, action, WaitOf(v, p, action));
      if h.later then Waited(p, i, h) else Tried(v, p, i, h)
  }

  /******* One chat *******/

  // Closes go first, each kind in the order it was proposed.
  function Sorted(actions: seq<Action>, closes: bool): seq<nat> {
    if actions == [] then []
    else
      var before, n := Sorted(actions[..|actions| - 1], closes), |actions| - 1;
      if actions[n].kind.Close? == closes then before + [n] else before
  }

  function Ordered(actions: seq<Action>): (order: seq<nat>)
    ensures forall k :: 0 <= k < |order| ==> order[k] < |actions|
  {
    SortedBounds(actions, true);
    SortedBounds(actions, false);
    Sorted(actions, true) + Sorted(actions, false)
  }

  lemma {:induction false} SortedBounds(actions: seq<Action>, closes: bool)
    ensures forall k :: 0 <= k < |Sorted(actions, closes)| ==> Sorted(actions, closes)[k] < |actions|
    ensures forall k :: 0 <= k < |Sorted(actions, closes)| ==> actions[Sorted(actions, closes)[k]].kind.Close? == closes
    ensures forall j, k :: 0 <= j < k < |Sorted(actions, closes)| ==> Sorted(actions, closes)[j] < Sorted(actions, closes)[k]
  {
    if actions != [] {
      SortedBounds(actions[..|actions| - 1], closes);
    }
  }

  ghost function Taken(v: View, p: Pass, order: seq<nat>): (q: Pass)
    requires forall k :: 0 <= k < |order| ==> order[k] < |p.actions|
    ensures |q.actions| == |p.actions|
  {
    if order == [] then p else Take(v, Taken(v, p, order[..|order| - 1]), order[|order| - 1])
  }

  function AllSettled(v: View, actions: seq<Action>): (settled: seq<Action>)
    ensures |settled| == |actions|
    ensures forall i :: 0 <= i < |actions| ==> settled[i] == Settled(v.goal, actions[i], v.states, v.blocked, v.canTell, v.now)
  {
    if actions == [] then []
    else AllSettled(v, actions[..|actions| - 1]) + [Settled(v.goal, actions[|actions| - 1], v.states, v.blocked, v.canTell, v.now)]
  }

  predicate AnySettled(v: View, actions: seq<Action>) {
    exists i :: 0 <= i < |actions| && NotNeeded(v.goal, actions[i], v.states, v.blocked, v.canTell)
  }

  predicate Answers(actions: seq<Action>) {
    exists i :: 0 <= i < |actions| && actions[i].kind.SentAtOnce? && actions[i].status.Proposed? && !actions[i].autoTried
  }

  // A look at one chat: its cards settle, and where autopilot is on, it takes over what it may.
  ghost function LookedAt(v: View, look: Look, stored: seq<Action>, continues: map<Order, int>): Pass {
    var actions := AllSettled(v, stored);
    if !Active(v.goal) && !v.builds && !Answers(actions)
    then Pass(look, actions, continues, [], AnySettled(v, stored))
    else Taken(v, Pass(Begun(v, look, actions), actions, continues, [], AnySettled(v, stored)), Ordered(actions))
  }
}
