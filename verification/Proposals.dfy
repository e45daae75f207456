/** The assistant's proposed actions on a project's work orders, as its chats store them: what
    each waits for, and when one is no longer needed. */
module Proposals {
  import opened Options

  // Work orders and vision items are named by text; the empty text names none.
  type Order = string
  type Item = string

  // An action's ID: a card's own, or that of the start queued behind a create.
  datatype ActionId = Card(number: nat) | StartOf(create: ActionId)

  datatype Kind =
    | Create | Start | ChangeModels | Continue | Recover | Close | AddItem | StartAutopilot
    | SetUp | Brief | SentAtOnce | Other

  datatype Status = Proposed | Applied | FailedToApply | Dismissed

  // Titles and the names in after are held without surrounding space.
  datatype Action = Action(
    id: ActionId, kind: Kind, status: Status, item: Item, order: Order, title: string, after: string,
    message: bool, backToReady: bool, brief: bool, steps: string, premium: bool, priority: int,
    autoTried: bool, leftForUser: bool, queued: bool, holdStart: bool, plansEarly: bool, settled: bool, updatedAt: int)

  datatype State =
    Draft | Ready | Planning | Implementing | Reviewing | ReadyToMerge | Completed | Cancelled
  {
    predicate IsTerminal() { Completed? || Cancelled? }

    // Past its plan: its code is written, reviewed or merged.
    predicate IsImplementing() { Implementing? || Reviewing? || ReadyToMerge? }
  }

  datatype GoalStatus = GoalActive | GoalDone | GoalStopped

  datatype Goal = Goal(
    status: GoalStatus, level: int, items: seq<(Item, Order)>, handed: set<Order>, startedAt: int, endedAt: Option<int>)

  const ALL_PRIORITIES := -1

  predicate Active(goal: Option<Goal>) { goal.Some? && goal.value.status.GoalActive? }

  predicate Hands(goal: Option<Goal>, order: Order) { Active(goal) && order != "" && order in goal.value.handed }

  function Lower(c: char): char { if 'A' <= c <= 'Z' then ((c as int) + 32) as char else c }

  // Texts alike up to the case of their letters.
  predicate EqualFold(a: string, b: string) { |a| == |b| && forall i :: 0 <= i < |a| ==> Lower(a[i]) == Lower(b[i]) }

  /******* What an action waits for *******/

  datatype Waiting = Free | OnOrder(order: Order) | OnCard(card: ActionId)

  predicate Unfinished(states: map<Order, State>, order: Order) { order in states && !states[order].IsTerminal() }

  function WaitOnOrder(states: map<Order, State>, order: Order): Waiting {
    if Unfinished(states, order) then OnOrder(order) else Free
  }

  // The first other action of that title decides, unless it is neither proposed nor a work order's.
  function FindFollowed(actions: seq<Action>, action: Action): Option<Action> {
    if actions == [] then None
    else if actions[0].id != action.id && EqualFold(actions[0].title, action.after)
            && ((actions[0].status.Applied? && actions[0].order != "") || actions[0].status.Proposed?)
    then Some(actions[0])
    else FindFollowed(actions[1..], action)
  }

  function TitledOrders(titles: map<Order, string>, title: string): set<Order> {
    set order | order in titles && EqualFold(titles[order], title)
  }

  ghost function OrderTitled(titles: map<Order, string>, title: string): (order: Order)
    requires TitledOrders(titles, title) != {}
    ensures order in titles && EqualFold(titles[order], title)
  {
    var order :| order in TitledOrders(titles, title);
    order
  }

  predicate DistinctTitles(titles: map<Order, string>) {
    forall a, b :: a in titles && b in titles && EqualFold(titles[a], titles[b]) ==> a == b
  }

  // What an action follows, whether finished or not.
  datatype Followee = Nobody | TheOrder(order: Order) | TheCard(card: ActionId)

  ghost function Follows(actions: seq<Action>, action: Action, titles: map<Order, string>, states: map<Order, State>): Followee {
    if action.after == "" || !(action.kind.Create? || action.kind.Start?) then Nobody
    else if action.after in states then TheOrder(action.after)
    else
      var followed := FindFollowed(actions, action);
      if followed.Some? then
        if followed.value.status.Proposed? then TheCard(followed.value.id) else TheOrder(followed.value.order)
      else if TitledOrders(titles, action.after) != {} then TheOrder(OrderTitled(titles, action.after))
      else Nobody
  }

  function WaitOn(states: map<Order, State>, followee: Followee): Waiting {
    match followee
    case Nobody => Free
    case TheOrder(order) => WaitOnOrder(states, order)
    case TheCard(card) => OnCard(card)
  }

  ghost function WaitsFor(actions: seq<Action>, action: Action, titles: map<Order, string>, states: map<Order, State>): Waiting {
    WaitOn(states, Follows(actions, action, titles, states))
  }

  lemma FoldTransitive(a: string, b: string, c: string)
    requires EqualFold(a, b) && EqualFold(c, b)
    ensures EqualFold(a, c)
  {
  }

  method LookUpWait(actions: seq<Action>, action: Action, titles: map<Order, string>, states: map<Order, State>)
    returns (waiting: Waiting)
    requires DistinctTitles(titles)
    ensures waiting == WaitsFor(actions, action, titles, states)
  {
    if action.after == "" || (!action.kind.Create? && !action.kind.Start?) { return Free; }
    if action.after in states { return WaitOnOrder(states, action.after); }
    for i := 0 to |actions|
      invariant FindFollowed(actions, action) == FindFollowed(actions[i..], action)
    {
      var other := actions[i];
      if other.id == action.id || !EqualFold(other.title, action.after) { continue; }
      if other.status.Applied? && other.order != "" { return WaitOnOrder(states, other.order); }
      if other.status.Proposed? { return OnCard(other.id); }
    }
    var todo := titles.Keys;
    while todo != {}
      invariant todo <= titles.Keys
      invariant forall order :: order in titles && order !in todo ==> !EqualFold(titles[order], action.after)
    {
      var order :| order in todo;
      if EqualFold(titles[order], action.after) {
        forall other | other in TitledOrders(titles, action.after) ensures other == order {
          FoldTransitive(titles[other], action.after, titles[order]);
        }
        assert order in TitledOrders(titles, action.after);
        return WaitOnOrder(states, order);
      }
      todo := todo - {order};
    }
    return Free;
  }

  predicate PendingStart(action: Action) { action.kind.Start? && action.status.Proposed? }

  // The pending start of what another pending start waits for.
  ghost predicate LeadsTo(actions: seq<Action>, titles: map<Order, string>, states: map<Order, State>, start: Action, next: Action) {
    var waiting := WaitsFor(actions, start, titles, states);
    && start in actions && PendingStart(start) && next in actions && PendingStart(next)
    && (waiting == OnOrder(next.order) || waiting == OnCard(next.id))
  }

  ghost predicate IsPath(actions: seq<Action>, titles: map<Order, string>, states: map<Order, State>, path: seq<Action>) {
    forall k :: 0 <= k < |path| - 1 ==> LeadsTo(actions, titles, states, path[k], path[k + 1])
  }

  // No pending start waits, step by step, for itself.
  ghost predicate Acyclic(actions: seq<Action>, titles: map<Order, string>, states: map<Order, State>) {
    forall path: seq<Action> :: |path| > 1 && IsPath(actions, titles, states, path) ==> path[0] != path[|path| - 1]
  }

  ghost predicate SomeFree(actions: seq<Action>, titles: map<Order, string>, states: map<Order, State>) {
    exists a :: a in actions && PendingStart(a) && WaitsFor(actions, a, titles, states).Free?
  }

  lemma {:induction false} DistinctFit(path: seq<Action>, pool: set<Action>)
    requires forall k :: 0 <= k < |path| ==> path[k] in pool
    requires forall j, k :: 0 <= j < k < |path| ==> path[j] != path[k]
    ensures |path| <= |pool|
  {
    if path != [] { DistinctFit(path[..|path| - 1], pool - {path[|path| - 1]}); }
  }

  // Following the links from one start to the next cannot come back, and so comes to a free one.
  lemma {:induction false} WalkEnds(actions: seq<Action>, titles: map<Order, string>, states: map<Order, State>, path: seq<Action>)
    requires path != [] && IsPath(actions, titles, states, path) && Acyclic(actions, titles, states)
    requires forall k :: 0 <= k < |path| ==> path[k] in actions && PendingStart(path[k])
    requires forall j, k :: 0 <= j < k < |path| ==> path[j] != path[k]
    requires forall a :: a in actions && PendingStart(a) && !WaitsFor(actions, a, titles, states).Free? ==>
      exists b :: LeadsTo(actions, titles, states, a, b)
    ensures SomeFree(actions, titles, states)
    decreases |set a | a in actions| - |path|
  {
    var last := path[|path| - 1];
    if !WaitsFor(actions, last, titles, states).Free? {
      var next :| LeadsTo(actions, titles, states, last, next);
      var longer := path + [next];
      forall k | 0 <= k < |longer| - 1 ensures LeadsTo(actions, titles, states, longer[k], longer[k + 1]) {
        if k < |path| - 1 { assert longer[k] == path[k] && longer[k + 1] == path[k + 1]; }
      }
      forall k | 0 <= k < |path| ensures path[k] != next {
        var loop := longer[k..];
        assert IsPath(actions, titles, states, loop) by {
          forall j | 0 <= j < |loop| - 1 ensures LeadsTo(actions, titles, states, loop[j], loop[j + 1]) {
            assert loop[j] == longer[k + j] && loop[j + 1] == longer[k + j + 1];
          }
        }
        assert loop[0] == path[k] && loop[|loop| - 1] == next;
      }
      DistinctFit(longer, set a | a in actions);
      WalkEnds(actions, titles, states, longer);
    }
  }

  /** Where no pending start waits step by step for itself, and what each waits for has a pending
      start of its own, at least one of them is not waiting. */
  lemma SomeStartIsFree(actions: seq<Action>, titles: map<Order, string>, states: map<Order, State>, start: Action)
    requires start in actions && PendingStart(start) && Acyclic(actions, titles, states)
    requires forall a :: a in actions && PendingStart(a) && !WaitsFor(actions, a, titles, states).Free? ==>
      exists b :: LeadsTo(actions, titles, states, a, b)
    ensures SomeFree(actions, titles, states)
  {
    WalkEnds(actions, titles, states, [start]);
  }

  /******* Stale cards *******/

  predicate IsStale(action: Action, state: State, blocked: bool, canTell: bool) {
    match action.kind
    case Start => !state.Draft? && !state.Ready?
    case Close => state.IsTerminal()
    case Continue => !action.message && canTell && !blocked
    case Recover => !action.message && canTell && !blocked
    case _ => false
  }

  // A card that starts autopilot is not needed once a goal of its priorities is on, or was since.
  predicate Covers(goal: Option<Goal>, action: Action) {
    && goal.Some? && action.kind.StartAutopilot?
    && (goal.value.level == ALL_PRIORITIES || goal.value.level == action.priority)
    && (Active(goal) || (goal.value.status.GoalDone? && goal.value.endedAt.Some? && goal.value.endedAt.value > action.updatedAt)
        || goal.value.startedAt > action.updatedAt)
  }

  predicate NotNeeded(goal: Option<Goal>, action: Action, states: map<Order, State>, blocked: set<Order>, canTell: bool) {
    && action.status.Proposed?
    && (Covers(goal, action)
        || (action.order != "" && action.order in states
            && IsStale(action, states[action.order], canTell && action.order in blocked, canTell)))
  }

  function Settled(goal: Option<Goal>, action: Action, states: map<Order, State>, blocked: set<Order>, canTell: bool, now: int): Action {
    if !NotNeeded(goal, action, states, blocked, canTell) then action
    else action.(status := Applied, settled := true, leftForUser := false, updatedAt := now,
                 queued := action.queued && Covers(goal, action))
  }

  method SettleStale(goal: Option<Goal>, stored: seq<Action>, states: map<Order, State>, blocked: set<Order>, canTell: bool, now: int)
    returns (actions: seq<Action>, settled: bool)
    ensures |actions| == |stored|
    ensures forall i :: 0 <= i < |stored| ==> actions[i] == Settled(goal, stored[i], states, blocked, canTell, now)
    ensures settled <==> exists i :: 0 <= i < |stored| && NotNeeded(goal, stored[i], states, blocked, canTell)
  {
    actions, settled := stored, false;
    for i := 0 to |stored|
      invariant |actions| == |stored|
      invariant forall k :: 0 <= k < i ==> actions[k] == Settled(goal, stored[k], states, blocked, canTell, now)
      invariant forall k :: i <= k < |stored| ==> actions[k] == stored[k]
      invariant settled <==> exists k :: 0 <= k < i && NotNeeded(goal, stored[k], states, blocked, canTell)
    {
      var action := actions[i];
      if action.status.Proposed? && Covers(goal, action) {
        actions := actions[i := action.(leftForUser := false, status := Applied, settled := true, updatedAt := now)];
        settled := true;
        continue;
      }
      if !action.status.Proposed? || action.order == "" || action.order !in states { continue; }
      var isBlocked := false;
      if canTell && (action.kind.Continue? || action.kind.Recover?) { isBlocked := action.order in blocked; }
      if !IsStale(action, states[action.order], isBlocked, canTell) { continue; }
      actions := actions[i := action.(leftForUser := false, status := Applied, settled := true, queued := false, updatedAt := now)];
      settled := true;
    }
  }

  /******* A card's outcome *******/

  // A card is resolved as applied, failed or dismissed, with the work order it made if any, or
  // settled as no longer needed.
  datatype Outcome = Resolve(status: Status, made: Order) | Settle
  {
    predicate Valid() { Resolve? ==> !status.Proposed? }
  }

  datatype Resolution = Resolved(actions: seq<Action>) | NotPending | NotFound

  function Closed(action: Action, outcome: Outcome, now: int): Action {
    match outcome
    case Resolve(status, made) =>
      action.(status := status, updatedAt := now, order := if made != "" then made else action.order,
              leftForUser := action.leftForUser && !status.Applied?)
    case Settle => action.(status := Applied, settled := true, queued := false, leftForUser := false, updatedAt := now)
  }

  function ResolvedIn(stored: seq<Action>, id: ActionId, outcome: Outcome, now: int): Resolution {
    if stored == [] then NotFound
    else if stored[0].id == id then
      if stored[0].status.Proposed? then Resolved([Closed(stored[0], outcome, now)] + stored[1..]) else NotPending
    else
      var rest := ResolvedIn(stored[1..], id, outcome, now);
      if rest.Resolved? then Resolved([stored[0]] + rest.actions) else rest
  }

  method ResolveCard(stored: seq<Action>, id: ActionId, outcome: Outcome, now: int) returns (resolution: Resolution)
    requires outcome.Valid()
    ensures resolution == ResolvedIn(stored, id, outcome, now)
  {
    for i := 0 to |stored|
      invariant forall k :: 0 <= k < i ==> stored[k].id != id
    {
      if stored[i].id != id { continue; }
      ResolvedAt(stored, id, outcome, now, i);
      if !stored[i].status.Proposed? { return NotPending; }
      return Resolved(stored[i := Closed(stored[i], outcome, now)]);
    }
    ResolvedAt(stored, id, outcome, now, |stored|);
    return NotFound;
  }

  lemma {:induction false} ResolvedAt(stored: seq<Action>, id: ActionId, outcome: Outcome, now: int, i: nat)
    requires i <= |stored| && (forall k :: 0 <= k < i ==> stored[k].id != id) && (i < |stored| ==> stored[i].id == id)
    ensures ResolvedIn(stored, id, outcome, now) ==
      if i == |stored| then NotFound
      else if stored[i].status.Proposed? then Resolved(stored[i := Closed(stored[i], outcome, now)]) else NotPending
  {
    if i > 0 { ResolvedAt(stored[1..], id, outcome, now, i - 1); }
  }

  /** A card gets one outcome: resolved or settled once, it is not pending for any other. */
  lemma {:induction false} OneOutcome(stored: seq<Action>, id: ActionId, outcome: Outcome, now: int, again: Outcome, later: int)
    requires outcome.Valid() && ResolvedIn(stored, id, outcome, now).Resolved?
    ensures ResolvedIn(ResolvedIn(stored, id, outcome, now).actions, id, again, later) == NotPending
  {
    if stored[0].id != id { OneOutcome(stored[1..], id, outcome, now, again, later); }
  }
}
