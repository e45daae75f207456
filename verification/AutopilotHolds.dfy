/** What a look passes over, and what it holds: told in terms of the cards and the work, for every
    action at every point of a look. */
module AutopilotHolds {
  import opened Options
  import opened Proposals
  import opened ProposalOutcomes
  import opened Autopilot
  import opened AutopilotClaims
  import opened AutopilotOwn

  /******* What a look begins with *******/

  // Work that takes a slot: the project's own, planned, implemented or reviewed; but planned early not yet.
  predicate AtWork(work: WorkOrder, early: set<Order>) {
    && !work.background && !work.session
    && (work.state in {Implementing, Reviewing} || (work.state == Planning && work.id !in early))
  }

  function Slots(work: seq<WorkOrder>, early: set<Order>): set<nat> { set i | 0 <= i < |work| && AtWork(work[i], early) }

  lemma {:induction false} WorkingIs(work: seq<WorkOrder>, early: set<Order>)
    ensures Working(work, early) == |Slots(work, early)|
  {
    if work != [] {
      var n := |work| - 1;
      WorkingIs(work[..n], early);
      assert Slots(work, early) == Slots(work[..n], early) + if AtWork(work[n], early) then {n} else {};
    }
  }

  ghost predicate CreatedByIt(cards: seq<Action>, order: Order) {
    order != "" && exists a :: a in cards && a.kind.Create? && a.status.Applied? && a.autoTried && a.order == order
  }

  ghost predicate PlansEarlyIn(cards: seq<Action>, order: Order) {
    order != "" && exists a :: a in cards && a.plansEarly && a.status.Applied? && a.order == order
  }

  /** A look that begins knows, by all the chats' cards, which work orders autopilot created, what plans
      early, and how many slots are taken without that. */
  lemma BegunKnows(v: View, look: Look, actions: seq<Action>)
    requires !look.started
    ensures var begun, cards := Begun(v, look, actions), actions + v.elsewhere;
      && begun.started && begun.closing == {} && begun.running == |Slots(v.work, EarlyPlanners(cards))|
      && (forall order :: order in begun.created <==> CreatedByIt(cards, order))
      && (forall order :: order in EarlyPlanners(cards) <==> PlansEarlyIn(cards, order))
  {
    var cards := actions + v.elsewhere;
    WorkingIs(v.work, EarlyPlanners(cards));
    forall order ensures order in CreatedOrders(cards) <==> CreatedByIt(cards, order) { CardsOf(cards, order); }
    forall order ensures order in EarlyPlanners(cards) <==> PlansEarlyIn(cards, order) { CardsOf(cards, order); }
  }

  lemma CardsOf(cards: seq<Action>, order: Order)
    ensures order in CreatedOrders(cards) <==> CreatedByIt(cards, order)
    ensures order in EarlyPlanners(cards) <==> PlansEarlyIn(cards, order)
  {
    if CreatedByIt(cards, order) {
      var a :| a in cards && a.kind.Create? && a.status.Applied? && a.autoTried && a.order == order;
      var i :| 0 <= i < |cards| && cards[i] == a;
    }
    if PlansEarlyIn(cards, order) {
      var a :| a in cards && a.plansEarly && a.status.Applied? && a.order == order;
      var i :| 0 <= i < |cards| && cards[i] == a;
    }
  }

  /******* What is passed over *******/

  predicate InGoalOrders(v: View, order: Order) {
    order != "" && Active(v.goal) && exists i :: 0 <= i < |v.goal.value.items| && v.goal.value.items[i].1 == order
  }

  // A create that waits to be applied for an item the order claims: its replacement.
  ghost predicate HasReplacement(v: View, p: Pass, order: Order) {
    exists a :: a in p.actions + v.elsewhere && a.kind.Create? && a.status.Proposed? && !a.autoTried && order in ClaimsOf(p.look.claims, a.item)
  }

  // A close is for work outside the goal that autopilot created, or any where it builds everything; and
  // for the goal's work once its recoveries are exhausted, or, building everything, once it is blocked
  // and its replacement waits, if it is the assistant's to act on.
  ghost predicate MayClose(v: View, p: Pass, order: Order) {
    if InGoalOrders(v, order) then
      order in v.exhausted
      || (v.builds && order in v.blocked && HasReplacement(v, p, order)
          && (order in v.made || order in v.goal.value.handed || CreatedFor2(p.actions + v.elsewhere, order)))
    else v.builds || order in p.look.created
  }

  ghost predicate CreatedFor2(cards: seq<Action>, order: Order) {
    exists a :: a in cards && a.kind.Create? && a.status.Applied? && a.order == order
  }

  lemma InGoalIs(v: View, order: Order)
    ensures InGoalOrders(v, order) <==> order in GoalOrders(v.goal)
  {
    if Active(v.goal) && order != "" {
      if i :| 0 <= i < |v.goal.value.items| && v.goal.value.items[i].1 == order { assert GoalItems(v.goal)[i].1 == order; }
    }
  }

  lemma ReplacedIs(v: View, p: Pass, order: Order)
    ensures Replaced(v, p, order) <==> HasReplacement(v, p, order)
  {
    var every := p.actions + v.elsewhere;
    if a :| a in every && a.kind.Create? && a.status.Proposed? && !a.autoTried && order in ClaimsOf(p.look.claims, a.item) {
      var i :| 0 <= i < |every| && every[i] == a;
    }
  }

  lemma MayActFor(v: View, actions: seq<Action>, order: Order, ours: set<Order>)
    ensures MayAct(v, actions, order, ours) <==>
      order in ours || (order != "" && Active(v.goal) && order in v.goal.value.handed) || CreatedFor2(actions + v.elsewhere, order)
  {
    var every := actions + v.elsewhere;
    if CreatedFor2(every, order) {
      var a :| a in every && a.kind.Create? && a.status.Applied? && a.order == order;
      var i :| 0 <= i < |every| && every[i] == a;
    }
  }

  /** Autopilot takes up exactly the proposed actions it has not tried that it was asked for, and closes it
      may do. */
  lemma PassedOverExactly(v: View, p: Pass, action: Action)
    ensures !Skips(v, p, action) <==>
      Asked(v, action) || (action.status.Proposed? && !action.autoTried && action.kind.Close? && MayClose(v, p, action.order))
  {
    InItemsIs(v, action.item);
    InGoalIs(v, action.order);
    ReplacedIs(v, p, action.order);
    MayActFor(v, p.actions, action.order, v.made);
  }

  // What autopilot was asked for, by the goal's items and what it builds.
  lemma AskedIs(v: View, action: Action)
    ensures Asked(v, action) ==> action.status.Proposed? && !action.autoTried
    ensures action.kind in {Start, ChangeModels, Continue, Recover} && action.status.Proposed? && !action.autoTried ==>
      (Asked(v, action) <==> v.builds || InGoalOrders(v, action.order))
  {
    InGoalIs(v, action.order);
  }

  /******* What is held *******/

  // A plan may be made while the work it waits for is implemented, unless its own work is quick.
  predicate PlansMeanwhile(v: View, action: Action, waiting: Waiting) {
    && waiting.OnOrder? && waiting.order in v.states && v.states[waiting.order] in {Implementing, Reviewing, ReadyToMerge}
    && (if action.steps != "" then action.steps != "quick" else action.order in v.steps && v.steps[action.order] != "quick")
  }

  predicate PlansEarlyNow(v: View, action: Action, waiting: Waiting) {
    action.plansEarly || (!waiting.Free? && !action.kind.Create? && PlansMeanwhile(v, action, waiting))
  }

  // It waits for other work and may not plan meanwhile, or for a slot.
  predicate MustWait(v: View, running: nat, action: Action, waiting: Waiting) {
    || (!action.kind.Create? && !waiting.Free? && !PlansMeanwhile(v, action, waiting))
    || (action.kind.Start? && !PlansEarlyNow(v, action, waiting) && running >= 16)
  }

  lemma PlansMeanwhileIs(v: View, action: Action, waiting: Waiting)
    ensures MayPlanEarly(v, action, waiting) <==> PlansMeanwhile(v, action, waiting)
  {
  }

  lemma FollowedExactly(v: View, running: nat, action: Action, waiting: Waiting)
    ensures var h := Followed(v, running, action, waiting);
      && (h.later <==> !action.kind.Create? && !waiting.Free? && !PlansMeanwhile(v, action, waiting))
      && (h.holdStart <==> action.kind.Create? && !waiting.Free?) && h.running == running
      && (h.action.plansEarly <==> PlansEarlyNow(v, action, waiting)) && (h.action.queued <==> action.queued || h.later)
  {
    PlansMeanwhileIs(v, action, waiting);
  }

  lemma SlottedExactly(h: Hold)
    ensures var s := Slotted(h); var needs := !h.later && TakesOne(h.action, h.holdStart, h.action.plansEarly);
      && (s.later <==> h.later || (needs && h.running >= 16 && !h.action.kind.Create?))
      && (s.holdStart <==> h.holdStart || (needs && h.running >= 16 && h.action.kind.Create?))
      && s.running == h.running + (if needs && h.running < 16 then 1 else 0)
      && s.action.plansEarly == h.action.plansEarly && (s.action.queued <==> h.action.queued || (s.later && !h.later))
  {
  }

  /** An action is held exactly when it must wait; a create never is, but is kept from starting while it
      follows unfinished work, or no slot is free for it; a slot is taken for what starts now and not
      to plan early; and a card says whether it plans early, and, held, that it is queued. */
  lemma HeldExactly(v: View, running: nat, action: Action, waiting: Waiting)
    ensures var h := Held(v, running, action, waiting);
      && (h.later <==> MustWait(v, running, action, waiting))
      && (h.holdStart <==> action.kind.Create? && (!waiting.Free? || (!action.brief && running >= 16)))
      && h.running == running + (if !h.later && TakesOne(action, h.holdStart, PlansEarlyNow(v, action, waiting)) then 1 else 0)
      && Marked(action, h.action) && (h.action.plansEarly <==> PlansEarlyNow(v, action, waiting)) && (h.action.queued <==> action.queued || h.later)
  {
    var f := Followed(v, running, action, waiting);
    HeldSlots(v, running, action, waiting);
    FollowedMarks(v, running, action, waiting);
    FollowedExactly(v, running, action, waiting);
    SlottedExactly(f);
    SameNeeds(action, f.action);
  }

  lemma SameNeeds(a: Action, b: Action)
    requires Marked(a, b)
    ensures b.kind == a.kind && b.brief == a.brief && b.id == a.id
  {
  }

  predicate TakesOne(action: Action, held: bool, early: bool) {
    (action.kind.Start? && !early) || (action.kind.Create? && !held && !action.brief)
  }

  /** A tried card is queued no more, and plans early as it was held to; and each continue or recovery that
      may go on is counted. */
  lemma TriedCard(v: View, p: Pass, i: nat, h: Hold)
    requires i < |p.actions|
    ensures |Tried(v, p, i, h).actions| == |p.actions|
    ensures var after := Tried(v, p, i, h).actions[i]; !after.queued && after.autoTried && after.plansEarly == h.action.plansEarly
  {
  }

  // A try at work that stopped: counted, if it is the assistant's own and within its eight.
  ghost predicate IsTry(v: View, p: Pass, action: Action) {
    && action.kind in {Continue, Recover} && ItsOwn(v, p.actions + v.elsewhere, action)
    && (action.kind.Recover? && action.backToReady ==> v.builds) && Count(p.continues, action.order) < 8
  }

  lemma TriedCounts(v: View, p: Pass, i: nat, h: Hold)
    requires i < |p.actions| && ActsAlike(p.actions[i], h.action)
    ensures var action, q := p.actions[i], Tried(v, p, i, h);
      && q.continues == (if IsTry(v, p, action) then p.continues[action.order := Count(p.continues, action.order) + 1] else p.continues)
      && q.look.running == h.running
  {
    var tried := h.action.(queued := false, autoTried := true);
    MayActIs(v, p.actions, Target(tried));
    assert forall order :: ActsOn(tried, order) <==> order == Target(tried) != "";
    assert forall order :: ActsOn(p.actions[i], order) <==> ActsOn(tried, order);
  }

  /** What is handed over claims its item, if it creates, frees its work order's, if it closes, and says
      whether its start is kept for later. */
  lemma TriedClaims(v: View, p: Pass, i: nat, h: Hold)
    requires i < |p.actions| && ActsAlike(p.actions[i], h.action) && Tried(v, p, i, h).handed != p.handed
    ensures var action, q := p.actions[i], Tried(v, p, i, h);
      && |q.actions| == |p.actions| && q.actions[i].holdStart == h.holdStart && q.handed == p.handed + [q.actions[i]]
      && q.look.claims == (if action.kind.Create? then Claim(p.look.claims, action.item, "") else p.look.claims)
      && q.look.closing == p.look.closing + (if action.kind.Close? then {action.order} else {})
  {
    if !p.actions[i].kind.Close? { assert p.look.closing + {} == p.look.closing; }
  }

  /** A card that is held is stored so, queued, and takes nothing. */
  lemma HeldCard(v: View, p: Pass, i: nat)
    requires i < |p.actions| && !Skips(v, p, p.actions[i]) && MustWait(v, p.look.running, p.actions[i], WaitOf(v, p, p.actions[i]))
    ensures var q := Take(v, p, i);
      && |q.actions| == |p.actions| && q.actions[i].queued && !q.actions[i].autoTried
      && q.handed == p.handed && q.continues == p.continues && q.look == p.look
  {
    HeldExactly(v, p.look.running, p.actions[i], WaitOf(v, p, p.actions[i]));
  }

  /******* Which chats a look goes into *******/

  ghost predicate HasAnswer(cards: seq<Action>) {
    exists a :: a in cards && a.kind.SentAtOnce? && a.status.Proposed? && !a.autoTried
  }

  ghost predicate HasNeedless(v: View, stored: seq<Action>) {
    exists a :: a in stored && Needless(v.goal, a, v.states, v.blocked, v.canTell)
  }

  /** A look goes into a chat exactly where a goal is active, the assistant builds everything, or an answer
      waits to be sent; any other chat only settles, and is written exactly if a card did. */
  lemma GoesIntoExactly(v: View, look: Look, stored: seq<Action>, continues: map<Order, int>)
    ensures var p, settled := LookedAt(v, look, stored, continues), AllSettled(v, stored);
      if v.builds || Active(v.goal) || HasAnswer(settled) then p.look.started
      else p == Pass(look, settled, continues, [], HasNeedless(v, stored))
  {
    var settled := AllSettled(v, stored);
    if HasAnswer(settled) {
      var a :| a in settled && a.kind.SentAtOnce? && a.status.Proposed? && !a.autoTried;
      var i :| 0 <= i < |settled| && settled[i] == a;
    }
    if v.builds || Active(v.goal) || Answers(settled) {
      assert Answers(settled) ==> HasAnswer(settled);
      StartedStays(v, Pass(Begun(v, look, settled), settled, continues, [], AnySettled(v, stored)), Ordered(settled));
    } else {
      NeedlessIs(v, stored);
    }
  }

  lemma {:induction false} StartedStays(v: View, p: Pass, order: seq<nat>)
    requires p.look.started && forall k :: 0 <= k < |order| ==> order[k] < |p.actions|
    ensures Taken(v, p, order).look.started
  {
    if order != [] {
      StartedStays(v, p, order[..|order| - 1]);
      TakeHands(v, Taken(v, p, order[..|order| - 1]), order[|order| - 1]);
    }
  }

  lemma NeedlessIs(v: View, stored: seq<Action>)
    ensures AnySettled(v, stored) <==> HasNeedless(v, stored)
  {
    forall i | 0 <= i < |stored|
      ensures NotNeeded(v.goal, stored[i], v.states, v.blocked, v.canTell) <==>
        Needless(v.goal, stored[i], v.states, v.blocked, v.canTell)
    {
      SettlesExactly(v.goal, stored[i], v.states, v.blocked, v.canTell, v.now);
    }
    if AnySettled(v, stored) {
      var i :| 0 <= i < |stored| && NotNeeded(v.goal, stored[i], v.states, v.blocked, v.canTell);
      assert stored[i] in stored;
    }
    if HasNeedless(v, stored) {
      var a :| a in stored && Needless(v.goal, a, v.states, v.blocked, v.canTell);
      var i :| 0 <= i < |stored| && stored[i] == a;
    }
  }
}
