/** Work that follows other work: plain starts are handed over only once it is finished, and work
    that plans early is held before it implements. */
module AutopilotWaits {
  import opened Options
  import opened Proposals
  import opened Autopilot
  import opened AutopilotClaims
  import Looking = AutopilotLook

  /******* What is handed over does not wait *******/

  lemma {:induction false} FollowedSame(before: seq<Action>, after: seq<Action>, action: Action, same: Action)
    requires OnlyMarks(before, after) && OnlyMarked(action, same)
    ensures FindFollowed(before, action).Some? <==> FindFollowed(after, same).Some?
    ensures FindFollowed(before, action).Some? ==> OnlyMarked(FindFollowed(before, action).value, FindFollowed(after, same).value)
  {
    if before != [] {
      assert OnlyMarked(before[0], after[0]);
      assert OnlyMarks(before[1..], after[1..]) by {
        forall i | 0 <= i < |before| - 1 ensures OnlyMarked(before[1..][i], after[1..][i]) { assert OnlyMarked(before[i + 1], after[i + 1]); }
      }
      FollowedSame(before[1..], after[1..], action, same);
    }
  }

  // Marks on the cards change nothing in what waits for what.
  lemma WaitsSame(before: seq<Action>, after: seq<Action>, action: Action, same: Action, titles: map<Order, string>, states: map<Order, State>)
    requires OnlyMarks(before, after) && OnlyMarked(action, same)
    ensures WaitsFor(before, action, titles, states) == WaitsFor(after, same, titles, states)
  {
    FollowedSame(before, after, action, same);
  }

  // Handed over, a start does not wait, or plans early while what it follows is implemented; a
  // create that waits is kept from starting.
  ghost predicate Timely(v: View, actions: seq<Action>, given: Action) {
    var waiting := WaitsFor(actions + v.elsewhere, given, v.titles, v.states);
    !waiting.Free? ==>
      (given.kind.Create? && given.holdStart) || (given.kind.Start? && given.plansEarly && MayPlanEarly(v, given, waiting))
  }

  lemma MarksOnBoth(before: seq<Action>, after: seq<Action>, rest: seq<Action>)
    requires OnlyMarks(before, after)
    ensures OnlyMarks(before + rest, after + rest)
  {
  }

  lemma TimelyStays(v: View, before: seq<Action>, after: seq<Action>, given: Action)
    requires OnlyMarks(before, after) && Timely(v, before, given)
    ensures Timely(v, after, given)
  {
    MarksOnBoth(before, after, v.elsewhere);
    WaitsSame(before + v.elsewhere, after + v.elsewhere, given, given, v.titles, v.states);
  }

  lemma HeldTimely(v: View, running: nat, action: Action, waiting: Waiting)
    requires !action.kind.Create? && !action.kind.Start? ==> waiting.Free?
    ensures var h := Held(v, running, action, waiting);
      !h.later && !waiting.Free? ==>
        (action.kind.Create? && h.holdStart) || (action.kind.Start? && h.action.plansEarly && MayPlanEarly(v, action, waiting))
  {
    var f := Followed(v, running, action, waiting);
    assert !f.later && !waiting.Free? ==> f.holdStart || (f.action.plansEarly && MayPlanEarly(v, action, waiting));
    assert Slotted(f).action.plansEarly == f.action.plansEarly && (f.holdStart ==> Slotted(f).holdStart);
    assert f.later ==> Slotted(f).later;
  }

  lemma TakeTimely(v: View, p: Pass, i: nat)
    requires i < |p.actions| && HandsOver(v, p, Take(v, p, i), i)
    ensures Timely(v, p.actions, Take(v, p, i).actions[i])
  {
    var action, given := p.actions[i], Take(v, p, i).actions[i];
    var waiting := WaitOf(v, p, action);
    HeldMarks(v, p, i);
    HeldTimely(v, p.look.running, action, waiting);
    WaitsSame(p.actions + v.elsewhere, p.actions + v.elsewhere, action, given, v.titles, v.states);
    var h := Held(v, p.look.running, action, waiting);
    assert !h.later && given == h.action.(queued := false, autoTried := true, holdStart := h.holdStart) by {
      assert |Take(v, p, i).handed| > |p.handed|;
    }
  }

  lemma {:induction false} TakenTimely(v: View, p: Pass, order: seq<nat>)
    requires forall k :: 0 <= k < |order| ==> order[k] < |p.actions|
    requires p.handed == []
    ensures forall given :: given in Taken(v, p, order).handed ==> Timely(v, Taken(v, p, order).actions, given)
  {
    if order != [] {
      var q, i := Taken(v, p, order[..|order| - 1]), order[|order| - 1];
      TakenTimely(v, p, order[..|order| - 1]);
      HeldMarks(v, q, i);
      TakeHands(v, q, i);
      var r := Take(v, q, i);
      assert OnlyMarks(q.actions, r.actions);
      forall given | given in r.handed ensures Timely(v, r.actions, given) {
        if HandsOver(v, q, r, i) && given == r.actions[i] { TakeTimely(v, q, i); }
        TimelyStays(v, q.actions, r.actions, given);
      }
    }
  }

  /** Everything a look at a chat hands over is timely: a plain start follows only finished work. */
  lemma HandedIsTimely(v: View, look: Look, stored: seq<Action>, continues: map<Order, int>, given: Action)
    requires given in LookedAt(v, look, stored, continues).handed
    ensures Timely(v, LookedAt(v, look, stored, continues).actions, given)
  {
    var actions := AllSettled(v, stored);
    TakenTimely(v, Pass(Begun(v, look, actions), actions, continues, [], AnySettled(v, stored)), Ordered(actions));
  }

  /******* Early planners are held *******/

  predicate IsEarly(action: Action, order: Order) { action.plansEarly && action.status.Applied? && action.order == order }

  // The order's latest early start; the first of those at one time.
  function LatestEarly(actions: seq<Action>, order: Order): Option<Action> {
    if actions == [] then None
    else
      var before, last := LatestEarly(actions[..|actions| - 1], order), actions[|actions| - 1];
      if IsEarly(last, order) && (before.None? || last.updatedAt > before.value.updatedAt) then Some(last) else before
  }

  ghost predicate Holds(actions: seq<Action>, order: Order, titles: map<Order, string>, states: map<Order, State>, work: seq<WorkOrder>) {
    var start := LatestEarly(actions, order);
    start.Some? && (!WaitsFor(actions, start.value, titles, states).Free? || Working(work, EarlyPlanners(actions)) >= SAFETY_CAP)
  }

  method ImplementationHold(actions: seq<Action>, order: Order, titles: map<Order, string>, states: map<Order, State>, work: seq<WorkOrder>)
    returns (held: bool)
    requires DistinctTitles(titles)
    ensures held == Holds(actions, order, titles, states, work)
  {
    var start: Option<Action> := None;
    for i := 0 to |actions|
      invariant start == LatestEarly(actions[..i], order)
    {
      assert actions[..i + 1][..i] == actions[..i];
      if actions[i].plansEarly && actions[i].status.Applied? && actions[i].order == order
         && (start.None? || actions[i].updatedAt > start.value.updatedAt) {
        start := Some(actions[i]);
      }
    }
    assert actions[..|actions|] == actions;
    if start.None? { return false; }
    var waiting := LookUpWait(actions, start.value, titles, states);
    if !waiting.Free? { return true; }
    var early := Looking.Pilot.FindEarly(actions);
    var running := Looking.Pilot.CountWorking(work, early);
    return running >= SAFETY_CAP;
  }

  lemma {:induction false} LatestIsLatest(actions: seq<Action>, order: Order)
    ensures LatestEarly(actions, order).None? <==> forall i :: 0 <= i < |actions| ==> !IsEarly(actions[i], order)
    ensures LatestEarly(actions, order).Some? ==>
      var latest := LatestEarly(actions, order).value;
      latest in actions && IsEarly(latest, order)
      && forall i :: 0 <= i < |actions| && IsEarly(actions[i], order) ==> actions[i].updatedAt <= latest.updatedAt
  {
    if actions != [] {
      var n := |actions| - 1;
      LatestIsLatest(actions[..n], order);
      assert forall i :: 0 <= i < n ==> actions[..n][i] == actions[i];
    }
  }
}
