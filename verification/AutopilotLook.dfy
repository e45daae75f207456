/** The look itself, which changes the claims, the slots and the chat's actions step by step. */
module AutopilotLook {
  import opened Options
  import opened Proposals
  import opened Autopilot

  class Pilot {
    var started: bool
    var claims: map<Item, seq<Order>>
    var created: set<Order>
    var closing: set<Order>
    var running: nat
    // The chat that is looked at.
    var actions: seq<Action>
    var continues: map<Order, int>
    var handed: seq<Action>
    var noted: bool

    function Looking(): Look
      reads this
    {
      Look(started, claims, created, closing, running)
    }

    function Value(): Pass
      reads this
    {
      Pass(Looking(), actions, continues, handed, noted)
    }

    constructor ()
      ensures Looking() == NOTHING_SEEN && handed == [] && !noted
    {
      started, claims, created, closing, running := false, map[], {}, {}, 0;
      actions, continues, handed, noted := [], map[], [], false;
    }

    method ClaimItems(items: seq<(Item, Order)>)
      modifies this`claims
      ensures claims == ItemClaims(items)
    {
      claims := map[];
      for i := 0 to |items|
        invariant claims == ItemClaims(items[..i])
      {
        assert items[..i + 1][..i] == items[..i];
        if items[i].1 != "" { claims := Claim(claims, items[i].0, items[i].1); }
      }
      assert items[..|items|] == items;
    }

    method ClaimCreates(every: seq<Action>)
      modifies this`claims, this`created
      ensures claims == CreateClaims(old(claims), every) && created == CreatedOrders(every)
    {
      created := {};
      for i := 0 to |every|
        invariant claims == CreateClaims(old(claims), every[..i]) && created == CreatedOrders(every[..i])
      {
        assert every[..i + 1][..i] == every[..i];
        CollectedNext(every, i);
        if every[i].kind.Create? && every[i].status.Applied? {
          claims := Claim(claims, every[i].item, every[i].order);
          if every[i].autoTried && every[i].order != "" { created := created + {every[i].order}; }
        }
      }
      assert every[..|every|] == every;
    }

    static method FindEarly(every: seq<Action>) returns (early: set<Order>)
      ensures early == EarlyPlanners(every)
    {
      early := {};
      for i := 0 to |every|
        invariant early == EarlyPlanners(every[..i])
      {
        CollectedNext(every, i);
        if every[i].plansEarly && every[i].status.Applied? && every[i].order != "" { early := early + {every[i].order}; }
      }
      assert every[..|every|] == every;
    }

    // What is claimed, what autopilot created, and what runs, once a look.
    method Begin(v: View)
      modifies this
      ensures Value() == old(Value()).(look := Begun(v, old(Looking()), old(actions)))
    {
      if started { return; }
      started, closing := true, {};
      ClaimItems(GoalItems(v.goal));
      ClaimCreates(actions + v.elsewhere);
      var early := FindEarly(actions + v.elsewhere);
      running := CountWorking(v.work, early);
    }

    static method CountWorking(work: seq<WorkOrder>, early: set<Order>) returns (count: nat)
      ensures count == Working(work, early)
    {
      count := 0;
      for i := 0 to |work|
        invariant count == Working(work[..i], early)
      {
        assert work[..i + 1][..i] == work[..i];
        if work[i].background || work[i].session { continue; }
        match work[i].state {
          case Planning => if work[i].id !in early { count := count + 1; }
          case Implementing => count := count + 1;
          case Reviewing => count := count + 1;
          case _ =>
        }
      }
      assert work[..|work|] == work;
    }

    method FollowWork(v: View, action: Action, waiting: Waiting) returns (next: Action, holdStart: bool, later: bool)
      modifies this`noted
      ensures var h := Followed(v, running, action, waiting);
        next == h.action && holdStart == h.holdStart && later == h.later && noted == (old(noted) || h.noted)
    {
      next, holdStart, later := action, false, false;
      if !waiting.Free? {
        if next.kind.Create? {
          holdStart, noted := true, true;
        } else if MayPlanEarly(v, next, waiting) {
          if !next.plansEarly {
            next := next.(plansEarly := true);
            noted := true;
          }
        } else {
          if !next.queued {
            next := next.(queued := true);
            noted := true;
          }
          later := true;
        }
      }
    }

    method TakeSlot(action: Action, holdStart: bool) returns (next: Action, held: bool, later: bool)
      modifies this`running, this`noted
      ensures var h := Slotted(Hold(action, holdStart, old(running), false, false));
        next == h.action && held == h.holdStart && running == h.running && later == h.later && noted == (old(noted) || h.noted)
    {
      next, held, later := action, holdStart, false;
      if (next.kind.Start? && !next.plansEarly) || (next.kind.Create? && !held && !next.brief) {
        if running >= SAFETY_CAP {
          if next.kind.Create? {
            held, noted := true, true;
          } else {
            if !next.queued {
              next := next.(queued := true);
              noted := true;
            }
            later := true;
          }
        } else {
          running := running + 1;
        }
      }
    }

    // Work that follows other work, or that finds no slot, is held.
    method HoldBack(v: View, action: Action, waiting: Waiting) returns (next: Action, holdStart: bool, later: bool)
      modifies this`running, this`noted
      ensures var h := Held(v, old(running), action, waiting);
        next == h.action && holdStart == h.holdStart && running == h.running && later == h.later && noted == (old(noted) || h.noted)
    {
      ghost var followed := Followed(v, running, action, waiting);
      next, holdStart, later := FollowWork(v, action, waiting);
      if !later {
        SlottedNotes(followed);
        next, holdStart, later := TakeSlot(next, holdStart);
      }
    }

    // Whether the action is the user's to approve; a continue that may go on is counted.
    method MustLeave(v: View, action: Action) returns (left: bool)
      modifies this`continues
      ensures left == LeftToUser(v, old(Value()), action) && continues == Counted(v, old(Value()), action)
    {
      var target := Target(action);
      if target != "" && !MayAct(v, actions, target, v.ours) { return true; }
      if action.kind.Recover? && action.backToReady && !v.builds { return true; }
      if action.kind.Continue? || action.kind.Recover? {
        if Count(continues, action.order) >= MAX_AUTO_CONTINUES { return true; }
        continues := continues[action.order := Count(continues, action.order) + 1];
      }
      if action.kind.Create? && action.item != "" && Claimed(v, Looking(), action.item) { return true; }
      return action.premium;
    }

    method TakeUp(v: View, i: nat)
      requires i < |actions| && DistinctTitles(v.titles)
      modifies this
      ensures Value() == Take(v, old(Value()), i)
    {
      ghost var p := Value();
      var action := actions[i];
      if !action.status.Proposed? || action.autoTried { return; }
      if !InGoal(v, Value(), action) { return; }
      var waiting := LookUpWait(actions + v.elsewhere, action, v.titles, v.states);
      ghost var h := Held(v, running, action, waiting);
      var holdStart, later;
      action, holdStart, later := HoldBack(v, action, waiting);
      if later {
        actions := actions[i := action];
        return;
      }
      Try(v, i, action, holdStart, p, h);
    }

    // p is the pass as it was before the action was held against the work it follows and the slots.
    method Try(v: View, i: nat, held: Action, holdStart: bool, ghost p: Pass, ghost h: Hold)
      requires i < |actions| && Value() == p.(look := p.look.(running := h.running), noted := p.noted || h.noted)
      requires held == h.action && holdStart == h.holdStart
      modifies this
      ensures Value() == Tried(v, p, i, h)
    {
      var action := held.(queued := false, autoTried := true);
      LeavingIgnoresSlots(v, p, Value(), action);
      var left := MustLeave(v, action);
      if left {
        LeaveToUser(i, action);
        return;
      }
      if action.kind.Create? {
        claims := Claim(claims, action.item, "");
      } else if action.kind.Close? {
        closing := closing + {action.order};
      }
      action := action.(holdStart := holdStart);
      actions := actions[i := action];
      handed := handed + [action];
    }

    method LeaveToUser(i: nat, action: Action)
      requires i < |actions|
      modifies this`actions, this`noted
      ensures actions == old(actions)[i := action.(leftForUser := true)] && noted
    {
      actions := actions[i := action.(leftForUser := true)];
      noted := true;
    }

    method TakeAll(v: View)
      requires DistinctTitles(v.titles)
      modifies this
      ensures Value() == Taken(v, old(Value()), Ordered(old(actions)))
    {
      ghost var begun := Value();
      var order := Ordered(actions);
      assert order[..0] == [];
      for k := 0 to |order|
        invariant |actions| == |begun.actions|
        invariant Value() == Taken(v, begun, order[..k])
      {
        TakenNext(v, begun, order, k);
        TakeUp(v, order[k]);
      }
      assert order[..|order|] == order;
    }

    method Settle(v: View, stored: seq<Action>)
      modifies this`actions, this`noted
      ensures actions == AllSettled(v, stored) && noted == AnySettled(v, stored)
    {
      actions, noted := SettleStale(v.goal, stored, v.states, v.blocked, v.canTell, v.now);
      assert actions == AllSettled(v, stored);
    }

    /** Looks at one chat, and says whether it has to be written. */
    method LookAt(v: View, stored: seq<Action>, counted: map<Order, int>) returns (write: bool)
      requires DistinctTitles(v.titles)
      modifies this
      ensures Value() == LookedAt(v, old(Looking()), stored, counted)
      ensures write <==> handed != [] || noted
    {
      continues, handed := counted, [];
      Settle(v, stored);
      if !Active(v.goal) && !v.builds && !Answers(actions) { return noted; }
      Begin(v);
      TakeAll(v);
      return |handed| > 0 || noted;
    }
  }

  lemma TakenNext(v: View, p: Pass, order: seq<nat>, k: nat)
    requires k < |order| && forall j :: 0 <= j < |order| ==> order[j] < |p.actions|
    ensures Taken(v, p, order[..k + 1]) == Take(v, Taken(v, p, order[..k]), order[k])
  {
    assert order[..k + 1][..k] == order[..k];
  }

  lemma SlottedNotes(h: Hold)
    ensures Slotted(h) == Slotted(h.(noted := false)).(noted := h.noted || Slotted(h.(noted := false)).noted)
  {
  }

  lemma LeavingIgnoresSlots(v: View, p: Pass, q: Pass, action: Action)
    requires q.actions == p.actions && q.continues == p.continues
    requires q.look.claims == p.look.claims && q.look.closing == p.look.closing
    ensures LeftToUser(v, q, action) == LeftToUser(v, p, action) && Counted(v, q, action) == Counted(v, p, action)
  {
    assert Claimed(v, q.look, action.item) == Claimed(v, p.look, action.item);
  }

  predicate Creates(action: Action) { IsCreated(action) && action.autoTried && action.order != "" }

  predicate Plans(action: Action) { action.plansEarly && action.status.Applied? && action.order != "" }

  lemma CollectedNext(every: seq<Action>, i: nat)
    requires i < |every|
    ensures CreatedOrders(every[..i + 1]) == CreatedOrders(every[..i]) + if Creates(every[i]) then {every[i].order} else {}
    ensures EarlyPlanners(every[..i + 1]) == EarlyPlanners(every[..i]) + if Plans(every[i]) then {every[i].order} else {}
  {
    var some, more := every[..i], every[..i + 1];
    assert more[i] == every[i] && forall k :: 0 <= k < i ==> more[k] == some[k];
  }

  /** A chat that a look neither hands over from nor notes anything in is left as it was. */
  lemma UnwrittenUnchanged(v: View, look: Look, stored: seq<Action>, continues: map<Order, int>)
    requires LookedAt(v, look, stored, continues).handed == [] && !LookedAt(v, look, stored, continues).noted
    ensures LookedAt(v, look, stored, continues).actions == stored
    ensures LookedAt(v, look, stored, continues).continues == continues
  {
    var actions := AllSettled(v, stored);
    if Active(v.goal) || v.builds || Answers(actions) {
      TakenQuietly(v, Pass(Begun(v, look, actions), actions, continues, [], AnySettled(v, stored)), Ordered(actions));
    }
    assert !AnySettled(v, stored);
    assert forall i :: 0 <= i < |stored| ==> actions[i] == stored[i];
  }

  lemma HeldQuietly(v: View, running: nat, action: Action, waiting: Waiting)
    requires Held(v, running, action, waiting).later && !Held(v, running, action, waiting).noted
    ensures Held(v, running, action, waiting).action == action
  {
    var f := Followed(v, running, action, waiting);
    assert f.noted || f.action == action;
    assert f.noted ==> Slotted(f).noted;
  }

  lemma TriedSpeaks(v: View, p: Pass, i: nat, h: Hold)
    requires i < |p.actions|
    ensures Tried(v, p, i, h).handed != [] || Tried(v, p, i, h).noted
  {
    if !Tried(v, p, i, h).noted { assert |Tried(v, p, i, h).handed| == |p.handed| + 1; }
  }

  lemma TakeQuietly(v: View, p: Pass, i: nat)
    requires i < |p.actions| && Take(v, p, i).handed == [] && !Take(v, p, i).noted
    ensures Take(v, p, i).actions == p.actions && Take(v, p, i).continues == p.continues
    ensures p.handed == [] && !p.noted
  {
    var action := p.actions[i];
    if !Skips(v, p, action) {
      var h := Held(v, p.look.running, action, WaitOf(v, p, action));
      if h.later { HeldQuietly(v, p.look.running, action, WaitOf(v, p, action)); } else { TriedSpeaks(v, p, i, h); }
    }
  }

  lemma {:induction false} TakenQuietly(v: View, p: Pass, order: seq<nat>)
    requires forall k :: 0 <= k < |order| ==> order[k] < |p.actions|
    requires Taken(v, p, order).handed == [] && !Taken(v, p, order).noted
    ensures Taken(v, p, order).actions == p.actions && Taken(v, p, order).continues == p.continues
    ensures p.handed == [] && !p.noted
  {
    if order != [] {
      TakeQuietly(v, Taken(v, p, order[..|order| - 1]), order[|order| - 1]);
      TakenQuietly(v, p, order[..|order| - 1]);
    }
  }
}
