/** A run in which a vision item gets two open work orders: a create makes one and then fails, and
    no look finds it. */
module AutopilotHalfMade {
  import opened Options
  import opened Proposals
  import opened Autopilot
  import opened AutopilotClaims
  import opened AutopilotRuns
  import opened AutopilotSafety
  import opened AutopilotSlips

  // A create that autopilot may take up and start at once where it builds everything.
  predicate MayMake(create: Action) {
    && create.kind.Create? && create.status.Proposed? && !create.autoTried && !create.premium && !create.brief && !create.holdStart
    && create.item != "" && create.order == "" && create.after == "" && create.id.Card?
  }

  function Making(create: Action): Action { create.(queued := false, autoTried := true) }

  lemma TakeCreate(v: View, p: Pass, i: nat)
    requires i < |p.actions| && MayMake(p.actions[i]) && v.builds
    requires !Claimed(v, p.look, p.actions[i].item) && p.look.running < SAFETY_CAP
    ensures var q := Take(v, p, i); q.actions == p.actions[i := Making(p.actions[i])] && q.handed == p.handed + [Making(p.actions[i])]
  {
    var create := p.actions[i];
    assert InGoal(v, p, create) && !Skips(v, p, create);
    assert WaitOf(v, p, create) == Free;
    var h := Held(v, p.look.running, create, Free);
    assert h.action == create && !h.holdStart && !h.later;
    assert !LeftToUser(v, p, create.(queued := false, autoTried := true));
  }

  // A view without a goal, where autopilot builds everything and nothing runs.
  function BuildsOn(w: World): View { View(true, {}, {}, w.titles, w.states, [], map[], None, [], {}, {}, false, 0) }

  // Without a goal only applied creates claim an item.
  lemma NoneClaimed(v: View, actions: seq<Action>, item: Item)
    requires v.goal.None? && v.elsewhere == [] && forall a :: a in actions ==> !IsCreated(a)
    ensures !Claimed(v, Begun(v, NOTHING_SEEN, actions), item)
  {
    forall order ensures order !in ClaimsOf(Begun(v, NOTHING_SEEN, actions).claims, item) {
      BegunClaims(v, NOTHING_SEEN, actions, item, order);
    }
    var claims := ClaimsOf(Begun(v, NOTHING_SEEN, actions).claims, item);
    assert forall i :: 0 <= i < |claims| ==> claims[i] in claims;
  }

  ghost predicate HandsCreate(v: View, stored: seq<Action>, actions: seq<Action>, create: Action) {
    var p := LookedAt(v, NOTHING_SEEN, stored, map[]);
    p.actions == actions && p.handed == [Making(create)]
  }

  lemma LookAtOne(w: World, create: Action)
    requires MayMake(create)
    ensures HandsCreate(BuildsOn(w), [create], [Making(create)], create)
  {
    var v, stored := BuildsOn(w), [create];
    assert stored[..0] == [] && AllSettled(v, stored) == AllSettled(v, []) + [create];
    assert Sorted([], true) == [] && Sorted([], false) == [] && Ordered(stored) == [0];
    NoneClaimed(v, stored, create.item);
    var p := Pass(Begun(v, NOTHING_SEEN, stored), stored, map[], [], AnySettled(v, stored));
    assert [0][..0] == [] && Taken(v, p, [0]) == Take(v, p, 0);
    TakeCreate(v, p, 0);
  }

  lemma LookAtSecond(w: World, first: Action, create: Action)
    requires MayMake(create) && first.kind.Create? && first.status.Proposed? && first.autoTried && first.order == ""
    ensures HandsCreate(BuildsOn(w), [first, create], [first, Making(create)], create)
  {
    var v, stored := BuildsOn(w), [first, create];
    SettledTwo(v, first, create);
    SortedTwo(first, create);
    NoneClaimed(v, stored, create.item);
    var p := Pass(Begun(v, NOTHING_SEEN, stored), stored, map[], [], AnySettled(v, stored));
    assert Skips(v, p, first);
    TakenTwo(v, p);
    TakeCreate(v, p, 1);
  }

  // A look at the one chat there is, from its beginning to its end.
  lemma LooksAgain(before: Run, a: string, stored: seq<Action>, actions: seq<Action>, create: Action) returns (run: Run)
    requires before.Valid()
    requires var w := before.worlds[|before.steps|];
      w.ongoing.None? && w.queue == [] && w.chats == map[a := stored] && HandsCreate(BuildsOn(w), stored, actions, create)
    ensures run.Valid() && run.worlds[0] == before.worlds[0]
    ensures var w, u := before.worlds[|before.steps|], run.worlds[|run.steps|];
      u == w.(chats := map[a := actions], queue := [Making(create)], given := u.given, follows := u.follows)
  {
    var w := before.worlds[|before.steps|];
    var begun, v := Begun1(w), BuildsOn(w);
    var looked := Looked(begun, a, v, map[]);
    assert w.chats[a := actions] == map[a := actions];
    run := OneMore(before, BeginLook, begun);
    run := OneMore(run, LookAtChat(a, v, map[]), looked);
    run := OneMore(run, EndLook, looked.(ongoing := None));
  }

  // What was handed over makes its work order and starts it.
  lemma Makes(before: Run, a: string, i: nat, create: Action, order: Order, how: How) returns (run: Run)
    requires before.Valid() && MayMake(create) && order != "" && !how.Refused? && (how.Partly? ==> how.begun)
    requires var w := before.worlds[|before.steps|];
      && w.ongoing.None? && w.queue == [Making(create)] && a in w.chats && i < |w.chats[a]| && w.chats[a][i] == Making(create)
      && order !in w.states && order !in w.made
    ensures run.Valid() && run.worlds[0] == before.worlds[0]
    ensures var w, u := before.worlds[|before.steps|], run.worlds[|run.steps|];
      && u.ongoing.None? && u.queue == [] && u.states == w.states[order := Planning] && u.made == w.made[order := create.item]
      && u.chats == w.chats[a := w.chats[a][i := AppliedCard(Making(create), true, order, how)]]
  {
    var w := before.worlds[|before.steps|];
    var done := AppliedCard(Making(create), true, order, how);
    assert w.queue[0] == Making(create) && w.queue[1..] == [];
    assert w.chats[a][i := done] + [] == w.chats[a][i := done];
    run := OneMore(before, Apply(a, i, order, how), AppliedTo(w, a, i, order, how));
  }

  // The assistant proposes once more.
  lemma ProposesAgain(before: Run, a: string, first: Action, again: Action) returns (run: Run)
    requires before.Valid() && again.id != first.id && again.id.Card?
    requires var w := before.worlds[|before.steps|]; w.queue == [] && w.chats == map[a := [first]]
    ensures run.Valid() && run.worlds[0] == before.worlds[0]
    ensures var w, u := before.worlds[|before.steps|], run.worlds[|run.steps|];
      u == w.(chats := map[a := [first, again]], started := u.started)
  {
    var w := before.worlds[|before.steps|];
    var chats := map[a := [first, again]];
    StartsUnique(a, first, again);
    assert Kept(w.chats, chats) by {
      forall c, i, id | HoldsAt(w.chats, c, i, id) ensures exists j :: HoldsAt(chats, c, j, id) && Same(w.chats[c][i], chats[c][j]) {
        assert HoldsAt(chats, c, 0, id) && Same(w.chats[c][i], chats[c][0]);
      }
    }
    forall c, i, id | HoldsAt(chats, c, i, id) && id.StartOf? ensures exists d, j :: HoldsAt(w.chats, d, j, id) {
      assert HoldsAt(w.chats, a, 0, id);
    }
    run := OneMore(before, Others(chats, w.titles, w.states), w.(chats := chats, started := UnderWay(w.started, w.states)));
  }

  /** Where autopilot builds everything without a goal, a create that fails once it made its work
      order leaves that one unfound: the next create for the item makes another, and both are open. */
  lemma HalfMadeSlip(w: World, a: string, create: Action, again: Action, o: Order, p: Order) returns (run: Run)
    requires Init(w) && w.chats == map[a := [create]] && MayMake(create) && MayMake(again) && again.id != create.id && again.item == create.item
    requires o != "" && p != "" && o != p && o !in w.states && p !in w.states
    ensures run.Valid() && run.worlds[0] == w && TwoOpen(run.worlds[|run.steps|], o, p)
  {
    run := HalfMade(w, a, create, o);
    var left := LeftCard(Making(create));
    run := ProposesAgain(run, a, left, again);
    LookAtSecond(run.worlds[|run.steps|], left, again);
    run := LooksAgain(run, a, [left, again], [left, Making(again)], again);
    run := Makes(run, a, 1, again, p, Wholly(2));
  }

  lemma HalfMade(w: World, a: string, create: Action, o: Order) returns (run: Run)
    requires Init(w) && w.chats == map[a := [create]] && MayMake(create) && o != "" && o !in w.states
    ensures run.Valid() && run.worlds[0] == w
    ensures var u := run.worlds[|run.steps|];
      && u.ongoing.None? && u.queue == [] && u.chats == map[a := [LeftCard(Making(create))]]
      && u.states == w.states[o := Planning] && u.made == map[o := create.item]
  {
    run := Run([w], []);
    LookAtOne(w, create);
    run := LooksAgain(run, a, [create], [Making(create)], create);
    assert [Making(create)][0 := LeftCard(Making(create))] == [LeftCard(Making(create))];
    run := Makes(run, a, 0, create, o, Partly(1, true));
    assert map[a := [Making(create)]][a := [LeftCard(Making(create))]] == map[a := [LeftCard(Making(create))]];
  }
}
