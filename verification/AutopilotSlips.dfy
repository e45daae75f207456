/** Two runs in which a work order is implemented before the work its start followed is finished:
    where two work orders share a title, and where an older start of it settles. */
module AutopilotSlips {
  import opened Options
  import opened Proposals
  import opened Autopilot
  import opened AutopilotClaims
  import opened AutopilotWaits
  import opened AutopilotRuns
  import opened AutopilotSafety
  import opened AutopilotStarts
  import opened AutopilotReleases

  lemma SortedTwo(first: Action, second: Action)
    requires !first.kind.Close? && !second.kind.Close?
    ensures Ordered([first, second]) == [0, 1]
  {
    assert [first, second][..1] == [first] && [first][..0] == [];
    assert Sorted([], true) == [] && Sorted([], false) == [];
    assert [first][0] == first && Sorted([first], true) == [] && Sorted([first], false) == [] + [0];
  }

  lemma SettledTwo(v: View, first: Action, second: Action)
    ensures AllSettled(v, [first, second]) == [
      Settled(v.goal, first, v.states, v.blocked, v.canTell, v.now), Settled(v.goal, second, v.states, v.blocked, v.canTell, v.now)]
  {
  }

  lemma TakenTwo(v: View, p: Pass)
    requires |p.actions| == 2
    ensures |Take(v, p, 0).actions| == 2
    ensures Taken(v, p, [0, 1]) == Take(v, Take(v, p, 0), 1)
  {
    assert [0, 1][..1] == [0] && [0][..0] == [];
    assert Taken(v, p, [0]) == Take(v, p, 0);
  }

  // A start of ready work may be autopilot's, unless it asks for a premium model, and plans first.
  predicate MayTry(v: View, start: Action) {
    && v.builds && v.goal.None? && !v.canTell && start.order != "" && start.order in v.ours && Lookup(v.states, start.order) == Some(Ready)
    && start.kind.Start? && start.status.Proposed? && !start.autoTried && start.steps == "full"
  }

  predicate MayStart(v: View, start: Action) { MayTry(v, start) && !start.premium }

  function Early(start: Action): Action { start.(queued := false, plansEarly := true, autoTried := true, holdStart := false) }

  lemma TakeStart(v: View, p: Pass, i: nat, x: Order)
    requires i < |p.actions| && MayStart(v, p.actions[i]) && Lookup(v.states, x) == Some(Implementing)
    requires WaitOf(v, p, p.actions[i]) == OnOrder(x)
    ensures var q := Take(v, p, i); q.actions == p.actions[i := Early(p.actions[i])] && q.handed == p.handed + [Early(p.actions[i])]
  {
    var start := p.actions[i];
    assert InGoal(v, p, start) && !Skips(v, p, start);
    assert PlansFirst(v, start) && MayPlanEarly(v, start, OnOrder(x));
    var h := Held(v, p.look.running, start, OnOrder(x));
    assert h.action == start.(plansEarly := true) && !h.later && !h.holdStart;
    assert !LeftToUser(v, p, h.action.(queued := false, autoTried := true));
  }

  // One that asks for a premium model is left to the user, as it would have planned.
  function LeftEarly(start: Action): Action { start.(queued := false, plansEarly := true, autoTried := true, leftForUser := true) }

  lemma TakePremium(v: View, p: Pass, i: nat, x: Order)
    requires i < |p.actions| && MayTry(v, p.actions[i]) && p.actions[i].premium && Lookup(v.states, x) == Some(Implementing)
    requires WaitOf(v, p, p.actions[i]) == OnOrder(x)
    ensures var q := Take(v, p, i); q.actions == p.actions[i := LeftEarly(p.actions[i])] && q.handed == p.handed
  {
    var start := p.actions[i];
    assert InGoal(v, p, start) && !Skips(v, p, start);
    assert PlansFirst(v, start) && MayPlanEarly(v, start, OnOrder(x));
    var h := Held(v, p.look.running, start, OnOrder(x));
    assert h.action == start.(plansEarly := true) && !h.later;
    assert LeftToUser(v, p, h.action.(queued := false, autoTried := true));
  }

  // A look hands the second card of a chat over, and leaves the first so.
  ghost predicate HandsStart(v: View, first: Action, left: Action, start: Action) {
    var p := LookedAt(v, NOTHING_SEEN, [first, start], map[]);
    p.actions == [left, Early(start)] && p.handed == [Early(start)]
  }

  // Two starts of ready work, by the IDs of the work they follow; the first is the user's to approve.
  lemma LookAtBoth(v: View, prior: Action, start: Action)
    requires MayStart(v, start) && MayTry(v, prior) && prior.premium
    requires start.after != "" && Lookup(v.states, start.after) == Some(Implementing)
    requires prior.after != "" && Lookup(v.states, prior.after) == Some(Implementing)
    ensures HandsStart(v, prior, LeftEarly(prior), start)
  {
    var stored := [prior, start];
    SettledTwo(v, prior, start);
    SortedTwo(prior, start);
    var p := Pass(Begun(v, NOTHING_SEEN, stored), stored, map[], [], AnySettled(v, stored));
    TakenTwo(v, p);
    TakePremium(v, p, 0, prior.after);
    TakeStart(v, Take(v, p, 0), 1, start.after);
  }

  // One proposed start of ready work, behind a card that a look passes over.
  lemma LookAtStart(v: View, first: Action, start: Action, x: Order)
    requires MayStart(v, start) && Lookup(v.states, x) == Some(Implementing)
    requires !first.kind.Close? && (!first.status.Proposed? || first.autoTried) && !NotNeeded(v.goal, first, v.states, v.blocked, v.canTell)
    requires WaitsFor([first, start] + v.elsewhere, start, v.titles, v.states) == OnOrder(x)
    ensures HandsStart(v, first, first, start)
  {
    var stored := [first, start];
    SettledTwo(v, first, start);
    SortedTwo(first, start);
    var p := Pass(Begun(v, NOTHING_SEEN, stored), stored, map[], [], AnySettled(v, stored));
    assert Skips(v, p, first);
    TakenTwo(v, p);
    TakeStart(v, p, 1, x);
  }

  // The start handed over, and then applied.
  function StartedAt(start: Action, now: int): Action { AppliedCard(Early(start), false, "", Wholly(now)) }

  lemma EarlyApplies(w: World, a: string, i: nat, start: Action, now: int)
    requires HoldsAt(w.chats, a, i, start.id) && w.chats[a][i] == Early(start) && w.queue == [Early(start)] && w.ongoing.None?
    requires start.kind.Start? && start.status.Proposed? && Lookup(w.states, start.order) == Some(Ready)
    ensures Next(w, Apply(a, i, "", Wholly(now)), w.(
      chats := w.chats[a := w.chats[a][i := StartedAt(start, now)]], queue := [],
      states := w.states[start.order := Planning], started := w.started[start.order := start.id]))
  {
    assert w.queue[0] == Early(start) && w.queue[1..] == [];
    assert w.chats[a][i := StartedAt(start, now)] + [] == w.chats[a][i := StartedAt(start, now)];
  }

  lemma OneFollows(v: View, actions: seq<Action>, given: Action)
    ensures FollowedBy(v, actions, [given]) == map[given.id := Known(v.states, Follows(actions + v.elsewhere, given, v.titles, v.states))]
  {
    assert [given][..0] == [] && FollowedBy(v, actions, []) == map[];
  }

  lemma Looks(w: World, a: string, v: View, first: Action, left: Action, start: Action, x: Order)
    requires w.ongoing.Some? && w.ongoing.value.look == NOTHING_SEEN && a in w.chats && w.chats[a] == [first, start]
    requires HandsStart(v, first, left, start) && x in v.states
    requires Follows([left, Early(start)] + v.elsewhere, Early(start), v.titles, v.states) == TheOrder(x)
    ensures var u := Looked(w, a, v, map[]);
      && u == w.(chats := w.chats[a := [left, Early(start)]], ongoing := u.ongoing, queue := w.queue + [Early(start)],
                 given := u.given, follows := w.follows[start.id := TheOrder(x)])
      && u.ongoing.Some?
  {
    OneFollows(v, [left, Early(start)], Early(start));
  }

  lemma EarlyFollows(stored: seq<Action>, elsewhere: seq<Action>, first: Action, start: Action, titles: map<Order, string>, states: map<Order, State>)
    requires stored == [first, start] && first.id != start.id
    ensures Follows([first, Early(start)] + elsewhere, Early(start), titles, states) == Follows(stored + elsewhere, start, titles, states)
  {
    FoundFirst([first, Early(start)], elsewhere, Early(start));
    FoundFirst([first, start], elsewhere, start);
    assert [first, Early(start)][1..] == [Early(start)] && [Early(start)][1..] == [] && [first, start][1..] == [start] && [start][1..] == [];
    FindsNotItself(start);
    FindsNotItself(Early(start));
    FindSame(elsewhere, start, Early(start));
  }

  lemma FindsNotItself(action: Action)
    ensures FindFollowed([action], action) == None
  {
    assert [action][1..] == [];
  }

  lemma {:induction false} FindSame(actions: seq<Action>, one: Action, other: Action)
    requires one.id == other.id && one.after == other.after
    ensures FindFollowed(actions, one) == FindFollowed(actions, other)
  {
    if actions != [] { FindSame(actions[1..], one, other); }
  }

  // A start that autopilot takes up where it builds everything.
  function SeenBy(w: World, start: Action, elsewhere: seq<Action>): View {
    View(true, {start.order}, {}, w.titles, w.states, [], map[], None, elsewhere, {}, {}, false, 0)
  }

  predicate FreshStart(w: World, start: Action) { MayStart(SeenBy(w, start, []), start) }

  ghost function Begun1(w: World): World { w.(ongoing := Some(Ongoing(NOTHING_SEEN, w.titles, w.states, map[], 0))) }

  ghost function Looked1(w: World, a: string, start: Action, elsewhere: seq<Action>): World {
    if a in w.chats then Looked(Begun1(w), a, SeenBy(w, start, elsewhere), map[]) else w
  }

  function Started1(w: World, looked: World, a: string, left: Action, start: Action): World {
    looked.(ongoing := None, chats := w.chats[a := [left, StartedAt(start, 1)]], queue := [],
            states := w.states[start.order := Planning], started := map[start.order := start.id])
  }

  // The first steps of a run: a look hands the second card of a chat over to plan early, and it
  // is applied.
  lemma StartsEarly(w: World, a: string, first: Action, left: Action, start: Action, elsewhere: seq<Action>, x: Order) returns (run: Run)
    requires Init(w) && a in w.chats && w.chats[a] == [first, start] && FreshStart(w, start)
    requires HandsStart(SeenBy(w, start, elsewhere), first, left, start) && x in w.states
    requires Follows([left, Early(start)] + elsewhere, Early(start), w.titles, w.states) == TheOrder(x)
    requires Reads(Begun1(w), a, SeenBy(w, start, elsewhere))
    ensures run.Valid() && |run.steps| == 4 && run.worlds[0] == w
    ensures var u := run.worlds[4];
      && u.chats == w.chats[a := [left, StartedAt(start, 1)]] && u.states == w.states[start.order := Planning] && u.titles == w.titles
      && u.queue == [] && u.ongoing.None? && u.started == map[start.order := start.id] && u.follows == map[start.id := TheOrder(x)]
  {
    var looked := Looked1(w, a, start, elsewhere);
    Looks(Begun1(w), a, SeenBy(w, start, elsewhere), first, left, start, x);
    run := LooksOnce(w, a, start, elsewhere);
    RestApplies(w, looked.(ongoing := None), a, left, start);
    run := OneMore(run, Apply(a, 1, "", Wholly(1)), Started1(w, looked, a, left, start));
  }

  lemma LooksOnce(w: World, a: string, start: Action, elsewhere: seq<Action>) returns (run: Run)
    requires Init(w) && a in w.chats && Reads(Begun1(w), a, SeenBy(w, start, elsewhere)) && Looked1(w, a, start, elsewhere).ongoing.Some?
    ensures run.Valid() && |run.steps| == 3 && run.worlds[0] == w
    ensures run.worlds[3] == Looked1(w, a, start, elsewhere).(ongoing := None)
  {
    var looked := Looked1(w, a, start, elsewhere);
    run := Run([w, Begun1(w)], [BeginLook]);
    run := OneMore(run, LookAtChat(a, SeenBy(w, start, elsewhere), map[]), looked);
    run := OneMore(run, EndLook, looked.(ongoing := None));
  }

  lemma OneMore(run: Run, step: Step, w: World) returns (longer: Run)
    requires run.Valid() && Next(run.worlds[|run.steps|], step, w)
    ensures longer.Valid() && longer == Run(run.worlds + [w], run.steps + [step])
  {
    longer := Run(run.worlds + [w], run.steps + [step]);
    forall n {:trigger longer.steps[n]} | 0 <= n < |longer.steps| ensures Next(longer.worlds[n], longer.steps[n], longer.worlds[n + 1]) {
      if n < |run.steps| { assert run.steps[n] == longer.steps[n]; }
    }
  }

  lemma RestApplies(w: World, rested: World, a: string, left: Action, start: Action)
    requires a in w.chats && rested.ongoing.None? && rested.queue == [Early(start)] && rested.started == map[] && FreshStart(w, start)
    requires rested.chats == w.chats[a := [left, Early(start)]] && rested.states == w.states
    ensures Next(rested, Apply(a, 1, "", Wholly(1)), Started1(w, rested, a, left, start))
  {
    assert HoldsAt(rested.chats, a, 1, start.id);
    EarlyApplies(rested, a, 1, start, 1);
    assert [left, Early(start)][1 := StartedAt(start, 1)] == [left, StartedAt(start, 1)];
    assert rested.chats[a := [left, StartedAt(start, 1)]] == w.chats[a := [left, StartedAt(start, 1)]];
  }

  /******* Two work orders of one title *******/

  lemma TwinRead(chats: Chats, a: string, b: string, maker: Action, started: Action, twin: Action)
    requires a != b && chats == map[a := [maker, started], b := [twin]]
    ensures Reading(chats, [b, a]) && Together(chats, [b, a]) == [twin, maker, started]
  {
    assert [b, a][1..] == [a] && [a][1..] == [];
    assert Together(chats, [a]) == [maker, started] + [];
  }

  lemma TwinReleases(w: World, a: string, b: string, maker: Action, started: Action, twin: Action)
    requires a != b && w.chats == map[a := [maker, started], b := [twin]]
    requires started.kind.Start? && IsEarly(started, started.order) && !maker.plansEarly && !twin.plansEarly
    requires Matches(started, twin) && twin.status.Applied? && !Unfinished(w.states, twin.order) && started.after !in w.states
    requires Lookup(w.states, started.order) == Some(Planning)
    ensures Releases(w, started.order, [b, a], [])
  {
    TwinRead(w.chats, a, b, maker, started, twin);
    assert w.chats[a][1] == started;
    assert NewestStart(w.chats, started.order, a, 1);
    NewestIsLatest(w.chats, [b, a], started.order, a, 1);
    assert FindFollowed([twin, maker, started], started) == Some(twin);
  }

  lemma TwinFollows(w: World, maker: Action, start: Action, twin: Action)
    requires FreshStart(w, start) && start.after !in w.states && start.after != ""
    requires Matches(start, maker) && IsCreated(maker) && Lookup(w.states, maker.order) == Some(Implementing)
    ensures HandsStart(SeenBy(w, start, [twin]), maker, maker, start)
    ensures Follows([maker, Early(start)] + [twin], Early(start), w.titles, w.states) == TheOrder(maker.order)
  {
    assert [maker, start] + [twin] == [maker] + [start, twin] && FindFollowed([maker] + [start, twin], start) == Some(maker);
    LookAtStart(SeenBy(w, start, [twin]), maker, start, maker.order);
    EarlyFollows([maker, start], [twin], maker, start, w.titles, w.states);
  }

  lemma TwinStarts(w: World, a: string, b: string, maker: Action, start: Action, twin: Action) returns (run: Run)
    requires Init(w) && a != b && w.chats == map[a := [maker, start], b := [twin]] && FreshStart(w, start) && start.after !in w.states
    requires start.after != "" && Matches(start, maker) && IsCreated(maker) && Lookup(w.states, maker.order) == Some(Implementing)
    ensures run.Valid() && |run.steps| == 4 && run.worlds[0] == w
    ensures var u := run.worlds[4];
      && u.chats == map[a := [maker, StartedAt(start, 1)], b := [twin]] && u.states == w.states[start.order := Planning]
      && u.titles == w.titles && u.started == map[start.order := start.id] && u.follows == map[start.id := TheOrder(maker.order)]
  {
    TwinFollows(w, maker, start, twin);
    run := StartsEarly(w, a, maker, maker, start, [twin], maker.order);
  }

  /** Where two chats made work orders of one title, a start that follows the one under way lets its
      work pass once the other is finished, when that one's chat was used last. */
  lemma TwoAlikeSlip(w: World, a: string, b: string, maker: Action, start: Action, twin: Action) returns (run: Run)
    requires Init(w) && a != b && w.chats == map[a := [maker, start], b := [twin]] && FreshStart(w, start) && start.after !in w.states
    requires Matches(start, maker) && IsCreated(maker) && !maker.plansEarly && Lookup(w.states, maker.order) == Some(Implementing)
    requires Matches(start, twin) && IsCreated(twin) && !twin.plansEarly && Lookup(w.states, twin.order) == Some(Completed) && start.after != ""
    ensures run.Valid() && |run.steps| == 5 && run.worlds[0] == w
    ensures var u := run.worlds[5];
      && PastPlanning(u.states, start.order) && start.order in u.started && u.started[start.order] in u.follows
      && u.follows[u.started[start.order]] == TheOrder(maker.order) && Unfinished(u.states, maker.order)
  {
    run := TwinStarts(w, a, b, maker, start, twin);
    var u := run.worlds[4];
    TwinReleases(u, a, b, maker, StartedAt(start, 1), twin);
    run := OneMore(run, Release(start.order, [b, a], []), u.(states := u.states[start.order := Implementing]));
  }

  /******* An older start that settles *******/

  function SettledAt(prior: Action, now: int): Action { Settled(None, prior, map[prior.order := Planning], {}, false, now) }

  lemma OtherFinishes(u: World, states: map<Order, State>, x: Order)
    requires UniqueAll(u.chats) && u.queue == [] && states == u.states[x := Completed] && Lookup(u.states, x) == Some(Implementing)
    requires forall order :: order in u.started ==> order != x && order in u.states && !u.states[order].Draft? && !u.states[order].Ready?
    ensures Next(u, Others(u.chats, u.titles, states), u.(states := states))
  {
    assert Kept(u.chats, u.chats) by {
      forall c, i, id | HoldsAt(u.chats, c, i, id) ensures exists j :: HoldsAt(u.chats, c, j, id) && Same(u.chats[c][i], u.chats[c][j]) {
        assert Same(u.chats[c][i], u.chats[c][i]);
      }
    }
    assert UnderWay(u.started, states) == u.started;
  }

  // A look where autopilot is off only settles: the older start, which its work is past.
  lemma OldSettles(u: World, a: string, prior: Action, started: Action, v: View)
    requires u.chats == map[a := [prior, started]] && u.ongoing.Some? && u.ongoing.value.look == NOTHING_SEEN && !v.builds && v.goal.None? && !v.canTell
    requires prior.kind.Start? && prior.status.Proposed? && Lookup(v.states, prior.order) == Some(Planning) && started.kind.Start? && started.status.Applied?
    requires prior.order != ""
    ensures Looked(u, a, v, map[]).chats == map[a := [SettledAt(prior, v.now), started]]
    ensures var w := Looked(u, a, v, map[]); w == u.(chats := w.chats, ongoing := w.ongoing) && w.ongoing.Some?
  {
    var stored := [prior, started];
    SettledTwo(v, prior, started);
    var settled := AllSettled(v, stored);
    assert settled == [SettledAt(prior, v.now), started];
    var p := LookedAt(v, NOTHING_SEEN, stored, map[]);
    assert !Answers(settled) && p == Pass(NOTHING_SEEN, settled, map[], [], AnySettled(v, stored));
    assert u.queue + [] == u.queue && u.given + IdsOf([]) == u.given;
  }

  lemma OldReleases(w: World, a: string, prior: Action, started: Action)
    requires w.chats == map[a := [prior, started]] && IsEarly(prior, prior.order) && prior.updatedAt > started.updatedAt
    requires prior.after in w.states && !Unfinished(w.states, prior.after) && Lookup(w.states, prior.order) == Some(Planning)
    ensures Releases(w, prior.order, [a], [])
  {
    assert [a][1..] == [] && Together(w.chats, [a]) == [prior, started] + [];
    assert w.chats[a][0] == prior && Reading(w.chats, [a]);
    assert NewestStart(w.chats, prior.order, a, 0);
    NewestIsLatest(w.chats, [a], prior.order, a, 0);
  }

  /** Where an older start of the same work asks for a premium model, a look leaves it to the user
      and hands the newer one over; it settles once that one is applied, and takes over: the work
      passes when what the older start follows is finished. */
  lemma OldStartSlips(w: World, a: string, prior: Action, start: Action) returns (run: Run)
    requires Init(w) && w.chats == map[a := [prior, start]] && FreshStart(w, start) && start.after != "" && start.after != prior.after
    requires MayTry(SeenBy(w, prior, []), prior) && prior.premium && prior.order == start.order && prior.id != start.id
    requires Lookup(w.states, prior.after) == Some(Implementing) && Lookup(w.states, start.after) == Some(Implementing) && prior.after != ""
    ensures run.Valid() && run.worlds[0] == w
    ensures var u := run.worlds[|run.steps|];
      && PastPlanning(u.states, start.order) && start.order in u.started && u.started[start.order] in u.follows
      && u.follows[u.started[start.order]] == TheOrder(start.after) && Unfinished(u.states, start.after)
  {
    var left := LeftEarly(prior);
    LookAtBoth(SeenBy(w, start, []), prior, start);
    run := StartsEarly(w, a, prior, left, start, [], start.after);
    var u := run.worlds[4];
    var started, states := StartedAt(start, 1), u.states[prior.after := Completed];
    assert u.chats == map[a := [left, started]];
    StartsUnique(a, left, started);
    OtherFinishes(u, states, prior.after);
    var later := u.(states := states);
    run := OneMore(run, Others(u.chats, u.titles, states), later);
    run := SettlesAndReleases(run, later, a, left, started);
  }

  lemma StartsUnique(a: string, prior: Action, started: Action)
    requires prior.id != started.id
    ensures UniqueAll(map[a := [prior, started]])
  {
  }

  lemma SettlesAndReleases(before: Run, w: World, a: string, prior: Action, started: Action) returns (run: Run)
    requires before.Valid() && before.worlds[|before.steps|] == w && w.queue == [] && w.ongoing.None?
    requires w.chats == map[a := [prior, started]] && prior.kind.Start? && prior.status.Proposed? && prior.plansEarly && prior.after != ""
    requires started.kind.Start? && started.status.Applied? && started.updatedAt < 2 && Lookup(w.states, prior.order) == Some(Planning) && prior.order != ""
    requires prior.after in w.states && !Unfinished(w.states, prior.after)
    ensures run.Valid() && run.worlds[0] == before.worlds[0]
    ensures var u := run.worlds[|run.steps|];
      u.states == w.states[prior.order := Implementing] && u.started == w.started && u.follows == w.follows
  {
    var v := View(false, {}, {}, w.titles, w.states, [], map[], None, [], {}, {}, false, 2);
    var begun := Begun1(w);
    OldSettles(begun, a, prior, started, v);
    var looked := Looked(begun, a, v, map[]);
    var rested := looked.(ongoing := None);
    OldReleases(rested, a, SettledAt(prior, 2), started);
    run := OneMore(before, BeginLook, begun);
    run := OneMore(run, LookAtChat(a, v, map[]), looked);
    run := OneMore(run, EndLook, rested);
    run := OneMore(run, Release(prior.order, [a], []), rested.(states := rested.states[prior.order := Implementing]));
  }
}
