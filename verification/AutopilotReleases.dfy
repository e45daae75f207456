/** A work order that autopilot started goes past its planning only once the work its start
    followed is finished, over every run; and exactly when a release could let it pass before. */
module AutopilotReleases {
  import opened Options
  import opened Proposals
  import opened Autopilot
  import opened AutopilotClaims
  import opened AutopilotWaits
  import opened AutopilotRuns
  import opened AutopilotSafety
  import opened AutopilotStarts

  /******* The chats read together *******/

  lemma {:induction false} TogetherHas(chats: Chats, names: seq<string>, a: Action)
    ensures a in Together(chats, names) <==> exists c :: c in names && c in chats && a in chats[c]
  {
    if names != [] {
      TogetherHas(chats, names[1..], a);
      assert forall c :: c in names <==> c == names[0] || c in names[1..];
    }
  }

  // The newest of the starts by which a work order plans early.
  predicate StartsEarlyFor(card: Action, order: Order) { card.plansEarly && card.order == order && card.status == Applied }

  ghost predicate NewestStart(chats: Chats, order: Order, c: string, i: int) {
    && c in chats && 0 <= i < |chats[c]| && StartsEarlyFor(chats[c][i], order)
    && forall d, j :: d in chats && 0 <= j < |chats[d]| && StartsEarlyFor(chats[d][j], order) && (d != c || j != i) ==>
         chats[d][j].updatedAt < chats[c][i].updatedAt
  }

  lemma NewestIsLatest(chats: Chats, names: seq<string>, order: Order, c: string, i: int)
    requires Reading(chats, names) && NewestStart(chats, order, c, i)
    ensures LatestEarly(Together(chats, names), order) == Some(chats[c][i])
  {
    var all := Together(chats, names);
    LatestIsLatest(all, order);
    TogetherHas(chats, names, chats[c][i]);
    assert LatestEarly(all, order).Some?;
    var latest := LatestEarly(all, order).value;
    TogetherHas(chats, names, latest);
    var d :| d in names && d in chats && latest in chats[d];
    var j :| 0 <= j < |chats[d]| && chats[d][j] == latest;
  }

  predicate Matches(action: Action, other: Action) {
    && other.id != action.id && EqualFold(other.title, action.after)
    && ((other.status.Applied? && other.order != "") || other.status.Proposed?)
  }

  lemma {:induction false} FoundMatches(actions: seq<Action>, action: Action)
    ensures var found := FindFollowed(actions, action);
      if found.Some? then found.value in actions && Matches(action, found.value)
      else forall other :: other in actions ==> !Matches(action, other)
  {
    if actions != [] && !Matches(action, actions[0]) {
      FoundMatches(actions[1..], action);
    }
  }

  lemma {:induction false} FoundFirst(a: seq<Action>, b: seq<Action>, action: Action)
    ensures FindFollowed(a + b, action) == if FindFollowed(a, action).Some? then FindFollowed(a, action) else FindFollowed(b, action)
  {
    if a == [] {
      assert a + b == b;
    } else {
      assert (a + b)[1..] == a[1..] + b;
      FoundFirst(a[1..], b, action);
    }
  }

  /******* What a name names *******/

  ghost predicate CardNames(chats: Chats, start: Action, order: Order) {
    exists c, i :: c in chats && 0 <= i < |chats[c]| && Matches(start, chats[c][i]) && chats[c][i].status.Applied? && chats[c][i].order == order
  }

  // A name is a work order's title, or that of an applied card other than the start's own.
  ghost predicate Names(w: World, start: Action, order: Order) {
    (order in w.titles && EqualFold(w.titles[order], start.after)) || CardNames(w.chats, start, order)
  }

  // What a start follows is named by its ID, or by a name that is nothing else's.
  ghost predicate NamesOne(w: World, start: Action, order: Order) {
    start.after != "" && (start.after == order ||
      (start.after !in w.states && Names(w, start, order) && forall other :: Names(w, start, other) ==> other == order))
  }

  lemma {:induction false} FoundTogether(chats: Chats, names: seq<string>, start: Action)
    requires Reading(chats, names)
    ensures var found := FindFollowed(Together(chats, names), start);
      if found.Some? then Matches(start, found.value) && (found.value.status.Applied? ==> CardNames(chats, start, found.value.order))
      else forall order :: !CardNames(chats, start, order)
  {
    var all := Together(chats, names);
    FoundMatches(all, start);
    var found := FindFollowed(all, start);
    if found.Some? {
      TogetherHas(chats, names, found.value);
      var c :| c in names && c in chats && found.value in chats[c];
      var i :| 0 <= i < |chats[c]| && chats[c][i] == found.value;
    } else {
      forall c, i | c in chats && 0 <= i < |chats[c]| ensures !Matches(start, chats[c][i]) {
        TogetherHas(chats, names, chats[c][i]);
      }
    }
  }

  lemma NamesOneResolves(w: World, names: seq<string>, start: Action, order: Order)
    requires Reading(w.chats, names) && start.kind.Start? && order in w.states && NamesOne(w, start, order)
    ensures var followee := Follows(Together(w.chats, names), start, w.titles, w.states);
      followee.TheCard? || followee == TheOrder(order)
  {
    if start.after !in w.states {
      FoundTogether(w.chats, names, start);
      var found := FindFollowed(Together(w.chats, names), start);
      if found.Some? {
        if found.value.status.Applied? { assert Names(w, start, found.value.order); }
      } else {
        assert order in TitledOrders(w.titles, start.after);
        assert Names(w, start, OrderTitled(w.titles, start.after));
      }
    }
  }

  /******* Releases *******/

  // The names are clear where a work order's newest early start is the one autopilot applied, and
  // names one work order.
  ghost predicate Clear(w: World, order: Order)
    requires order in w.started && w.started[order] in w.follows
  {
    var followee := w.follows[w.started[order]];
    forall c, i :: HoldsAt(w.chats, c, i, w.started[order]) && w.chats[c][i].plansEarly && followee.TheOrder? ==>
      NewestStart(w.chats, order, c, i) && NamesOne(w, w.chats[c][i], followee.order)
  }

  // Released under clear names, a work order's start follows nothing unfinished.
  lemma ClearRelease(w: World, order: Order, names: seq<string>, work: seq<WorkOrder>)
    requires StartsOk(w) && order in w.started && w.started[order] in w.follows && Clear(w, order) && Releases(w, order, names, work)
    ensures Unblocked(w.states, w.follows[w.started[order]])
  {
    var followee := w.follows[w.started[order]];
    assert HasStarter(w, order);
    if !Unblocked(w.states, followee) {
      var c, i :| StartedBy(w, order, c, i);
      NewestIsLatest(w.chats, names, order, c, i);
      NamesOneResolves(w, names, w.chats[c][i], followee.order);
    }
  }

  ghost predicate PastIsFree(w: World, order: Order) {
    order in w.started && PastPlanning(w.states, order) ==>
      w.started[order] in w.follows && Unblocked(w.states, w.follows[w.started[order]])
  }

  // Whether a step's release, if it is one of the order, comes under clear names.
  ghost predicate ClearStep(w: World, step: Step, order: Order) {
    step.Release? && step.order == order && order in w.started && w.started[order] in w.follows ==> Clear(w, order)
  }

  lemma FollowsKept(w: World, step: Step, u: World, order: Order)
    requires CardsOk(w) && GivenOk(w) && GivenFollows(w) && SeenFinished(w) && Next(w, step, u) && order in w.started && w.started[order] in w.follows
    ensures w.started[order] in u.follows && u.follows[w.started[order]] == w.follows[w.started[order]]
  {
    if step.LookAtChat? { LookKeepsFollows(w, step, u); }
  }

  lemma StartedKept(w: World, step: Step, u: World, order: Order)
    requires Next(w, step, u) && order in u.started && PastPlanning(u.states, order)
    ensures order in w.started && u.started[order] == w.started[order]
    ensures (step.Release? && step.order == order) || PastPlanning(w.states, order) || (step.Others? && !StartedEarly(w, order))
  {
  }

  // A release that comes before what the order's start followed is finished.
  ghost predicate ReleasedEarly(w: World, step: Step, order: Order) {
    && step.Release? && step.order == order && order in w.started && w.started[order] in w.follows
    && !Unblocked(w.states, w.follows[w.started[order]])
  }

  lemma OnTimeIsFree(w: World, step: Step, u: World, order: Order)
    requires Invariant(w) && StartsOk(w) && Next(w, step, u) && PastIsFree(w, order) && !ReleasedEarly(w, step, order)
    ensures PastIsFree(u, order)
  {
    if order in u.started && PastPlanning(u.states, order) {
      StartedKept(w, step, u, order);
      assert HasStarter(w, order);
      FollowsKept(w, step, u, order);
      StepFinishes(w, step, u);
      assert Unblocked(w.states, w.follows[w.started[order]]);
      UnblockedStays(w.states, u.states, w.follows[w.started[order]]);
    }
  }

  lemma StepKeepsPast(w: World, step: Step, u: World, order: Order)
    requires Invariant(w) && StartsOk(w) && Next(w, step, u) && PastIsFree(w, order) && ClearStep(w, step, order)
    ensures PastIsFree(u, order)
  {
    if ReleasedEarly(w, step, order) { ClearRelease(w, order, step.reading, step.work); }
    OnTimeIsFree(w, step, u, order);
  }

  lemma RunKeepsPast(run: Run, n: nat, order: Order)
    requires run.Valid() && n < |run.steps| && PastIsFree(run.worlds[n], order) && ClearStep(run.worlds[n], run.steps[n], order)
    ensures PastIsFree(run.worlds[n + 1], order)
  {
    Reachable(run, n);
    StartsReachable(run, n);
    StepKeepsPast(run.worlds[n], run.steps[n], run.worlds[n + 1], order);
  }

  /** Over every run, a work order that autopilot started is past its planning only once the work
      its start followed when it was handed over is finished, or was none the look knew: as long
      as each release of it finds clear names. */
  lemma {:induction false} StartedWorkWaits(run: Run, n: nat, order: Order)
    requires run.Valid() && n < |run.worlds|
    requires forall m :: 0 <= m < n ==> ClearStep(run.worlds[m], run.steps[m], order)
    ensures PastIsFree(run.worlds[n], order)
  {
    if n > 0 {
      StartedWorkWaits(run, n - 1, order);
      RunKeepsPast(run, n - 1, order);
    }
  }

  /******* When a release could let work pass *******/

  // The chat's first card of that name is finished.
  predicate FirstFinished(w: World, c: string, start: Action) {
    c in w.chats && var first := FindFollowed(w.chats[c], start);
      first.Some? && first.value.status.Applied? && !Unfinished(w.states, first.value.order)
  }

  ghost predicate SomeChatNames(w: World, start: Action) { exists c :: c in w.chats && FindFollowed(w.chats[c], start).Some? }

  // What lets go of a start: its name is that of finished work, in any one chat that has the name.
  ghost predicate Loose(w: World, start: Action) {
    if start.after == "" || !(start.kind.Create? || start.kind.Start?) then true
    else if start.after in w.states then !Unfinished(w.states, start.after)
    else if SomeChatNames(w, start) then exists c :: FirstFinished(w, c, start)
    else TitledOrders(w.titles, start.after) == {} || !Unfinished(w.states, OrderTitled(w.titles, start.after))
  }

  // Clear names are not loose while what the start follows is unfinished.
  lemma ClearIsTight(w: World, order: Order, c: string, i: int)
    requires StartsOk(w) && StartedBy(w, order, c, i) && Clear(w, order) && !Unblocked(w.states, w.follows[w.started[order]])
    ensures !Loose(w, w.chats[c][i])
  {
    var start := w.chats[c][i];
    if Loose(w, start) {
      var names := LooseIsFree(w, start, c);
      NamesOneResolves(w, names, start, w.follows[w.started[order]].order);
    }
  }

  lemma EarlyIsPast(w: World, step: Step, u: World, order: Order)
    requires Next(w, step, u) && ReleasedEarly(w, step, order)
    ensures !PastIsFree(u, order)
  {
    assert Lookup(w.states, order) == Some(Planning);
  }

  ghost predicate FreeThrough(worlds: seq<World>, n: nat, order: Order)
    requires n < |worlds|
  {
    forall k :: 0 <= k <= n ==> PastIsFree(worlds[k], order)
  }

  ghost predicate NoneEarly(worlds: seq<World>, steps: seq<Step>, n: nat, order: Order)
    requires n <= |steps| < |worlds|
  {
    forall m :: 0 <= m < n ==> !ReleasedEarly(worlds[m], steps[m], order)
  }

  lemma FreeOneMore(run: Run, n: nat, order: Order)
    requires run.Valid() && n < |run.steps|
    ensures PastIsFree(run.worlds[n], order) ==> (PastIsFree(run.worlds[n + 1], order) <==> !ReleasedEarly(run.worlds[n], run.steps[n], order))
  {
    var w, step, u := run.worlds[n], run.steps[n], run.worlds[n + 1];
    Reachable(run, n);
    StartsReachable(run, n);
    assert Next(w, step, u);
    if ReleasedEarly(w, step, order) { EarlyIsPast(w, step, u, order); } else if PastIsFree(w, order) { OnTimeIsFree(w, step, u, order); }
  }

  lemma EarlyOneMore(worlds: seq<World>, steps: seq<Step>, n: nat, order: Order)
    requires n < |steps| < |worlds|
    ensures FreeThrough(worlds, n + 1, order) <==> FreeThrough(worlds, n, order) && PastIsFree(worlds[n + 1], order)
    ensures NoneEarly(worlds, steps, n + 1, order) <==> NoneEarly(worlds, steps, n, order) && !ReleasedEarly(worlds[n], steps[n], order)
  {
  }

  /** Over every run: a work order that autopilot started is past its planning in no state before what
      its start followed is finished, exactly when no release of it comes before. */
  lemma {:induction false} WaitsExactly(run: Run, n: nat, order: Order)
    requires run.Valid() && n < |run.worlds|
    ensures FreeThrough(run.worlds, n, order) <==> NoneEarly(run.worlds, run.steps, n, order)
  {
    if n == 0 {
      assert PastIsFree(run.worlds[0], order);
    } else {
      WaitsExactly(run, n - 1, order);
      FreeOneMore(run, n - 1, order);
      EarlyOneMore(run.worlds, run.steps, n - 1, order);
    }
  }

  // The work orders that plan early, in whichever chat.
  ghost function EarlyIn(chats: Chats): set<Order> {
    set c, i | c in chats && 0 <= i < |chats[c]| && chats[c][i].plansEarly && chats[c][i].status.Applied? && chats[c][i].order != "" ::
      chats[c][i].order
  }

  lemma EarlyTogether(chats: Chats, names: seq<string>)
    requires Reading(chats, names)
    ensures EarlyPlanners(Together(chats, names)) == EarlyIn(chats)
  {
    var all := Together(chats, names);
    forall order | order in EarlyPlanners(all) ensures order in EarlyIn(chats) {
      var k :| 0 <= k < |all| && all[k].plansEarly && all[k].status.Applied? && all[k].order == order && order != "";
      TogetherHas(chats, names, all[k]);
      var c :| c in names && c in chats && all[k] in chats[c];
      var i :| 0 <= i < |chats[c]| && chats[c][i] == all[k];
    }
    forall order | order in EarlyIn(chats) ensures order in EarlyPlanners(all) {
      var c, i :| c in chats && 0 <= i < |chats[c]| && chats[c][i].plansEarly && chats[c][i].status.Applied? && chats[c][i].order == order && order != "";
      TogetherHas(chats, names, chats[c][i]);
      var k :| 0 <= k < |all| && all[k] == chats[c][i];
    }
  }

  // The first chat that has the name decides.
  lemma {:induction false} Decider(chats: Chats, names: seq<string>, start: Action)
    ensures var found := FindFollowed(Together(chats, names), start);
      if found.Some? then exists c :: c in names && c in chats && FindFollowed(chats[c], start) == found
      else forall c :: c in names && c in chats ==> FindFollowed(chats[c], start).None?
  {
    if names != [] {
      var first := if names[0] in chats then chats[names[0]] else [];
      FoundFirst(first, Together(chats, names[1..]), start);
      Decider(chats, names[1..], start);
      assert forall c :: c in names <==> c == names[0] || c in names[1..];
    }
  }

  lemma {:induction false} Listing(chats: set<string>) returns (names: seq<string>)
    ensures forall c :: c in chats <==> c in names
    ensures forall i, j :: 0 <= i < j < |names| ==> names[i] != names[j]
  {
    names := [];
    if chats != {} {
      var c :| c in chats;
      var rest := Listing(chats - {c});
      names := [c] + rest;
    }
  }

  // Any chat may have been used last.
  lemma ReadFirst(chats: Chats, c: string) returns (names: seq<string>)
    requires c in chats
    ensures Reading(chats, names)
    ensures forall start :: FindFollowed(chats[c], start).Some? ==> FindFollowed(Together(chats, names), start) == FindFollowed(chats[c], start)
  {
    var rest := Listing(chats.Keys - {c});
    names := [c] + rest;
    assert names[1..] == rest;
    forall start | FindFollowed(chats[c], start).Some? ensures FindFollowed(Together(chats, names), start) == FindFollowed(chats[c], start) {
      FoundFirst(chats[c], Together(chats, rest), start);
    }
  }

  lemma FreeIsLoose(w: World, names: seq<string>, start: Action)
    requires Reading(w.chats, names) && WaitsFor(Together(w.chats, names), start, w.titles, w.states).Free?
    ensures Loose(w, start)
  {
    Decider(w.chats, names, start);
    FoundMatches(Together(w.chats, names), start);
    var found := FindFollowed(Together(w.chats, names), start);
    if found.Some? {
      var c :| c in names && c in w.chats && FindFollowed(w.chats[c], start) == found;
      assert start.after !in w.states && start.after != "" && (start.kind.Create? || start.kind.Start?) ==> FirstFinished(w, c, start);
    }
  }

  lemma LooseIsFree(w: World, start: Action, c: string) returns (names: seq<string>)
    requires Loose(w, start) && c in w.chats
    ensures Reading(w.chats, names) && WaitsFor(Together(w.chats, names), start, w.titles, w.states).Free?
  {
    var d := c;
    if exists e :: FirstFinished(w, e, start) { d :| FirstFinished(w, d, start); }
    names := ReadFirst(w.chats, d);
    Decider(w.chats, names, start);
  }

  /** Exactly when the name of its newest early start is loose and a slot is free, there is an
      order of the chats in which a release lets a planned work order pass. */
  lemma ReleaseExact(w: World, order: Order, c: string, i: int, work: seq<WorkOrder>)
    requires Lookup(w.states, order) == Some(Planning) && NewestStart(w.chats, order, c, i)
    ensures (exists names :: Releases(w, order, names, work)) <==>
      (Working(work, EarlyIn(w.chats)) < SAFETY_CAP && Loose(w, w.chats[c][i]))
  {
    var start := w.chats[c][i];
    forall names | Releases(w, order, names, work) ensures Working(work, EarlyIn(w.chats)) < SAFETY_CAP && Loose(w, start) {
      NewestIsLatest(w.chats, names, order, c, i);
      EarlyTogether(w.chats, names);
      FreeIsLoose(w, names, start);
    }
    if Working(work, EarlyIn(w.chats)) < SAFETY_CAP && Loose(w, start) {
      var names := LooseIsFree(w, start, c);
      NewestIsLatest(w.chats, names, order, c, i);
      EarlyTogether(w.chats, names);
      assert Releases(w, order, names, work);
    }
  }
}
