/** What every start that autopilot hands over followed then, kept over every run: it is finished,
    or the start plans early. */
module AutopilotStarts {
  import opened Options
  import opened Proposals
  import opened Autopilot
  import opened AutopilotClaims
  import opened AutopilotWaits
  import opened AutopilotRuns
  import opened AutopilotHistory
  import opened AutopilotSafety

  // Followed work that no longer holds anything up.
  predicate Unblocked(states: map<Order, State>, followee: Followee) {
    !followee.TheCard? && (followee.TheOrder? ==> !Unfinished(states, followee.order))
  }

  predicate EarlyAfter(start: Action, followee: Followee) { start.kind.Start? && start.plansEarly && followee.TheOrder? }

  predicate Starts(given: Action) { given.kind.Start? || (given.kind.Create? && StartsAtOnce(given)) }

  ghost predicate GivenFollows(w: World) {
    && (forall id :: id in w.follows <==> id in w.given)
    && (forall id :: id in w.follows && w.follows[id].TheOrder? ==> w.follows[id].order in w.states)
  }

  ghost predicate HandedFree(w: World, given: Action) {
    given.id in w.follows && (Starts(given) ==> Unblocked(w.states, w.follows[given.id]) || EarlyAfter(given, w.follows[given.id]))
  }

  ghost predicate QueueFree(w: World) {
    forall k :: 0 <= k < |w.queue| ==> HandedFree(w, w.queue[k])
  }

  // A queue entry's card plans early as it does, and starts the same work order.
  predicate PlansAs(card: Action, given: Action) { card.plansEarly == given.plansEarly && (given.kind.Start? ==> card.order == given.order) }

  ghost predicate QueueSame(w: World) {
    forall k, c, i :: 0 <= k < |w.queue| && HoldsAt(w.chats, c, i, w.queue[k].id) ==> PlansAs(w.chats[c][i], w.queue[k])
  }

  // The card of a start by which a work order plans early.
  ghost predicate StartedBy(w: World, order: Order, c: string, i: int) {
    && order in w.started && w.started[order] in w.follows && HoldsAt(w.chats, c, i, w.started[order])
    && w.chats[c][i].status.Applied? && w.chats[c][i].order == order && EarlyAfter(w.chats[c][i], w.follows[w.started[order]])
  }

  // What started a work order is off the queue, and had nothing to wait for or plans early.
  ghost predicate HasStarter(w: World, order: Order) {
    && order in w.started && w.started[order] in w.follows && w.started[order] !in IdsOf(w.queue)
    && (Unblocked(w.states, w.follows[w.started[order]]) || exists c, i :: StartedBy(w, order, c, i))
  }

  ghost predicate SeenFinished(w: World) { w.ongoing.Some? ==> StaysFinished(w.ongoing.value.states, w.states) }

  ghost predicate StartsOk(w: World) {
    && GivenFollows(w) && QueueFree(w) && QueueSame(w) && SeenFinished(w)
    && forall order :: order in w.started ==> HasStarter(w, order)
  }

  lemma UnblockedStays(before: map<Order, State>, after: map<Order, State>, followee: Followee)
    requires StaysFinished(before, after) && (followee.TheOrder? ==> followee.order in before) && Unblocked(before, followee)
    ensures Unblocked(after, followee)
  {
  }

  lemma StepFinishes(w: World, step: Step, u: World)
    requires Next(w, step, u)
    ensures StaysFinished(w.states, u.states)
  {
    if step.Apply? && !step.how.Refused? { AppliedFinishes(w, step.home, step.at, step.order, step.how); }
  }

  // What was handed over before, and its work, stay as the step needs them.
  lemma HandedStaysFree(w: World, u: World, given: Action)
    requires GivenFollows(w) && HandedFree(w, given) && StaysFinished(w.states, u.states)
    requires given.id in u.follows && u.follows[given.id] == w.follows[given.id]
    ensures HandedFree(u, given)
  {
    if Unblocked(w.states, w.follows[given.id]) { UnblockedStays(w.states, u.states, w.follows[given.id]); }
  }

  // What was applied stays where it was.
  ghost predicate CardStays(w: World, u: World, id: ActionId) {
    forall c, i :: HoldsAt(w.chats, c, i, id) && w.chats[c][i].status.Applied? ==>
      exists j :: HoldsAt(u.chats, c, j, id) && Same(w.chats[c][i], u.chats[c][j])
  }

  lemma StarterStays(w: World, u: World, order: Order)
    requires GivenFollows(w) && HasStarter(w, order) && StaysFinished(w.states, u.states)
    requires order in u.started && u.started[order] == w.started[order] && u.started[order] !in IdsOf(u.queue)
    requires w.started[order] in u.follows && u.follows[w.started[order]] == w.follows[w.started[order]]
    requires CardStays(w, u, w.started[order])
    ensures HasStarter(u, order)
  {
    var followee := w.follows[w.started[order]];
    if Unblocked(w.states, followee) {
      UnblockedStays(w.states, u.states, followee);
    } else {
      var c, i :| StartedBy(w, order, c, i);
      var j :| HoldsAt(u.chats, c, j, w.started[order]) && Same(w.chats[c][i], u.chats[c][j]);
      assert StartedBy(u, order, c, j);
    }
  }

  // Steps that leave what was handed over and how as it was.
  lemma FrameKeepsFollows(w: World, u: World)
    requires StartsOk(w) && StaysFinished(w.states, u.states) && u.follows == w.follows && u.given == w.given
    requires u.queue == w.queue || (w.queue != [] && u.queue == w.queue[1..]) || u.queue == []
    ensures GivenFollows(u) && QueueFree(u)
  {
    forall k | 0 <= k < |u.queue| ensures HandedFree(u, u.queue[k]) {
      var n := if u.queue == w.queue then k else k + 1;
      assert u.queue[k] == w.queue[n];
      HandedStaysFree(w, u, w.queue[n]);
    }
  }

  /******* Everybody else *******/

  lemma OthersKeepQueueSame(w: World, u: World)
    requires CardsOk(w) && GivenOk(w) && QueueCards(w) && QueueSame(w) && OthersAllowed(w, u.chats, u.states) && u.queue == w.queue
    ensures QueueSame(u)
  {
    forall k, d, j | 0 <= k < |u.queue| && HoldsAt(u.chats, d, j, u.queue[k].id)
      ensures PlansAs(u.chats[d][j], u.queue[k])
    {
      QueueHasCards(w, k);
      var c, i :| HoldsAt(w.chats, c, i, w.queue[k].id);
      var l :| HoldsAt(u.chats, c, l, w.queue[k].id) && Same(w.chats[c][i], u.chats[c][l]);
      assert d == c && j == l;
    }
  }

  lemma OthersKeepStarts(w: World, step: Step, u: World)
    requires Invariant(w) && StartsOk(w) && Next(w, step, u) && step.Others?
    ensures StartsOk(u)
  {
    FrameKeepsFollows(w, u);
    OthersKeepQueueSame(w, u);
    forall order | order in u.started ensures HasStarter(u, order) {
      assert HasStarter(w, order);
      StarterStays(w, u, order);
    }
  }

  /******* A look *******/

  ghost predicate FollowedIs(v: View, actions: seq<Action>, follows: map<ActionId, Followee>, given: Action) {
    given.id in follows && follows[given.id] == Known(v.states, Follows(actions + v.elsewhere, given, v.titles, v.states))
  }

  lemma {:induction false} FollowedKeys(v: View, actions: seq<Action>, handed: seq<Action>)
    ensures var follows := FollowedBy(v, actions, handed);
      && (forall id :: id in follows && follows[id].TheOrder? ==> follows[id].order in v.states)
      && (forall id :: id in follows <==> id in IdsOf(handed))
  {
    if handed != [] {
      FollowedKeys(v, actions, handed[..|handed| - 1]);
      assert forall id :: id in IdsOf(handed) <==> id in IdsOf(handed[..|handed| - 1]) || id == handed[|handed| - 1].id;
    }
  }

  lemma StillFollowed(v: View, actions: seq<Action>, before: map<ActionId, Followee>, id: ActionId, followee: Followee, given: Action)
    requires FollowedIs(v, actions, before, given) && given.id != id
    ensures FollowedIs(v, actions, before[id := followee], given)
  {
  }

  ghost predicate DistinctIds(handed: seq<Action>) { forall j, k :: 0 <= j < k < |handed| ==> handed[j].id != handed[k].id }

  lemma {:induction false} FollowedAt(v: View, actions: seq<Action>, handed: seq<Action>, k: nat)
    requires k < |handed| && DistinctIds(handed)
    ensures FollowedIs(v, actions, FollowedBy(v, actions, handed), handed[k])
    decreases |handed|
  {
    var n := |handed| - 1;
    var init, last := handed[..n], handed[n];
    var followee := Known(v.states, Follows(actions + v.elsewhere, last, v.titles, v.states));
    assert FollowedBy(v, actions, handed) == FollowedBy(v, actions, init)[last.id := followee];
    if k < n {
      assert DistinctIds(init) && init[k] == handed[k];
      FollowedAt(v, actions, init, k);
      StillFollowed(v, actions, FollowedBy(v, actions, init), last.id, followee, handed[k]);
    }
  }

  lemma FollowedByIs(v: View, actions: seq<Action>, handed: seq<Action>)
    requires forall j, k :: 0 <= j < k < |handed| ==> handed[j].id != handed[k].id
    ensures forall k :: 0 <= k < |handed| ==> FollowedIs(v, actions, FollowedBy(v, actions, handed), handed[k])
  {
    forall k | 0 <= k < |handed| ensures FollowedIs(v, actions, FollowedBy(v, actions, handed), handed[k]) {
      FollowedAt(v, actions, handed, k);
    }
  }

  // What a look hands over starts nothing that has to wait, unless it plans early.
  lemma TimelyIsFree(v: View, actions: seq<Action>, given: Action, states: map<Order, State>)
    requires Timely(v, actions, given) && StaysFinished(v.states, states) && Starts(given)
    ensures var followee := Known(v.states, Follows(actions + v.elsewhere, given, v.titles, v.states));
      Unblocked(states, followee) || EarlyAfter(given, followee)
  {
    var followee := Follows(actions + v.elsewhere, given, v.titles, v.states);
    if WaitOn(v.states, followee).Free? { UnblockedStays(v.states, states, Known(v.states, followee)); }
  }

  lemma NewIsNew(w: World, step: Step, u: World)
    requires CardsOk(w) && GivenOk(w) && Next(w, step, u) && step.LookAtChat?
    ensures var p := LookedAt(step.v, w.ongoing.value.look, w.chats[step.chat], step.continues);
      && (forall j, k :: 0 <= j < k < |p.handed| ==> p.handed[j].id != p.handed[k].id)
      && (forall id :: id in IdsOf(p.handed) ==> id !in w.given)
  {
    var p := LookedAt(step.v, w.ongoing.value.look, w.chats[step.chat], step.continues);
    ChatUnique(w.chats, step.chat);
    LookedSame(step.v, w.ongoing.value.look, w.chats[step.chat], step.continues);
    forall id | id in IdsOf(p.handed) ensures id !in w.given {
      var k :| 0 <= k < |p.handed| && IdsOf(p.handed)[k] == id;
      HandedIsNew(w, step, u, k);
    }
  }

  lemma FollowsGrow(w: World, u: World, handed: seq<Action>, more: map<ActionId, Followee>)
    requires GivenFollows(w) && StaysFinished(w.states, u.states) && u.given == w.given + IdsOf(handed) && u.follows == w.follows + more
    requires forall id :: id in IdsOf(handed) ==> id !in w.given
    requires forall id :: id in more <==> id in IdsOf(handed)
    requires forall id :: id in more && more[id].TheOrder? ==> more[id].order in u.states
    ensures GivenFollows(u)
    ensures forall id :: id in w.follows ==> id in u.follows && u.follows[id] == w.follows[id]
  {
  }

  lemma LookKeepsFollows(w: World, step: Step, u: World)
    requires CardsOk(w) && GivenOk(w) && GivenFollows(w) && SeenFinished(w) && Next(w, step, u) && step.LookAtChat?
    ensures GivenFollows(u)
    ensures forall id :: id in w.follows ==> id in u.follows && u.follows[id] == w.follows[id]
    ensures var p := LookedAt(step.v, w.ongoing.value.look, w.chats[step.chat], step.continues);
      forall k :: 0 <= k < |p.handed| ==> FollowedIs(step.v, p.actions, u.follows, p.handed[k])
  {
    var p := LookedAt(step.v, w.ongoing.value.look, w.chats[step.chat], step.continues);
    NewIsNew(w, step, u);
    FollowedByIs(step.v, p.actions, p.handed);
    FollowedKeys(step.v, p.actions, p.handed);
    FollowsGrow(w, u, p.handed, FollowedBy(step.v, p.actions, p.handed));
    forall k | 0 <= k < |p.handed| ensures FollowedIs(step.v, p.actions, u.follows, p.handed[k]) {
      assert FollowedIs(step.v, p.actions, FollowedBy(step.v, p.actions, p.handed), p.handed[k]);
    }
  }

  lemma HandedIsFree(w: World, step: Step, u: World, k: nat)
    requires CardsOk(w) && GivenOk(w) && GivenFollows(w) && SeenFinished(w) && Next(w, step, u) && step.LookAtChat?
    requires k < |LookedAt(step.v, w.ongoing.value.look, w.chats[step.chat], step.continues).handed|
    ensures HandedFree(u, LookedAt(step.v, w.ongoing.value.look, w.chats[step.chat], step.continues).handed[k])
  {
    var p := LookedAt(step.v, w.ongoing.value.look, w.chats[step.chat], step.continues);
    LookKeepsFollows(w, step, u);
    HandedIsTimely(step.v, w.ongoing.value.look, w.chats[step.chat], step.continues, p.handed[k]);
    assert FollowedIs(step.v, p.actions, u.follows, p.handed[k]);
    if Starts(p.handed[k]) { TimelyIsFree(step.v, p.actions, p.handed[k], u.states); }
  }

  lemma QueueFreeGrows(w: World, u: World, handed: seq<Action>)
    requires GivenFollows(w) && QueueFree(w) && StaysFinished(w.states, u.states) && u.queue == w.queue + handed
    requires forall id :: id in w.follows ==> id in u.follows && u.follows[id] == w.follows[id]
    requires forall k :: 0 <= k < |handed| ==> HandedFree(u, handed[k])
    ensures QueueFree(u)
  {
    forall k | 0 <= k < |u.queue| ensures HandedFree(u, u.queue[k]) {
      if k < |w.queue| {
        assert HandedFree(w, w.queue[k]);
        HandedStaysFree(w, u, w.queue[k]);
      } else {
        assert u.queue[k] == handed[k - |w.queue|];
      }
    }
  }

  lemma LookKeepsQueueFree(w: World, step: Step, u: World)
    requires CardsOk(w) && GivenOk(w) && GivenFollows(w) && SeenFinished(w) && QueueFree(w) && Next(w, step, u) && step.LookAtChat?
    ensures QueueFree(u)
  {
    var p := LookedAt(step.v, w.ongoing.value.look, w.chats[step.chat], step.continues);
    LookKeepsFollows(w, step, u);
    forall k | 0 <= k < |p.handed| ensures HandedFree(u, p.handed[k]) { HandedIsFree(w, step, u, k); }
    QueueFreeGrows(w, u, p.handed);
  }

  lemma TriedKeepsPlan(v: View, look: Look, stored: seq<Action>, continues: map<Order, int>, i: nat)
    requires UniqueIds(stored) && i < |stored| && stored[i].autoTried
    ensures |LookedAt(v, look, stored, continues).actions| == |stored|
    ensures LookedAt(v, look, stored, continues).actions[i].plansEarly == stored[i].plansEarly
    ensures LookedAt(v, look, stored, continues).actions[i].order == stored[i].order
  {
    HandedOnceInChat(v, look, stored, continues);
    assert OnlyMarked(AllSettled(v, stored)[i], LookedAt(v, look, stored, continues).actions[i]);
  }

  lemma LookKeepsOldSame(w: World, step: Step, u: World, k: nat, c: string, i: int)
    requires CardsOk(w) && GivenOk(w) && QueueSame(w) && Next(w, step, u) && step.LookAtChat?
    requires k < |w.queue| && HoldsAt(u.chats, c, i, w.queue[k].id)
    ensures PlansAs(u.chats[c][i], w.queue[k])
  {
    LookedShape(w, step, u);
    SameHolds(w.chats, u.chats, c, i, w.queue[k].id);
    QueueHasCards(w, k);
    assert HasTried(w.chats, w.queue[k].id);
    if c == step.chat {
      ChatUnique(w.chats, c);
      TriedKeepsPlan(step.v, w.ongoing.value.look, w.chats[c], step.continues, i);
    }
  }

  lemma LookHandsSame(w: World, step: Step, u: World, k: nat, c: string, i: int)
    requires CardsOk(w) && GivenOk(w) && Next(w, step, u) && step.LookAtChat? && UniqueAll(u.chats)
    requires |w.queue| <= k < |u.queue| && HoldsAt(u.chats, c, i, u.queue[k].id)
    ensures PlansAs(u.chats[c][i], u.queue[k])
  {
    HandedIsNew(w, step, u, k - |w.queue|);
  }

  lemma LookKeepsQueueSame(w: World, step: Step, u: World)
    requires CardsOk(w) && GivenOk(w) && QueueSame(w) && Next(w, step, u) && step.LookAtChat? && UniqueAll(u.chats)
    ensures QueueSame(u)
  {
    forall k, c, i | 0 <= k < |u.queue| && HoldsAt(u.chats, c, i, u.queue[k].id) ensures PlansAs(u.chats[c][i], u.queue[k]) {
      if k < |w.queue| { LookKeepsOldSame(w, step, u, k, c, i); } else { LookHandsSame(w, step, u, k, c, i); }
    }
  }

  lemma LookKeepsCard(w: World, step: Step, u: World, id: ActionId)
    requires CardsOk(w) && Next(w, step, u) && step.LookAtChat?
    ensures CardStays(w, u, id)
  {
    LookedShape(w, step, u);
    forall c, i | HoldsAt(w.chats, c, i, id) ensures HoldsAt(u.chats, c, i, id) && Same(w.chats[c][i], u.chats[c][i]) {
      SameHolds(w.chats, u.chats, c, i, id);
    }
  }

  lemma LookKeepsStarts(w: World, step: Step, u: World)
    requires Invariant(w) && StartsOk(w) && Next(w, step, u) && step.LookAtChat? && Invariant(u)
    ensures StartsOk(u)
  {
    LookKeepsFollows(w, step, u);
    LookKeepsQueueFree(w, step, u);
    LookKeepsQueueSame(w, step, u);
    NewIsNew(w, step, u);
    IdsOfPlus(w.queue, LookedAt(step.v, w.ongoing.value.look, w.chats[step.chat], step.continues).handed);
    forall order | order in u.started ensures HasStarter(u, order) {
      assert HasStarter(w, order);
      LookKeepsCard(w, step, u, w.started[order]);
      StarterStays(w, u, order);
    }
  }

  /******* Applying *******/

  lemma AppliedKeepsQueueSame(w: World, home: string, at: nat, order: Order, how: How)
    requires CardsOk(w) && GivenOk(w) && QueueCards(w) && QueueSame(w) && Applies(w, home, at, order, how)
    ensures QueueSame(AppliedTo(w, home, at, order, how))
  {
    var u := AppliedTo(w, home, at, order, how);
    forall k, c, i | 0 <= k < |u.queue| && HoldsAt(u.chats, c, i, u.queue[k].id) ensures PlansAs(u.chats[c][i], u.queue[k]) {
      assert u.queue[k] == w.queue[k + 1];
      AppliedLeavesCard(w, home, at, order, how, k + 1, c, i);
    }
  }

  lemma FirstLeaves(w: World)
    requires GivenOk(w) && w.queue != []
    ensures w.queue[0].id !in IdsOf(w.queue[1..])
    ensures forall id :: id in IdsOf(w.queue[1..]) ==> id in IdsOf(w.queue)
  {
    IdsOfTail(w.queue);
    forall k | 0 <= k < |w.queue| - 1 ensures IdsOf(w.queue[1..])[k] != w.queue[0].id { QueueDistinct(w, 0, k + 1); }
  }

  lemma AppliedHasStarter(w: World, home: string, at: nat, order: Order, how: How)
    requires GivenOk(w) && QueueCards(w) && GivenFollows(w) && QueueFree(w) && QueueSame(w) && Applies(w, home, at, order, how)
    requires Starts(w.queue[0]) && (w.queue[0].kind.Create? ==> Begins(w.queue[0], how))
    ensures HasStarter(AppliedTo(w, home, at, order, how), if w.queue[0].kind.Create? then order else w.queue[0].order)
  {
    var u, given := AppliedTo(w, home, at, order, how), w.queue[0];
    var work := if given.kind.Create? then order else given.order;
    assert HandedFree(w, given);
    FirstLeaves(w);
    if Unblocked(w.states, w.follows[given.id]) {
      AppliedFinishes(w, home, at, order, how);
      UnblockedStays(w.states, u.states, w.follows[given.id]);
    } else {
      assert HoldsAt(u.chats, home, at, given.id);
      assert StartedBy(u, work, home, at);
    }
  }

  lemma AppliedKeepsStarter(w: World, home: string, at: nat, order: Order, how: How, work: Order)
    requires GivenOk(w) && QueueCards(w) && GivenFollows(w) && HasStarter(w, work) && Applies(w, home, at, order, how)
    requires StaysFinished(w.states, AppliedTo(w, home, at, order, how).states)
    requires var u := AppliedTo(w, home, at, order, how); work in w.started && work in u.started && u.started[work] == w.started[work]
    ensures HasStarter(AppliedTo(w, home, at, order, how), work)
  {
    var u := AppliedTo(w, home, at, order, how);
    forall c, i | HoldsAt(w.chats, c, i, w.started[work]) ensures HoldsAt(u.chats, c, i, w.started[work]) && Same(w.chats[c][i], u.chats[c][i]) {
      AppliedHolds(w, home, at, order, how, c, i, w.started[work]);
    }
    FirstLeaves(w);
    StarterStays(w, u, work);
  }

  lemma AppliedFinishes(w: World, home: string, at: nat, order: Order, how: How)
    requires Applies(w, home, at, order, how)
    ensures StaysFinished(w.states, AppliedTo(w, home, at, order, how).states)
  {
    assert AppliedTo(w, home, at, order, how).states == AppliedStates(w.states, w.queue[0], order, how);
  }

  lemma AppliedKeepsStarters(w: World, home: string, at: nat, order: Order, how: How, work: Order)
    requires GivenOk(w) && QueueCards(w) && StartsOk(w) && Applies(w, home, at, order, how) && work in AppliedTo(w, home, at, order, how).started
    ensures HasStarter(AppliedTo(w, home, at, order, how), work)
  {
    AppliedFinishes(w, home, at, order, how);
    if work in w.started && AppliedTo(w, home, at, order, how).started[work] == w.started[work] {
      assert HasStarter(w, work);
      AppliedKeepsStarter(w, home, at, order, how, work);
    } else {
      AppliedHasStarter(w, home, at, order, how);
    }
  }

  lemma AppliedKeepsStarts(w: World, home: string, at: nat, order: Order, how: How)
    requires CardsOk(w) && GivenOk(w) && QueueCards(w) && StartsOk(w) && Applies(w, home, at, order, how) && w.ongoing.None?
    ensures StartsOk(AppliedTo(w, home, at, order, how))
  {
    var u := AppliedTo(w, home, at, order, how);
    AppliedFinishes(w, home, at, order, how);
    FrameKeepsFollows(w, u);
    AppliedKeepsQueueSame(w, home, at, order, how);
    forall work | work in u.started ensures HasStarter(u, work) { AppliedKeepsStarters(w, home, at, order, how, work); }
  }

  /******* Every run *******/

  lemma RestKeepsStarts(w: World, step: Step, u: World)
    requires StartsOk(w) && Next(w, step, u) && !step.Others? && !step.LookAtChat? && !step.Apply?
    ensures StartsOk(u)
  {
    StepFinishes(w, step, u);
    FrameKeepsFollows(w, u);
    forall order | order in u.started ensures HasStarter(u, order) {
      assert HasStarter(w, order);
      StarterStays(w, u, order);
    }
  }

  lemma RefusedKeepsQueueSame(w: World, home: string, at: nat, how: How)
    requires GivenOk(w) && QueueSame(w) && w.queue != [] && HoldsAt(w.chats, home, at, w.queue[0].id)
    ensures QueueSame(RefusedTo(w, home, at, how))
  {
    var u := RefusedTo(w, home, at, how);
    forall k, c, i | 0 <= k < |u.queue| && HoldsAt(u.chats, c, i, u.queue[k].id) ensures PlansAs(u.chats[c][i], u.queue[k]) {
      assert u.queue[k] == w.queue[k + 1];
      QueueDistinct(w, 0, k + 1);
      RefusedHolds(w, home, at, how, c, i, u.queue[k].id);
    }
  }

  lemma RefusedKeepsStarts(w: World, home: string, at: nat, how: How)
    requires GivenOk(w) && StartsOk(w) && w.ongoing.None? && w.queue != [] && HoldsAt(w.chats, home, at, w.queue[0].id)
    ensures StartsOk(RefusedTo(w, home, at, how))
  {
    var u := RefusedTo(w, home, at, how);
    FrameKeepsFollows(w, u);
    RefusedKeepsQueueSame(w, home, at, how);
    FirstLeaves(w);
    IdIn(w.queue, 0);
    forall work | work in u.started ensures HasStarter(u, work) {
      assert HasStarter(w, work);
      forall c, i | HoldsAt(w.chats, c, i, w.started[work]) ensures HoldsAt(u.chats, c, i, w.started[work]) && u.chats[c][i] == w.chats[c][i] {
        RefusedHolds(w, home, at, how, c, i, w.started[work]);
      }
      StarterStays(w, u, work);
    }
  }

  lemma StepKeepsStarts(w: World, step: Step, u: World)
    requires Invariant(w) && StartsOk(w) && Next(w, step, u)
    ensures StartsOk(u)
  {
    StepKeepsInvariant(w, step, u);
    if step.Others? {
      OthersKeepStarts(w, step, u);
    } else if step.LookAtChat? {
      LookKeepsStarts(w, step, u);
    } else if step.Apply? && step.how.Refused? {
      RefusedKeepsStarts(w, step.home, step.at, step.how);
    } else if step.Apply? {
      AppliedKeepsStarts(w, step.home, step.at, step.order, step.how);
    } else {
      RestKeepsStarts(w, step, u);
    }
  }

  lemma {:induction false} StartsReachable(run: Run, n: nat)
    requires run.Valid() && n < |run.worlds|
    ensures StartsOk(run.worlds[n])
  {
    if n > 0 {
      Reachable(run, n - 1);
      StartsReachable(run, n - 1);
      assert Next(run.worlds[n - 1], run.steps[n - 1], run.worlds[n]);
      StepKeepsStarts(run.worlds[n - 1], run.steps[n - 1], run.worlds[n]);
    }
  }
}
