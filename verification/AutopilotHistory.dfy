/** What every step of autopilot's runs keeps, and so what holds however the looks, the applying
    and everybody else's changes interleave. */
module AutopilotHistory {
  import opened Options
  import opened Proposals
  import opened Autopilot
  import opened AutopilotClaims
  import opened AutopilotRuns

  /******* Everybody else *******/

  lemma IdIn(actions: seq<Action>, k: nat)
    requires k < |actions|
    ensures actions[k].id in IdsOf(actions)
  {
    assert IdsOf(actions)[k] == actions[k].id;
  }

  // Each action of the queue was handed over, and has its card.
  lemma QueueHasCards(w: World, k: nat)
    requires GivenOk(w) && k < |w.queue|
    ensures w.queue[k].id in w.given
    ensures exists c, i :: HoldsAt(w.chats, c, i, w.queue[k].id)
  {
    var n := |w.given| - |w.queue| + k;
    assert w.given[n] == w.given[|w.given| - |w.queue|..][k] == IdsOf(w.queue)[k];
    assert HasTried(w.chats, w.given[n]);
  }

  lemma QueueDistinct(w: World, j: nat, k: nat)
    requires GivenOk(w) && j < k < |w.queue|
    ensures w.queue[j].id != w.queue[k].id
  {
    var n := |w.given| - |w.queue|;
    assert w.given[n + j] == w.given[n..][j] == IdsOf(w.queue)[j];
    assert w.given[n + k] == w.given[n..][k] == IdsOf(w.queue)[k];
  }

  lemma OthersKeepCards(w: World, u: World)
    requires CardsOk(w) && GivenOk(w) && QueueCards(w) && OthersAllowed(w, u.chats, u.states)
    requires u == w.(chats := u.chats, titles := u.titles, states := u.states, started := u.started)
    ensures CardsOk(u) && GivenOk(u) && QueueCards(u)
  {
    forall id | id in u.given ensures HasTried(u.chats, id) {
      assert HasTried(w.chats, id);
      var c, i :| HoldsAt(w.chats, c, i, id) && w.chats[c][i].autoTried;
      var j :| HoldsAt(u.chats, c, j, id) && Same(w.chats[c][i], u.chats[c][j]);
    }
    forall k, c, i | 0 <= k < |u.queue| && HoldsAt(u.chats, c, i, u.queue[k].id)
      ensures u.chats[c][i].kind == u.queue[k].kind && u.chats[c][i].item == u.queue[k].item
    {
      QueueHasCards(w, k);
      var d, j :| HoldsAt(w.chats, d, j, w.queue[k].id);
      var l :| HoldsAt(u.chats, d, l, w.queue[k].id) && Same(w.chats[d][j], u.chats[d][l]);
    }
  }

  lemma OthersKeepMade(w: World, u: World)
    requires MadeOk(w) && OthersAllowed(w, u.chats, u.states) && u == w.(chats := u.chats, titles := u.titles, states := u.states, started := u.started)
    ensures MadeOk(u)
  {
    forall order | order in u.made && order !in u.half ensures HasMaker(u, order) {
      assert HasMaker(w, order);
      var c, i :| MadeBy(w, order, c, i);
      assert HoldsAt(w.chats, c, i, w.chats[c][i].id);
      var j :| HoldsAt(u.chats, c, j, w.chats[c][i].id) && Same(w.chats[c][i], u.chats[c][j]);
      assert MadeBy(u, order, c, j);
    }
  }

  lemma CancelledKeepsQueue(w: World, u: World)
    requires QueueOk(w) && StaysCancelled(w.states, u.states) && u.queue == w.queue && u.made == w.made
    ensures QueueOk(u)
  {
    forall k, o | 0 <= k < |u.queue| && u.queue[k].kind.Create? && u.queue[k].item != "" && o in u.made && u.made[o] == u.queue[k].item
      ensures Freed(u.states, u.queue, k, o)
    {
      assert Freed(w.states, w.queue, k, o);
    }
  }

  lemma OthersKeepInvariant(w: World, step: Step, u: World)
    requires Invariant(w) && Next(w, step, u) && step.Others?
    ensures Invariant(u)
  {
    OthersKeepCards(w, u);
  }

  lemma OthersKeepOneEach(w: World, step: Step, u: World)
    requires OneEach(w) && Next(w, step, u) && step.Others?
    ensures OneEach(u)
  {
    OthersKeepMade(w, u);
    CancelledKeepsQueue(w, u);
  }

  /******* A look *******/

  lemma QueueFromLook(w: World)
    requires w.ongoing.Some? && OngoingOk(w)
    ensures QueueOk(w)
  {
    if w.ongoing.value.look.started {
      var o := w.ongoing.value;
      forall k, order | 0 <= k < |w.queue| && w.queue[k].kind.Create? && w.queue[k].item != "" && order in w.made && w.made[order] == w.queue[k].item
        ensures Freed(w.states, w.queue, k, order)
      {
        assert HeldFor(w, o.start, order);
        if order in ClaimsOf(o.start, w.made[order]) { assert Freed(o.states, w.queue, k, order); }
      }
    }
  }

  lemma LookedSame(v: View, look: Look, stored: seq<Action>, continues: map<Order, int>)
    requires UniqueIds(stored)
    ensures var p := LookedAt(v, look, stored, continues);
      && |p.actions| == |stored| && HandedMarked(AllSettled(v, stored), p)
      && forall i :: 0 <= i < |stored| ==> Same(stored[i], p.actions[i])
  {
    HandedOnceInChat(v, look, stored, continues);
    var p := LookedAt(v, look, stored, continues);
    forall i | 0 <= i < |stored| ensures Same(stored[i], p.actions[i]) {
      assert OnlyMarked(AllSettled(v, stored)[i], p.actions[i]);
    }
  }

  lemma ChatUnique(chats: Chats, chat: string)
    requires UniqueAll(chats) && chat in chats
    ensures UniqueIds(chats[chat])
  {
    forall i, j | 0 <= i < j < |chats[chat]| ensures chats[chat][i].id != chats[chat][j].id {
      assert HoldsAt(chats, chat, i, chats[chat][i].id) && HoldsAt(chats, chat, j, chats[chat][j].id);
    }
  }

  // Two states of the chats, card by card.
  ghost predicate SameShape(before: Chats, after: Chats) {
    && after.Keys == before.Keys
    && forall c :: c in before ==> |after[c]| == |before[c]| && forall i :: 0 <= i < |before[c]| ==> Same(before[c][i], after[c][i])
  }

  lemma SameHolds(before: Chats, after: Chats, c: string, i: int, id: ActionId)
    requires SameShape(before, after)
    ensures HoldsAt(before, c, i, id) <==> HoldsAt(after, c, i, id)
    ensures HoldsAt(before, c, i, id) ==> Same(before[c][i], after[c][i])
  {
  }

  lemma SameUnique(before: Chats, after: Chats)
    requires SameShape(before, after) && UniqueAll(before)
    ensures UniqueAll(after)
  {
    forall c, i, d, j, id | HoldsAt(after, c, i, id) && HoldsAt(after, d, j, id) ensures c == d && i == j {
      SameHolds(before, after, c, i, id);
      SameHolds(before, after, d, j, id);
    }
  }

  lemma LookedShape(w: World, step: Step, u: World)
    requires CardsOk(w) && Next(w, step, u) && step.LookAtChat?
    ensures SameShape(w.chats, u.chats)
  {
    ChatUnique(w.chats, step.chat);
    LookedSame(step.v, w.ongoing.value.look, w.chats[step.chat], step.continues);
  }

  // What a look hands over was never handed over before, and has its card in the chat.
  lemma HandedIsNew(w: World, step: Step, u: World, k: nat)
    requires CardsOk(w) && GivenOk(w) && Next(w, step, u) && step.LookAtChat?
    requires var p := LookedAt(step.v, w.ongoing.value.look, w.chats[step.chat], step.continues); k < |p.handed|
    ensures var p := LookedAt(step.v, w.ongoing.value.look, w.chats[step.chat], step.continues);
      && p.handed[k].id !in w.given
      && exists i :: HoldsAt(u.chats, step.chat, i, p.handed[k].id) && u.chats[step.chat][i] == p.handed[k] && p.handed[k].autoTried
  {
    var stored := w.chats[step.chat];
    var p := LookedAt(step.v, w.ongoing.value.look, stored, step.continues);
    ChatUnique(w.chats, step.chat);
    LookedSame(step.v, w.ongoing.value.look, stored, step.continues);
    assert WasHanded(AllSettled(step.v, stored), p.actions, p.handed[k]);
    var i :| HandedAt(AllSettled(step.v, stored), p.actions, p.handed[k], i);
    assert HoldsAt(u.chats, step.chat, i, p.handed[k].id);
    assert !stored[i].autoTried && HoldsAt(w.chats, step.chat, i, p.handed[k].id) by { assert Same(stored[i], p.actions[i]); }
    assert p.handed[k].id in w.given ==> HasTried(w.chats, p.handed[k].id);
  }

  lemma {:induction false} IdsOfPlus(a: seq<Action>, b: seq<Action>)
    ensures IdsOf(a + b) == IdsOf(a) + IdsOf(b)
  {
    assert forall i :: 0 <= i < |a + b| ==> IdsOf(a + b)[i] == (IdsOf(a) + IdsOf(b))[i];
  }

  lemma LookKeepsCards(w: World, step: Step, u: World)
    requires CardsOk(w) && GivenOk(w) && Next(w, step, u) && step.LookAtChat?
    ensures CardsOk(u)
  {
    var p := LookedAt(step.v, w.ongoing.value.look, w.chats[step.chat], step.continues);
    LookedShape(w, step, u);
    SameUnique(w.chats, u.chats);
    IdsOfPlus(w.queue, p.handed);
    forall c, i, id | HoldsAt(u.chats, c, i, id) && id.StartOf? ensures id.create in u.given && id.create !in IdsOf(u.queue) {
      SameHolds(w.chats, u.chats, c, i, id);
      if id.create in IdsOf(p.handed) {
        var k :| 0 <= k < |p.handed| && IdsOf(p.handed)[k] == id.create;
        HandedIsNew(w, step, u, k);
      }
    }
  }

  lemma DistinctGrows(a: seq<ActionId>, b: seq<ActionId>)
    requires Distinct(a) && Distinct(b) && forall id :: id in b ==> id !in a
    ensures Distinct(a + b)
  {
    forall i, j | 0 <= i < j < |a + b| ensures (a + b)[i] != (a + b)[j] {
      if i < |a| <= j { assert b[j - |a|] in b; }
    }
  }

  lemma SuffixGrows(a: seq<ActionId>, queue: seq<ActionId>, b: seq<ActionId>)
    requires |queue| <= |a| && a[|a| - |queue|..] == queue
    ensures (a + b)[|a + b| - |queue + b|..] == queue + b
  {
    assert (a + b)[|a| - |queue|..] == a[|a| - |queue|..] + b;
  }

  // Handing over new actions, each with its tried card, to a queue that was all handed over.
  lemma GivenGrows(w: World, u: World, handed: seq<Action>)
    requires GivenOk(w) && u.queue == w.queue + handed && u.given == w.given + IdsOf(handed)
    requires forall i, j :: 0 <= i < j < |handed| ==> handed[i].id != handed[j].id
    requires forall k :: 0 <= k < |handed| ==> handed[k].id !in w.given && HasTried(u.chats, handed[k].id)
    requires forall id :: id in w.given ==> HasTried(u.chats, id)
    ensures GivenOk(u)
  {
    IdsOfPlus(w.queue, handed);
    forall id | id in IdsOf(handed) ensures id !in w.given && HasTried(u.chats, id) {
      var k :| 0 <= k < |handed| && IdsOf(handed)[k] == id;
    }
    assert Distinct(IdsOf(handed));
    DistinctGrows(w.given, IdsOf(handed));
    SuffixGrows(w.given, IdsOf(w.queue), IdsOf(handed));
  }

  lemma LookKeepsGiven(w: World, step: Step, u: World)
    requires CardsOk(w) && GivenOk(w) && Next(w, step, u) && step.LookAtChat?
    ensures GivenOk(u)
  {
    var stored := w.chats[step.chat];
    var p := LookedAt(step.v, w.ongoing.value.look, stored, step.continues);
    LookedShape(w, step, u);
    ChatUnique(w.chats, step.chat);
    LookedSame(step.v, w.ongoing.value.look, stored, step.continues);
    forall k | 0 <= k < |p.handed| ensures p.handed[k].id !in w.given && HasTried(u.chats, p.handed[k].id) {
      HandedIsNew(w, step, u, k);
    }
    forall id | id in w.given ensures HasTried(u.chats, id) {
      assert HasTried(w.chats, id);
      var c, i :| HoldsAt(w.chats, c, i, id) && w.chats[c][i].autoTried;
      SameHolds(w.chats, u.chats, c, i, id);
    }
    GivenGrows(w, u, p.handed);
  }

  lemma QueueCardsGrow(w: World, u: World, handed: seq<Action>)
    requires QueueCards(w) && SameShape(w.chats, u.chats) && UniqueAll(u.chats) && u.queue == w.queue + handed
    requires forall k :: 0 <= k < |handed| ==> exists c, i :: HoldsAt(u.chats, c, i, handed[k].id) && u.chats[c][i] == handed[k]
    ensures QueueCards(u)
  {
    forall k, c, i | 0 <= k < |u.queue| && HoldsAt(u.chats, c, i, u.queue[k].id)
      ensures u.chats[c][i].kind == u.queue[k].kind && u.chats[c][i].item == u.queue[k].item
    {
      SameHolds(w.chats, u.chats, c, i, u.queue[k].id);
      if k >= |w.queue| { assert u.queue[k] == handed[k - |w.queue|]; }
    }
  }

  lemma LookKeepsQueueCards(w: World, step: Step, u: World)
    requires CardsOk(w) && GivenOk(w) && QueueCards(w) && Next(w, step, u) && step.LookAtChat? && CardsOk(u)
    ensures QueueCards(u)
  {
    var p := LookedAt(step.v, w.ongoing.value.look, w.chats[step.chat], step.continues);
    LookedShape(w, step, u);
    forall k | 0 <= k < |p.handed| ensures exists c, i :: HoldsAt(u.chats, c, i, p.handed[k].id) && u.chats[c][i] == p.handed[k] {
      HandedIsNew(w, step, u, k);
    }
    QueueCardsGrow(w, u, p.handed);
  }

  lemma LookKeepsMade(w: World, step: Step, u: World)
    requires CardsOk(w) && MadeOk(w) && Next(w, step, u) && step.LookAtChat?
    ensures MadeOk(u)
  {
    LookedShape(w, step, u);
    forall order | order in u.made && order !in u.half ensures HasMaker(u, order) {
      assert HasMaker(w, order);
      var c, i :| MadeBy(w, order, c, i);
      SameHolds(w.chats, u.chats, c, i, w.chats[c][i].id);
      assert MadeBy(u, order, c, i);
    }
  }

  lemma LookedStarts(turn: Turn, look: Look)
    ensures var p := LookedAt(turn.v, look, turn.stored, turn.continues);
      if LooksInto(turn) then p.look.started else p.look == look && p.handed == []
  {
    if LooksInto(turn) {
      var actions := AllSettled(turn.v, turn.stored);
      TakenStarted(turn.v, Pass(Begun(turn.v, look, actions), actions, turn.continues, [], AnySettled(turn.v, turn.stored)), Ordered(actions));
    }
  }

  lemma {:induction false} TakenStarted(v: View, p: Pass, order: seq<nat>)
    requires forall k :: 0 <= k < |order| ==> order[k] < |p.actions|
    ensures Taken(v, p, order).look.started == p.look.started
  {
    if order != [] {
      TakenStarted(v, p, order[..|order| - 1]);
      TakeHands(v, Taken(v, p, order[..|order| - 1]), order[|order| - 1]);
    }
  }

  lemma MakerIsFound(w: World, chat: string, v: View, order: Order)
    requires Reads(w, chat, v) && order in w.made && HasMaker(w, order)
    ensures Found(v, AllSettled(v, w.chats[chat]), w.made[order], order)
  {
    var actions := AllSettled(v, w.chats[chat]);
    var c, i :| MadeBy(w, order, c, i);
    var card := w.chats[c][i];
    if c == chat { assert actions[i] == card; } else { assert HoldsAt(w.chats, c, i, card.id); }
    assert card in actions + v.elsewhere;
  }

  /** A look that begins holds every open work order made to its item exactly when it finds those
      that failed creates made. */
  lemma FindsExactly(w: World, chat: string, v: View, continues: map<Order, int>)
    requires MadeOk(w) && Reads(w, chat, v) && !w.ongoing.value.look.started
    ensures FindsHalf(w, LookAtChat(chat, v, continues)) <==>
      forall order :: order in w.made ==> HeldFor(w, Begun(v, NOTHING_SEEN, AllSettled(v, w.chats[chat])).claims, order)
  {
    forall order | order in w.made
      ensures order !in w.half ==> Found(v, AllSettled(v, w.chats[chat]), w.made[order], order)
      ensures HeldFor(w, Begun(v, NOTHING_SEEN, AllSettled(v, w.chats[chat])).claims, order) <==>
        w.made[order] == "" || Lookup(w.states, order) == Some(Cancelled) || Found(v, AllSettled(v, w.chats[chat]), w.made[order], order)
    {
      BegunClaims(v, NOTHING_SEEN, AllSettled(v, w.chats[chat]), w.made[order], order);
      if order !in w.half { MakerIsFound(w, chat, v, order); }
    }
  }

  lemma LookPasses(w: World, chat: string, v: View, continues: map<Order, int>)
    requires chat in w.chats && w.ongoing.Some? && OngoingOk(w) && !LooksInto(Turn(v, w.chats[chat], continues))
    ensures OngoingOk(Looked(w, chat, v, continues))
  {
    LookedStarts(Turn(v, w.chats[chat], continues), w.ongoing.value.look);
    assert w.queue + [] == w.queue;
  }

  lemma LookGoesOn(w: World, chat: string, v: View, continues: map<Order, int>)
    requires Reads(w, chat, v) && OngoingOk(w) && LooksInto(Turn(v, w.chats[chat], continues)) && w.ongoing.value.look.started
    ensures OngoingOk(Looked(w, chat, v, continues))
  {
    var o, turn := w.ongoing.value, Turn(v, w.chats[chat], continues);
    LookedStarts(turn, o.look);
    TurnKeepsLook(turn, o.look, o.start, o.floor, w.queue);
  }

  lemma LookBegins(w: World, chat: string, v: View, continues: map<Order, int>)
    requires MadeOk(w) && Reads(w, chat, v) && OngoingOk(w) && LooksInto(Turn(v, w.chats[chat], continues)) && !w.ongoing.value.look.started
    requires FindsHalf(w, LookAtChat(chat, v, continues))
    ensures OngoingOk(Looked(w, chat, v, continues))
  {
    var turn, actions := Turn(v, w.chats[chat], continues), AllSettled(v, w.chats[chat]);
    var begun := Begun(v, NOTHING_SEEN, actions);
    LookedStarts(turn, NOTHING_SEEN);
    BegunOk(v, NOTHING_SEEN, actions);
    TurnKeepsLook(turn, NOTHING_SEEN, begun.claims, begun.running, []);
    FindsExactly(w, chat, v, continues);
    var handed := LookedAt(v, NOTHING_SEEN, w.chats[chat], continues).handed;
    assert w.queue + handed == [] + handed;
  }

  lemma LookKeepsOngoing(w: World, step: Step, u: World)
    requires MadeOk(w) && w.ongoing.Some? && OngoingOk(w) && Next(w, step, u) && step.LookAtChat? && FindsHalf(w, step)
    ensures OngoingOk(u)
  {
    if !LooksInto(Turn(step.v, w.chats[step.chat], step.continues)) {
      LookPasses(w, step.chat, step.v, step.continues);
    } else if w.ongoing.value.look.started {
      LookGoesOn(w, step.chat, step.v, step.continues);
    } else {
      LookBegins(w, step.chat, step.v, step.continues);
    }
  }

  lemma LookKeepsInvariant(w: World, step: Step, u: World)
    requires Invariant(w) && Next(w, step, u) && step.LookAtChat?
    ensures Invariant(u)
  {
    LookKeepsCards(w, step, u);
    LookKeepsGiven(w, step, u);
    LookKeepsQueueCards(w, step, u);
  }

  lemma LookKeepsOneEach(w: World, step: Step, u: World)
    requires CardsOk(w) && OneEach(w) && Next(w, step, u) && step.LookAtChat? && FindsHalf(w, step)
    ensures OneEach(u)
  {
    LookKeepsMade(w, step, u);
    LookKeepsOngoing(w, step, u);
    QueueFromLook(u);
  }
}
