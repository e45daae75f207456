/** Applying what a look handed over, and the guarantees over every run of autopilot. */
module AutopilotSafety {
  import opened Options
  import opened Proposals
  import opened Autopilot
  import opened AutopilotClaims
  import opened AutopilotRuns
  import opened AutopilotHistory

  /******* Applying the queue *******/

  lemma IdsOfTail(queue: seq<Action>)
    requires queue != []
    ensures IdsOf(queue[1..]) == IdsOf(queue)[1..]
  {
  }

  // Taking the first of the queue off leaves the rest handed over.
  lemma TailGiven(w: World, u: World)
    requires GivenOk(w) && w.queue != [] && u.queue == w.queue[1..] && u.given == w.given
    requires forall id :: id in w.given ==> HasTried(u.chats, id)
    ensures GivenOk(u)
    ensures w.queue[0].id !in IdsOf(u.queue)
  {
    IdsOfTail(w.queue);
    var n := |w.given| - |w.queue|;
    assert w.given[n + 1..] == w.given[n..][1..];
  }

  lemma AppliedSame(card: Action, create: bool, order: Order, how: How)
    requires card.status.Proposed? && create == card.kind.Create? && !how.Refused?
    ensures Same(card, AppliedCard(card, create, order, how))
  {
  }

  lemma CardHolds(chats: Chats, given: Action, home: string, at: nat, order: Order, how: How, c: string, i: int, id: ActionId)
    requires HoldsAt(chats, home, at, given.id) && chats[home][at].status.Proposed? && chats[home][at].kind == given.kind && !how.Refused?
    ensures var after := AppliedChats(chats, given, home, at, order, how);
      && (HoldsAt(chats, c, i, id) ==> HoldsAt(after, c, i, id) && Same(chats[c][i], after[c][i]))
      && (HoldsAt(after, c, i, id) ==> HoldsAt(chats, c, i, id) || (id == StartOf(given.id) && c == home && i == |chats[home]|))
  {
    AppliedSame(chats[home][at], given.kind.Create?, order, how);
    var after := AppliedChats(chats, given, home, at, order, how);
    if c == home && home in chats {
      assert after[home][at] == AppliedCard(chats[home][at], given.kind.Create?, order, how);
    }
  }

  // The cards after applying: the same, but for the one applied, and perhaps its queued start.
  lemma AppliedHolds(w: World, home: string, at: nat, order: Order, how: How, c: string, i: int, id: ActionId)
    requires QueueCards(w) && Applies(w, home, at, order, how)
    ensures var u := AppliedTo(w, home, at, order, how);
      && (HoldsAt(w.chats, c, i, id) ==> HoldsAt(u.chats, c, i, id) && Same(w.chats[c][i], u.chats[c][i]))
      && (HoldsAt(u.chats, c, i, id) ==>
           HoldsAt(w.chats, c, i, id) || (id == StartOf(w.queue[0].id) && c == home && i == |w.chats[home]|))
  {
    CardHolds(w.chats, w.queue[0], home, at, order, how, c, i, id);
  }

  // The start queued behind the first of the queue has no card yet.
  lemma StartIsNew(w: World, c: string, i: int)
    requires CardsOk(w) && w.queue != []
    ensures !HoldsAt(w.chats, c, i, StartOf(w.queue[0].id))
  {
    IdIn(w.queue, 0);
  }

  lemma AppliedKeepsCards(w: World, home: string, at: nat, order: Order, how: How)
    requires CardsOk(w) && GivenOk(w) && QueueCards(w) && Applies(w, home, at, order, how)
    ensures CardsOk(AppliedTo(w, home, at, order, how)) && GivenOk(AppliedTo(w, home, at, order, how))
  {
    var u := AppliedTo(w, home, at, order, how);
    forall id | id in w.given ensures HasTried(u.chats, id) {
      assert HasTried(w.chats, id);
      var c, i :| HoldsAt(w.chats, c, i, id) && w.chats[c][i].autoTried;
      AppliedHolds(w, home, at, order, how, c, i, id);
    }
    TailGiven(w, u);
    IdsOfTail(w.queue);
    forall c, i, d, j, id | HoldsAt(u.chats, c, i, id) && HoldsAt(u.chats, d, j, id) ensures c == d && i == j {
      AppliedHolds(w, home, at, order, how, c, i, id);
      AppliedHolds(w, home, at, order, how, d, j, id);
      if id == StartOf(w.queue[0].id) {
        StartIsNew(w, c, i);
        StartIsNew(w, d, j);
      }
    }
    QueueHasCards(w, 0);
    forall c, i, id | HoldsAt(u.chats, c, i, id) && id.StartOf? ensures id.create in u.given && id.create !in IdsOf(u.queue) {
      AppliedHolds(w, home, at, order, how, c, i, id);
    }
  }

  // Applying the first of the queue leaves the others' cards.
  lemma AppliedLeavesCard(w: World, home: string, at: nat, order: Order, how: How, k: nat, c: string, i: int)
    requires CardsOk(w) && GivenOk(w) && QueueCards(w) && Applies(w, home, at, order, how) && 0 < k < |w.queue|
    requires HoldsAt(AppliedTo(w, home, at, order, how).chats, c, i, w.queue[k].id)
    ensures HoldsAt(w.chats, c, i, w.queue[k].id) && AppliedTo(w, home, at, order, how).chats[c][i] == w.chats[c][i]
  {
    QueueHasCards(w, k);
    QueueDistinct(w, 0, k);
    var d, j :| HoldsAt(w.chats, d, j, w.queue[k].id);
    StartIsNew(w, d, j);
    AppliedHolds(w, home, at, order, how, c, i, w.queue[k].id);
  }

  lemma AppliedKeepsQueueCards(w: World, home: string, at: nat, order: Order, how: How)
    requires CardsOk(w) && GivenOk(w) && QueueCards(w) && Applies(w, home, at, order, how)
    ensures QueueCards(AppliedTo(w, home, at, order, how))
  {
    var u := AppliedTo(w, home, at, order, how);
    forall k, c, i | 0 <= k < |u.queue| && HoldsAt(u.chats, c, i, u.queue[k].id)
      ensures u.chats[c][i].kind == u.queue[k].kind && u.chats[c][i].item == u.queue[k].item
    {
      assert u.queue[k] == w.queue[k + 1];
      AppliedLeavesCard(w, home, at, order, how, k + 1, c, i);
    }
  }

  // A create is applied only once every other work order made for its item is cancelled.
  lemma FirstIsFree(w: World, o: Order)
    requires QueueOk(w) && w.queue != [] && w.queue[0].kind.Create? && w.queue[0].item != ""
    requires o in w.made && w.made[o] == w.queue[0].item
    ensures Lookup(w.states, o) == Some(Cancelled)
  {
    assert Freed(w.states, w.queue, 0, o);
  }

  lemma AppliedKeepsMakers(w: World, home: string, at: nat, order: Order, how: How, o: Order)
    requires MadeOk(w) && QueueCards(w) && Applies(w, home, at, order, how)
    requires var u := AppliedTo(w, home, at, order, how); o in u.made && o !in u.half
    ensures HasMaker(AppliedTo(w, home, at, order, how), o)
  {
    var u := AppliedTo(w, home, at, order, how);
    if o in w.made {
      assert HasMaker(w, o);
      var c, i :| MadeBy(w, o, c, i);
      AppliedHolds(w, home, at, order, how, c, i, w.chats[c][i].id);
      assert MadeBy(u, o, c, i);
    } else {
      assert HoldsAt(w.chats, home, at, w.queue[0].id);
      assert MadeBy(u, o, home, at);
    }
  }

  lemma AppliedOneOpen(w: World, home: string, at: nat, order: Order, how: How, o: Order, p: Order)
    requires MadeOk(w) && QueueOk(w) && Applies(w, home, at, order, how) && o != p
    requires var u := AppliedTo(w, home, at, order, how);
      o in w.made && p in u.made && w.made[o] == u.made[p] != ""
    ensures var u := AppliedTo(w, home, at, order, how);
      Lookup(u.states, o) == Some(Cancelled) || (p in w.made && Lookup(u.states, p) == Some(Cancelled))
  {
    if p !in w.made { FirstIsFree(w, o); }
  }

  lemma AppliedKeepsMade(w: World, home: string, at: nat, order: Order, how: How)
    requires MadeOk(w) && QueueOk(w) && QueueCards(w) && Applies(w, home, at, order, how)
    ensures MadeOk(AppliedTo(w, home, at, order, how))
  {
    var u := AppliedTo(w, home, at, order, how);
    forall o | o in u.made && o !in u.half ensures HasMaker(u, o) { AppliedKeepsMakers(w, home, at, order, how, o); }
    forall o, p | o in u.made && p in u.made && o != p && u.made[o] == u.made[p] != ""
      ensures Lookup(u.states, o) == Some(Cancelled) || Lookup(u.states, p) == Some(Cancelled)
    {
      if o in w.made { AppliedOneOpen(w, home, at, order, how, o, p); } else { AppliedOneOpen(w, home, at, order, how, p, o); }
    }
  }

  lemma FreedLater(w: World, u: World, k: nat, o: Order)
    requires w.queue != [] && u.queue == w.queue[1..] && k < |u.queue| && Freed(w.states, w.queue, k + 1, o)
    requires Lookup(w.states, o) == Some(Cancelled) ==> Lookup(u.states, o) == Some(Cancelled)
    requires w.queue[0].kind.Close? && w.queue[0].order == o ==> Lookup(u.states, o) == Some(Cancelled)
    ensures Freed(u.states, u.queue, k, o)
  {
    if Lookup(w.states, o) != Some(Cancelled) {
      var q :| 0 <= q < k + 1 && w.queue[q].kind.Close? && w.queue[q].order == o;
      assert q > 0 ==> u.queue[q - 1] == w.queue[q];
    }
  }

  // The rest of the queue stays as it may be applied, whether or not its first was.
  lemma TailQueueOk(w: World, u: World)
    requires QueueOk(w) && w.queue != [] && u.queue == w.queue[1..]
    requires forall o :: o in w.made && Lookup(w.states, o) == Some(Cancelled) ==> Lookup(u.states, o) == Some(Cancelled)
    requires w.queue[0].kind.Close? ==> Lookup(u.states, w.queue[0].order) == Some(Cancelled)
    requires forall o :: o in u.made ==>
      (o in w.made && w.made[o] == u.made[o]) || (w.queue[0].kind.Create? && u.made[o] == w.queue[0].item)
    ensures QueueOk(u)
  {
    forall j, k | 0 <= j < k < |u.queue| && u.queue[j].kind.Create? && u.queue[k].kind.Create? && u.queue[k].item != ""
      ensures u.queue[j].item != u.queue[k].item
    {
      assert u.queue[j] == w.queue[j + 1] && u.queue[k] == w.queue[k + 1];
    }
    forall k, o | 0 <= k < |u.queue| && u.queue[k].kind.Create? && u.queue[k].item != "" && o in u.made && u.made[o] == u.queue[k].item
      ensures Freed(u.states, u.queue, k, o)
    {
      assert u.queue[k] == w.queue[k + 1];
      if o in w.made && w.made[o] == u.made[o] {
        assert Freed(w.states, w.queue, k + 1, o);
        FreedLater(w, u, k, o);
      }
    }
  }

  lemma MakersStay(w: World, u: World)
    requires MadeOk(w) && u.chats == w.chats && u.made == w.made && u.half == w.half
    requires StaysCancelled(w.states, u.states)
    ensures MadeOk(u)
  {
    forall order | order in u.made && order !in u.half ensures HasMaker(u, order) {
      assert HasMaker(w, order);
      var c, i :| MadeBy(w, order, c, i);
      assert MadeBy(u, order, c, i);
    }
  }

  lemma OneCardHolds(chats: Chats, home: string, at: nat, card: Action, c: string, i: int, id: ActionId)
    requires home in chats && at < |chats[home]| && card.id == chats[home][at].id
    ensures var after := chats[home := chats[home][at := card]];
      && (HoldsAt(chats, c, i, id) <==> HoldsAt(after, c, i, id))
      && (HoldsAt(chats, c, i, id) ==> after[c][i] == if c == home && i == at then card else chats[c][i])
  {
  }

  // Refusing the first of the queue marks its card and changes no other.
  lemma RefusedHolds(w: World, home: string, at: nat, how: How, c: string, i: int, id: ActionId)
    requires w.queue != [] && HoldsAt(w.chats, home, at, w.queue[0].id)
    ensures var u := RefusedTo(w, home, at, how);
      && (HoldsAt(w.chats, c, i, id) <==> HoldsAt(u.chats, c, i, id))
      && (HoldsAt(w.chats, c, i, id) ==> u.chats[c][i] == if id == w.queue[0].id && c == home && i == at then RefusedCard(w.chats[c][i], how) else w.chats[c][i])
  {
    OneCardHolds(w.chats, home, at, RefusedCard(w.chats[home][at], how), c, i, id);
  }

  lemma RefusedKeepsInvariant(w: World, home: string, at: nat, how: How)
    requires Invariant(w) && w.queue != [] && HoldsAt(w.chats, home, at, w.queue[0].id)
    ensures Invariant(RefusedTo(w, home, at, how))
  {
    var u := RefusedTo(w, home, at, how);
    forall id | id in w.given ensures HasTried(u.chats, id) {
      assert HasTried(w.chats, id);
      var c, i :| HoldsAt(w.chats, c, i, id) && w.chats[c][i].autoTried;
      RefusedHolds(w, home, at, how, c, i, id);
    }
    TailGiven(w, u);
    IdsOfTail(w.queue);
    forall c, i, id | HoldsAt(u.chats, c, i, id) ensures HoldsAt(w.chats, c, i, id) { RefusedHolds(w, home, at, how, c, i, id); }
    forall k, c, i | 0 <= k < |u.queue| && HoldsAt(u.chats, c, i, u.queue[k].id)
      ensures u.chats[c][i].kind == u.queue[k].kind && u.chats[c][i].item == u.queue[k].item
    {
      assert u.queue[k] == w.queue[k + 1];
      RefusedHolds(w, home, at, how, c, i, u.queue[k].id);
    }
  }

  lemma RefusedKeepsMade(w: World, home: string, at: nat, how: How)
    requires MadeOk(w) && w.queue != [] && HoldsAt(w.chats, home, at, w.queue[0].id)
    ensures MadeOk(RefusedTo(w, home, at, how))
  {
    var u := RefusedTo(w, home, at, how);
    forall order | order in u.made && order !in u.half ensures HasMaker(u, order) {
      assert HasMaker(w, order);
      var c, i :| MadeBy(w, order, c, i);
      RefusedHolds(w, home, at, how, c, i, w.chats[c][i].id);
      assert MadeBy(u, order, c, i);
    }
  }

  lemma ApplyKeepsQueue(w: World, step: Step, u: World)
    requires QueueOk(w) && Next(w, step, u) && step.Apply? && Closes(w, step)
    ensures QueueOk(u)
  {
    TailQueueOk(w, u);
  }

  lemma ApplyKeepsInvariant(w: World, step: Step, u: World)
    requires Invariant(w) && Next(w, step, u) && step.Apply?
    ensures Invariant(u)
  {
    if step.how.Refused? {
      RefusedKeepsInvariant(w, step.home, step.at, step.how);
    } else {
      AppliedKeepsCards(w, step.home, step.at, step.order, step.how);
      AppliedKeepsQueueCards(w, step.home, step.at, step.order, step.how);
    }
  }

  lemma ApplyKeepsOneEach(w: World, step: Step, u: World)
    requires QueueCards(w) && OneEach(w) && Next(w, step, u) && step.Apply? && Closes(w, step)
    ensures OneEach(u)
  {
    ApplyKeepsQueue(w, step, u);
    if step.how.Refused? {
      RefusedKeepsMade(w, step.home, step.at, step.how);
    } else {
      AppliedKeepsMade(w, step.home, step.at, step.order, step.how);
    }
  }

  /******* Every run *******/

  lemma CardsStay(w: World, u: World)
    requires Invariant(w) && u.chats == w.chats && u.given == w.given && (u.queue == w.queue || u.queue == [])
    ensures Invariant(u)
  {
  }

  lemma RestKeepsInvariant(w: World, step: Step, u: World)
    requires Invariant(w) && Next(w, step, u) && (step.BeginLook? || step.EndLook? || step.Stop? || step.Release?)
    ensures Invariant(u)
  {
    CardsStay(w, u);
  }

  lemma RestKeepsOneEach(w: World, step: Step, u: World)
    requires OneEach(w) && Next(w, step, u) && (step.BeginLook? || step.EndLook? || step.Stop? || step.Release?)
    ensures OneEach(u)
  {
    MakersStay(w, u);
    if step.Release? { CancelledKeepsQueue(w, u); }
  }

  lemma StepKeepsInvariant(w: World, step: Step, u: World)
    requires Invariant(w) && Next(w, step, u)
    ensures Invariant(u)
  {
    match step
    case Others(_, _, _) => OthersKeepInvariant(w, step, u);
    case LookAtChat(_, _, _) => LookKeepsInvariant(w, step, u);
    case Apply(_, _, _, _) => ApplyKeepsInvariant(w, step, u);
    case _ => RestKeepsInvariant(w, step, u);
  }

  lemma StepKeepsOneEach(w: World, step: Step, u: World)
    requires Invariant(w) && OneEach(w) && Next(w, step, u) && Sound(w, step)
    ensures OneEach(u)
  {
    match step
    case Others(_, _, _) => OthersKeepOneEach(w, step, u);
    case LookAtChat(_, _, _) => LookKeepsOneEach(w, step, u);
    case Apply(_, _, _, _) => ApplyKeepsOneEach(w, step, u);
    case _ => RestKeepsOneEach(w, step, u);
  }

  datatype Run = Run(worlds: seq<World>, steps: seq<Step>)
  {
    ghost predicate Valid() {
      && |worlds| == |steps| + 1 && Init(worlds[0])
      && forall n {:trigger steps[n]} :: 0 <= n < |steps| ==> Next(worlds[n], steps[n], worlds[n + 1])
    }
  }

  lemma InitHolds(w: World)
    requires Init(w)
    ensures Invariant(w) && OneEach(w)
  {
  }

  lemma RunKeepsInvariant(run: Run, m: nat)
    requires run.Valid() && m < |run.steps| && Invariant(run.worlds[m])
    ensures Invariant(run.worlds[m + 1])
  {
    assert Next(run.worlds[m], run.steps[m], run.worlds[m + 1]);
    StepKeepsInvariant(run.worlds[m], run.steps[m], run.worlds[m + 1]);
  }

  lemma {:induction false} Reachable(run: Run, n: nat)
    requires run.Valid() && n < |run.worlds|
    ensures Invariant(run.worlds[n])
  {
    if n == 0 {
      InitHolds(run.worlds[0]);
    } else {
      Reachable(run, n - 1);
      RunKeepsInvariant(run, n - 1);
    }
  }

  lemma RunKeepsOneEach(run: Run, m: nat)
    requires run.Valid() && m < |run.steps| && OneEach(run.worlds[m]) && Sound(run.worlds[m], run.steps[m])
    ensures OneEach(run.worlds[m + 1])
  {
    Reachable(run, m);
    assert Next(run.worlds[m], run.steps[m], run.worlds[m + 1]);
    StepKeepsOneEach(run.worlds[m], run.steps[m], run.worlds[m + 1]);
  }

  lemma {:induction false} OneEachReachable(run: Run, n: nat)
    requires run.Valid() && n < |run.worlds| && forall m :: 0 <= m < n ==> Sound(run.worlds[m], run.steps[m])
    ensures OneEach(run.worlds[n])
  {
    if n == 0 {
      InitHolds(run.worlds[0]);
    } else {
      OneEachReachable(run, n - 1);
      RunKeepsOneEach(run, n - 1);
    }
  }

  // A vision item has two work orders from autopilot's creates, neither of them cancelled.
  ghost predicate TwoOpen(w: World, o: Order, p: Order) {
    && o in w.made && p in w.made && o != p && w.made[o] == w.made[p] != ""
    && Lookup(w.states, o) != Some(Cancelled) && Lookup(w.states, p) != Some(Cancelled)
  }

  /** Over all looks a vision item never has two open work orders from autopilot's creates (all but
      one of them are cancelled), as long as no close is refused and every look finds each open one
      that a create made and then failed among its goal's items. */
  lemma NeverTwoOpen(run: Run, n: nat, o: Order, p: Order)
    requires run.Valid() && n < |run.worlds| && forall m :: 0 <= m < n ==> Sound(run.worlds[m], run.steps[m])
    ensures !TwoOpen(run.worlds[n], o, p)
  {
    OneEachReachable(run, n);
  }

  // A create that makes a work order finds every other one made for its item cancelled.
  ghost predicate MakesAlone(w: World, step: Step) {
    step.Apply? && !step.how.Refused? && w.queue != [] && w.queue[0].kind.Create? && w.queue[0].item != "" ==>
      forall o :: o in w.made && w.made[o] == w.queue[0].item ==> Lookup(w.states, o) == Some(Cancelled)
  }

  ghost predicate NoneTwoOpen(w: World) { forall o, p :: !TwoOpen(w, o, p) }

  lemma StepStaysCancelled(w: World, step: Step, u: World)
    requires Next(w, step, u)
    ensures StaysCancelled(w.states, u.states)
  {
  }

  lemma StepMakes(w: World, step: Step, u: World)
    requires Next(w, step, u)
    ensures if step.Apply? && !step.how.Refused? && w.queue[0].kind.Create?
      then u.made == w.made[step.order := w.queue[0].item] && step.order !in w.made && Lookup(u.states, step.order) != Some(Cancelled)
           && forall o :: o in w.made ==> Lookup(u.states, o) == Lookup(w.states, o)
      else u.made == w.made
  {
  }

  lemma AlongsideIsTwo(w: World, step: Step, u: World)
    requires Next(w, step, u) && !MakesAlone(w, step)
    ensures !NoneTwoOpen(u)
  {
    StepMakes(w, step, u);
    var o :| o in w.made && w.made[o] == w.queue[0].item && Lookup(w.states, o) != Some(Cancelled);
    assert TwoOpen(u, o, step.order);
  }

  lemma AloneIsOne(w: World, step: Step, u: World, o: Order, p: Order)
    requires Next(w, step, u) && MakesAlone(w, step) && !TwoOpen(w, o, p)
    ensures !TwoOpen(u, o, p)
  {
    StepMakes(w, step, u);
    StepStaysCancelled(w, step, u);
  }

  lemma StepTwoOpen(w: World, step: Step, u: World)
    requires Next(w, step, u) && NoneTwoOpen(w)
    ensures NoneTwoOpen(u) <==> MakesAlone(w, step)
  {
    if MakesAlone(w, step) {
      forall o, p ensures !TwoOpen(u, o, p) { AloneIsOne(w, step, u, o, p); }
    } else {
      AlongsideIsTwo(w, step, u);
    }
  }

  lemma RunTwoOpen(run: Run, m: nat)
    requires run.Valid() && m < |run.steps|
    ensures NoneTwoOpen(run.worlds[m]) ==> (NoneTwoOpen(run.worlds[m + 1]) <==> MakesAlone(run.worlds[m], run.steps[m]))
  {
    assert Next(run.worlds[m], run.steps[m], run.worlds[m + 1]);
    if NoneTwoOpen(run.worlds[m]) { StepTwoOpen(run.worlds[m], run.steps[m], run.worlds[m + 1]); }
  }

  ghost predicate NoneThrough(worlds: seq<World>, n: nat)
    requires n < |worlds|
  {
    forall k :: 0 <= k <= n ==> NoneTwoOpen(worlds[k])
  }

  ghost predicate AloneBefore(worlds: seq<World>, steps: seq<Step>, n: nat)
    requires n <= |steps| < |worlds|
  {
    forall m :: 0 <= m < n ==> MakesAlone(worlds[m], steps[m])
  }

  /** Through the n-th state no item has two open work orders exactly when each create that made one
      found every other of its item cancelled. */
  lemma {:induction false} NeverTwoOpenExact(run: Run, n: nat)
    requires run.Valid() && n < |run.worlds|
    ensures NoneThrough(run.worlds, n) <==> AloneBefore(run.worlds, run.steps, n)
  {
    if n == 0 {
      assert NoneTwoOpen(run.worlds[0]);
    } else {
      NeverTwoOpenExact(run, n - 1);
      RunTwoOpen(run, n - 1);
      ThroughOneMore(run.worlds, run.steps, n - 1);
    }
  }

  lemma ThroughOneMore(worlds: seq<World>, steps: seq<Step>, n: nat)
    requires n < |steps| < |worlds|
    ensures NoneThrough(worlds, n + 1) <==> NoneThrough(worlds, n) && NoneTwoOpen(worlds[n + 1])
    ensures AloneBefore(worlds, steps, n + 1) <==> AloneBefore(worlds, steps, n) && MakesAlone(worlds[n], steps[n])
  {
  }

  /** Over every run each action is handed over at most once, and stays marked as tried. */
  lemma HandedOnce(run: Run, n: nat, j: nat, k: nat)
    requires run.Valid() && n < |run.worlds| && j < k < |run.worlds[n].given|
    ensures run.worlds[n].given[j] != run.worlds[n].given[k]
    ensures forall c, i :: HoldsAt(run.worlds[n].chats, c, i, run.worlds[n].given[j]) ==> run.worlds[n].chats[c][i].autoTried
  {
    Reachable(run, n);
    assert HasTried(run.worlds[n].chats, run.worlds[n].given[j]);
  }

}
