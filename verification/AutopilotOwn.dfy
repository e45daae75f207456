/** Whose work autopilot touches: over every look and every run, only work orders that are the
    assistant's own, were handed to it with the goal, or were made by an applied create. */
module AutopilotOwn {
  import opened Options
  import opened Proposals
  import opened Autopilot
  import opened AutopilotClaims
  import opened AutopilotRuns
  import opened AutopilotHistory
  import opened AutopilotSafety

  // A work order that autopilot may act on, by what the chats hold.
  ghost predicate Entrusted(v: View, cards: seq<Action>, order: Order) {
    || order in v.ours
    || (order != "" && v.goal.Some? && v.goal.value.status.GoalActive? && order in v.goal.value.handed)
    || exists a :: a in cards && a.kind.Create? && a.status.Applied? && a.order == order
  }

  // What the user must decide in any case: work thrown away, or a premium model.
  predicate UsersCall(v: View, action: Action) { action.premium || (action.kind.Recover? && action.backToReady && !v.builds) }

  // The work order an action acts on; what makes or starts something new acts on none.
  predicate ActsOn(action: Action, order: Order) {
    && action.order == order && order != ""
    && (action.kind.Start? || action.kind.ChangeModels? || action.kind.Continue? || action.kind.Recover? || action.kind.Close?
        || action.kind.AddItem? || action.kind.Brief?)
  }

  ghost predicate ItsOwn(v: View, cards: seq<Action>, action: Action) {
    forall order :: ActsOn(action, order) ==> Entrusted(v, cards, order)
  }

  // What may go on at this point of a look.
  ghost predicate MayGo(v: View, p: Pass, action: Action) {
    && ItsOwn(v, p.actions + v.elsewhere, action) && !UsersCall(v, action)
    && (action.kind.Continue? || action.kind.Recover? ==> Count(p.continues, action.order) < 8)
    && (action.kind.Create? && action.item != "" ==> !Claimed(v, p.look, action.item))
  }

  lemma MayActIs(v: View, actions: seq<Action>, order: Order)
    ensures MayAct(v, actions, order, v.ours) <==> Entrusted(v, actions + v.elsewhere, order)
  {
    var every := actions + v.elsewhere;
    if i :| 0 <= i < |every| && IsCreated(every[i]) && every[i].order == order { assert every[i] in every; }
    if a :| a in every && a.kind.Create? && a.status.Applied? && a.order == order {
      var i :| 0 <= i < |every| && every[i] == a;
    }
  }

  lemma LeftIs(v: View, p: Pass, action: Action)
    ensures LeftToUser(v, p, action) <==> !MayGo(v, p, action)
  {
    MayActIs(v, p.actions, Target(action));
    assert forall order :: ActsOn(action, order) <==> order == Target(action) != "";
  }

  /** An action that is not passed over is held, and stays untried; or it is tried, and handed over
      exactly when it is the assistant's own to do and no call of the user's, within its eight tries
      and unclaimed, and is left to the user otherwise. */
  lemma TakenExactly(v: View, p: Pass, i: nat)
    requires i < |p.actions| && !Skips(v, p, p.actions[i])
    ensures |Take(v, p, i).actions| == |p.actions|
    ensures var action, q := p.actions[i], Take(v, p, i);
      && (q.actions[i].autoTried <==> !Held(v, p.look.running, action, WaitOf(v, p, action)).later)
      && (q.actions[i].autoTried && MayGo(v, p, action) ==> q.handed == p.handed + [q.actions[i]])
      && (!(q.actions[i].autoTried && MayGo(v, p, action)) ==> q.handed == p.handed)
      && (q.actions[i].autoTried && !MayGo(v, p, action) ==> q.actions[i].leftForUser)
  {
    var action := p.actions[i];
    var h := Held(v, p.look.running, action, WaitOf(v, p, action));
    HeldSlots(v, p.look.running, action, WaitOf(v, p, action));
    LeftIs(v, p, h.action.(queued := false, autoTried := true));
    LeftIs(v, p, action);
    assert ActsAlike(action, h.action.(queued := false, autoTried := true));
    GoesAlike(v, p, action, h.action.(queued := false, autoTried := true));
  }

  // Two states of one card, but for its marks.
  predicate ActsAlike(a: Action, b: Action) {
    && b.kind == a.kind && b.order == a.order && b.item == a.item && b.premium == a.premium && b.backToReady == a.backToReady
    && b.status == a.status && b.id == a.id && b.title == a.title
  }

  lemma GoesAlike(v: View, p: Pass, a: Action, b: Action)
    requires ActsAlike(a, b)
    ensures MayGo(v, p, a) <==> MayGo(v, p, b)
  {
    assert forall order :: ActsOn(a, order) <==> ActsOn(b, order);
  }

  /******* One chat *******/

  predicate AlikeAll(before: seq<Action>, after: seq<Action>) {
    |after| == |before| && forall i :: 0 <= i < |before| ==> ActsAlike(before[i], after[i])
  }

  lemma EntrustedAlike(v: View, before: seq<Action>, after: seq<Action>, order: Order)
    requires AlikeAll(before, after)
    ensures Entrusted(v, before + v.elsewhere, order) <==> Entrusted(v, after + v.elsewhere, order)
  {
    if a :| a in before + v.elsewhere && a.kind.Create? && a.status.Applied? && a.order == order && a !in v.elsewhere {
      var i :| 0 <= i < |before| && before[i] == a;
      assert after[i] in after + v.elsewhere;
    }
    if a :| a in after + v.elsewhere && a.kind.Create? && a.status.Applied? && a.order == order && a !in v.elsewhere {
      var i :| 0 <= i < |after| && after[i] == a;
      assert before[i] in before + v.elsewhere;
    }
  }

  lemma OwnAlike(v: View, before: seq<Action>, after: seq<Action>, a: Action, b: Action)
    requires AlikeAll(before, after) && ActsAlike(a, b)
    ensures ItsOwn(v, before + v.elsewhere, a) <==> ItsOwn(v, after + v.elsewhere, b)
  {
    forall order ensures Entrusted(v, before + v.elsewhere, order) <==> Entrusted(v, after + v.elsewhere, order) {
      EntrustedAlike(v, before, after, order);
    }
    assert forall order :: ActsOn(a, order) <==> ActsOn(b, order);
  }

  // Everything handed over so far is the assistant's own to do.
  ghost predicate AllFit(v: View, cards: seq<Action>, handed: seq<Action>) {
    forall k :: 0 <= k < |handed| ==> ItsOwn(v, cards + v.elsewhere, handed[k]) && !UsersCall(v, handed[k])
  }

  lemma TakeAlike(v: View, p: Pass, i: nat)
    requires i < |p.actions|
    ensures var q := Take(v, p, i); |q.actions| == |p.actions| && q.actions == p.actions[i := q.actions[i]] && ActsAlike(p.actions[i], q.actions[i])
    ensures AlikeAll(p.actions, Take(v, p, i).actions)
  {
    HeldMarks(v, p, i);
  }

  lemma TakeFits(v: View, p: Pass, i: nat, cards: seq<Action>)
    requires i < |p.actions| && AlikeAll(cards, p.actions) && AllFit(v, cards, p.handed)
    ensures AlikeAll(cards, Take(v, p, i).actions) && AllFit(v, cards, Take(v, p, i).handed)
  {
    var q := Take(v, p, i);
    TakeAlike(v, p, i);
    if !Skips(v, p, p.actions[i]) {
      TakenExactly(v, p, i);
      OwnAlike(v, cards, p.actions, cards[i], p.actions[i]);
      OwnAlike(v, cards, cards, cards[i], q.actions[i]);
    }
  }

  lemma {:induction false} TakenFits(v: View, p: Pass, order: seq<nat>, cards: seq<Action>)
    requires forall k :: 0 <= k < |order| ==> order[k] < |p.actions|
    requires AlikeAll(cards, p.actions) && AllFit(v, cards, p.handed)
    ensures AlikeAll(cards, Taken(v, p, order).actions) && AllFit(v, cards, Taken(v, p, order).handed)
  {
    if order != [] {
      TakenFits(v, p, order[..|order| - 1], cards);
      TakeFits(v, Taken(v, p, order[..|order| - 1]), order[|order| - 1], cards);
    }
  }

  // Settling makes no card a create that was applied.
  lemma SettledMakesNone(v: View, stored: seq<Action>, order: Order)
    ensures Entrusted(v, AllSettled(v, stored) + v.elsewhere, order) <==> Entrusted(v, stored + v.elsewhere, order)
  {
    var actions := AllSettled(v, stored);
    forall i | 0 <= i < |stored| ensures IsCreated(actions[i]) <==> IsCreated(stored[i]) {
      assert actions[i] == Settled(v.goal, stored[i], v.states, v.blocked, v.canTell, v.now);
    }
    if a :| a in actions + v.elsewhere && a.kind.Create? && a.status.Applied? && a.order == order && a !in v.elsewhere {
      var i :| 0 <= i < |actions| && actions[i] == a;
      assert stored[i] in stored + v.elsewhere && stored[i].order == order;
    }
    if a :| a in stored + v.elsewhere && a.kind.Create? && a.status.Applied? && a.order == order && a !in v.elsewhere {
      var i :| 0 <= i < |stored| && stored[i] == a;
      assert actions[i] in actions + v.elsewhere && actions[i].order == order;
    }
  }

  /** Everything that a look hands over from a chat, and that acts on a work order, acts on one that is
      the assistant's own, was handed to it with the goal, or was made by an applied create of some
      chat; it throws no work away where the assistant does not build everything, and asks for no
      premium model. */
  lemma HandedIsItsOwn(v: View, look: Look, stored: seq<Action>, continues: map<Order, int>)
    ensures AllFit(v, stored, LookedAt(v, look, stored, continues).handed)
  {
    var actions := AllSettled(v, stored);
    if Active(v.goal) || v.builds || Answers(actions) {
      TakenFits(v, Pass(Begun(v, look, actions), actions, continues, [], AnySettled(v, stored)), Ordered(actions), actions);
      forall order ensures Entrusted(v, actions + v.elsewhere, order) <==> Entrusted(v, stored + v.elsewhere, order) { SettledMakesNone(v, stored, order); }
    }
  }

  /******* What is left to the user *******/

  lemma {:induction false} SortedHas(actions: seq<Action>, closes: bool, i: nat)
    requires i < |actions| && actions[i].kind.Close? == closes
    ensures i in Sorted(actions, closes)
  {
    if i < |actions| - 1 { SortedHas(actions[..|actions| - 1], closes, i); }
  }

  // Each action has one turn in a look at its chat.
  lemma OrderedOnce(actions: seq<Action>, i: nat) returns (k: nat)
    requires i < |actions|
    ensures k < |Ordered(actions)| && Ordered(actions)[k] == i
    ensures forall j :: 0 <= j < |Ordered(actions)| && j != k ==> Ordered(actions)[j] != i
  {
    var closes := actions[i].kind.Close?;
    SortedBounds(actions, true);
    SortedBounds(actions, false);
    SortedHas(actions, closes, i);
    var n := |Sorted(actions, true)|;
    var m :| 0 <= m < |Sorted(actions, closes)| && Sorted(actions, closes)[m] == i;
    k := if closes then m else n + m;
    assert forall j :: n <= j < |Ordered(actions)| ==> Ordered(actions)[j] == Sorted(actions, false)[j - n];
    assert forall j :: 0 <= j < n ==> Ordered(actions)[j] == Sorted(actions, true)[j];
  }

  ghost predicate NotHanded(handed: seq<Action>, id: ActionId) { forall k :: 0 <= k < |handed| ==> handed[k].id != id }

  // What was handed over since is other cards.
  ghost predicate AddsOthers(before: seq<Action>, after: seq<Action>, id: ActionId) {
    before <= after && forall k :: |before| <= k < |after| ==> after[k].id != id
  }

  // A pass after turns of others: the card is as it was, and slots only went.
  ghost predicate Passed(p: Pass, q: Pass, i: nat) {
    && i < |p.actions| == |q.actions| && q.actions[i] == p.actions[i] && p.look.running <= q.look.running
    && AlikeAll(p.actions, q.actions) && AddsOthers(p.handed, q.handed, p.actions[i].id)
  }

  lemma OtherTurn(v: View, p: Pass, i: nat, other: nat)
    requires i < |p.actions| && other < |p.actions| && other != i && UniqueIds(p.actions)
    ensures Passed(p, Take(v, p, other), i)
  {
    TakeAlike(v, p, other);
    TakeHands(v, p, other);
  }

  lemma PassedTwice(p: Pass, q: Pass, r: Pass, i: nat)
    requires Passed(p, q, i) && Passed(q, r, i)
    ensures Passed(p, r, i)
  {
  }

  lemma UniqueAlike(before: seq<Action>, after: seq<Action>)
    requires AlikeAll(before, after) && UniqueIds(before)
    ensures UniqueIds(after)
  {
    forall i, j | 0 <= i < j < |after| ensures after[i].id != after[j].id {
      assert ActsAlike(before[i], after[i]) && ActsAlike(before[j], after[j]);
    }
  }

  // Turns of other actions leave a card as it is and hand it not over, and slots only go.
  lemma {:induction false} OthersTurns(v: View, p: Pass, order: seq<nat>, i: nat)
    requires i < |p.actions| && UniqueIds(p.actions) && forall k :: 0 <= k < |order| ==> order[k] < |p.actions| && order[k] != i
    ensures Passed(p, Taken(v, p, order), i)
  {
    if order != [] {
      var init, last := order[..|order| - 1], order[|order| - 1];
      OthersTurns(v, p, init, i);
      var before := Taken(v, p, init);
      UniqueAlike(p.actions, before.actions);
      OtherTurn(v, before, i, last);
      PassedTwice(p, before, Take(v, before, last), i);
    }
  }

  lemma {:induction false} TakenInTwo(v: View, p: Pass, a: seq<nat>, b: seq<nat>)
    requires forall k :: 0 <= k < |a + b| ==> (a + b)[k] < |p.actions|
    requires (forall k :: 0 <= k < |a| ==> a[k] < |p.actions|) && (forall k :: 0 <= k < |b| ==> b[k] < |p.actions|)
    ensures Taken(v, p, a + b) == Taken(v, Taken(v, p, a), b)
  {
    if b == [] {
      assert a + b == a;
    } else {
      assert (a + b)[..|a + b| - 1] == a + b[..|b| - 1];
      TakenInTwo(v, p, a, b[..|b| - 1]);
    }
  }

  // The look as an action's turn finds it: its own card as it was, the others but for their marks.
  lemma TurnOf(v: View, p: Pass, i: nat) returns (before: Pass)
    requires i < |p.actions| && UniqueIds(p.actions) && p.handed == []
    ensures AlikeAll(p.actions, before.actions) && before.actions[i] == p.actions[i]
    ensures var q, done := Take(v, before, i), Taken(v, p, Ordered(p.actions));
      && |done.actions| == |q.actions| == |p.actions| && done.actions[i] == q.actions[i]
      && before.look.running <= q.look.running <= done.look.running
      && (q.handed == before.handed ==> NotHanded(done.handed, p.actions[i].id))
      && (q.handed == before.handed + [q.actions[i]] ==> q.actions[i] in done.handed)
  {
    var order := Ordered(p.actions);
    var k := OrderedOnce(p.actions, i);
    assert order == order[..k] + ([i] + order[k + 1..]);
    before := Taken(v, p, order[..k]);
    OthersTurns(v, p, order[..k], i);
    UniqueAlike(p.actions, before.actions);
    TakenInTwo(v, p, order[..k], [i] + order[k + 1..]);
    TakenInTwo(v, before, [i], order[k + 1..]);
    assert [i][..0] == [] && Taken(v, before, [i]) == Take(v, before, i);
    var q := Take(v, before, i);
    TakeHands(v, before, i);
    TakeAlike(v, before, i);
    UniqueAlike(before.actions, q.actions);
    OthersTurns(v, q, order[k + 1..], i);
    HandedInParts(before.handed, q.handed, Taken(v, q, order[k + 1..]).handed, q.actions[i]);
  }

  lemma HandedInParts(before: seq<Action>, handed: seq<Action>, all: seq<Action>, a: Action)
    requires NotHanded(before, a.id) && AddsOthers(handed, all, a.id)
    ensures handed == before ==> NotHanded(all, a.id)
    ensures handed == before + [a] ==> a in all
  {
    if handed == before + [a] { assert all[|before|] == a; }
  }

  predicate InGoalItems(v: View, item: Item) {
    v.goal.Some? && v.goal.value.status.GoalActive? && exists i :: 0 <= i < |v.goal.value.items| && v.goal.value.items[i].0 == item
  }

  lemma InItemsIs(v: View, item: Item)
    ensures InItems(v.goal, item) <==> InGoalItems(v, item)
  {
    if InGoalItems(v, item) {
      var i :| 0 <= i < |v.goal.value.items| && v.goal.value.items[i].0 == item;
      assert GoalItems(v.goal)[i].0 == item;
    }
  }

  // A proposed action that autopilot was asked for, and has not tried.
  predicate Asked(v: View, action: Action) {
    && action.status.Proposed? && !action.autoTried
    && match action.kind
       case Create => v.builds || InGoalItems(v, action.item)
       case Start => v.builds || action.order in GoalOrders(v.goal)
       case ChangeModels => v.builds || action.order in GoalOrders(v.goal)
       case Continue => v.builds || action.order in GoalOrders(v.goal)
       case Recover => v.builds || action.order in GoalOrders(v.goal)
       case AddItem => v.builds
       case StartAutopilot => v.builds && !Active(v.goal)
       case SetUp => v.builds
       case Brief => v.builds
       case SentAtOnce => true
       case _ => false
  }

  lemma AskedIsTaken(v: View, p: Pass, action: Action)
    requires Asked(v, action)
    ensures !Skips(v, p, action)
  {
    InItemsIs(v, action.item);
  }

  // Nothing holds an action that waits for no other work and for no slot.
  lemma UnheldGoesOn(v: View, running: nat, action: Action)
    requires running < SAFETY_CAP || !(action.kind.Start? && !action.plansEarly)
    ensures !Held(v, running, action, Free).later
  {
  }

  lemma {:induction false} FoundAlike(before: seq<Action>, after: seq<Action>, rest: seq<Action>, action: Action)
    requires AlikeAll(before, after)
    ensures var one, other := FindFollowed(before + rest, action), FindFollowed(after + rest, action);
      one.Some? == other.Some? && (one.Some? ==> (one.value == other.value || ActsAlike(one.value, other.value)))
  {
    if before == [] {
      assert before + rest == rest && after + rest == rest;
    } else {
      assert (before + rest)[1..] == before[1..] + rest && (after + rest)[1..] == after[1..] + rest;
      FoundAlike(before[1..], after[1..], rest, action);
    }
  }

  ghost predicate Fits(v: View, cards: seq<Action>, action: Action) {
    ItsOwn(v, cards + v.elsewhere, action) && !UsersCall(v, action)
  }

  // Neither other work nor a want of slots holds it; a create is held from starting only.
  ghost predicate NothingHolds(v: View, cards: seq<Action>, action: Action, slots: nat) {
    || action.kind.Create?
    || (WaitsFor(cards + v.elsewhere, action, v.titles, v.states).Free? && (slots < SAFETY_CAP || !action.kind.Start?))
  }

  // What a look makes of one action it was asked for.
  ghost predicate Decided(v: View, cards: seq<Action>, action: Action, p: Pass, i: nat)
    requires i < |p.actions|
  {
    var after := p.actions[i];
    && (NothingHolds(v, cards, action, p.look.running) ==> after.autoTried)
    && (!Fits(v, cards, action) ==> NotHanded(p.handed, action.id) && (after.autoTried ==> after.leftForUser))
    && (!after.autoTried ==> NotHanded(p.handed, action.id))
    && (Fits(v, cards, action) && after.autoTried && !action.kind.Create? && !action.kind.Continue? && !action.kind.Recover? ==>
         after in p.handed)
  }

  lemma TurnDecides(v: View, p: Pass, i: nat, done: Pass)
    requires i < |p.actions| && UniqueIds(p.actions) && p.handed == [] && Asked(v, p.actions[i])
    requires done == Taken(v, p, Ordered(p.actions))
    ensures Decided(v, p.actions, p.actions[i], done, i)
  {
    var action := p.actions[i];
    var before := TurnOf(v, p, i);
    AskedIsTaken(v, before, action);
    TakenExactly(v, before, i);
    OwnAlike(v, p.actions, before.actions, action, action);
    if NothingHolds(v, p.actions, action, done.look.running) {
      HeldNot(v, p, before, action);
    }
  }

  lemma HeldNot(v: View, p: Pass, before: Pass, action: Action)
    requires AlikeAll(p.actions, before.actions) && NothingHolds(v, p.actions, action, before.look.running)
    ensures !Held(v, before.look.running, action, WaitOf(v, before, action)).later
  {
    FoundAlike(p.actions, before.actions, v.elsewhere, action);
  }

  /** What becomes of an action that autopilot was asked for, in a look that goes into its chat: one that
      nothing holds is tried; one that is not the assistant's own, or is the user's call, is never handed
      over, and left to the user once tried; and any other is handed over when it is tried, but for
      the limits on creates and continues. */
  lemma LookDecides(v: View, look: Look, stored: seq<Action>, continues: map<Order, int>, i: nat)
    requires UniqueIds(stored) && i < |stored| && LooksInto(Turn(v, stored, continues)) && Asked(v, AllSettled(v, stored)[i])
    ensures |LookedAt(v, look, stored, continues).actions| == |stored|
    ensures Decided(v, AllSettled(v, stored), AllSettled(v, stored)[i], LookedAt(v, look, stored, continues), i)
  {
    var actions := AllSettled(v, stored);
    forall j, k | 0 <= j < k < |actions| ensures actions[j].id != actions[k].id { assert actions[j].id == stored[j].id; }
    var p := Pass(Begun(v, look, actions), actions, continues, [], AnySettled(v, stored));
    TurnDecides(v, p, i, Taken(v, p, Ordered(actions)));
  }

  /******* Every look, and every run *******/

  ghost predicate FitsTurn(turns: seq<Turn>, action: Action) {
    exists t :: 0 <= t < |turns| && ItsOwn(turns[t].v, turns[t].stored + turns[t].v.elsewhere, action) && !UsersCall(turns[t].v, action)
  }

  /** So it is over all the chats of a look. */
  lemma {:induction false} LookIsItsOwn(turns: seq<Turn>, k: nat)
    requires k < |HandedBy(turns)|
    ensures FitsTurn(turns, HandedBy(turns)[k])
  {
    var init, last := turns[..|turns| - 1], turns[|turns| - 1];
    if k < |HandedBy(init)| {
      LookIsItsOwn(init, k);
      var t :| 0 <= t < |init| && ItsOwn(init[t].v, init[t].stored + init[t].v.elsewhere, HandedBy(init)[k]) && !UsersCall(init[t].v, HandedBy(init)[k]);
      assert turns[t] == init[t];
    } else {
      HandedIsItsOwn(last.v, LookAfter(init), last.stored, last.continues);
    }
  }

  // A look handed an action over.
  ghost predicate TookUp(w: World, step: Step, action: Action) {
    && step.LookAtChat? && step.chat in w.chats && w.ongoing.Some?
    && action in LookedAt(step.v, w.ongoing.value.look, w.chats[step.chat], step.continues).handed
  }

  ghost predicate WasTakenUp(run: Run, n: nat, action: Action)
    requires n <= |run.steps| < |run.worlds|
  {
    exists m :: 0 <= m < n && TookUp(run.worlds[m], run.steps[m], action)
  }

  lemma QueueGrows(w: World, step: Step, u: World, k: nat)
    requires Next(w, step, u) && k < |u.queue|
    ensures TookUp(w, step, u.queue[k]) || u.queue[k] in w.queue
  {
  }

  lemma {:induction false} QueueFromLooks(run: Run, n: nat, k: nat)
    requires run.Valid() && n < |run.worlds| && k < |run.worlds[n].queue|
    ensures WasTakenUp(run, n, run.worlds[n].queue[k])
  {
    if n > 0 {
      var w, step, action := run.worlds[n - 1], run.steps[n - 1], run.worlds[n].queue[k];
      assert Next(w, step, run.worlds[n]);
      QueueGrows(w, step, run.worlds[n], k);
      if !TookUp(w, step, action) {
        var j :| 0 <= j < |w.queue| && w.queue[j] == action;
        QueueFromLooks(run, n - 1, j);
        var m :| 0 <= m < n - 1 && TookUp(run.worlds[m], run.steps[m], action);
      }
    }
  }

  // A look found an action the assistant's own to do.
  ghost predicate FoundFit(w: World, step: Step, action: Action) {
    && step.LookAtChat? && step.chat in w.chats
    && ItsOwn(step.v, w.chats[step.chat] + step.v.elsewhere, action) && !UsersCall(step.v, action)
  }

  /** Over every run, whatever autopilot applies was found, by a look before, to act on none but a work
      order of its own, one handed to it with the goal, or one that an applied create made, and to be
      no call of the user's. */
  lemma AppliesItsOwn(run: Run, n: nat)
    requires run.Valid() && n < |run.steps| && run.steps[n].Apply?
    ensures run.worlds[n].queue != [] && exists m :: 0 <= m < n && FoundFit(run.worlds[m], run.steps[m], run.worlds[n].queue[0])
  {
    assert Next(run.worlds[n], run.steps[n], run.worlds[n + 1]);
    var action := run.worlds[n].queue[0];
    QueueFromLooks(run, n, 0);
    var m :| 0 <= m < n && TookUp(run.worlds[m], run.steps[m], action);
    var w, step := run.worlds[m], run.steps[m];
    HandedIsItsOwn(step.v, w.ongoing.value.look, w.chats[step.chat], step.continues);
    assert FoundFit(w, step, action);
  }

  ghost predicate Trusts(w: World, step: Step, order: Order) {
    step.LookAtChat? && step.chat in w.chats && Entrusted(step.v, w.chats[step.chat] + step.v.elsewhere, order)
  }

  lemma AppliedElsewhere(w: World, step: Step, u: World, order: Order)
    requires Next(w, step, u) && step.Apply? && order in w.states && order != "" && !ActsOn(w.queue[0], order)
    ensures order in u.states && u.states[order] == w.states[order]
  {
  }

  /** So the user's own work order, which no look before found entrusted, is left in its state by
      whatever autopilot applies. */
  lemma UsersOrderUntouched(run: Run, n: nat, order: Order)
    requires run.Valid() && n < |run.steps| && run.steps[n].Apply? && order in run.worlds[n].states && order != ""
    requires forall m :: 0 <= m < n ==> !Trusts(run.worlds[m], run.steps[m], order)
    ensures order in run.worlds[n + 1].states && run.worlds[n + 1].states[order] == run.worlds[n].states[order]
  {
    AppliesItsOwn(run, n);
    assert Next(run.worlds[n], run.steps[n], run.worlds[n + 1]);
    var m :| 0 <= m < n && FoundFit(run.worlds[m], run.steps[m], run.worlds[n].queue[0]);
    assert !Trusts(run.worlds[m], run.steps[m], order);
    AppliedElsewhere(run.worlds[n], run.steps[n], run.worlds[n + 1], order);
  }
}
