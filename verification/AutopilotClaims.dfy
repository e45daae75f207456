/** What a whole look keeps, over all its chats: one create per vision item, none for an item
    whose work order stays open, no more work than the cap allows, and nothing taken up twice. */
module AutopilotClaims {
  import opened Options
  import opened Proposals
  import opened Autopilot

  /******* The look, chat by chat *******/

  // One chat's turn of a look: what it read, and the chat as it was stored.
  datatype Turn = Turn(v: View, stored: seq<Action>, continues: map<Order, int>)

  ghost function LookAfter(turns: seq<Turn>): Look {
    if turns == [] then NOTHING_SEEN
    else
      var last := turns[|turns| - 1];
      LookedAt(last.v, LookAfter(turns[..|turns| - 1]), last.stored, last.continues).look
  }

  // Everything a look hands over, in the order it is applied.
  ghost function HandedBy(turns: seq<Turn>): seq<Action> {
    if turns == [] then []
    else
      var last := turns[|turns| - 1];
      HandedBy(turns[..|turns| - 1]) + LookedAt(last.v, LookAfter(turns[..|turns| - 1]), last.stored, last.continues).handed
  }

  // The work order states are read once a look.
  ghost predicate SameStates(turns: seq<Turn>, states: map<Order, State>) {
    forall k :: 0 <= k < |turns| ==> turns[k].v.states == states
  }

  /******* What handing over keeps *******/

  predicate ClosedBefore(handed: seq<Action>, end: nat, order: Order)
    requires end <= |handed|
  {
    exists k :: 0 <= k < end && handed[k].kind.Close? && handed[k].order == order
  }

  // A work order that no longer holds its item: cancelled, or closed earlier in the look.
  predicate Freed(states: map<Order, State>, handed: seq<Action>, end: nat, order: Order)
    requires end <= |handed|
  {
    Lookup(states, order) == Some(Cancelled) || ClosedBefore(handed, end, order)
  }

  function SlotsTaken(handed: seq<Action>): nat {
    if handed == [] then 0
    else
      var last := handed[|handed| - 1];
      SlotsTaken(handed[..|handed| - 1]) + if TakesSlot(last, last.holdStart) then 1 else 0
  }

  // start holds what was claimed when the look began, and floor the work that ran then.
  ghost predicate ClaimsKept(states: map<Order, State>, start: map<Item, seq<Order>>, look: Look, handed: seq<Action>) {
    && (forall k :: 0 <= k < |handed| && handed[k].kind.Create? ==> "" in ClaimsOf(look.claims, handed[k].item))
    && (forall item, order :: order in ClaimsOf(start, item) ==> order in ClaimsOf(look.claims, item))
    && (forall order :: order in look.closing ==> ClosedBefore(handed, |handed|, order))
  }

  ghost predicate OneCreateEach(states: map<Order, State>, start: map<Item, seq<Order>>, handed: seq<Action>) {
    && (forall j, k :: 0 <= j < k < |handed| && handed[j].kind.Create? && handed[k].kind.Create? && handed[k].item != "" ==>
         handed[j].item != handed[k].item)
    && (forall k, order :: 0 <= k < |handed| && handed[k].kind.Create? && handed[k].item != "" && order in ClaimsOf(start, handed[k].item) ==>
         order != "" && Freed(states, handed, k, order))
  }

  predicate SlotsKept(floor: nat, look: Look, handed: seq<Action>) {
    floor + SlotsTaken(handed) <= look.running && look.running <= (if floor < SAFETY_CAP then SAFETY_CAP else floor)
  }

  ghost predicate LookOk(states: map<Order, State>, start: map<Item, seq<Order>>, floor: nat, look: Look, handed: seq<Action>) {
    ClaimsKept(states, start, look, handed) && OneCreateEach(states, start, handed) && SlotsKept(floor, look, handed)
  }

  lemma ClaimAdds(claims: map<Item, seq<Order>>, item: Item, order: Order)
    ensures order in ClaimsOf(Claim(claims, item, order), item)
    ensures forall i, o :: o in ClaimsOf(claims, i) ==> o in ClaimsOf(Claim(claims, item, order), i)
  {
    assert ClaimsOf(Claim(claims, item, order), item)[|ClaimsOf(claims, item)|] == order;
  }

  lemma UnclaimedIsFree(v: View, start: map<Item, seq<Order>>, look: Look, handed: seq<Action>, item: Item)
    requires ClaimsKept(v.states, start, look, handed) && !Claimed(v, look, item)
    ensures forall k :: 0 <= k < |handed| && handed[k].kind.Create? ==> handed[k].item != item
    ensures forall order :: order in ClaimsOf(start, item) ==> order != "" && Freed(v.states, handed, |handed|, order)
  {
    forall order | order in ClaimsOf(look.claims, item) ensures !Open(v, look, order) {
      var i :| 0 <= i < |ClaimsOf(look.claims, item)| && ClaimsOf(look.claims, item)[i] == order;
    }
  }

  lemma FreedStays(states: map<Order, State>, handed: seq<Action>, more: seq<Action>, end: nat, order: Order)
    requires end <= |handed|
    ensures Freed(states, handed + more, end, order) == Freed(states, handed, end, order)
  {
    assert forall k :: 0 <= k < end ==> (handed + more)[k] == handed[k];
  }

  lemma HandingKeepsClaims(v: View, start: map<Item, seq<Order>>, look: Look, handed: seq<Action>, given: Action, after: Look)
    requires ClaimsKept(v.states, start, look, handed)
    requires after.claims == if given.kind.Create? then Claim(look.claims, given.item, "") else look.claims
    requires after.closing == if given.kind.Close? then look.closing + {given.order} else look.closing
    ensures ClaimsKept(v.states, start, after, handed + [given])
  {
    var all := handed + [given];
    ClaimAdds(look.claims, given.item, "");
    forall order | order in after.closing ensures ClosedBefore(all, |all|, order) {
      if order in look.closing {
        var k :| 0 <= k < |handed| && handed[k].kind.Close? && handed[k].order == order;
        assert all[k] == handed[k];
      } else {
        assert all[|handed|] == given;
      }
    }
  }

  lemma HandingKeepsCreates(v: View, start: map<Item, seq<Order>>, look: Look, handed: seq<Action>, given: Action)
    requires ClaimsKept(v.states, start, look, handed) && OneCreateEach(v.states, start, handed)
    requires given.kind.Create? && given.item != "" ==> !Claimed(v, look, given.item)
    ensures OneCreateEach(v.states, start, handed + [given])
  {
    var all := handed + [given];
    if given.kind.Create? && given.item != "" { UnclaimedIsFree(v, start, look, handed, given.item); }
    forall k, order | 0 <= k < |all| && all[k].kind.Create? && all[k].item != "" && order in ClaimsOf(start, all[k].item)
      ensures order != "" && Freed(v.states, all, k, order)
    {
      FreedStays(v.states, handed, [given], k, order);
    }
  }

  lemma SlotsOfOneMore(handed: seq<Action>, given: Action)
    ensures SlotsTaken(handed + [given]) == SlotsTaken(handed) + if TakesSlot(given, given.holdStart) then 1 else 0
  {
    assert (handed + [given])[..|handed|] == handed;
  }

  // Holding an action changes its two marks for it only.
  predicate Marked(before: Action, after: Action) {
    after == before.(queued := after.queued, plansEarly := after.plansEarly)
  }

  lemma FollowedMarks(v: View, running: nat, action: Action, waiting: Waiting)
    ensures Marked(action, Followed(v, running, action, waiting).action)
    ensures Followed(v, running, action, waiting).running == running
  {
    var f := Followed(v, running, action, waiting);
    if waiting.Free? || action.kind.Create? {
      assert f.action == action;
    } else {
      assert f.action == if MayPlanEarly(v, action, waiting) then action.(plansEarly := true) else action.(queued := true);
    }
  }

  lemma SlottedMarks(h: Hold)
    ensures Marked(h.action, Slotted(h).action)
    ensures Slotted(h).running == h.running + if !Slotted(h).later && TakesSlot(Slotted(h).action, Slotted(h).holdStart) then 1 else 0
    ensures Slotted(h).running > h.running ==> Slotted(h).running <= SAFETY_CAP
  {
  }

  // An action that nothing holds takes a slot exactly when its work starts at once.
  lemma HeldSlots(v: View, running: nat, action: Action, waiting: Waiting)
    ensures var h := Held(v, running, action, waiting);
      && h.running == running + (if !h.later && TakesSlot(h.action, h.holdStart) then 1 else 0)
      && (h.running > running ==> h.running <= SAFETY_CAP)
      && Marked(action, h.action)
  {
    FollowedMarks(v, running, action, waiting);
    SlottedMarks(Followed(v, running, action, waiting));
  }

  // Handing an action over: what it claims and closes, and the mark it leaves.
  ghost predicate HandsOver(v: View, p: Pass, q: Pass, i: nat)
    requires i < |p.actions|
  {
    && |q.actions| == |p.actions|
    && var given := q.actions[i];
    && q.handed == p.handed + [given] && given.status.Proposed? && given.autoTried && !p.actions[i].autoTried
    && q.look.claims == (if given.kind.Create? then Claim(p.look.claims, given.item, "") else p.look.claims)
    && q.look.closing == (if given.kind.Close? then p.look.closing + {given.order} else p.look.closing)
    && (given.kind.Create? && given.item != "" ==> !Claimed(v, p.look, given.item))
    && q.look.running == p.look.running + if TakesSlot(given, given.holdStart) then 1 else 0
  }

  ghost predicate HandsNothing(p: Pass, q: Pass) {
    q.handed == p.handed && q.look.claims == p.look.claims && q.look.closing == p.look.closing && p.look.running <= q.look.running
  }

  lemma TriedHands(v: View, p: Pass, i: nat, h: Hold)
    requires i < |p.actions| && p.actions[i].status.Proposed? && !p.actions[i].autoTried && !h.later
    requires Marked(p.actions[i], h.action)
    requires h.running == p.look.running + if TakesSlot(h.action, h.holdStart) then 1 else 0
    ensures HandsOver(v, p, Tried(v, p, i, h), i) || HandsNothing(p, Tried(v, p, i, h))
    ensures Tried(v, p, i, h).look.running == h.running && Tried(v, p, i, h).look.started == p.look.started
  {
  }

  lemma TakeHands(v: View, p: Pass, i: nat)
    requires i < |p.actions|
    ensures HandsOver(v, p, Take(v, p, i), i) || HandsNothing(p, Take(v, p, i))
    ensures Take(v, p, i).look.started == p.look.started
    ensures p.look.running <= Take(v, p, i).look.running <= (if p.look.running < SAFETY_CAP then SAFETY_CAP else p.look.running)
  {
    var action := p.actions[i];
    if !Skips(v, p, action) {
      var h := Held(v, p.look.running, action, WaitOf(v, p, action));
      HeldSlots(v, p.look.running, action, WaitOf(v, p, action));
      if !h.later { TriedHands(v, p, i, h); }
    }
  }

  lemma TakeKeepsLook(v: View, p: Pass, i: nat, start: map<Item, seq<Order>>, floor: nat, before: seq<Action>)
    requires i < |p.actions| && LookOk(v.states, start, floor, p.look, before + p.handed)
    ensures LookOk(v.states, start, floor, Take(v, p, i).look, before + Take(v, p, i).handed)
  {
    TakeHands(v, p, i);
    var q := Take(v, p, i);
    if HandsOver(v, p, q, i) {
      var given := q.actions[i];
      assert before + q.handed == before + p.handed + [given];
      HandingKeepsClaims(v, start, p.look, before + p.handed, given, q.look);
      HandingKeepsCreates(v, start, p.look, before + p.handed, given);
      SlotsOfOneMore(before + p.handed, given);
    }
  }

  lemma {:induction false} TakenKeepsLook(v: View, p: Pass, order: seq<nat>, start: map<Item, seq<Order>>, floor: nat, before: seq<Action>)
    requires forall k :: 0 <= k < |order| ==> order[k] < |p.actions|
    requires LookOk(v.states, start, floor, p.look, before + p.handed)
    ensures LookOk(v.states, start, floor, Taken(v, p, order).look, before + Taken(v, p, order).handed)
    ensures Taken(v, p, order).look.started == p.look.started
  {
    if order != [] {
      TakenKeepsLook(v, p, order[..|order| - 1], start, floor, before);
      TakeHands(v, Taken(v, p, order[..|order| - 1]), order[|order| - 1]);
      TakeKeepsLook(v, Taken(v, p, order[..|order| - 1]), order[|order| - 1], start, floor, before);
    }
  }

  // Whether a chat's turn goes past settling its stale cards.
  predicate LooksInto(turn: Turn) {
    Active(turn.v.goal) || turn.v.builds || Answers(AllSettled(turn.v, turn.stored))
  }

  // The look as its first chat began it: what was claimed then, and what ran.
  ghost function BegunBy(turns: seq<Turn>): Look {
    if turns == [] then NOTHING_SEEN
    else
      var before, last := LookAfter(turns[..|turns| - 1]), turns[|turns| - 1];
      if before.started then BegunBy(turns[..|turns| - 1])
      else if LooksInto(last) then Begun(last.v, before, AllSettled(last.v, last.stored)) else NOTHING_SEEN
  }

  lemma TurnKeepsLook(turn: Turn, look: Look, start: map<Item, seq<Order>>, floor: nat, before: seq<Action>)
    requires LooksInto(turn)
    requires var begun := Begun(turn.v, look, AllSettled(turn.v, turn.stored));
      LookOk(turn.v.states, start, floor, begun, before)
    ensures var p := LookedAt(turn.v, look, turn.stored, turn.continues);
      LookOk(turn.v.states, start, floor, p.look, before + p.handed) && p.look.started
  {
    var v, actions := turn.v, AllSettled(turn.v, turn.stored);
    var p := Pass(Begun(v, look, actions), actions, turn.continues, [], AnySettled(v, turn.stored));
    assert before + p.handed == before;
    TakenKeepsLook(v, p, Ordered(actions), start, floor, before);
  }

  lemma BegunOk(v: View, look: Look, actions: seq<Action>)
    requires !look.started
    ensures var begun := Begun(v, look, actions); LookOk(v.states, begun.claims, begun.running, begun, [])
  {
  }

  // A chat that the look does not go into leaves the look as it is.
  lemma TurnPasses(turn: Turn, look: Look)
    requires !LooksInto(turn)
    ensures LookedAt(turn.v, look, turn.stored, turn.continues).look == look
    ensures LookedAt(turn.v, look, turn.stored, turn.continues).handed == []
  {
  }

  /** Over all the chats of a look: each item is given one create at most, an item whose work
      order stays open none, and what runs stays within the cap or what ran before. */
  lemma {:induction false} LookIsSafe(turns: seq<Turn>, states: map<Order, State>)
    requires SameStates(turns, states)
    ensures !LookAfter(turns).started ==> LookAfter(turns) == NOTHING_SEEN && HandedBy(turns) == []
    ensures LookAfter(turns).started ==>
      LookOk(states, BegunBy(turns).claims, BegunBy(turns).running, LookAfter(turns), HandedBy(turns))
  {
    if turns != [] {
      var init, last := turns[..|turns| - 1], turns[|turns| - 1];
      LookIsSafe(init, states);
      assert last.v.states == states;
      if LooksInto(last) {
        if !LookAfter(init).started { BegunOk(last.v, LookAfter(init), AllSettled(last.v, last.stored)); }
        TurnKeepsLook(last, LookAfter(init), BegunBy(turns).claims, BegunBy(turns).running, HandedBy(init));
      } else {
        TurnPasses(last, LookAfter(init));
        assert HandedBy(turns) == HandedBy(init);
      }
    }
  }

  /** At most one create per vision item, and none while the item has a work order, of the goal
      or of a create applied before, that is neither cancelled nor closed earlier in the look. */
  lemma OneCreatePerItem(turns: seq<Turn>, states: map<Order, State>, k: nat)
    requires SameStates(turns, states) && k < |HandedBy(turns)|
    requires HandedBy(turns)[k].kind.Create? && HandedBy(turns)[k].item != ""
    ensures var handed := HandedBy(turns);
      && (forall j :: 0 <= j < |handed| && j != k && handed[j].kind.Create? ==> handed[j].item != handed[k].item)
      && (forall order :: order in ClaimsOf(BegunBy(turns).claims, handed[k].item) ==> order != "" && Freed(states, handed, k, order))
  {
    LookIsSafe(turns, states);
  }

  lemma ClaimIs(claims: map<Item, seq<Order>>, one: Item, more: Order, item: Item, order: Order)
    ensures order in ClaimsOf(Claim(claims, one, more), item) <==> order in ClaimsOf(claims, item) || (one == item && more == order)
  {
  }

  lemma {:induction false} ItemsClaimed(items: seq<(Item, Order)>, item: Item, order: Order)
    ensures order in ClaimsOf(ItemClaims(items), item) <==> order != "" && (item, order) in items
  {
    if items != [] {
      var n := |items| - 1;
      ItemsClaimed(items[..n], item, order);
      ClaimIs(ItemClaims(items[..n]), items[n].0, items[n].1, item, order);
      assert (item, order) in items <==> (item, order) in items[..n] || items[n] == (item, order);
    }
  }

  ghost predicate CreatedFor(actions: seq<Action>, item: Item, order: Order) {
    exists a :: a in actions && IsCreated(a) && a.item == item && a.order == order
  }

  lemma {:induction false} CreatesClaimed(claims: map<Item, seq<Order>>, actions: seq<Action>, item: Item, order: Order)
    ensures order in ClaimsOf(CreateClaims(claims, actions), item) <==> order in ClaimsOf(claims, item) || CreatedFor(actions, item, order)
  {
    if actions != [] {
      var n := |actions| - 1;
      CreatesClaimed(claims, actions[..n], item, order);
      ClaimIs(CreateClaims(claims, actions[..n]), actions[n].item, actions[n].order, item, order);
      assert forall a :: a in actions <==> a in actions[..n] || a == actions[n];
    }
  }

  // A work order is one of the goal's for the item, or was made for it by an applied create.
  ghost predicate Found(v: View, actions: seq<Action>, item: Item, order: Order) {
    (order != "" && (item, order) in GoalItems(v.goal)) || CreatedFor(actions + v.elsewhere, item, order)
  }

  /** What a look finds claimed as it begins: the work orders of the goal's items and those of the
      applied creates, in whichever chat, and no others. */
  lemma BegunClaims(v: View, look: Look, actions: seq<Action>, item: Item, order: Order)
    requires !look.started
    ensures order in ClaimsOf(Begun(v, look, actions).claims, item) <==> Found(v, actions, item, order)
  {
    ItemsClaimed(GoalItems(v.goal), item, order);
    CreatesClaimed(ItemClaims(GoalItems(v.goal)), actions + v.elsewhere, item, order);
  }

  /** A create that autopilot may take up is handed over exactly when no open claim stands for its
      item, unless it asks for a premium model. */
  lemma CreateHandedExact(v: View, p: Pass, i: nat)
    requires i < |p.actions| && p.actions[i].kind.Create? && !Skips(v, p, p.actions[i])
    ensures HandsOver(v, p, Take(v, p, i), i) <==>
      !p.actions[i].premium && (p.actions[i].item == "" || !Claimed(v, p.look, p.actions[i].item))
  {
    var action := p.actions[i];
    var h := Held(v, p.look.running, action, WaitOf(v, p, action));
    HeldSlots(v, p.look.running, action, WaitOf(v, p, action));
    CreateGoesOn(v, p.look.running, action, WaitOf(v, p, action));
    TriedHands(v, p, i, h);
    assert LeftToUser(v, p, h.action.(queued := false, autoTried := true)) <==>
      action.premium || (action.item != "" && Claimed(v, p.look, action.item));
  }

  lemma CreateGoesOn(v: View, running: nat, create: Action, waiting: Waiting)
    requires create.kind.Create?
    ensures !Held(v, running, create, waiting).later
  {
  }

  /** What ran before the look and the slots it hands out never pass the cap, unless more ran already. */
  lemma SlotsWithinCap(turns: seq<Turn>, states: map<Order, State>)
    requires SameStates(turns, states) && LookAfter(turns).started
    ensures var floor := BegunBy(turns).running;
      floor + SlotsTaken(HandedBy(turns)) <= if floor < 16 then 16 else floor
  {
    LookIsSafe(turns, states);
  }

  /******* Nothing is taken up twice *******/

  // Between two states of a chat's actions, only marks changed, and none once a card was tried.
  predicate OnlyMarked(before: Action, after: Action) {
    && after == before.(autoTried := after.autoTried, leftForUser := after.leftForUser, queued := after.queued,
                        holdStart := after.holdStart, plansEarly := after.plansEarly)
    && (before.autoTried || !before.status.Proposed? ==> after == before)
  }

  predicate OnlyMarks(before: seq<Action>, after: seq<Action>) {
    |after| == |before| && forall i :: 0 <= i < |before| ==> OnlyMarked(before[i], after[i])
  }

  // The card at i was handed over: tried now, and not before.
  predicate HandedAt(before: seq<Action>, after: seq<Action>, given: Action, i: int) {
    0 <= i < |before| == |after| && given == after[i] && !before[i].autoTried && given.autoTried
  }

  ghost predicate WasHanded(before: seq<Action>, after: seq<Action>, given: Action) {
    exists i :: HandedAt(before, after, given, i)
  }

  ghost predicate HandedMarked(before: seq<Action>, p: Pass) {
    && OnlyMarks(before, p.actions)
    && (forall k :: 0 <= k < |p.handed| ==> WasHanded(before, p.actions, p.handed[k]))
    && (forall j, k :: 0 <= j < k < |p.handed| ==> p.handed[j].id != p.handed[k].id)
  }

  ghost predicate UniqueIds(actions: seq<Action>) {
    forall i, j :: 0 <= i < j < |actions| ==> actions[i].id != actions[j].id
  }

  lemma TriedMarks(v: View, p: Pass, i: nat, h: Hold)
    requires i < |p.actions| && Marked(p.actions[i], h.action) && p.actions[i].status.Proposed? && !p.actions[i].autoTried
    ensures var q := Tried(v, p, i, h).actions; |q| == |p.actions| && q == p.actions[i := q[i]] && OnlyMarked(p.actions[i], q[i])
  {
  }

  lemma HeldMarks(v: View, p: Pass, i: nat)
    requires i < |p.actions|
    ensures var q := Take(v, p, i).actions; |q| == |p.actions| && q == p.actions[i := q[i]] && OnlyMarked(p.actions[i], q[i])
    ensures p.actions[i].autoTried ==> Take(v, p, i) == p
  {
    var action := p.actions[i];
    if !Skips(v, p, action) {
      var h := Held(v, p.look.running, action, WaitOf(v, p, action));
      HeldSlots(v, p.look.running, action, WaitOf(v, p, action));
      if !h.later { TriedMarks(v, p, i, h); }
    }
  }

  lemma MarksFrame(before: seq<Action>, p: Pass, q: Pass, i: nat)
    requires UniqueIds(before) && HandedMarked(before, p) && i < |p.actions| == |q.actions|
    requires q.actions == p.actions[i := q.actions[i]] && OnlyMarked(p.actions[i], q.actions[i])
    requires p.actions[i].autoTried ==> q == p
    requires q.handed == p.handed || (q.handed == p.handed + [q.actions[i]] && q.actions[i].autoTried)
    ensures HandedMarked(before, q)
  {
    assert OnlyMarked(before[i], p.actions[i]);
    forall k | 0 <= k < |q.handed| ensures WasHanded(before, q.actions, q.handed[k]) {
      if k < |p.handed| {
        assert WasHanded(before, p.actions, p.handed[k]);
        var j :| HandedAt(before, p.actions, p.handed[k], j);
        assert HandedAt(before, q.actions, q.handed[k], j);
      } else {
        assert HandedAt(before, q.actions, q.handed[k], i);
      }
    }
    if q.handed != p.handed {
      forall k | 0 <= k < |p.handed| ensures p.handed[k].id != q.actions[i].id {
        assert WasHanded(before, p.actions, p.handed[k]);
        var j :| HandedAt(before, p.actions, p.handed[k], j);
        assert OnlyMarked(before[j], p.actions[j]);
        assert before[j].id != before[i].id || j == i;
      }
    }
  }

  lemma TakeMarks(v: View, before: seq<Action>, p: Pass, i: nat)
    requires i < |p.actions| && UniqueIds(before) && HandedMarked(before, p)
    ensures HandedMarked(before, Take(v, p, i))
  {
    HeldMarks(v, p, i);
    TakeHands(v, p, i);
    MarksFrame(before, p, Take(v, p, i), i);
  }

  lemma {:induction false} TakenMarks(v: View, p: Pass, order: seq<nat>)
    requires forall k :: 0 <= k < |order| ==> order[k] < |p.actions|
    requires UniqueIds(p.actions) && p.handed == []
    ensures HandedMarked(p.actions, Taken(v, p, order))
  {
    if order != [] {
      TakenMarks(v, p, order[..|order| - 1]);
      TakeMarks(v, p.actions, Taken(v, p, order[..|order| - 1]), order[|order| - 1]);
    }
  }

  /** A look at a chat hands over each action once, only ones not tried before, and leaves each of
      them stored as tried; nothing else of a card changes but its marks. */
  lemma HandedOnceInChat(v: View, look: Look, stored: seq<Action>, continues: map<Order, int>)
    requires UniqueIds(stored)
    ensures HandedMarked(AllSettled(v, stored), LookedAt(v, look, stored, continues))
  {
    var actions := AllSettled(v, stored);
    assert UniqueIds(actions) by {
      forall i, j | 0 <= i < j < |actions| ensures actions[i].id != actions[j].id { assert actions[i].id == stored[i].id; }
    }
    if Active(v.goal) || v.builds || Answers(actions) {
      TakenMarks(v, Pass(Begun(v, look, actions), actions, continues, [], AnySettled(v, stored)), Ordered(actions));
    }
  }
}
