/** When a proposed action is needed no more, and what becomes of a card that gets its outcome. */
module ProposalOutcomes {
  import opened Options
  import opened Proposals

  // The work order is where the action leads, or waits for it no longer. A message may always be sent.
  predicate GotThere(action: Action, state: State, blocked: bool, canTell: bool) {
    || (action.kind.Start? && state in {Planning, Implementing, Reviewing, ReadyToMerge, Completed, Cancelled})
    || (action.kind.Close? && state in {Completed, Cancelled})
    || (action.kind in {Continue, Recover} && !action.message && canTell && !blocked)
  }

  // A goal of the card's priorities, or of the whole vision, is on; or it was reached or begun since.
  predicate GoalIsOn(goal: Option<Goal>, card: Action) {
    && card.kind.StartAutopilot? && goal.Some? && goal.value.level in {-1, card.priority}
    && (goal.value.status.GoalActive? || goal.value.startedAt > card.updatedAt
        || (goal.value.status.GoalDone? && goal.value.endedAt.Some? && card.updatedAt < goal.value.endedAt.value))
  }

  predicate Needless(goal: Option<Goal>, card: Action, states: map<Order, State>, blocked: set<Order>, canTell: bool) {
    && card.status.Proposed?
    && (GoalIsOn(goal, card)
        || (card.order != "" && card.order in states && GotThere(card, states[card.order], card.order in blocked, canTell)))
  }

  // Settled at a time: applied for nothing, and left to nobody; all else of the card stays.
  predicate SettledFrom(before: Action, after: Action, now: int, queued: bool) {
    && after.status.Applied? && after.settled && !after.leftForUser && after.updatedAt == now && (after.queued <==> queued)
    && after == before.(status := after.status, settled := after.settled, leftForUser := after.leftForUser, updatedAt := after.updatedAt, queued := after.queued)
  }

  /** A card settles exactly when it is proposed and needed no more; any other stays as it is. */
  lemma SettlesExactly(goal: Option<Goal>, card: Action, states: map<Order, State>, blocked: set<Order>, canTell: bool, now: int)
    ensures NotNeeded(goal, card, states, blocked, canTell) <==> Needless(goal, card, states, blocked, canTell)
    ensures var after := Settled(goal, card, states, blocked, canTell, now);
      && (Needless(goal, card, states, blocked, canTell) ==> SettledFrom(card, after, now, card.queued && GoalIsOn(goal, card)))
      && (!Needless(goal, card, states, blocked, canTell) ==> after == card)
  {
  }

  /** A card that settled is needed no more at any later time, whatever the work and the goal do. */
  lemma SettledOnce(goal: Option<Goal>, card: Action, states: map<Order, State>, blocked: set<Order>, canTell: bool, now: int,
                    goal2: Option<Goal>, states2: map<Order, State>, blocked2: set<Order>, canTell2: bool, later: int)
    requires Needless(goal, card, states, blocked, canTell)
    ensures var settled := Settled(goal, card, states, blocked, canTell, now);
      Settled(goal2, settled, states2, blocked2, canTell2, later) == settled
  {
    SettlesExactly(goal, card, states, blocked, canTell, now);
    SettlesExactly(goal2, Settled(goal, card, states, blocked, canTell, now), states2, blocked2, canTell2, later);
  }

  // The card of an ID that is pending.
  predicate Pending(stored: seq<Action>, id: ActionId, i: int) {
    0 <= i < |stored| && stored[i].id == id && stored[i].status.Proposed? && forall k :: 0 <= k < i ==> stored[k].id != id
  }

  // What an outcome leaves of a card: its status and time, and the work order it made, if it made one;
  // once applied it is left to nobody.
  predicate Recorded(before: Action, outcome: Outcome, now: int, after: Action) {
    && after.id == before.id && after.kind == before.kind && after.item == before.item && after.title == before.title
    && after.after == before.after && after.updatedAt == now && after.autoTried == before.autoTried
    && after.plansEarly == before.plansEarly && after.holdStart == before.holdStart
    && match outcome
       case Resolve(status, made) =>
         && after.status == status && (made != "" ==> after.order == made) && (made == "" ==> after.order == before.order)
         && (after.leftForUser <==> before.leftForUser && !status.Applied?) && after.settled == before.settled && after.queued == before.queued
       case Settle => after.status.Applied? && after.settled && !after.leftForUser && !after.queued && after.order == before.order
  }

  /** A card gets an outcome exactly while it is pending; it is recorded on that card and no other, and
      otherwise the answer says whether there is such a card. */
  lemma {:induction false} OutcomeExactly(stored: seq<Action>, id: ActionId, outcome: Outcome, now: int)
    ensures var done := ResolvedIn(stored, id, outcome, now);
      && (done.NotFound? <==> forall k :: 0 <= k < |stored| ==> stored[k].id != id)
      && (done.Resolved? <==> exists i :: Pending(stored, id, i))
      && forall i :: Pending(stored, id, i) ==>
           && done.Resolved? && |done.actions| == |stored| && Recorded(stored[i], outcome, now, done.actions[i])
           && forall k :: 0 <= k < |stored| && k != i ==> done.actions[k] == stored[k]
  {
    var i := FirstOf(stored, id);
    ResolvedAt(stored, id, outcome, now, i);
    if i < |stored| && stored[i].status.Proposed? { assert Pending(stored, id, i); }
    assert forall j :: Pending(stored, id, j) ==> j == i;
  }

  lemma {:induction false} FirstOf(stored: seq<Action>, id: ActionId) returns (i: nat)
    ensures i <= |stored| && (forall k :: 0 <= k < i ==> stored[k].id != id) && (i < |stored| ==> stored[i].id == id)
  {
    i := 0;
    if stored != [] && stored[0].id != id {
      var j := FirstOf(stored[1..], id);
      i := j + 1;
      assert forall k :: 0 < k < i ==> stored[k] == stored[1..][k - 1];
    }
  }
}
