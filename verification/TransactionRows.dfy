/** Which calls of the execution store commit, and what each leaves in every row: told row by row,
    apart from how the transactions come to it. */
module TransactionRows {
  import opened Options
  import opened ExecutionTables
  import opened Transactions

  // One row is as given, and every other as it was.
  ghost predicate OnlyAt<V>(before: map<Id, V>, after: map<Id, V>, key: Id, value: V) {
    forall k :: Lookup(after, k) == if k == key then Some(value) else Lookup(before, k)
  }

  lemma OnlyAtIs<V>(before: map<Id, V>, after: map<Id, V>, key: Id, value: V)
    ensures OnlyAt(before, after, key, value) <==> after == before[key := value]
  {
    if OnlyAt(before, after, key, value) {
      forall k ensures k in after <==> k in before[key := value] {
        assert k in after <==> Lookup(after, k).Some?;
        assert k in before <==> Lookup(before, k).Some?;
      }
      forall k | k in after ensures after[k] == before[key := value][k] { assert Lookup(after, k) == Some(after[k]); }
    }
  }

  ghost predicate SameBut(d: Tables, e: Tables, runs: bool, sessions: bool, checkpoints: bool, interventions: bool) {
    && (runs || e.runs == d.runs) && (sessions || e.sessions == d.sessions) && (checkpoints || e.checkpoints == d.checkpoints)
    && (interventions || e.interventions == d.interventions) && e.features == d.features
  }

  /******* Queueing a request *******/

  predicate Over(status: RunStatus) { status in {Succeeded, Stopped, RunStatus.Failed} }

  // A run that has not ended, and one live session of the agent asked.
  ghost predicate CanAsk(d: Tables, q: InterventionRequest) {
    && q.runId in d.runs && !Over(d.runs[q.runId].status)
    && (forall i :: i in d.interventions && d.interventions[i].runId == q.runId ==> d.interventions[i].status.Answered?)
    && exists s :: Asks(d, q, s)
  }

  // The one session of the run whose agent is asked, and that has not ended.
  ghost predicate Asks(d: Tables, q: InterventionRequest, s: Id) {
    && IsTarget(d, q, s) && forall o :: IsTarget(d, q, o) ==> o == s
  }

  predicate IsTarget(d: Tables, q: InterventionRequest, s: Id) {
    && s in d.sessions && d.sessions[s].runId == q.runId && d.sessions[s].role == q.target
    && d.sessions[s].status !in {Completed, Ended, Broken}
  }

  predicate Whole(q: InterventionRequest) { q.id != 0 && q.runId != 0 && q.at != 0 && exists i :: 0 <= i < |q.message| && !IsSpace(q.message[i]) }

  // The run pauses, and keeps what it waited for if it rests unpaused now.
  predicate Pauses(before: Run, after: Run) {
    && after == before.(paused := true, waitKind := PausedWait, pausedFrom := after.pausedFrom)
    && after.pausedFrom == if before.status.WaitingForUser? && !before.paused then before.waitKind else before.pausedFrom
  }

  ghost predicate QueueRows(d: Tables, q: InterventionRequest, e: Tables) {
    && SameBut(d, e, true, false, false, true) && e.actions == d.actions
    && q.runId in d.runs && q.runId in e.runs && OnlyAt(d.runs, e.runs, q.runId, e.runs[q.runId])
    && Pauses(d.runs[q.runId], e.runs[q.runId])
    && q.id in e.interventions && OnlyAt(d.interventions, e.interventions, q.id, e.interventions[q.id])
    && var iv := e.interventions[q.id];
    && Asks(d, q, iv.sessionId) && iv.runId == q.runId && iv.target == q.target && iv.message == q.message && iv.requestedAt == q.at
    && iv.attempt == 0 && iv.effect.NoEffect? && iv.resolvedBy.None?
    && iv.status == (if d.runs[q.runId].status.WaitingForUser? then Queued else WaitingForBoundary)
    && |e.events| == |d.events| + 1 && e.events[..|d.events|] == d.events
    && e.events[|d.events|] == SessionEvent(UserMessageOf(q.id), iv.sessionId, NextSequence(d.events, iv.sessionId), true, q.message)
  }

  // The request is there as it is asked, and so is what it said to its session.
  ghost predicate Known(d: Tables, q: InterventionRequest) {
    && q.id in d.interventions && var iv, said := d.interventions[q.id], FindEvent(d.events, UserMessageOf(q.id));
    && iv.runId == q.runId && iv.target == q.target && iv.message == q.message
    && said.Some? && said.value.fromUser && said.value.sessionId == iv.sessionId && said.value.text == q.message
  }

  lemma OneTarget(d: Tables, q: InterventionRequest)
    ensures |Targets(d, q.runId, q.target)| == 1 <==> exists s :: Asks(d, q, s)
    ensures forall s :: IsTarget(d, q, s) <==> s in Targets(d, q.runId, q.target)
  {
    var targets := Targets(d, q.runId, q.target);
    assert forall s :: IsTarget(d, q, s) <==> s in targets;
    if |targets| == 1 {
      var s :| s in targets;
      assert |targets - {s}| == 0;
      forall o | o in targets ensures o == s { assert o == s || o in targets - {s}; }
      assert Asks(d, q, s);
    }
    if s: Id :| Asks(d, q, s) { assert targets == {s}; }
  }

  /** A new request is taken exactly when the run goes on, every one before it was answered, and the agent
      it asks has the one live session; it leaves the rows told, and a request known already, or
      refused, leaves all of them. */
  lemma QueueExactly(d: Tables, q: InterventionRequest)
    requires q.runId in d.runs ==> d.runs[q.runId].Valid()
    ensures var outcome := QueueIntervention(d, q);
      && (!Whole(q) ==> outcome == Refuse(Invalid))
      && (Whole(q) && q.id !in d.interventions && FindEvent(d.events, UserMessageOf(q.id)).None? ==> (outcome.Done? <==> CanAsk(d, q)))
      && (outcome.Done? ==> Whole(q) && q.id !in d.interventions && QueueRows(d, q, outcome.after))
      && (Whole(q) && q.id in d.interventions ==> outcome == if Known(d, q) then Repeat else Refuse(InterventionConflict))
  {
    OneTarget(d, q);
    assert (exists i :: 0 <= i < |q.message| && !IsSpace(q.message[i])) <==> !Blank(q.message);
    NoneUnfinished(d, q.runId);
  }

  lemma NoneUnfinished(d: Tables, run: Id)
    ensures Unfinished(d, run) == {} <==> forall i :: i in d.interventions && d.interventions[i].runId == run ==> d.interventions[i].status.Answered?
  {
    assert forall i :: i in Unfinished(d, run) <==> i in d.interventions && d.interventions[i].runId == run && !d.interventions[i].status.Answered?;
  }

  /******* Answering and resolving *******/

  predicate Says(text: string) { exists i :: 0 <= i < |text| && !IsSpace(text[i]) }

  lemma SaysIs(text: string)
    ensures Says(text) <==> !Blank(text)
  {
  }

  predicate Rests(d: Tables, run: Id) {
    run in d.runs && d.runs[run].paused && d.runs[run].status.WaitingForUser? && d.runs[run].waitKind.PausedWait?
  }

  predicate Quiet(status: SessionStatus) { status in {AtRest, Completed, Ended, Broken} }

  ghost predicate NobodyActive(d: Tables, run: Id) {
    forall s :: s in d.sessions && d.sessions[s].runId == run ==> Quiet(d.sessions[s].status)
  }

  lemma NobodyActiveIs(d: Tables, run: Id)
    ensures NobodyActive(d, run) <==> ActiveSessions(d, run) == {}
  {
    assert forall s :: s in ActiveSessions(d, run) <==> s in d.sessions && d.sessions[s].runId == run && !Quiet(d.sessions[s].status);
  }

  // The session that a request was put to, in the state given, with the provider known.
  ghost predicate HasSession(d: Tables, iv: Intervention, status: SessionStatus) {
    && iv.sessionId in d.sessions && d.sessions[iv.sessionId].runId == iv.runId && d.sessions[iv.sessionId].role == iv.target
    && d.sessions[iv.sessionId].status == status
  }

  ghost predicate BeginMay(d: Tables, a: InterventionAdmission) {
    && a.intervention in d.interventions && var iv := d.interventions[a.intervention];
    && iv.status.Queued? && iv.attempt == 0 && HasSession(d, iv, AtRest) && d.sessions[iv.sessionId].provider != 0
    && Rests(d, iv.runId) && NobodyActive(d, iv.runId)
    && Lookup(d.checkpoints, iv.sessionId) == Some(Checkpoint(a.previous, a.previousEvent))
    && Lookup(d.checkpoints, a.nextSession) == Some(Checkpoint(a.previous, a.previousEvent))
  }

  ghost predicate BeginLeaves(d: Tables, a: InterventionAdmission, e: Tables) {
    && SameBut(d, e, true, true, true, true) && e.actions == d.actions && e.events == d.events
    && a.intervention in d.interventions && var iv := d.interventions[a.intervention];
    && iv.sessionId in d.sessions && iv.runId in d.runs
    && OnlyAt(d.checkpoints, e.checkpoints, a.nextSession, Checkpoint(a.next, 0))
    && OnlyAt(d.sessions, e.sessions, iv.sessionId, d.sessions[iv.sessionId].(status := Active))
    && OnlyAt(d.interventions, e.interventions, a.intervention, iv.(status := BeingAnswered, attempt := a.next))
    && OnlyAt(d.runs, e.runs, iv.runId, d.runs[iv.runId].(reason := a.reason))
  }

  predicate BeginWhole(a: InterventionAdmission) {
    a.intervention != 0 && a.previous != 0 && a.next != 0 && a.next != a.previous && a.nextSession != 0 && a.at != 0 && Says(a.reason)
  }

  /** An answer is begun exactly when its request is queued, the run rests and nobody of it works, and the
      session asked rests with its provider, on the attempt the caller saw; then that session works on
      the next attempt, from its beginning, for that request. */
  lemma BeginExactly(d: Tables, a: InterventionAdmission)
    ensures var outcome := BeginIntervention(d, a);
      && (outcome.Done? <==> BeginWhole(a) && BeginMay(d, a))
      && (outcome.Done? ==> BeginLeaves(d, a, outcome.after))
      && (outcome.Repeat? <==> BeginWhole(a) && a.intervention in d.interventions && var iv := d.interventions[a.intervention];
           iv.attempt == a.next && (iv.status.BeingAnswered? || iv.status.Answered?))
  {
    SaysIs(a.reason);
    if a.intervention in d.interventions { NobodyActiveIs(d, d.interventions[a.intervention].runId); }
  }

  ghost predicate CompleteMay(d: Tables, c: Completion) {
    && c.intervention in d.interventions && var iv := d.interventions[c.intervention];
    && iv.status.BeingAnswered? && iv.attempt == c.attempt && HasSession(d, iv, Active) && d.sessions[iv.sessionId].provider == c.provider
    && iv.sessionId in d.checkpoints && d.checkpoints[iv.sessionId].attempt == c.attempt && Rests(d, iv.runId)
  }

  ghost predicate CompleteLeaves(d: Tables, c: Completion, e: Tables) {
    && SameBut(d, e, true, true, false, true) && e.actions == d.actions && e.events == d.events
    && c.intervention in d.interventions && var iv := d.interventions[c.intervention];
    && iv.sessionId in d.sessions && iv.runId in d.runs
    && OnlyAt(d.sessions, e.sessions, iv.sessionId, d.sessions[iv.sessionId].(status := AtRest))
    && OnlyAt(d.interventions, e.interventions, c.intervention, iv.(status := Answered, effect := c.effect))
    && OnlyAt(d.runs, e.runs, iv.runId, d.runs[iv.runId].(reason := c.reason))
  }

  predicate CompleteWhole(c: Completion) {
    c.intervention != 0 && c.attempt != 0 && c.provider != 0 && !c.effect.NoEffect? && c.at != 0 && Says(c.reason)
  }

  /** An answer is completed exactly by the attempt it was begun on, while its session works on it; it is
      recorded with its effect, and the session rests. Told again it changes nothing, and told otherwise
      it is refused. */
  lemma CompleteExactly(d: Tables, c: Completion)
    ensures var outcome := CompleteIntervention(d, c);
      && (outcome.Done? <==> CompleteWhole(c) && CompleteMay(d, c))
      && (outcome.Done? ==> CompleteLeaves(d, c, outcome.after))
      && (CompleteWhole(c) && c.intervention in d.interventions && d.interventions[c.intervention].status.Answered? ==>
           var iv := d.interventions[c.intervention];
           outcome == if iv.attempt == c.attempt && iv.effect == c.effect then Repeat else Refuse(InterventionConflict))
  {
    SaysIs(c.reason);
  }

  ghost predicate IsNewest(d: Tables, run: Id, i: Id) {
    && i in d.interventions && d.interventions[i].runId == run
    && forall o :: o in d.interventions && d.interventions[o].runId == run && o != i ==>
      d.interventions[o].requestedAt < d.interventions[i].requestedAt
      || (d.interventions[o].requestedAt == d.interventions[i].requestedAt && o < i)
  }

  ghost predicate ResolveMay(d: Tables, r: Resolution) {
    && r.id !in d.actions && IsNewest(d, r.runId, r.intervention) && Rests(d, r.runId)
    && d.interventions[r.intervention].status.Answered? && d.interventions[r.intervention].effect.GuidanceApplied?
    && d.interventions[r.intervention].resolvedBy.None?
  }

  ghost predicate ResolveLeaves(d: Tables, r: Resolution, e: Tables) {
    && SameBut(d, e, true, false, false, true) && e.events == d.events
    && r.runId in d.runs && r.intervention in d.interventions
    && OnlyAt(d.interventions, e.interventions, r.intervention, d.interventions[r.intervention].(resolvedBy := Some(r.id)))
    && OnlyAt(d.actions, e.actions, r.id, (r.runId, Resume))
    && r.runId in e.runs && OnlyAt(d.runs, e.runs, r.runId, e.runs[r.runId])
    && var run, kept := d.runs[r.runId], d.interventions[r.intervention].resumeReason;
    && e.runs[r.runId] == run.(paused := false, pausedFrom := NoWait, waitKind := e.runs[r.runId].waitKind, reason := e.runs[r.runId].reason)
    && e.runs[r.runId].waitKind == (if run.pausedFrom.NoWait? then Blocker else run.pausedFrom)
    && (Says(kept) ==> e.runs[r.runId].reason == kept) && (!Says(kept) ==> e.runs[r.runId].reason == READY_TO_CONTINUE)
  }

  predicate ResolveWhole(r: Resolution) { r.id != 0 && r.runId != 0 && r.intervention != 0 && r.at != 0 }

  /** A pause is resolved exactly by an action not taken yet, when the run rests, for its newest request,
      whose answer gave guidance and was not resolved before. */
  lemma ResolveExactly(d: Tables, r: Resolution)
    requires r.runId in d.runs ==> d.runs[r.runId].Valid()
    ensures var outcome := ResolveIntervention(d, r);
      && (outcome.Done? <==> ResolveWhole(r) && ResolveMay(d, r))
      && (outcome.Done? ==> ResolveLeaves(d, r, outcome.after))
      && (ResolveWhole(r) && r.id in d.actions && r.runId in d.runs ==>
           var known := d.actions[r.id] == (r.runId, Resume) && r.intervention in d.interventions
             && d.interventions[r.intervention].runId == r.runId && d.interventions[r.intervention].resolvedBy == Some(r.id);
           outcome == if known then Repeat else Refuse(ActionConflict))
  {
    if r.intervention in d.interventions {
      SaysIs(d.interventions[r.intervention].resumeReason);
      assert IsNewest(d, r.runId, r.intervention) <==> d.interventions[r.intervention].runId == r.runId && IsLatest(d, r.runId, r.intervention);
    }
  }

  /******* Moving runs and sessions, pausing, and events *******/

  predicate MoveWhole(t: RunTransition) {
    t.runId != 0 && t.at != 0 && (t.expected.WaitingForUser? || (t.expected.Running? && !t.status.Running?))
  }

  // What a run that nothing pauses may wait for: something at rest, and nothing at work.
  predicate WaitFits(t: RunTransition) {
    Over(t.status) || (if t.status.Running? then t.waitKind.NoWait? else !t.waitKind.PausedWait?)
  }

  // What the run itself becomes: at its end it neither waits nor pauses; paused, it keeps what it is to
  // come back to, or takes the new boundary's; and otherwise it waits for what it is told.
  predicate MovedTo(before: Run, t: RunTransition, after: Run) {
    && after == before.(status := t.status, reason := t.reason, paused := after.paused, waitKind := after.waitKind, pausedFrom := after.pausedFrom)
    && (Over(t.status) ==> !after.paused && after.waitKind.NoWait? && after.pausedFrom.NoWait?)
    && (!Over(t.status) && before.paused ==>
         && after.paused && after.waitKind.PausedWait?
         && after.pausedFrom == (
              if t.waitKind.PausedWait? || (t.waitKind.NoWait? && t.status.Running?) then before.pausedFrom
              else if t.waitKind.NoWait? then Blocker else t.waitKind))
    && (!Over(t.status) && !before.paused ==>
         && !after.paused && after.pausedFrom.NoWait?
         && after.waitKind == if t.status.WaitingForUser? && t.waitKind.NoWait? then Blocker else t.waitKind)
  }

  // The request that waited for the run to come to rest is queued, with the reason it rests for.
  predicate Flushed(before: Intervention, t: RunTransition, paused: bool, after: Intervention) {
    if paused && t.status.WaitingForUser? && before.runId == t.runId && before.status.WaitingForBoundary?
    then after == before.(status := Queued, resumeReason := t.reason) else after == before
  }

  ghost predicate MoveLeaves(d: Tables, t: RunTransition, e: Tables) {
    && SameBut(d, e, true, false, false, true) && e.actions == d.actions && e.events == d.events
    && t.runId in d.runs && t.runId in e.runs && OnlyAt(d.runs, e.runs, t.runId, e.runs[t.runId])
    && MovedTo(d.runs[t.runId], t, e.runs[t.runId]) && e.interventions.Keys == d.interventions.Keys
    && forall i :: i in d.interventions ==> Flushed(d.interventions[i], t, d.runs[t.runId].paused, e.interventions[i])
  }

  /** A run moves exactly from the state its caller saw, unless it has ended or would go on as it does, and
      to what it may wait for; and nothing else changes but the request it leaves to be answered. */
  lemma MoveExactly(d: Tables, t: RunTransition)
    requires t.runId in d.runs ==> d.runs[t.runId].Valid()
    ensures var outcome := TransitionRun(d, t);
      && (outcome.Done? <==> MoveWhole(t) && t.runId in d.runs && d.runs[t.runId].status == t.expected && (d.runs[t.runId].paused || WaitFits(t)))
      && (outcome.Done? ==> MoveLeaves(d, t, outcome.after)) && !outcome.Repeat?
      && (MoveWhole(t) ==> (outcome == Refuse(NotFound) <==> t.runId !in d.runs))
      && (MoveWhole(t) && t.runId in d.runs ==> (outcome == Refuse(StateConflict) <==> d.runs[t.runId].status != t.expected))
  {
  }

  // Where a session may go from where it is.
  predicate SessionMay(before: SessionStatus, after: SessionStatus) {
    match before
    case Starting => after in {Active, Ended, Broken}
    case Active => after in {AtRest, PauseRequested, Completed, Ended, Broken}
    case AtRest => after in {Active, Ended, Broken}
    case PauseRequested => after in {AtRest, OnPause, Active, Completed, Ended, Broken}
    case OnPause => after in {Active, Ended, Broken}
    case _ => false
  }

  predicate SessionMoves(d: Tables, t: SessionTransition) {
    && t.sessionId != 0 && t.at != 0 && SessionMay(t.expected, t.status)
    && t.sessionId in d.sessions && d.sessions[t.sessionId].status == t.expected
    && (t.provider == 0 || d.sessions[t.sessionId].provider in {0, t.provider})
  }

  /** A session moves exactly from the state its caller saw to one that may follow, and keeps the provider it
      has, which no other may replace. */
  lemma SessionExactly(d: Tables, t: SessionTransition)
    ensures var outcome := TransitionSession(d, t);
      && (outcome.Done? <==> SessionMoves(d, t)) && !outcome.Repeat?
      && (outcome.Done? ==>
           && SameBut(d, outcome.after, false, true, false, false) && outcome.after.actions == d.actions && outcome.after.events == d.events
           && var before := d.sessions[t.sessionId];
           OnlyAt(d.sessions, outcome.after.sessions, t.sessionId,
                  before.(status := t.status, provider := if before.provider == 0 then t.provider else before.provider)))
  {
  }

  // A pause asked for where none is, or released where one is; any other changes nothing.
  predicate PausedTo(before: Run, action: PauseAction, after: Run) {
    if action.Pause? && !before.paused then Pauses(before, after)
    else if action.Resume? && before.paused then
      && after == before.(paused := false, pausedFrom := NoWait, waitKind := after.waitKind)
      && after.waitKind == (
           if before.status.Running? then NoWait else if before.pausedFrom.NoWait? then Blocker else before.pausedFrom)
    else after == before
  }

  ghost predicate PauseLeaves(d: Tables, m: PauseMutation, e: Tables) {
    && SameBut(d, e, true, false, false, false) && e.events == d.events
    && m.runId in d.runs && m.runId in e.runs && OnlyAt(d.runs, e.runs, m.runId, e.runs[m.runId])
    && PausedTo(d.runs[m.runId], m.action, e.runs[m.runId]) && OnlyAt(d.actions, e.actions, m.id, (m.runId, m.action))
  }

  /** Each pause and resume of a run that goes on is applied once, by its action. */
  lemma PauseExactly(d: Tables, m: PauseMutation)
    requires m.runId in d.runs ==> d.runs[m.runId].Valid() && (d.runs[m.runId].status.Running? ==> d.runs[m.runId].pausedFrom.NoWait?)
    ensures var outcome := ApplyPause(d, m); var whole := m.id != 0 && m.runId != 0 && m.at != 0;
      && (outcome.Done? <==> whole && m.id !in d.actions && m.runId in d.runs && !Over(d.runs[m.runId].status))
      && (outcome.Done? ==> PauseLeaves(d, m, outcome.after))
      && (whole && m.id in d.actions && m.runId in d.runs ==> outcome == if d.actions[m.id] == (m.runId, m.action) then Repeat else Refuse(ActionConflict))
  {
  }

  /** An event is stored exactly when it is whole, new, and of a session there is; it gets the session's
      next number and goes last. */
  lemma AppendExactly(d: Tables, p: PendingEvent)
    ensures var outcome := AppendEvent(d, p); var found := FindEvent(d.events, p.id);
      var whole := p.sessionId != 0 && p.at != 0 && Says(p.text);
      && (outcome.Done? <==> whole && found.None? && p.sessionId in d.sessions)
      && (outcome.Done? ==>
           && SameBut(d, outcome.after, false, false, false, false) && outcome.after.actions == d.actions
           && outcome.after.events == d.events + [SessionEvent(p.id, p.sessionId, NextSequence(d.events, p.sessionId), p.fromUser, p.text)])
      && (whole && found.Some? ==>
           var same := found.value.sessionId == p.sessionId && found.value.text == p.text && (found.value.fromUser <==> p.fromUser);
           outcome == if same then Repeat else Refuse(EventConflict))
  {
    SaysIs(p.text);
  }

  /******* Turns *******/

  predicate TurnWhole(a: TurnAdmission) {
    a.sessionId != 0 && a.previous != 0 && a.next != 0 && a.next != a.previous && a.at != 0 && Says(a.reason)
  }

  // The feature the run works on: in the state that allows it, with an accepted goal.
  predicate FeatureIn(d: Tables, run: Run, state: FeatureState) {
    && run.featureId in d.features && d.features[run.featureId].state == state && d.features[run.featureId].goalAccepted
    && Says(d.features[run.featureId].goal)
  }

  // A session that rests with its provider, on the attempt the caller saw.
  predicate Ready(d: Tables, a: TurnAdmission) {
    && a.sessionId in d.sessions && d.sessions[a.sessionId].status.AtRest? && d.sessions[a.sessionId].provider != 0
    && Lookup(d.checkpoints, a.sessionId) == Some(Checkpoint(a.previous, a.previousEvent))
  }

  // A run at work, for the reason given, that waits for nothing.
  predicate WorksOn(before: Run, reason: string, after: Run) {
    after == before.(status := Running, reason := reason, waitKind := NoWait, pausedFrom := NoWait)
  }

  ghost predicate TurnLeaves(d: Tables, a: TurnAdmission, e: Tables) {
    && SameBut(d, e, true, true, true, false) && e.actions == d.actions && e.events == d.events
    && a.sessionId in d.sessions && var session := d.sessions[a.sessionId];
    && session.runId in d.runs && session.runId in e.runs
    && OnlyAt(d.checkpoints, e.checkpoints, a.sessionId, Checkpoint(a.next, 0))
    && OnlyAt(d.sessions, e.sessions, a.sessionId, session.(status := Active))
    && OnlyAt(d.runs, e.runs, session.runId, e.runs[session.runId]) && WorksOn(d.runs[session.runId], a.reason, e.runs[session.runId])
  }

  ghost predicate TurnMay(d: Tables, a: TurnAdmission) {
    && Ready(d, a) && d.sessions[a.sessionId].runId in d.runs && var run := d.runs[d.sessions[a.sessionId].runId];
    && !run.paused && run.status == (if a.runAlreadyActive then Running else WaitingForUser) && FeatureIn(d, run, a.expectedState)
    && (a.runAlreadyActive && !a.alongside ==> NobodyActive(d, d.sessions[a.sessionId].runId))
  }

  /** A turn is admitted exactly for a session that is ready, of a run nothing pauses and in the state its
      caller saw, whose feature allows it; and, joining a run at work, only when nobody works there unless
      it is to run alongside. It is known again by its attempt. */
  lemma TurnExactly(d: Tables, a: TurnAdmission)
    ensures var outcome := BeginAutonomousTurn(d, a);
      && (outcome.Done? <==> TurnWhole(a) && TurnMay(d, a))
      && (outcome.Done? ==> TurnLeaves(d, a, outcome.after))
      && (outcome.Repeat? <==> TurnWhole(a) && a.sessionId in d.sessions && d.sessions[a.sessionId].runId in d.runs && HoldsAttempt(d, a.sessionId, a.next))
  {
    SaysIs(a.reason);
    if a.sessionId in d.sessions && d.sessions[a.sessionId].runId in d.runs {
      NobodyActiveIs(d, d.sessions[a.sessionId].runId);
      var run := d.runs[d.sessions[a.sessionId].runId];
      if run.featureId in d.features { SaysIs(d.features[run.featureId].goal); }
    }
  }

  predicate ParallelWhole(a: ParallelAdmission) {
    a.runId != 0 && a.at != 0 && Says(a.reason) && TurnWhole(a.lead) && TurnWhole(a.reviewer) && a.lead.sessionId != a.reviewer.sessionId
  }

  // A run that rests unpaused and tests independently, whose feature is implemented.
  predicate MayParallel(d: Tables, run: Id) {
    && run in d.runs && !d.runs[run].paused && d.runs[run].status.WaitingForUser? && d.runs[run].independentTests
    && FeatureIn(d, d.runs[run], Implementing)
  }

  predicate ReadyIn(d: Tables, run: Id, a: TurnAdmission) { Ready(d, a) && d.sessions[a.sessionId].runId == run }

  ghost predicate ParallelMay(d: Tables, a: ParallelAdmission) {
    MayParallel(d, a.runId) && ReadyIn(d, a.runId, a.lead) && ReadyIn(d, a.runId, a.reviewer)
  }

  predicate TurnHeld(d: Tables, a: TurnAdmission) { a.sessionId in d.sessions && HoldsAttempt(d, a.sessionId, a.next) }

  // Both turns are known of a run at work, or either as the two are admitted in turn.
  predicate ParallelKnown(d: Tables, a: ParallelAdmission) {
    || BothHeld(d, a)
    || (MayParallel(d, a.runId) && (TurnHeld(d, a.lead) || (ReadyIn(d, a.runId, a.lead) && TurnHeld(d, a.reviewer))))
  }

  predicate BothHeld(d: Tables, a: ParallelAdmission) {
    && a.runId in d.runs && d.runs[a.runId].status.Running?
    && HoldsAttempt(d, a.lead.sessionId, a.lead.next) && HoldsAttempt(d, a.reviewer.sessionId, a.reviewer.next)
  }

  /** Two turns are admitted together exactly where both could be, of a run that rests unpaused and tests
      independently, and together they are known again. */
  lemma ParallelExactly(d: Tables, a: ParallelAdmission)
    ensures var outcome := BeginParallelTurns(d, a);
      && (outcome.Done? <==> ParallelWhole(a) && ParallelMay(d, a))
      && (outcome.Done? ==>
           && a.runId in outcome.after.runs && OnlyAt(d.runs, outcome.after.runs, a.runId, outcome.after.runs[a.runId])
           && WorksOn(d.runs[a.runId], a.reason, outcome.after.runs[a.runId])
           && outcome.after.interventions == d.interventions && outcome.after.events == d.events && outcome.after.actions == d.actions)
      && (outcome.Repeat? <==> ParallelWhole(a) && ParallelKnown(d, a))
  {
    SaysIs(a.reason);
    SaysIs(a.lead.reason);
    SaysIs(a.reviewer.reason);
    if a.runId in d.runs && d.runs[a.runId].featureId in d.features { SaysIs(d.features[d.runs[a.runId].featureId].goal); }
  }

  predicate NewWhole(a: NewSessionAdmission) {
    && a.sessionId != 0 && a.attemptSession == a.sessionId && a.attempt != 0 && a.at != 0 && Says(a.reason)
    && a.session.status.Starting? && a.session.runId != 0 && a.session.agentId != 0
  }

  ghost predicate NewMay(d: Tables, a: NewSessionAdmission) {
    && a.sessionId !in d.sessions && a.sessionId !in d.checkpoints && a.session.runId in d.runs && var run := d.runs[a.session.runId];
    && !run.paused && run.status.WaitingForUser? && FeatureIn(d, run, Planning) && NobodyActive(d, a.session.runId)
  }

  /** A session begins exactly where a run rests unpaused, its feature is planned, and nobody works there;
      it begins on its first attempt, without a provider yet. */
  lemma NewSessionExactly(d: Tables, a: NewSessionAdmission)
    ensures var outcome := BeginNewSession(d, a);
      && (outcome.Done? <==> NewWhole(a) && NewMay(d, a))
      && (outcome.Done? ==>
           var e := outcome.after;
           && SameBut(d, e, true, true, true, false) && e.actions == d.actions && e.events == d.events
           && OnlyAt(d.sessions, e.sessions, a.sessionId, Session(a.session.runId, a.session.agentId, a.session.role, Starting, 0))
           && OnlyAt(d.checkpoints, e.checkpoints, a.sessionId, Checkpoint(a.attempt, 0))
           && a.session.runId in e.runs && OnlyAt(d.runs, e.runs, a.session.runId, e.runs[a.session.runId])
           && WorksOn(d.runs[a.session.runId], a.reason, e.runs[a.session.runId]))
      && (NewWhole(a) && a.sessionId in d.sessions && a.sessionId in d.checkpoints ==>
           var known := d.sessions[a.sessionId].runId == a.session.runId && d.sessions[a.sessionId].agentId == a.session.agentId
             && d.sessions[a.sessionId].role == a.session.role && d.checkpoints[a.sessionId].attempt == a.attempt;
           outcome == if known then Repeat else Refuse(RecordConflict))
  {
    SaysIs(a.reason);
    NobodyActiveIs(d, a.session.runId);
    if a.session.runId in d.runs && d.runs[a.session.runId].featureId in d.features {
      SaysIs(d.features[d.runs[a.session.runId].featureId].goal);
    }
  }

  /******* Refusals *******/

  /** What is not there is answered as not found, and what is not whole as invalid. */
  lemma MissingIsNotFound(d: Tables, q: InterventionRequest, a: InterventionAdmission, c: Completion, r: Resolution, m: PauseMutation)
    ensures Whole(q) && q.id !in d.interventions ==> (QueueIntervention(d, q) == Refuse(NotFound) <==> q.runId !in d.runs)
    ensures !BeginWhole(a) ==> BeginIntervention(d, a) == Refuse(Invalid)
    ensures BeginWhole(a) && a.intervention !in d.interventions ==> BeginIntervention(d, a) == Refuse(NotFound)
    ensures !CompleteWhole(c) ==> CompleteIntervention(d, c) == Refuse(Invalid)
    ensures CompleteWhole(c) && c.intervention !in d.interventions ==> CompleteIntervention(d, c) == Refuse(NotFound)
    ensures !ResolveWhole(r) ==> ResolveIntervention(d, r) == Refuse(Invalid)
    ensures ResolveWhole(r) && r.id !in d.actions && r.intervention !in d.interventions ==> ResolveIntervention(d, r) == Refuse(NotFound)
    ensures m.id != 0 && m.runId != 0 && m.at != 0 && m.runId !in d.runs && (m.id in d.actions ==> d.actions[m.id] == (m.runId, m.action)) ==>
      ApplyPause(d, m) == Refuse(NotFound)
  {
    SaysIs(q.message);
    SaysIs(a.reason);
    SaysIs(c.reason);
  }

  /** A request is refused for the first reason that holds: the run has ended, its agent has not the one live
      session, or a request before was not answered. */
  lemma QueueRefusals(d: Tables, q: InterventionRequest)
    requires Whole(q) && q.id !in d.interventions && q.runId in d.runs
    ensures QueueIntervention(d, q) == Refuse(NotAllowed) <==> Over(d.runs[q.runId].status)
    ensures QueueIntervention(d, q) == Refuse(TargetUnavailable) <==> !Over(d.runs[q.runId].status) && !exists s :: Asks(d, q, s)
    ensures QueueIntervention(d, q) == Refuse(InterventionInProgress) <==>
      !Over(d.runs[q.runId].status) && (exists s :: Asks(d, q, s))
      && exists i :: i in d.interventions && d.interventions[i].runId == q.runId && !d.interventions[i].status.Answered?
  {
    SaysIs(q.message);
    OneTarget(d, q);
    NoneUnfinished(d, q.runId);
  }

  // The tables as the caller saw them: with the attempt it names.
  function AsSeen(d: Tables, session: Id, attempt: Id, event: nat): Tables {
    d.(checkpoints := d.checkpoints[session := Checkpoint(attempt, event)])
  }

  /** A caller that saw another attempt than the session is on is told so, where all else would do. */
  lemma BeginSawAnother(d: Tables, a: InterventionAdmission)
    requires BeginWhole(a) && a.intervention in d.interventions && a.nextSession == d.interventions[a.intervention].sessionId
    requires a.nextSession in d.checkpoints && d.checkpoints[a.nextSession] != Checkpoint(a.previous, a.previousEvent)
    requires BeginMay(AsSeen(d, a.nextSession, a.previous, a.previousEvent), a)
    ensures BeginIntervention(d, a) == Refuse(AttemptConflict)
  {
    SaysIs(a.reason);
    NobodyActiveIs(d, d.interventions[a.intervention].runId);
  }

  lemma TurnSawAnother(d: Tables, a: TurnAdmission)
    requires TurnWhole(a) && a.sessionId in d.checkpoints && d.checkpoints[a.sessionId] != Checkpoint(a.previous, a.previousEvent)
    requires d.checkpoints[a.sessionId].attempt != a.next && TurnMay(AsSeen(d, a.sessionId, a.previous, a.previousEvent), a)
    ensures BeginAutonomousTurn(d, a) == Refuse(AttemptConflict)
  {
    SaysIs(a.reason);
    SaysIs(d.features[d.runs[d.sessions[a.sessionId].runId].featureId].goal);
  }
}
