/** What each transaction of the execution store does to the tables, as a function:
    its guards in the store's order, and the rows it leaves. */
module Transactions {
  import opened Options
  import opened ExecutionTables

  datatype InterventionRequest = InterventionRequest(id: Id, runId: Id, target: Role, message: string, at: Time)

  datatype InterventionAdmission = InterventionAdmission(
    intervention: Id, previous: Id, previousEvent: nat, nextSession: Id, next: Id, reason: string, at: Time)

  datatype Completion = Completion(intervention: Id, attempt: Id, provider: Id, effect: Effect, reason: string, at: Time)

  datatype Resolution = Resolution(id: Id, runId: Id, intervention: Id, at: Time)

  datatype RunTransition = RunTransition(
    runId: Id, expected: RunStatus, status: RunStatus, reason: string, waitKind: WaitKind, at: Time)

  datatype SessionTransition = SessionTransition(
    sessionId: Id, expected: SessionStatus, status: SessionStatus, provider: Id, at: Time)

  datatype TurnAdmission = TurnAdmission(
    sessionId: Id, previous: Id, previousEvent: nat, next: Id, expectedState: FeatureState,
    reason: string, at: Time, runAlreadyActive: bool, alongside: bool)
  {
    predicate Valid() {
      sessionId != 0 && previous != 0 && next != 0 && next != previous && !Blank(reason) && at != 0
    }
  }

  datatype ParallelAdmission = ParallelAdmission(
    runId: Id, lead: TurnAdmission, reviewer: TurnAdmission, reason: string, at: Time)
  {
    predicate Valid() {
      && runId != 0 && !Blank(reason) && at != 0
      && lead.sessionId != reviewer.sessionId && lead.Valid() && reviewer.Valid()
    }
  }

  datatype NewSessionAdmission = NewSessionAdmission(
    sessionId: Id, session: Session, attemptSession: Id, attempt: Id, reason: string, at: Time)
  {
    predicate Valid() {
      && session.status.Starting? && attemptSession == sessionId && !Blank(reason) && at != 0
      && sessionId != 0 && session.runId != 0 && session.agentId != 0 && attempt != 0
    }
  }

  datatype PauseMutation = PauseMutation(id: Id, runId: Id, action: PauseAction, at: Time)

  datatype PendingEvent = PendingEvent(id: EventId, sessionId: Id, fromUser: bool, text: string, at: Time)
  {
    predicate Valid() { sessionId != 0 && !Blank(text) && at != 0 }
  }

  // The answer to a call: whether it changed the tables, or why it was refused.
  function ErrorOf(outcome: Outcome): Option<Error> {
    if outcome.Refuse? then Some(outcome.error) else None
  }

  /******* Interventions *******/

  function ArmPause(run: Run): Run {
    run.(paused := true, waitKind := PausedWait,
         pausedFrom := if !run.paused && run.status.WaitingForUser? then run.waitKind else run.pausedFrom)
  }

  function ResumeReason(db: Tables, run: Id): string
    requires run in db.runs
  {
    if !db.runs[run].status.WaitingForUser? then ""
    else if CarriedReason(db, run).Some? then CarriedReason(db, run).value
    else db.runs[run].reason
  }

  predicate SameRequest(db: Tables, r: InterventionRequest)
    requires r.id in db.interventions
  {
    var existing := db.interventions[r.id];
    var event := FindEvent(db.events, UserMessageOf(r.id));
    && existing.runId == r.runId && existing.target == r.target && existing.message == r.message
    && event.Some? && event.value.sessionId == existing.sessionId && event.value.fromUser
    && event.value.text == existing.message
  }

  ghost function QueueIntervention(db: Tables, r: InterventionRequest): Outcome {
    if r.id == 0 || r.runId == 0 || Blank(r.message) || r.at == 0 then Refuse(Invalid)
    else if r.id in db.interventions then
      if SameRequest(db, r) then Repeat else Refuse(InterventionConflict)
    else if r.runId !in db.runs then Refuse(NotFound)
    else if db.runs[r.runId].status.IsTerminal() then Refuse(NotAllowed)
    else if |Targets(db, r.runId, r.target)| != 1 then Refuse(TargetUnavailable)
    else if Unfinished(db, r.runId) != {} then Refuse(InterventionInProgress)
    else if !ArmPause(db.runs[r.runId]).Valid() then Refuse(Invalid)
    else if FindEvent(db.events, UserMessageOf(r.id)).Some? then Refuse(Storage)
    else
      var session :| session in Targets(db, r.runId, r.target);
      var waiting := db.runs[r.runId].status.WaitingForUser?;
      Done(db.(
        runs := db.runs[r.runId := ArmPause(db.runs[r.runId])],
        interventions := db.interventions[r.id := Intervention(
          r.runId, session, r.target, r.message, if waiting then Queued else WaitingForBoundary,
          0, NoEffect, ResumeReason(db, r.runId), r.at, None)],
        events := db.events + [SessionEvent(UserMessageOf(r.id), session, NextSequence(db.events, session), true, r.message)]))
  }

  // A run that rests in the pause, as every step of an intervention needs it.
  predicate RestsPaused(run: Run) {
    run.paused && run.status.WaitingForUser? && run.waitKind.PausedWait?
  }

  function BeginIntervention(db: Tables, a: InterventionAdmission): Outcome {
    if a.intervention == 0 || a.previous == 0 || a.next == a.previous || Blank(a.reason) || a.at == 0
       || a.nextSession == 0 || a.next == 0 then Refuse(Invalid)
    else if a.intervention !in db.interventions then Refuse(NotFound)
    else
      var iv := db.interventions[a.intervention];
      if (iv.status.BeingAnswered? || iv.status.Answered?) && iv.attempt == a.next then Repeat
      else if !iv.status.Queued? then Refuse(StateConflict)
      else if iv.sessionId !in db.sessions || iv.runId !in db.runs then Refuse(NotFound)
      else
        var session, run := db.sessions[iv.sessionId], db.runs[iv.runId];
        if session.runId != iv.runId || session.role != iv.target || !session.status.AtRest?
           || session.provider == 0 || !RestsPaused(run) then Refuse(StateConflict)
        else if ActiveSessions(db, iv.runId) != {} then Refuse(StateConflict)
        else if iv.sessionId !in db.checkpoints then Refuse(Storage)
        else if db.checkpoints[iv.sessionId] != Checkpoint(a.previous, a.previousEvent) then Refuse(AttemptConflict)
        else if Lookup(db.checkpoints, a.nextSession) != Some(Checkpoint(a.previous, a.previousEvent)) || iv.attempt != 0
        then Refuse(Storage)
        else Done(db.(
          checkpoints := db.checkpoints[a.nextSession := Checkpoint(a.next, 0)],
          sessions := db.sessions[iv.sessionId := session.(status := Active)],
          interventions := db.interventions[a.intervention := iv.(status := BeingAnswered, attempt := a.next)],
          runs := db.runs[iv.runId := run.(reason := a.reason)]))
  }

  function CompleteIntervention(db: Tables, c: Completion): Outcome {
    if c.intervention == 0 || c.attempt == 0 || c.provider == 0 || c.effect.NoEffect? || Blank(c.reason) || c.at == 0
    then Refuse(Invalid)
    else if c.intervention !in db.interventions then Refuse(NotFound)
    else
      var iv := db.interventions[c.intervention];
      if iv.status.Answered? then
        if iv.attempt == c.attempt && iv.effect == c.effect then Repeat else Refuse(InterventionConflict)
      else if !iv.status.BeingAnswered? || iv.attempt != c.attempt then Refuse(StateConflict)
      else if iv.sessionId !in db.sessions || iv.runId !in db.runs || iv.sessionId !in db.checkpoints then Refuse(Storage)
      else
        var session, run := db.sessions[iv.sessionId], db.runs[iv.runId];
        if session.runId != iv.runId || session.role != iv.target || !session.status.Active?
           || session.provider != c.provider || db.checkpoints[iv.sessionId].attempt != c.attempt || !RestsPaused(run)
        then Refuse(StateConflict)
        else Done(db.(
          sessions := db.sessions[iv.sessionId := session.(status := AtRest)],
          interventions := db.interventions[c.intervention := iv.(status := Answered, effect := c.effect)],
          runs := db.runs[iv.runId := run.(reason := c.reason)]))
  }

  const READY_TO_CONTINUE := "The workflow is ready to continue after the user's intervention."

  function Released(run: Run, resumeReason: string): Run {
    run.(paused := false, pausedFrom := NoWait,
         waitKind := if run.pausedFrom.NoWait? then Blocker else run.pausedFrom,
         reason := if Blank(resumeReason) then READY_TO_CONTINUE else resumeReason)
  }

  function ResolveIntervention(db: Tables, r: Resolution): Outcome {
    if r.id == 0 || r.runId == 0 || r.intervention == 0 || r.at == 0 then Refuse(Invalid)
    else if r.id in db.actions then
      if db.actions[r.id] == (r.runId, Resume) && r.intervention in db.interventions
         && db.interventions[r.intervention].runId == r.runId
         && db.interventions[r.intervention].resolvedBy == Some(r.id)
      then if r.runId in db.runs then Repeat else Refuse(NotFound)
      else Refuse(ActionConflict)
    else if r.intervention !in db.interventions then Refuse(NotFound)
    else
      var iv := db.interventions[r.intervention];
      if iv.runId != r.runId || !iv.status.Answered? || !iv.effect.GuidanceApplied? || iv.resolvedBy.Some?
         || !IsLatest(db, r.runId, r.intervention) then Refuse(StateConflict)
      else if r.runId !in db.runs then Refuse(NotFound)
      else if !RestsPaused(db.runs[r.runId]) then Refuse(StateConflict)
      else if !Released(db.runs[r.runId], iv.resumeReason).Valid() then Refuse(Invalid)
      else Done(db.(
        interventions := db.interventions[r.intervention := iv.(resolvedBy := Some(r.id))],
        runs := db.runs[r.runId := Released(db.runs[r.runId], iv.resumeReason)],
        actions := db.actions[r.id := (r.runId, Resume)]))
  }

  /******* Runs and sessions *******/

  function EffectiveWait(t: RunTransition): WaitKind {
    if t.status.WaitingForUser? && t.waitKind.NoWait? then Blocker else t.waitKind
  }

  function Moved(run: Run, t: RunTransition): Run {
    var wait := EffectiveWait(t);
    var next := run.(status := t.status, reason := t.reason);
    if t.status.IsTerminal() then next.(paused := false, waitKind := NoWait, pausedFrom := NoWait)
    else if run.paused then
      next.(waitKind := PausedWait, pausedFrom := if wait.NoWait? || wait.PausedWait? then run.pausedFrom else wait)
    else next.(waitKind := wait, pausedFrom := NoWait)
  }

  // At a boundary, the intervention that waited for it is queued with the boundary's reason.
  function AtBoundary(db: Tables, run: Id, reason: string): map<Id, Intervention> {
    map i | i in db.interventions ::
      var iv := db.interventions[i];
      if iv.runId == run && iv.status.WaitingForBoundary? then iv.(status := Queued, resumeReason := reason) else iv
  }

  function TransitionRun(db: Tables, t: RunTransition): Outcome {
    if t.runId == 0 || t.at == 0
       || !((t.expected.WaitingForUser? && t.status.WaitingForUser?) || t.expected.CanTransitionTo(t.status))
    then Refuse(Invalid)
    else if t.runId !in db.runs then Refuse(NotFound)
    else if db.runs[t.runId].status != t.expected then Refuse(StateConflict)
    else
      var run := Moved(db.runs[t.runId], t);
      if !run.Valid() then Refuse(Invalid)
      else Done(db.(
        runs := db.runs[t.runId := run],
        interventions := if run.status.WaitingForUser? && run.paused then AtBoundary(db, t.runId, t.reason) else db.interventions))
  }

  function TransitionSession(db: Tables, t: SessionTransition): Outcome {
    if t.sessionId == 0 || t.at == 0 || !t.expected.CanTransitionTo(t.status) then Refuse(Invalid)
    else if t.sessionId !in db.sessions then Refuse(NotFound)
    else
      var session := db.sessions[t.sessionId];
      if session.status != t.expected then Refuse(StateConflict)
      else if t.provider != 0 && session.provider != 0 && session.provider != t.provider then Refuse(StateConflict)
      else Done(db.(sessions := db.sessions[t.sessionId := session.(
        status := t.status, provider := if t.provider != 0 then t.provider else session.provider)]))
  }

  function ApplyPause(db: Tables, m: PauseMutation): Outcome {
    if m.id == 0 || m.runId == 0 || m.at == 0 then Refuse(Invalid)
    else if m.id in db.actions then
      if db.actions[m.id] != (m.runId, m.action) then Refuse(ActionConflict)
      else if m.runId in db.runs then Repeat else Refuse(NotFound)
    else if m.runId !in db.runs then Refuse(NotFound)
    else if db.runs[m.runId].status.IsTerminal() then Refuse(Invalid)
    else
      var run := db.runs[m.runId];
      var next :=
        if m.action.Pause? && !run.paused then ArmPause(run)
        else if m.action.Resume? && run.paused then
          run.(paused := false, pausedFrom := NoWait, waitKind :=
            if !run.status.WaitingForUser? then NoWait
            else if run.pausedFrom.NoWait? then Blocker else run.pausedFrom)
        else run;
      if !next.Valid() then Refuse(Invalid)
      else Done(db.(runs := db.runs[m.runId := next], actions := db.actions[m.id := (m.runId, m.action)]))
  }

  function AppendEvent(db: Tables, p: PendingEvent): Outcome {
    var existing := FindEvent(db.events, p.id);
    if !p.Valid() then Refuse(Invalid)
    else if existing.Some? then
      if existing.value.sessionId == p.sessionId && existing.value.fromUser == p.fromUser && existing.value.text == p.text
      then Repeat else Refuse(EventConflict)
    else if p.sessionId !in db.sessions then Refuse(Storage)
    else Done(db.(events := db.events + [SessionEvent(p.id, p.sessionId, NextSequence(db.events, p.sessionId), p.fromUser, p.text)]))
  }

  /******* Turn admissions *******/

  function Activated(run: Run, reason: string): Run {
    run.(status := Running, reason := reason, waitKind := NoWait, pausedFrom := NoWait)
  }

  function BeginAutonomousTurn(db: Tables, a: TurnAdmission): Outcome {
    if !a.Valid() then Refuse(Invalid)
    else if a.sessionId !in db.sessions then Refuse(NotFound)
    else
      var session := db.sessions[a.sessionId];
      if session.runId !in db.runs || a.sessionId !in db.checkpoints then Refuse(Storage)
      else if db.checkpoints[a.sessionId].attempt == a.next then Repeat
      else
        var run := db.runs[session.runId];
        if run.paused || !session.status.AtRest? || session.provider == 0
           || run.status != (if a.runAlreadyActive then Running else WaitingForUser) then Refuse(StateConflict)
        else if run.featureId !in db.features then Refuse(Storage)
        else if db.features[run.featureId].state != a.expectedState || !db.features[run.featureId].HasGoal() then Refuse(StateConflict)
        else if db.checkpoints[a.sessionId] != Checkpoint(a.previous, a.previousEvent) then Refuse(AttemptConflict)
        else if a.runAlreadyActive && !a.alongside && ActiveSessions(db, session.runId) != {} then Refuse(StateConflict)
        else Done(db.(
          checkpoints := db.checkpoints[a.sessionId := Checkpoint(a.next, 0)],
          sessions := db.sessions[a.sessionId := session.(status := Active)],
          runs := db.runs[session.runId := Activated(run, a.reason)]))
  }

  predicate HoldsAttempt(db: Tables, session: Id, attempt: Id) {
    session in db.checkpoints && db.checkpoints[session].attempt == attempt
  }

  // One of the two turns of a parallel admission, before the run is activated.
  function RotateTurn(db: Tables, run: Id, a: TurnAdmission): Outcome {
    if a.sessionId !in db.sessions || a.sessionId !in db.checkpoints then Refuse(Storage)
    else if db.checkpoints[a.sessionId].attempt == a.next then Repeat
    else
      var session := db.sessions[a.sessionId];
      if session.runId != run || !session.status.AtRest? || session.provider == 0
         || db.checkpoints[a.sessionId] != Checkpoint(a.previous, a.previousEvent) then Refuse(StateConflict)
      else Done(db.(
        checkpoints := db.checkpoints[a.sessionId := Checkpoint(a.next, 0)],
        sessions := db.sessions[a.sessionId := session.(status := Active)]))
  }

  function BeginParallelTurns(db: Tables, a: ParallelAdmission): Outcome {
    if !a.Valid() then Refuse(Invalid)
    else if a.runId !in db.runs then Refuse(NotFound)
    else
      var run := db.runs[a.runId];
      if run.status.Running? && HoldsAttempt(db, a.lead.sessionId, a.lead.next)
         && HoldsAttempt(db, a.reviewer.sessionId, a.reviewer.next) then Repeat
      else if run.paused || !run.status.WaitingForUser? || !run.independentTests then Refuse(StateConflict)
      else if run.featureId !in db.features then Refuse(Storage)
      else if !db.features[run.featureId].state.Implementing? || !db.features[run.featureId].HasGoal() then Refuse(StateConflict)
      else
        var lead := RotateTurn(db, a.runId, a.lead);
        if !lead.Done? then lead
        else
          var both := RotateTurn(lead.after, a.runId, a.reviewer);
          if !both.Done? then both
          else Done(both.after.(runs := db.runs[a.runId := Activated(run, a.reason)]))
  }

  function BeginNewSession(db: Tables, a: NewSessionAdmission): Outcome {
    if !a.Valid() then Refuse(Invalid)
    else if a.sessionId in db.sessions then
      var existing := db.sessions[a.sessionId];
      if a.sessionId !in db.checkpoints then Refuse(Storage)
      else if existing.runId != a.session.runId || existing.agentId != a.session.agentId
              || existing.role != a.session.role || db.checkpoints[a.sessionId].attempt != a.attempt
      then Refuse(RecordConflict)
      else Repeat
    else if a.session.runId !in db.runs then Refuse(NotFound)
    else
      var run := db.runs[a.session.runId];
      if run.paused || !run.status.WaitingForUser? then Refuse(StateConflict)
      else if run.featureId !in db.features then Refuse(Storage)
      else if !db.features[run.featureId].state.Planning? || !db.features[run.featureId].HasGoal() then Refuse(StateConflict)
      else if ActiveSessions(db, a.session.runId) != {} then Refuse(StateConflict)
      else if a.sessionId in db.checkpoints then Refuse(Storage)
      else Done(db.(
        sessions := db.sessions[a.sessionId := a.session.(provider := 0)],
        checkpoints := db.checkpoints[a.sessionId := Checkpoint(a.attempt, 0)],
        runs := db.runs[a.session.runId := Activated(run, a.reason)]))
  }
}
