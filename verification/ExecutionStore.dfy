/** The execution store itself: each transaction reads its rows, checks its guards in order,
    then updates the tables one row at a time, and a refused one leaves them as they were. */
module ExecutionStore {
  import opened Options
  import opened ExecutionTables
  import opened Transactions

  lemma OnlyMember<T>(s: set<T>, a: T)
    requires |s| == 1 && a in s
    ensures forall b :: b in s ==> a == b
  {
    assert |s - {a}| == 0;
    assert forall b :: b in s ==> b == a || b in s - {a};
  }

  class Store {
    var runs: map<Id, Run>
    var sessions: map<Id, Session>
    var checkpoints: map<Id, Checkpoint>
    var interventions: map<Id, Intervention>
    var actions: map<Id, (Id, PauseAction)>
    var features: map<Id, Feature>
    var events: seq<SessionEvent>

    function Value(): Tables
      reads this
    {
      Tables(runs, sessions, checkpoints, interventions, actions, features, events)
    }

    method Rollback(begun: Tables)
      modifies this
      ensures Value() == begun
    {
      runs, sessions, checkpoints := begun.runs, begun.sessions, begun.checkpoints;
      interventions, actions := begun.interventions, begun.actions;
      features, events := begun.features, begun.events;
    }

    /******* Interventions *******/

    method QueueIntervention(r: InterventionRequest) returns (changed: bool, error: Option<Error>)
      modifies this
      ensures var outcome := Transactions.QueueIntervention(old(Value()), r);
        Value() == After(old(Value()), outcome) && changed == outcome.Done? && error == ErrorOf(outcome)
    {
      if r.id == 0 || r.runId == 0 || Blank(r.message) || r.at == 0 { return false, Some(Invalid); }
      var begun := Value();
      if r.id in interventions {
        var existing := interventions[r.id];
        if existing.runId != r.runId || existing.target != r.target || existing.message != r.message {
          return false, Some(InterventionConflict);
        }
        var event := FindEvent(events, UserMessageOf(r.id));
        if event.None? || event.value.sessionId != existing.sessionId || !event.value.fromUser
           || event.value.text != existing.message {
          return false, Some(InterventionConflict);
        }
        return false, None;
      }
      if r.runId !in runs { return false, Some(NotFound); }
      var run := runs[r.runId];
      if run.status.IsTerminal() { return false, Some(NotAllowed); }
      var targets := Targets(begun, r.runId, r.target);
      if |targets| != 1 { return false, Some(TargetUnavailable); }
      var session :| session in targets;
      OnlyMember(targets, session);
      if Unfinished(begun, r.runId) != {} { return false, Some(InterventionInProgress); }
      var status, resumeReason := WaitingForBoundary, "";
      if run.status.WaitingForUser? {
        status := Queued;
        resumeReason := run.reason;
        var carried := CarriedReason(begun, r.runId);
        if carried.Some? { resumeReason := carried.value; }
      }
      if !run.paused {
        run := run.(paused := true);
        if run.status.WaitingForUser? { run := run.(pausedFrom := run.waitKind); }
      }
      run := run.(waitKind := PausedWait);
      if !run.Valid() { return false, Some(Invalid); }
      runs := runs[r.runId := run];
      interventions := interventions[r.id :=
        Intervention(r.runId, session, r.target, r.message, status, 0, NoEffect, resumeReason, r.at, None)];
      if FindEvent(events, UserMessageOf(r.id)).Some? {
        Rollback(begun);
        return false, Some(Storage);
      }
      events := events + [SessionEvent(UserMessageOf(r.id), session, NextSequence(events, session), true, r.message)];
      return true, None;
    }

    method BeginInterventionTurn(a: InterventionAdmission) returns (changed: bool, error: Option<Error>)
      modifies this
      ensures var outcome := BeginIntervention(old(Value()), a);
        Value() == After(old(Value()), outcome) && changed == outcome.Done? && error == ErrorOf(outcome)
    {
      if a.intervention == 0 || a.previous == 0 || a.next == a.previous || Blank(a.reason) || a.at == 0
         || a.nextSession == 0 || a.next == 0 { return false, Some(Invalid); }
      var begun := Value();
      if a.intervention !in interventions { return false, Some(NotFound); }
      var iv := interventions[a.intervention];
      if (iv.status.BeingAnswered? || iv.status.Answered?) && iv.attempt == a.next { return false, None; }
      if !iv.status.Queued? { return false, Some(StateConflict); }
      if iv.sessionId !in sessions || iv.runId !in runs { return false, Some(NotFound); }
      var session, run := sessions[iv.sessionId], runs[iv.runId];
      if session.runId != iv.runId || session.role != iv.target || !session.status.AtRest?
         || session.provider == 0 || !run.paused || !run.status.WaitingForUser? || !run.waitKind.PausedWait? {
        return false, Some(StateConflict);
      }
      if ActiveSessions(begun, iv.runId) != {} { return false, Some(StateConflict); }
      if iv.sessionId !in checkpoints { return false, Some(Storage); }
      var checkpoint := checkpoints[iv.sessionId];
      if checkpoint.attempt != a.previous || checkpoint.lastEvent != a.previousEvent { return false, Some(AttemptConflict); }
      // The row of the attempt's own session is rotated, so the two sessions must be one.
      if Lookup(checkpoints, a.nextSession) != Some(Checkpoint(a.previous, a.previousEvent)) { return false, Some(Storage); }
      checkpoints := checkpoints[a.nextSession := Checkpoint(a.next, 0)];
      sessions := sessions[iv.sessionId := session.(status := Active)];
      if iv.attempt != 0 {
        Rollback(begun);
        return false, Some(Storage);
      }
      interventions := interventions[a.intervention := iv.(status := BeingAnswered, attempt := a.next)];
      runs := runs[iv.runId := run.(reason := a.reason)];
      return true, None;
    }

    method CompleteIntervention(c: Completion) returns (changed: bool, error: Option<Error>)
      modifies this
      ensures var outcome := Transactions.CompleteIntervention(old(Value()), c);
        Value() == After(old(Value()), outcome) && changed == outcome.Done? && error == ErrorOf(outcome)
    {
      if c.intervention == 0 || c.attempt == 0 || c.provider == 0 || c.effect.NoEffect? || Blank(c.reason) || c.at == 0 {
        return false, Some(Invalid);
      }
      if c.intervention !in interventions { return false, Some(NotFound); }
      var iv := interventions[c.intervention];
      if iv.status.Answered? {
        if iv.attempt == c.attempt && iv.effect == c.effect { return false, None; }
        return false, Some(InterventionConflict);
      }
      if !iv.status.BeingAnswered? || iv.attempt != c.attempt { return false, Some(StateConflict); }
      if iv.sessionId !in sessions || iv.runId !in runs || iv.sessionId !in checkpoints { return false, Some(Storage); }
      var session, run := sessions[iv.sessionId], runs[iv.runId];
      if session.runId != iv.runId || session.role != iv.target || !session.status.Active?
         || session.provider != c.provider || checkpoints[iv.sessionId].attempt != c.attempt
         || !run.paused || !run.status.WaitingForUser? || !run.waitKind.PausedWait? {
        return false, Some(StateConflict);
      }
      sessions := sessions[iv.sessionId := session.(status := AtRest)];
      interventions := interventions[c.intervention := iv.(status := Answered, effect := c.effect)];
      runs := runs[iv.runId := run.(reason := c.reason)];
      return true, None;
    }

    method ResolveInterventionGuidance(r: Resolution) returns (changed: bool, error: Option<Error>)
      modifies this
      ensures var outcome := ResolveIntervention(old(Value()), r);
        Value() == After(old(Value()), outcome) && changed == outcome.Done? && error == ErrorOf(outcome)
    {
      if r.id == 0 || r.runId == 0 || r.intervention == 0 || r.at == 0 { return false, Some(Invalid); }
      if r.id in actions {
        if actions[r.id] != (r.runId, Resume) { return false, Some(ActionConflict); }
        if r.intervention !in interventions || interventions[r.intervention].runId != r.runId
           || interventions[r.intervention].resolvedBy != Some(r.id) { return false, Some(ActionConflict); }
        if r.runId !in runs { return false, Some(NotFound); }
        return false, None;
      }
      if r.intervention !in interventions { return false, Some(NotFound); }
      var iv := interventions[r.intervention];
      if iv.runId != r.runId || !iv.status.Answered? || !iv.effect.GuidanceApplied? || iv.resolvedBy.Some? {
        return false, Some(StateConflict);
      }
      if !IsLatest(Value(), r.runId, r.intervention) { return false, Some(StateConflict); }
      if r.runId !in runs { return false, Some(NotFound); }
      var run := runs[r.runId];
      if !run.status.WaitingForUser? || !run.paused || !run.waitKind.PausedWait? { return false, Some(StateConflict); }
      run := run.(paused := false, waitKind := run.pausedFrom);
      if run.waitKind.NoWait? { run := run.(waitKind := Blocker); }
      run := run.(pausedFrom := NoWait);
      if !Blank(iv.resumeReason) {
        run := run.(reason := iv.resumeReason);
      } else {
        run := run.(reason := READY_TO_CONTINUE);
      }
      if !run.Valid() { return false, Some(Invalid); }
      interventions := interventions[r.intervention := iv.(resolvedBy := Some(r.id))];
      runs := runs[r.runId := run];
      actions := actions[r.id := (r.runId, Resume)];
      return true, None;
    }

    /******* Runs and sessions *******/

    method TransitionRun(t: RunTransition) returns (changed: bool, error: Option<Error>)
      modifies this
      ensures var outcome := Transactions.TransitionRun(old(Value()), t);
        Value() == After(old(Value()), outcome) && changed == outcome.Done? && error == ErrorOf(outcome)
    {
      var waitKind := t.waitKind;
      if t.status.WaitingForUser? && waitKind.NoWait? { waitKind := Blocker; }
      if t.runId == 0 || t.at == 0
         || !((t.expected.WaitingForUser? && t.status.WaitingForUser?) || t.expected.CanTransitionTo(t.status)) {
        return false, Some(Invalid);
      }
      if t.runId !in runs { return false, Some(NotFound); }
      var run := runs[t.runId];
      if run.status != t.expected { return false, Some(StateConflict); }
      run := run.(status := t.status, reason := t.reason);
      if t.status.IsTerminal() {
        run := run.(paused := false, waitKind := NoWait, pausedFrom := NoWait);
      } else if run.paused {
        run := run.(waitKind := PausedWait);
        if !waitKind.NoWait? && !waitKind.PausedWait? { run := run.(pausedFrom := waitKind); }
      } else {
        run := run.(waitKind := waitKind, pausedFrom := NoWait);
      }
      if !run.Valid() { return false, Some(Invalid); }
      runs := runs[t.runId := run];
      if run.status.WaitingForUser? && run.paused {
        interventions := map i | i in interventions ::
          if interventions[i].runId == t.runId && interventions[i].status.WaitingForBoundary?
          then interventions[i].(status := Queued, resumeReason := t.reason) else interventions[i];
      }
      return true, None;
    }

    method TransitionSession(t: SessionTransition) returns (changed: bool, error: Option<Error>)
      modifies this
      ensures var outcome := Transactions.TransitionSession(old(Value()), t);
        Value() == After(old(Value()), outcome) && changed == outcome.Done? && error == ErrorOf(outcome)
    {
      if t.sessionId == 0 || t.at == 0 || !t.expected.CanTransitionTo(t.status) { return false, Some(Invalid); }
      if t.sessionId !in sessions { return false, Some(NotFound); }
      var session := sessions[t.sessionId];
      if session.status != t.expected { return false, Some(StateConflict); }
      if t.provider != 0 {
        if session.provider != 0 && session.provider != t.provider { return false, Some(StateConflict); }
        session := session.(provider := t.provider);
      }
      sessions := sessions[t.sessionId := session.(status := t.status)];
      return true, None;
    }

    method ApplyRunPause(m: PauseMutation) returns (changed: bool, error: Option<Error>)
      modifies this
      ensures var outcome := ApplyPause(old(Value()), m);
        Value() == After(old(Value()), outcome) && changed == outcome.Done? && error == ErrorOf(outcome)
    {
      if m.id == 0 || m.runId == 0 || m.at == 0 { return false, Some(Invalid); }
      if m.id in actions {
        if actions[m.id] != (m.runId, m.action) { return false, Some(ActionConflict); }
        if m.runId !in runs { return false, Some(NotFound); }
        return false, None;
      }
      if m.runId !in runs { return false, Some(NotFound); }
      var run := runs[m.runId];
      if run.status.IsTerminal() { return false, Some(Invalid); }
      if m.action.Pause? && !run.paused {
        if run.status.WaitingForUser? { run := run.(pausedFrom := run.waitKind); }
        run := run.(paused := true, waitKind := PausedWait);
      } else if m.action.Resume? && run.paused {
        run := run.(paused := false);
        if run.status.WaitingForUser? {
          run := run.(waitKind := if run.pausedFrom.NoWait? then Blocker else run.pausedFrom);
        } else {
          run := run.(waitKind := NoWait);
        }
        run := run.(pausedFrom := NoWait);
      }
      if !run.Valid() { return false, Some(Invalid); }
      runs := runs[m.runId := run];
      actions := actions[m.id := (m.runId, m.action)];
      return true, None;
    }

    method AppendEvent(p: PendingEvent) returns (changed: bool, error: Option<Error>)
      modifies this
      ensures var outcome := Transactions.AppendEvent(old(Value()), p);
        Value() == After(old(Value()), outcome) && changed == outcome.Done? && error == ErrorOf(outcome)
    {
      if !p.Valid() { return false, Some(Invalid); }
      var existing := FindEvent(events, p.id);
      if existing.Some? {
        if existing.value.sessionId != p.sessionId || existing.value.fromUser != p.fromUser || existing.value.text != p.text {
          return false, Some(EventConflict);
        }
        return false, None;
      }
      var sequence := NextSequence(events, p.sessionId);
      if p.sessionId !in sessions { return false, Some(Storage); }
      events := events + [SessionEvent(p.id, p.sessionId, sequence, p.fromUser, p.text)];
      return true, None;
    }

    /******* Turn admissions *******/

    method BeginAutonomousTurn(a: TurnAdmission) returns (changed: bool, error: Option<Error>)
      modifies this
      ensures var outcome := Transactions.BeginAutonomousTurn(old(Value()), a);
        Value() == After(old(Value()), outcome) && changed == outcome.Done? && error == ErrorOf(outcome)
    {
      if !a.Valid() { return false, Some(Invalid); }
      if a.sessionId !in sessions { return false, Some(NotFound); }
      var session := sessions[a.sessionId];
      if session.runId !in runs || a.sessionId !in checkpoints { return false, Some(Storage); }
      var run, checkpoint := runs[session.runId], checkpoints[a.sessionId];
      if checkpoint.attempt == a.next { return false, None; }
      var expected := WaitingForUser;
      if a.runAlreadyActive { expected := Running; }
      if run.paused || !session.status.AtRest? || session.provider == 0 || run.status != expected {
        return false, Some(StateConflict);
      }
      if run.featureId !in features { return false, Some(Storage); }
      var feature := features[run.featureId];
      if feature.state != a.expectedState || Blank(feature.goal) || !feature.goalAccepted { return false, Some(StateConflict); }
      if checkpoint.attempt != a.previous || checkpoint.lastEvent != a.previousEvent { return false, Some(AttemptConflict); }
      if a.runAlreadyActive && !a.alongside {
        if ActiveSessions(Value(), session.runId) != {} { return false, Some(StateConflict); }
      }
      checkpoints := checkpoints[a.sessionId := Checkpoint(a.next, 0)];
      sessions := sessions[a.sessionId := session.(status := Active)];
      runs := runs[session.runId := run.(status := Running, reason := a.reason, waitKind := NoWait, pausedFrom := NoWait)];
      return true, None;
    }

    method BeginParallelImplementationTurns(a: ParallelAdmission) returns (changed: bool, error: Option<Error>)
      modifies this
      ensures var outcome := BeginParallelTurns(old(Value()), a);
        Value() == After(old(Value()), outcome) && changed == outcome.Done? && error == ErrorOf(outcome)
    {
      if !a.Valid() { return false, Some(Invalid); }
      var begun := Value();
      if a.runId !in runs { return false, Some(NotFound); }
      var run := runs[a.runId];
      if run.status.Running? {
        if HoldsAttempt(begun, a.lead.sessionId, a.lead.next) && HoldsAttempt(begun, a.reviewer.sessionId, a.reviewer.next) {
          return false, None;
        }
      }
      if run.paused || !run.status.WaitingForUser? || !run.independentTests { return false, Some(StateConflict); }
      if run.featureId !in features { return false, Some(Storage); }
      var feature := features[run.featureId];
      if !feature.state.Implementing? || Blank(feature.goal) || !feature.goalAccepted { return false, Some(StateConflict); }
      var turns := [a.lead, a.reviewer];
      for n := 0 to 2
        invariant n == 0 ==> Value() == begun
        invariant n >= 1 ==> RotateTurn(begun, a.runId, a.lead).Done?
        invariant n == 1 ==> Value() == RotateTurn(begun, a.runId, a.lead).after
        invariant n == 2 ==> RotateTurn(RotateTurn(begun, a.runId, a.lead).after, a.runId, a.reviewer) == Done(Value())
      {
        var turn := turns[n];
        if turn.sessionId !in sessions || turn.sessionId !in checkpoints {
          Rollback(begun);
          return false, Some(Storage);
        }
        var session, checkpoint := sessions[turn.sessionId], checkpoints[turn.sessionId];
        if checkpoint.attempt == turn.next {
          Rollback(begun);
          return false, None;
        }
        if session.runId != a.runId || !session.status.AtRest? || session.provider == 0
           || checkpoint.attempt != turn.previous || checkpoint.lastEvent != turn.previousEvent {
          Rollback(begun);
          return false, Some(StateConflict);
        }
        checkpoints := checkpoints[turn.sessionId := Checkpoint(turn.next, 0)];
        sessions := sessions[turn.sessionId := session.(status := Active)];
      }
      runs := runs[a.runId := run.(status := Running, reason := a.reason, waitKind := NoWait, pausedFrom := NoWait)];
      return true, None;
    }

    method BeginNewSessionTurn(a: NewSessionAdmission) returns (changed: bool, error: Option<Error>)
      modifies this
      ensures var outcome := BeginNewSession(old(Value()), a);
        Value() == After(old(Value()), outcome) && changed == outcome.Done? && error == ErrorOf(outcome)
    {
      if !a.Valid() { return false, Some(Invalid); }
      var begun := Value();
      if a.sessionId in sessions {
        var existing := sessions[a.sessionId];
        if a.sessionId !in checkpoints { return false, Some(Storage); }
        if existing.runId != a.session.runId || existing.agentId != a.session.agentId
           || existing.role != a.session.role || checkpoints[a.sessionId].attempt != a.attempt {
          return false, Some(RecordConflict);
        }
        return false, None;
      }
      if a.session.runId !in runs { return false, Some(NotFound); }
      var run := runs[a.session.runId];
      if run.paused || !run.status.WaitingForUser? { return false, Some(StateConflict); }
      if run.featureId !in features { return false, Some(Storage); }
      var feature := features[run.featureId];
      if !feature.state.Planning? || Blank(feature.goal) || !feature.goalAccepted { return false, Some(StateConflict); }
      if ActiveSessions(begun, a.session.runId) != {} { return false, Some(StateConflict); }
      sessions := sessions[a.sessionId := a.session.(provider := 0)];
      if a.sessionId in checkpoints {
        Rollback(begun);
        return false, Some(Storage);
      }
      checkpoints := checkpoints[a.sessionId := Checkpoint(a.attempt, 0)];
      runs := runs[a.session.runId := run.(status := Running, reason := a.reason, waitKind := NoWait, pausedFrom := NoWait)];
      return true, None;
    }
  }
}
