/** What the invariant says of every reachable state: interventions one at a time, a run that
    answers is left alone, the checkpoint it rested at comes back, attempts are admitted once. */
module Interventions {
  import opened Options
  import opened ExecutionTables
  import opened Transactions
  import opened InterventionRuns

  /******* No admission commits twice *******/

  /** Repeating a committed admission, at any later state, for any reason and with any other fields
      than its attempts, changes no table. */
  lemma RepeatChangesNothing(w: World, step: Step)
    requires AttemptsOk(w) && WasAdmitted(w, step)
    ensures !Apply(w.db, step).Done? && After(w.db, Apply(w.db, step)) == w.db
  {
    var earlier :| earlier in w.admitted && Repeats(step, earlier);
    assert AdmittedOk(w, earlier);
  }

  lemma AttemptsFresh(w: World, step: Step, v: World)
    requires AttemptsOk(w) && Next(w, step, v) && Apply(w.db, step).Done?
    ensures NextAttempts(step) !! w.used
    ensures step.Parallel? ==> step.parallel.lead.next != step.parallel.reviewer.next
  {
    if WasAdmitted(w, step) { RepeatChangesNothing(w, step); }
  }

  // Rotating one session's attempt to a new one retires exactly the attempt it held.
  ghost predicate Rotated(w: World, v: World, s: Id, previous: Id, next: Id) {
    && s in w.db.checkpoints && w.db.checkpoints[s].attempt == previous
    && v.db.checkpoints == w.db.checkpoints[s := Checkpoint(next, 0)]
    && next !in w.used && v.used == w.used + {next} && v.retired == w.retired + {previous}
  }

  ghost predicate AttemptsStored(w: World) {
    && w.retired <= w.used
    && (forall s :: s in w.db.checkpoints ==> w.db.checkpoints[s].attempt in w.used - w.retired)
    && (forall s, t :: s in w.db.checkpoints && t in w.db.checkpoints && s != t ==>
         w.db.checkpoints[s].attempt != w.db.checkpoints[t].attempt)
  }

  lemma RotationKeepsAttempts(w: World, v: World, s: Id, previous: Id, next: Id)
    requires AttemptsStored(w) && Rotated(w, v, s, previous, next)
    ensures AttemptsStored(v)
  {
  }

  // Rows that a committed admission relies on are never taken back.
  ghost predicate RowsKept(w: World, v: World) {
    && w.retired <= v.retired
    && (forall s :: s in w.db.sessions ==> s in v.db.sessions)
    && (forall i :: i in w.db.interventions && !w.db.interventions[i].status.WaitingForBoundary? && !w.db.interventions[i].status.Queued? ==>
         i in v.db.interventions && !v.db.interventions[i].status.WaitingForBoundary? && !v.db.interventions[i].status.Queued?)
  }

  lemma StepKeepsSessions(d: Tables, step: Step)
    requires Apply(d, step).Done?
    ensures forall s :: s in d.sessions ==> s in Apply(d, step).after.sessions
  {
  }

  lemma StepKeepsAnswered(d: Tables, step: Step, i: Id)
    requires Apply(d, step).Done? && i in d.interventions
    requires !d.interventions[i].status.WaitingForBoundary? && !d.interventions[i].status.Queued?
    ensures var e := Apply(d, step).after;
      i in e.interventions && !e.interventions[i].status.WaitingForBoundary? && !e.interventions[i].status.Queued?
  {
  }

  lemma StepKeepsRows(w: World, step: Step, v: World)
    requires Next(w, step, v)
    ensures RowsKept(w, v)
  {
    if Apply(w.db, step).Done? {
      StepKeepsSessions(w.db, step);
      forall i | i in w.db.interventions && !w.db.interventions[i].status.WaitingForBoundary? && !w.db.interventions[i].status.Queued?
        ensures i in v.db.interventions && !v.db.interventions[i].status.WaitingForBoundary? && !v.db.interventions[i].status.Queued?
      {
        StepKeepsAnswered(w.db, step, i);
      }
    }
  }

  lemma AdmissionsStay(w: World, step: Step, v: World)
    requires AttemptsOk(w) && Next(w, step, v)
    ensures forall admitted :: admitted in v.admitted ==> AdmittedOk(v, admitted)
  {
    StepKeepsRows(w, step, v);
    forall admitted | admitted in v.admitted ensures AdmittedOk(v, admitted) {
      if admitted in w.admitted { assert AdmittedOk(w, admitted); }
    }
  }

  lemma BeginRotates(w: World, a: InterventionAdmission, v: World)
    requires AttemptsOk(w) && Next(w, Begin(a), v) && BeginIntervention(w.db, a).Done?
    ensures a.nextSession == w.db.interventions[a.intervention].sessionId
    ensures Rotated(w, v, a.nextSession, a.previous, a.next)
  {
    AttemptsFresh(w, Begin(a), v);
    assert a.next in NextAttempts(Begin(a));
  }

  lemma TurnRotates(w: World, a: TurnAdmission, v: World)
    requires AttemptsOk(w) && Next(w, Turn(a), v) && BeginAutonomousTurn(w.db, a).Done?
    ensures Rotated(w, v, a.sessionId, a.previous, a.next)
  {
    AttemptsFresh(w, Turn(a), v);
    assert a.next in NextAttempts(Turn(a));
  }

  /** A parallel admission rotates both sessions to cursor zero and activates both, and leaves
      every other session and checkpoint alone. */
  lemma ParallelRotatesBoth(db: Tables, a: ParallelAdmission)
    requires BeginParallelTurns(db, a).Done?
    ensures var e, lead, reviewer := BeginParallelTurns(db, a).after, a.lead.sessionId, a.reviewer.sessionId;
      && e.checkpoints.Keys == db.checkpoints.Keys && e.sessions.Keys == db.sessions.Keys
      && e.checkpoints[lead] == Checkpoint(a.lead.next, 0) && e.checkpoints[reviewer] == Checkpoint(a.reviewer.next, 0)
      && e.sessions[lead] == db.sessions[lead].(status := Active) && e.sessions[reviewer] == db.sessions[reviewer].(status := Active)
      && (forall s :: s in db.checkpoints && s !in {lead, reviewer} ==> e.checkpoints[s] == db.checkpoints[s])
      && (forall s :: s in db.sessions && s !in {lead, reviewer} ==> e.sessions[s] == db.sessions[s])
      && e.runs[a.runId].status.Running? && e.interventions == db.interventions
      && db.checkpoints[lead].attempt == a.lead.previous && db.checkpoints[reviewer].attempt == a.reviewer.previous
      && db.sessions[lead].runId == a.runId && db.sessions[reviewer].runId == a.runId
  {
  }

  lemma ParallelKeepsAttempts(w: World, a: ParallelAdmission, v: World)
    requires AttemptsOk(w) && Next(w, Parallel(a), v) && BeginParallelTurns(w.db, a).Done?
    ensures AttemptsStored(v)
  {
    AttemptsFresh(w, Parallel(a), v);
    ParallelRotatesBoth(w.db, a);
    assert {a.lead.next, a.reviewer.next} == NextAttempts(Parallel(a));
    var lead, reviewer := a.lead.sessionId, a.reviewer.sessionId;
    var middle := w.(db := w.db.(checkpoints := w.db.checkpoints[lead := Checkpoint(a.lead.next, 0)]),
      used := w.used + {a.lead.next}, retired := w.retired + {a.lead.previous});
    RotationKeepsAttempts(w, middle, lead, a.lead.previous, a.lead.next);
    assert v.used == middle.used + {a.reviewer.next};
    assert v.retired == middle.retired + {a.reviewer.previous};
    assert v.db.checkpoints == middle.db.checkpoints[reviewer := Checkpoint(a.reviewer.next, 0)];
    RotationKeepsAttempts(middle, v, reviewer, a.reviewer.previous, a.reviewer.next);
  }

  lemma FirstAttemptKeepsAttempts(w: World, step: Step, v: World, s: Id, attempt: Id)
    requires AttemptsOk(w) && Next(w, step, v) && Apply(w.db, step).Done?
    requires (step.NewSession? && step.newSession.sessionId == s && step.newSession.attempt == attempt)
      || (step == NewAttempt(s, attempt) && s !in w.db.checkpoints)
    ensures AttemptsStored(v)
  {
    AttemptsFresh(w, step, v);
    assert attempt in NextAttempts(step);
  }

  lemma StepKeepsAttempts(w: World, step: Step, v: World)
    requires AttemptsOk(w) && Next(w, step, v)
    ensures AttemptsOk(v)
  {
    AdmissionsStay(w, step, v);
    if Apply(w.db, step).Done? {
      match step
      case Begin(a) =>
        BeginRotates(w, a, v);
        RotationKeepsAttempts(w, v, a.nextSession, a.previous, a.next);
      case Turn(a) =>
        TurnRotates(w, a, v);
        RotationKeepsAttempts(w, v, a.sessionId, a.previous, a.next);
      case Parallel(a) => ParallelKeepsAttempts(w, a, v);
      case NewSession(a) => FirstAttemptKeepsAttempts(w, step, v, a.sessionId, a.attempt);
      case NewAttempt(owner, attempt) => FirstAttemptKeepsAttempts(w, step, v, owner, attempt);
      case _ =>
    }
  }

  /******* One conversation answers, and nothing else runs *******/

  // Rows of runs other than r are as they were.
  ghost predicate TouchesOnly(d: Tables, e: Tables, r: Id) {
    && (forall i :: i in e.interventions && e.interventions[i].runId != r ==>
         i in d.interventions && e.interventions[i] == d.interventions[i])
    && (forall o :: o in e.runs && o != r ==> o in d.runs && e.runs[o] == d.runs[o])
    && (forall s :: s in d.sessions && d.sessions[s].runId != r ==> s in e.sessions && e.sessions[s] == d.sessions[s])
    && (forall s :: s in e.sessions && e.sessions[s].runId != r ==> s in d.sessions && d.sessions[s] == e.sessions[s])
    && (forall s :: s in d.sessions && d.sessions[s].runId != r && s in d.checkpoints ==>
         s in e.checkpoints && e.checkpoints[s].attempt == d.checkpoints[s].attempt)
  }

  lemma AnswerElsewhere(d: Tables, e: Tables, w: World, v: World, r: Id, i: Id)
    requires d == w.db && e == v.db && TouchesOnly(d, e, r)
    requires Answering(e, i) && e.interventions[i].runId != r
    requires i in d.interventions && AnswerOk(w, i)
    requires d.interventions[i].sessionId in d.sessions && d.sessions[d.interventions[i].sessionId].runId == d.interventions[i].runId
    ensures AnswerOk(v, i)
  {
    assert ActiveSessions(e, e.interventions[i].runId) == ActiveSessions(d, e.interventions[i].runId);
  }

  // A run that answers rests paused, and the intervention it answers is its newest.
  lemma AnsweringRests(w: World, i: Id)
    requires ChainsOk(w) && Answering(w.db, i)
    ensures RestsPaused(w.db.runs[w.db.interventions[i].runId])
    ensures w.db.interventions[i].runId in w.newest && w.newest[w.db.interventions[i].runId] == i
  {
    assert InterventionOk(w, i);
    RunPhase(w, w.db.interventions[i].runId);
  }

  lemma TurnTouches(d: Tables, a: TurnAdmission)
    requires BeginAutonomousTurn(d, a).Done?
    ensures TouchesOnly(d, BeginAutonomousTurn(d, a).after, d.sessions[a.sessionId].runId)
    ensures !d.runs[d.sessions[a.sessionId].runId].paused && !d.runs[d.sessions[a.sessionId].runId].status.IsTerminal()
    ensures d.sessions[a.sessionId].runId in BeginAutonomousTurn(d, a).after.runs && BeginAutonomousTurn(d, a).after.runs[d.sessions[a.sessionId].runId].status.Running?
    ensures BeginAutonomousTurn(d, a).after.interventions == d.interventions
  {
  }

  lemma ParallelTouches(d: Tables, a: ParallelAdmission)
    requires BeginParallelTurns(d, a).Done?
    ensures TouchesOnly(d, BeginParallelTurns(d, a).after, a.runId)
    ensures !d.runs[a.runId].paused && !d.runs[a.runId].status.IsTerminal()
    ensures a.runId in BeginParallelTurns(d, a).after.runs && BeginParallelTurns(d, a).after.runs[a.runId].status.Running?
    ensures BeginParallelTurns(d, a).after.interventions == d.interventions
  {
    ParallelRotatesBoth(d, a);
  }

  lemma NewSessionTouches(d: Tables, a: NewSessionAdmission)
    requires BeginNewSession(d, a).Done?
    ensures TouchesOnly(d, BeginNewSession(d, a).after, a.session.runId)
    ensures !d.runs[a.session.runId].paused && !d.runs[a.session.runId].status.IsTerminal()
    ensures a.session.runId in BeginNewSession(d, a).after.runs && BeginNewSession(d, a).after.runs[a.session.runId].status.Running?
    ensures BeginNewSession(d, a).after.interventions == d.interventions
  {
  }

  lemma UnpausedStepKeepsAnswer(w: World, v: World, r: Id, i: Id)
    requires ChainsOk(w) && AnswersOk(w) && TouchesOnly(w.db, v.db, r) && r in w.db.runs && !w.db.runs[r].paused
    requires v.db.interventions == w.db.interventions && Answering(v.db, i)
    requires r in v.db.runs && (v.db.runs[r].status.IsTerminal() <==> w.db.runs[r].status.IsTerminal())
    ensures AnswerOk(v, i)
  {
    assert InterventionOk(w, i) && AnswerOk(w, i);
    AnsweringRests(w, i);
    AnswerElsewhere(w.db, v.db, w, v, r, i);
  }

  lemma TurnKeepsAnswer(w: World, a: TurnAdmission, v: World, i: Id)
    requires ChainsOk(w) && AnswersOk(w) && BeginAutonomousTurn(w.db, a) == Done(v.db) && Answering(v.db, i)
    ensures AnswerOk(v, i)
  {
    TurnTouches(w.db, a);
    UnpausedStepKeepsAnswer(w, v, w.db.sessions[a.sessionId].runId, i);
  }

  lemma ParallelKeepsAnswer(w: World, a: ParallelAdmission, v: World, i: Id)
    requires ChainsOk(w) && AnswersOk(w) && BeginParallelTurns(w.db, a) == Done(v.db) && Answering(v.db, i)
    ensures AnswerOk(v, i)
  {
    ParallelTouches(w.db, a);
    UnpausedStepKeepsAnswer(w, v, a.runId, i);
  }

  lemma NewSessionKeepsAnswer(w: World, a: NewSessionAdmission, v: World, i: Id)
    requires ChainsOk(w) && AnswersOk(w) && BeginNewSession(w.db, a) == Done(v.db) && Answering(v.db, i)
    ensures AnswerOk(v, i)
  {
    NewSessionTouches(w.db, a);
    UnpausedStepKeepsAnswer(w, v, a.session.runId, i);
  }

  lemma BeginTouches(w: World, a: InterventionAdmission, v: World)
    requires Invariant(w) && Next(w, Begin(a), v) && BeginIntervention(w.db, a).Done?
    ensures TouchesOnly(w.db, v.db, w.db.interventions[a.intervention].runId)
  {
    BeginRotates(w, a, v);
    assert InterventionOk(w, a.intervention);
  }

  // Activating one session of a run at rest makes it the run's only active one.
  lemma OnlyActive(d: Tables, e: Tables, run: Id, s: Id)
    requires ActiveSessions(d, run) == {} && s in d.sessions && d.sessions[s].runId == run
    requires e.sessions == d.sessions[s := d.sessions[s].(status := Active)]
    ensures ActiveSessions(e, run) == {s}
  {
    assert forall o :: o in d.sessions && d.sessions[o].runId == run && d.sessions[o].status.IsActive() ==> o in ActiveSessions(d, run);
  }

  lemma BeginRows(d: Tables, a: InterventionAdmission)
    requires BeginIntervention(d, a).Done?
    ensures var e, iv := BeginIntervention(d, a).after, d.interventions[a.intervention];
      && e.sessions == d.sessions[iv.sessionId := d.sessions[iv.sessionId].(status := Active)]
      && d.sessions[iv.sessionId].runId == iv.runId && ActiveSessions(d, iv.runId) == {}
      && e.interventions[a.intervention] == iv.(status := BeingAnswered, attempt := a.next)
  {
  }

  lemma BeginAnswers(w: World, a: InterventionAdmission, v: World)
    requires Invariant(w) && Next(w, Begin(a), v) && BeginIntervention(w.db, a).Done?
    ensures AnswerOk(v, a.intervention)
  {
    BeginRotates(w, a, v);
    BeginRows(w.db, a);
    OnlyActive(w.db, v.db, w.db.interventions[a.intervention].runId, w.db.interventions[a.intervention].sessionId);
  }

  lemma CompleteTouches(w: World, c: Completion, v: World)
    requires ChainsOk(w) && Next(w, Complete(c), v) && CompleteIntervention(w.db, c).Done?
    ensures TouchesOnly(w.db, v.db, w.db.interventions[c.intervention].runId)
  {
    assert InterventionOk(w, c.intervention);
  }

  // Begin and Complete touch one run: another that answers is left alone, and the run itself
  // answers nothing but the intervention at hand.
  lemma AnswerStepsKeepAnswer(w: World, step: Step, v: World, id: Id, i: Id)
    requires Invariant(w) && ChainsOk(v) && Next(w, step, v) && Apply(w.db, step).Done?
    requires step.Begin? || step.Complete?
    requires id == if step.Begin? then step.begin.intervention else step.completion.intervention
    requires Answering(v.db, i)
    ensures AnswerOk(v, i)
  {
    var r := w.db.interventions[id].runId;
    if step.Begin? { BeginTouches(w, step.begin, v); } else { CompleteTouches(w, step.completion, v); }
    if v.db.interventions[i].runId == r {
      NewestAnswers(v, i);
      NewestOfStep(w, step, v, id);
      if step.Begin? { BeginAnswers(w, step.begin, v); }
    } else {
      assert InterventionOk(w, i) && AnswerOk(w, i);
      AnswerElsewhere(w.db, v.db, w, v, r, i);
    }
  }

  lemma NewestAnswers(v: World, i: Id)
    requires ChainsOk(v) && Answering(v.db, i)
    ensures v.db.interventions[i].runId in v.newest && v.newest[v.db.interventions[i].runId] == i
  {
    assert InterventionOk(v, i);
  }

  lemma NewestOfStep(w: World, step: Step, v: World, id: Id)
    requires ChainsOk(w) && Next(w, step, v) && Apply(w.db, step).Done?
    requires step.Begin? || step.Complete?
    requires id == if step.Begin? then step.begin.intervention else step.completion.intervention
    ensures id in w.db.interventions && w.db.interventions[id].runId in w.newest
    ensures v.newest == w.newest && w.newest[w.db.interventions[id].runId] == id
    ensures step.Complete? ==> id in v.db.interventions && v.db.interventions[id].status.Answered?
  {
    assert InterventionOk(w, id);
  }

  lemma MoveSessionTouches(d: Tables, t: SessionTransition)
    requires TransitionSession(d, t).Done?
    ensures TouchesOnly(d, TransitionSession(d, t).after, d.sessions[t.sessionId].runId)
    ensures TransitionSession(d, t).after.interventions == d.interventions
    ensures TransitionSession(d, t).after.runs == d.runs
  {
  }

  /** While a run answers, moving one of its sessions keeps the answer exclusive exactly when it is
      not the answering session and does not become active; the store itself refuses neither. */
  lemma MoveSessionExact(w: World, t: SessionTransition, v: World, i: Id)
    requires AnswerOk(w, i) && Answering(w.db, i) && TransitionSession(w.db, t) == Done(v.db)
    requires w.db.sessions[t.sessionId].runId == w.db.interventions[i].runId
    ensures AnswerOk(v, i) <==> LeavesAnswer(t, w.db.interventions[i])
  {
    var run, s := w.db.interventions[i].runId, w.db.interventions[i].sessionId;
    assert t.sessionId != s ==> t.sessionId !in ActiveSessions(w.db, run);
    assert t.sessionId != s ==> !w.db.sessions[t.sessionId].status.IsActive();
    assert ActiveSessions(v.db, run) == {s} ==> t.sessionId == s || !t.status.IsActive();
    if LeavesAnswer(t, w.db.interventions[i]) {
      assert ActiveSessions(v.db, run) == ActiveSessions(w.db, run);
    } else if t.sessionId != s {
      assert t.sessionId in ActiveSessions(v.db, run);
    }
  }

  lemma MoveSessionKeepsAnswer(w: World, t: SessionTransition, v: World, i: Id)
    requires ChainsOk(w) && AnswersOk(w) && Allowed(w, MoveSession(t)) && TransitionSession(w.db, t) == Done(v.db)
    requires Answering(v.db, i)
    ensures AnswerOk(v, i)
  {
    assert InterventionOk(w, i) && AnswerOk(w, i) && Answering(w.db, i);
    if w.db.sessions[t.sessionId].runId == w.db.interventions[i].runId {
      MoveSessionExact(w, t, v, i);
    } else {
      MoveSessionTouches(w.db, t);
      AnswerElsewhere(w.db, v.db, w, v, w.db.sessions[t.sessionId].runId, i);
    }
  }

  // Steps that leave every session and attempt as it is, and start no answer.
  ghost predicate Quiet(d: Tables, e: Tables) {
    && e.sessions == d.sessions
    && (forall s :: s in d.checkpoints ==> s in e.checkpoints && e.checkpoints[s].attempt == d.checkpoints[s].attempt)
    && (forall i :: Answering(e, i) ==> Answering(d, i) && e.interventions[i] == d.interventions[i])
  }

  lemma QuietKeepsAnswer(w: World, v: World, i: Id)
    requires AnswersOk(w) && Quiet(w.db, v.db) && Answering(v.db, i)
    ensures AnswerOk(v, i)
  {
    assert Answering(w.db, i) && AnswerOk(w, i);
    assert ActiveSessions(v.db, v.db.interventions[i].runId) == ActiveSessions(w.db, v.db.interventions[i].runId);
  }

  lemma MoveIsQuiet(d: Tables, t: RunTransition)
    requires TransitionRun(d, t).Done?
    ensures Quiet(d, TransitionRun(d, t).after)
  {
  }

  lemma QueueIsQuiet(d: Tables, q: InterventionRequest)
    requires QueueIntervention(d, q).Done?
    ensures Quiet(d, QueueIntervention(d, q).after)
  {
  }

  lemma StepIsQuiet(d: Tables, step: Step)
    requires Apply(d, step).Done?
    requires step.Resolve? || step.PauseOrResume? || step.NewAttempt? || step.WorkerEvent? || step.Append?
    ensures Quiet(d, Apply(d, step).after)
  {
  }

  lemma StepKeepsAnswer(w: World, step: Step, v: World, i: Id)
    requires Invariant(w) && ChainsOk(v) && Next(w, step, v) && Answering(v.db, i)
    ensures AnswerOk(v, i)
  {
    if !Apply(w.db, step).Done? {
      assert AnswerOk(w, i);
    } else {
      match step
      case Begin(a) => AnswerStepsKeepAnswer(w, step, v, a.intervention, i);
      case Complete(c) => AnswerStepsKeepAnswer(w, step, v, c.intervention, i);
      case MoveSession(t) => MoveSessionKeepsAnswer(w, t, v, i);
      case Turn(a) => TurnKeepsAnswer(w, a, v, i);
      case Parallel(a) => ParallelKeepsAnswer(w, a, v, i);
      case NewSession(a) => NewSessionKeepsAnswer(w, a, v, i);
      case Queue(q) => QueueIsQuiet(w.db, q); QuietKeepsAnswer(w, v, i);
      case Move(t) => MoveIsQuiet(w.db, t); QuietKeepsAnswer(w, v, i);
      case _ => StepIsQuiet(w.db, step); QuietKeepsAnswer(w, v, i);
    }
  }

  /******* Every reachable state *******/

  lemma StepKeepsInvariant(w: World, step: Step, v: World)
    requires Invariant(w) && Next(w, step, v)
    ensures Invariant(v)
  {
    StepKeepsChains(w, step, v);
    StepKeepsAttempts(w, step, v);
    forall i | i in v.db.interventions ensures AnswerOk(v, i) {
      if Answering(v.db, i) { StepKeepsAnswer(w, step, v, i); }
    }
  }

  // A store before its first intervention: runs may already work or rest, sessions may hold attempts.
  ghost predicate Init(w: World) {
    && w.db.interventions == map[] && w.newest == map[] && w.admitted == {} && w.retired == {}
    && (forall r :: r in w.db.runs ==> RunOk(w.db.runs[r]))
    && (forall r :: r in w.db.runs && w.db.runs[r].status.WaitingForUser? ==>
         r in w.rests && w.rests[r] == Rest(KindAtRest(w.db.runs[r]), w.db.runs[r].reason))
    && AttemptsOk(w)
  }

  datatype Trace = Trace(worlds: seq<World>, steps: seq<Step>)
  {
    ghost predicate Valid() {
      && |worlds| == |steps| + 1 && Init(worlds[0])
      && forall n {:trigger steps[n]} :: 0 <= n < |steps| ==> Next(worlds[n], steps[n], worlds[n + 1])
    }
  }

  lemma {:induction false} Reachable(trace: Trace, n: nat)
    requires trace.Valid() && n < |trace.worlds|
    ensures Invariant(trace.worlds[n])
  {
    if n > 0 {
      Reachable(trace, n - 1);
      assert Next(trace.worlds[n - 1], trace.steps[n - 1], trace.worlds[n]);
      StepKeepsInvariant(trace.worlds[n - 1], trace.steps[n - 1], trace.worlds[n]);
    }
  }

  lemma {:induction false} AdmissionsRemembered(trace: Trace, m: nat, n: nat)
    requires trace.Valid() && m < n < |trace.worlds|
    requires Apply(trace.worlds[m].db, trace.steps[m]).Done?
    ensures IsAdmission(trace.steps[m]) ==> trace.steps[m] in trace.worlds[n].admitted
    ensures PreviousAttempts(trace.steps[m]) <= trace.worlds[n].retired
    decreases n
  {
    assert Next(trace.worlds[n - 1], trace.steps[n - 1], trace.worlds[n]);
    if m < n - 1 {
      AdmissionsRemembered(trace, m, n - 1);
    }
  }

  /** An admission commits at most once in any run: repeated at any later state, with the same
      attempts, it changes no table, and the attempts it replaced are never held again. */
  lemma AdmittedOnce(trace: Trace, m: nat, n: nat)
    requires trace.Valid() && m < n < |trace.steps|
    requires IsAdmission(trace.steps[m]) && Apply(trace.worlds[m].db, trace.steps[m]).Done?
    ensures Repeats(trace.steps[n], trace.steps[m]) ==> trace.worlds[n + 1].db == trace.worlds[n].db
    ensures forall s :: s in trace.worlds[n].db.checkpoints ==>
      trace.worlds[n].db.checkpoints[s].attempt !in PreviousAttempts(trace.steps[m])
  {
    Reachable(trace, n);
    AdmissionsRemembered(trace, m, n);
    if Repeats(trace.steps[n], trace.steps[m]) {
      RepeatChangesNothing(trace.worlds[n], trace.steps[n]);
      assert Next(trace.worlds[n], trace.steps[n], trace.worlds[n + 1]);
    }
  }

  /** In every reachable state a run has at most one unanswered intervention; it is the run's
      latest; while the run has not ended it is paused, and it waits for a boundary exactly while
      the run works. */
  lemma OneUnanswered(trace: Trace, n: nat, i: Id)
    requires trace.Valid() && n < |trace.worlds|
    requires var db := trace.worlds[n].db; i in db.interventions && !db.interventions[i].status.Answered?
    ensures var db := trace.worlds[n].db; var iv := db.interventions[i];
      && Unfinished(db, iv.runId) == {i} && IsLatest(db, iv.runId, i)
      && iv.runId in db.runs
      && (!db.runs[iv.runId].status.IsTerminal() ==>
           db.runs[iv.runId].paused && (db.runs[iv.runId].status.Running? <==> iv.status.WaitingForBoundary?))
  {
    Reachable(trace, n);
    var w := trace.worlds[n];
    assert InterventionOk(w, i);
    var r := w.db.interventions[i].runId;
    RunPhase(w, r);
    NewestIsLatest(w, r);
    forall j | j in Unfinished(w.db, r) ensures j == i { assert InterventionOk(w, j); }
    assert i in Unfinished(w.db, r);
  }

  /** While an intervention is answered and its run has not ended, the run rests paused, the
      answering session alone is active and holds the intervention's attempt, and no turn of the
      run is admitted by any other road. */
  lemma AnsweringIsExclusive(trace: Trace, n: nat, i: Id, step: Step)
    requires trace.Valid() && n < |trace.worlds| && Answering(trace.worlds[n].db, i)
    requires var db := trace.worlds[n].db; var run := db.interventions[i].runId;
      match step
      case Turn(a) => a.sessionId in db.sessions && db.sessions[a.sessionId].runId == run
      case Parallel(a) => a.runId == run
      case NewSession(a) => a.session.runId == run
      case _ => false
    ensures var db := trace.worlds[n].db; var iv := db.interventions[i];
      && RestsPaused(db.runs[iv.runId]) && ActiveSessions(db, iv.runId) == {iv.sessionId}
      && iv.sessionId in db.checkpoints && db.checkpoints[iv.sessionId].attempt == iv.attempt
      && !Apply(db, step).Done?
  {
    Reachable(trace, n);
    var w := trace.worlds[n];
    AnsweringRests(w, i);
    assert AnswerOk(w, i);
  }

  lemma MovedPausedPhase(w: World, t: RunTransition, v: World)
    requires TransitionRun(w.db, t) == Done(v.db) && v.newest == w.newest && RestsPaused(w.db.runs[t.runId])
    requires RunOk(w.db.runs[t.runId]) && PhaseOk(w, t.runId)
    requires InChain(w, t.runId) ==> !w.db.interventions[w.newest[t.runId]].status.WaitingForBoundary?
    requires v.rests == if t.status.WaitingForUser? then w.rests[t.runId := BoundaryOf(t)] else w.rests
    requires RunOk(v.db.runs[t.runId]) && PhaseOk(v, t.runId)
    ensures KeepsChain(w, t)
  {
    MovedRows(w.db, t);
  }

  /** Moving a run that rests paused, which the store always allows, keeps what the chain says of
      every reachable state (one unanswered intervention, paused for it, and the checkpoint that
      comes back with it) if and only if the chain allows the new status, wait kind and reason. */
  lemma MovePausedExact(trace: Trace, n: nat, t: RunTransition)
    requires trace.Valid() && n < |trace.worlds|
    requires TransitionRun(trace.worlds[n].db, t).Done? && RestsPaused(trace.worlds[n].db.runs[t.runId])
    ensures ChainsOk(Stepped(trace.worlds[n], Move(t))) <==> KeepsChain(trace.worlds[n], t)
  {
    Reachable(trace, n);
    var w := trace.worlds[n];
    var v := Stepped(w, Move(t));
    RunPhase(w, t.runId);
    if KeepsChain(w, t) {
      assert Next(w, Move(t), v);
      MoveKeepsChains(w, t, v);
    } else if ChainsOk(v) {
      RunPhase(v, t.runId);
      MovedPausedPhase(w, t, v);
    }
  }

  /******* The checkpoint comes back *******/

  // Step m is the last boundary of run r before world n.
  ghost predicate LastBoundary(trace: Trace, r: Id, m: nat, n: nat)
    requires trace.Valid() && n < |trace.worlds|
  {
    && m < n && IsBoundary(trace.worlds[m].db, trace.steps[m]) && trace.steps[m].move.runId == r
    && forall k {:trigger trace.steps[k]} :: m < k < n ==>
      !(IsBoundary(trace.worlds[k].db, trace.steps[k]) && trace.steps[k].move.runId == r)
  }

  lemma {:induction false} RestIsLastBoundary(trace: Trace, r: Id, m: nat, n: nat)
    requires trace.Valid() && n < |trace.worlds| && LastBoundary(trace, r, m, n)
    ensures r in trace.worlds[n].rests && trace.worlds[n].rests[r] == BoundaryOf(trace.steps[m].move)
    decreases n
  {
    assert Next(trace.worlds[n - 1], trace.steps[n - 1], trace.worlds[n]);
    if m < n - 1 {
      RestIsLastBoundary(trace, r, m, n - 1);
    }
  }

  lemma ResolvedRun(w: World, r: Resolution)
    requires ChainsOk(w) && ResolveIntervention(w.db, r).Done?
    ensures r.runId in w.rests && r.runId in ResolveIntervention(w.db, r).after.runs
    ensures var run, rest := ResolveIntervention(w.db, r).after.runs[r.runId], w.rests[r.runId];
      && run.status.WaitingForUser? && !run.paused && run.waitKind == rest.kind
      && (run.reason == rest.reason <==> !Blank(rest.reason))
  {
    ResolvesNewest(w, r);
    RunPhase(w, r.runId);
    assert READY_TO_CONTINUE[|READY_TO_CONTINUE| - 1] == '.';
  }

  /** However many interventions followed one another, resolving the last one gives the run the
      wait kind of the boundary it last came to, and that boundary's reason exactly when it is
      not blank, although every answer in between overwrote the run's reason. */
  lemma ResolveRestoresBoundary(trace: Trace, m: nat, n: nat)
    requires trace.Valid() && n < |trace.steps| && trace.steps[n].Resolve?
    requires ResolveIntervention(trace.worlds[n].db, trace.steps[n].resolution).Done?
    requires LastBoundary(trace, trace.steps[n].resolution.runId, m, n)
    ensures trace.steps[n].resolution.runId in trace.worlds[n + 1].db.runs
    ensures var run, boundary := trace.worlds[n + 1].db.runs[trace.steps[n].resolution.runId], BoundaryOf(trace.steps[m].move);
      && run.status.WaitingForUser? && !run.paused && run.waitKind == boundary.kind
      && (run.reason == boundary.reason <==> !Blank(boundary.reason))
  {
    Reachable(trace, n);
    RestIsLastBoundary(trace, trace.steps[n].resolution.runId, m, n);
    ResolvedRun(trace.worlds[n], trace.steps[n].resolution);
    assert Next(trace.worlds[n], trace.steps[n], trace.worlds[n + 1]);
  }

  lemma {:induction false} RestSinceStart(trace: Trace, r: Id, n: nat)
    requires trace.Valid() && n < |trace.worlds|
    requires forall k {:trigger trace.steps[k]} :: 0 <= k < n ==>
      !(IsBoundary(trace.worlds[k].db, trace.steps[k]) && trace.steps[k].move.runId == r)
    ensures r in trace.worlds[0].rests ==> r in trace.worlds[n].rests && trace.worlds[n].rests[r] == trace.worlds[0].rests[r]
  {
    if n > 0 {
      RestSinceStart(trace, r, n - 1);
      assert Next(trace.worlds[n - 1], trace.steps[n - 1], trace.worlds[n]);
    }
  }

  /** A run that rested from the start and came to no boundary since gets back what it rested at. */
  lemma ResolveRestoresStart(trace: Trace, n: nat)
    requires trace.Valid() && n < |trace.steps| && trace.steps[n].Resolve?
    requires ResolveIntervention(trace.worlds[n].db, trace.steps[n].resolution).Done?
    requires var r := trace.steps[n].resolution.runId;
      && r in trace.worlds[0].db.runs && trace.worlds[0].db.runs[r].status.WaitingForUser?
      && forall k {:trigger trace.steps[k]} :: 0 <= k < n ==>
        !(IsBoundary(trace.worlds[k].db, trace.steps[k]) && trace.steps[k].move.runId == r)
    ensures trace.steps[n].resolution.runId in trace.worlds[n + 1].db.runs
    ensures var r := trace.steps[n].resolution.runId;
      var run, start := trace.worlds[n + 1].db.runs[r], trace.worlds[0].db.runs[r];
      && run.status.WaitingForUser? && !run.paused && run.waitKind == KindAtRest(start)
      && (run.reason == start.reason <==> !Blank(start.reason))
  {
    Reachable(trace, n);
    RestSinceStart(trace, trace.steps[n].resolution.runId, n);
    ResolvedRun(trace.worlds[n], trace.steps[n].resolution);
    assert Next(trace.worlds[n], trace.steps[n], trace.worlds[n + 1]);
  }
}
