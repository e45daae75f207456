/** Every run of the execution store's steps: what a chain of interventions keeps, what is
    active while one is answered, and that no worker attempt is admitted twice. */
module InterventionRuns {
  import opened Options
  import opened ExecutionTables
  import opened Transactions

  datatype Step =
    | Queue(request: InterventionRequest)
    | Begin(begin: InterventionAdmission)
    | Complete(completion: Completion)
    | Resolve(resolution: Resolution)
    | Move(move: RunTransition)
    | MoveSession(session: SessionTransition)
    | Turn(turn: TurnAdmission)
    | Parallel(parallel: ParallelAdmission)
    | NewSession(newSession: NewSessionAdmission)
    | PauseOrResume(mutation: PauseMutation)
    | NewAttempt(owner: Id, attempt: Id)
    | WorkerEvent(source: Id)
    | Append(pending: PendingEvent)

  // A session's first attempt is stored once; its events move the cursor on by one.
  ghost function Apply(db: Tables, step: Step): Outcome {
    match step
    case Queue(r) => QueueIntervention(db, r)
    case Begin(a) => BeginIntervention(db, a)
    case Complete(c) => CompleteIntervention(db, c)
    case Resolve(r) => ResolveIntervention(db, r)
    case Move(t) => TransitionRun(db, t)
    case MoveSession(t) => TransitionSession(db, t)
    case Turn(a) => BeginAutonomousTurn(db, a)
    case Parallel(a) => BeginParallelTurns(db, a)
    case NewSession(a) => BeginNewSession(db, a)
    case PauseOrResume(m) => ApplyPause(db, m)
    case NewAttempt(owner, attempt) =>
      if attempt == 0 || owner !in db.sessions then Refuse(Invalid)
      else if owner !in db.checkpoints then Done(db.(checkpoints := db.checkpoints[owner := Checkpoint(attempt, 0)]))
      else if db.checkpoints[owner].attempt == attempt then Repeat else Refuse(AttemptConflict)
    case Append(p) => AppendEvent(db, p)
    case WorkerEvent(source) =>
      if source !in db.checkpoints then Refuse(NotFound)
      else Done(db.(checkpoints := db.checkpoints[source :=
        db.checkpoints[source].(lastEvent := db.checkpoints[source].lastEvent + 1)]))
  }

  // Where a run came to rest: the wait kind and reason of a boundary.
  datatype Rest = Rest(kind: WaitKind, reason: string)

  /** The tables, and what their history left: each run's last boundary and newest intervention,
      the time of the newest request, every attempt ever stored, those replaced since, and the
      admissions that committed. */
  datatype World = World(db: Tables, rests: map<Id, Rest>, newest: map<Id, Id>, clock: Time,
                         used: set<Id>, retired: set<Id>, admitted: set<Step>)

  predicate IsAdmission(step: Step) { step.Begin? || step.Turn? || step.Parallel? || step.NewSession? }

  function NextAttempts(step: Step): set<Id> {
    match step
    case Begin(a) => {a.next}
    case Turn(a) => {a.next}
    case Parallel(a) => {a.lead.next, a.reviewer.next}
    case NewSession(a) => {a.attempt}
    case NewAttempt(_, attempt) => {attempt}
    case _ => {}
  }

  function PreviousAttempts(step: Step): set<Id> {
    match step
    case Begin(a) => {a.previous}
    case Turn(a) => {a.previous}
    case Parallel(a) => {a.lead.previous, a.reviewer.previous}
    case _ => {}
  }

  // The same admission again, for whatever reason and whenever: the same turn, from the same attempt
  // to the same attempt.
  predicate SameTurn(a: TurnAdmission, b: TurnAdmission) { a.sessionId == b.sessionId && a.previous == b.previous && a.next == b.next }

  predicate Repeats(step: Step, earlier: Step) {
    match step
    case Begin(a) => earlier.Begin? && a.intervention == earlier.begin.intervention && a.previous == earlier.begin.previous && a.next == earlier.begin.next
    case Turn(a) => earlier.Turn? && SameTurn(a, earlier.turn)
    case Parallel(a) => earlier.Parallel? && a.runId == earlier.parallel.runId && SameTurn(a.lead, earlier.parallel.lead) && SameTurn(a.reviewer, earlier.parallel.reviewer)
    case NewSession(a) => earlier.NewSession? && a.sessionId == earlier.newSession.sessionId && a.attempt == earlier.newSession.attempt
    case _ => false
  }

  ghost predicate WasAdmitted(w: World, step: Step) { exists earlier :: earlier in w.admitted && Repeats(step, earlier) }

  function BoundaryOf(t: RunTransition): Rest {
    Rest(if EffectiveWait(t).PausedWait? then Blocker else EffectiveWait(t), t.reason)
  }

  // A transition that takes a run to rest from work, or anew while nothing pauses it.
  predicate IsBoundary(db: Tables, step: Step) {
    step.Move? && step.move.status.WaitingForUser? && TransitionRun(db, step.move).Done?
  }

  ghost predicate Answering(db: Tables, i: Id) {
    && i in db.interventions && db.interventions[i].status.BeingAnswered?
    && db.interventions[i].runId in db.runs && !db.runs[db.interventions[i].runId].status.IsTerminal()
  }

  // A session of the run that answers may still end; the answering one is left alone.
  predicate LeavesAnswer(t: SessionTransition, iv: Intervention) {
    t.sessionId != iv.sessionId && !t.status.Active?
  }

  ghost predicate InChain(w: World, r: Id) {
    r in w.newest && w.newest[r] in w.db.interventions && w.db.interventions[w.newest[r]].resolvedBy.None?
  }

  function KindAtRest(run: Run): WaitKind {
    if !run.paused then run.waitKind else if run.pausedFrom.NoWait? then Blocker else run.pausedFrom
  }

  // Moving a run that rests paused: it may end; it may work on only outside a chain, with nothing
  // kept to come back to; it may rest anew under a wait kind of its own, or as a blocker if it was
  // one, and in a chain only with a blank reason or the one the chain carries.
  ghost predicate KeepsChain(w: World, t: RunTransition)
    requires t.runId in w.db.runs
  {
    var run := w.db.runs[t.runId];
    || t.status.IsTerminal()
    || (t.status.Running? && !InChain(w, t.runId) && run.pausedFrom.NoWait? && (t.waitKind.NoWait? || t.waitKind.PausedWait?))
    || (t.status.WaitingForUser? && (EffectiveWait(t).PausedWait? ==> KindAtRest(run).Blocker?)
        && (InChain(w, t.runId) ==> Blank(t.reason) || t.reason == w.db.interventions[w.newest[t.runId]].resumeReason))
  }

  // The store leaves these to its callers: request times increase, attempts are new unless a
  // committed admission is repeated, a paused run is moved only as its chain allows, a plain resume
  // needs every intervention resolved, and a run that answers keeps its session and wakes no other.
  ghost predicate Allowed(w: World, step: Step) {
    && (step.Queue? ==> step.request.id in w.db.interventions || step.request.at > w.clock)
    && (WasAdmitted(w, step) || (NextAttempts(step) !! w.used &&
         (step.Parallel? ==> step.parallel.lead.next != step.parallel.reviewer.next)))
    && (step.Move? && TransitionRun(w.db, step.move).Done? && RestsPaused(w.db.runs[step.move.runId]) ==> KeepsChain(w, step.move))
    && (step.PauseOrResume? && step.mutation.action.Resume? && step.mutation.runId in w.newest ==>
         w.newest[step.mutation.runId] in w.db.interventions &&
         w.db.interventions[w.newest[step.mutation.runId]].resolvedBy.Some?)
    && (step.MoveSession? && step.session.sessionId in w.db.sessions ==>
         forall i :: Answering(w.db, i) && w.db.interventions[i].runId == w.db.sessions[step.session.sessionId].runId ==>
           LeavesAnswer(step.session, w.db.interventions[i]))
  }

  // What the store makes of a step, whether its callers take it or not.
  ghost function Stepped(w: World, step: Step): World {
    var outcome := Apply(w.db, step);
    World(
      After(w.db, outcome),
      if IsBoundary(w.db, step) then w.rests[step.move.runId := BoundaryOf(step.move)] else w.rests,
      if step.Queue? && outcome.Done? then w.newest[step.request.runId := step.request.id] else w.newest,
      if step.Queue? && outcome.Done? then step.request.at else w.clock,
      if outcome.Done? then w.used + NextAttempts(step) else w.used,
      if outcome.Done? then w.retired + PreviousAttempts(step) else w.retired,
      if outcome.Done? && IsAdmission(step) then w.admitted + {step} else w.admitted)
  }

  ghost predicate Next(w: World, step: Step, v: World) { Allowed(w, step) && v == Stepped(w, step) }

  /******* The invariant *******/

  predicate RunOk(run: Run) {
    run.Valid() && (run.status.Running? ==> run.pausedFrom.NoWait?)
  }

  // The newest intervention of each run is known, later than all the others, and these are answered.
  ghost predicate InterventionOk(w: World, i: Id)
    requires i in w.db.interventions
  {
    var db, iv := w.db, w.db.interventions[i];
    && iv.runId in db.runs && iv.sessionId in db.sessions
    && db.sessions[iv.sessionId].runId == iv.runId && db.sessions[iv.sessionId].role == iv.target
    && (iv.resolvedBy.Some? ==> iv.status.Answered?)
    && iv.requestedAt <= w.clock
    && iv.runId in w.newest && w.newest[iv.runId] in db.interventions
    && (i != w.newest[iv.runId] ==> iv.status.Answered? && iv.requestedAt < db.interventions[w.newest[iv.runId]].requestedAt)
  }

  // What a run that has not ended keeps of the checkpoint it rests at.
  ghost predicate PhaseOk(w: World, r: Id)
    requires r in w.db.runs
  {
    var run := w.db.runs[r];
    && (r in w.newest ==> w.newest[r] in w.db.interventions && w.db.interventions[w.newest[r]].runId == r)
    && (run.status.WaitingForUser? ==> r in w.rests && KindAtRest(run) == w.rests[r].kind)
    && (InChain(w, r) && !run.status.IsTerminal() ==>
         var iv := w.db.interventions[w.newest[r]];
         && run.paused && (run.status.Running? <==> iv.status.WaitingForBoundary?)
         && (run.status.WaitingForUser? ==> Blank(w.rests[r].reason) || iv.resumeReason == w.rests[r].reason))
    && (!InChain(w, r) && run.status.WaitingForUser? ==> Blank(w.rests[r].reason) || run.reason == w.rests[r].reason)
  }

  ghost predicate ChainsOk(w: World) {
    && (forall r :: r in w.db.runs ==> RunOk(w.db.runs[r]) && PhaseOk(w, r))
    && (forall i :: i in w.db.interventions ==> InterventionOk(w, i))
  }

  // While an intervention is answered, its session alone is active, on the attempt bound to it.
  ghost predicate AnswerOk(w: World, i: Id) {
    Answering(w.db, i) ==>
      var iv := w.db.interventions[i];
      && iv.sessionId in w.db.checkpoints && w.db.checkpoints[iv.sessionId].attempt == iv.attempt
      && ActiveSessions(w.db, iv.runId) == {iv.sessionId}
      && iv.sessionId in w.db.sessions && w.db.sessions[iv.sessionId].status.Active?
  }

  ghost predicate AnswersOk(w: World) {
    forall i :: i in w.db.interventions ==> AnswerOk(w, i)
  }

  // A committed admission finds its attempt stored, or the one it replaced gone for good.
  ghost predicate AdmittedOk(w: World, step: Step) {
    match step
    case Begin(a) =>
      a.intervention in w.db.interventions && !w.db.interventions[a.intervention].status.WaitingForBoundary?
      && !w.db.interventions[a.intervention].status.Queued?
    case Turn(a) => a.previous in w.retired
    case Parallel(a) => a.lead.previous in w.retired && a.reviewer.previous in w.retired
    case NewSession(a) => a.sessionId in w.db.sessions
    case _ => false
  }

  ghost predicate AttemptsOk(w: World) {
    && w.retired <= w.used
    && (forall s :: s in w.db.checkpoints ==> w.db.checkpoints[s].attempt in w.used - w.retired)
    && (forall s, t :: s in w.db.checkpoints && t in w.db.checkpoints && s != t ==>
         w.db.checkpoints[s].attempt != w.db.checkpoints[t].attempt)
    && (forall step :: step in w.admitted ==> AdmittedOk(w, step))
  }

  ghost predicate Invariant(w: World) { ChainsOk(w) && AnswersOk(w) && AttemptsOk(w) }

  lemma NewestIsLatest(w: World, r: Id)
    requires ChainsOk(w) && r in w.newest && r in w.db.runs
    ensures IsLatest(w.db, r, w.newest[r]) && HasLatest(w.db, r) && Latest(w.db, r) == w.newest[r]
  {
    assert forall i :: i in w.db.interventions && w.db.interventions[i].runId == r ==> InterventionOk(w, i);
    assert IsLatest(w.db, r, w.newest[r]);
    LatestUnique(w.db, r);
  }

  lemma NoneIsLatest(w: World, r: Id)
    requires ChainsOk(w) && r !in w.newest
    ensures !HasLatest(w.db, r)
  {
    assert forall i :: i in w.db.interventions && w.db.interventions[i].runId == r ==> InterventionOk(w, i);
  }

  /******* What each step keeps *******/

  ghost predicate SessionsKept(d: Tables, e: Tables) {
    forall s :: s in d.sessions ==>
      s in e.sessions && e.sessions[s].runId == d.sessions[s].runId && e.sessions[s].role == d.sessions[s].role
  }

  predicate SameRow(a: Intervention, b: Intervention) {
    && a.runId == b.runId && a.sessionId == b.sessionId && a.target == b.target && a.requestedAt == b.requestedAt
    && (a.status.Answered? ==> b.status.Answered?) && (b.resolvedBy.Some? ==> b.status.Answered?)
  }

  // Nothing but run r and, of its interventions, at most id changed between two worlds.
  ghost predicate OnlyRunChanged(w: World, v: World, r: Id, id: Option<Id>) {
    && v.newest == w.newest && v.clock == w.clock
    && v.db.runs.Keys == w.db.runs.Keys && v.db.interventions.Keys == w.db.interventions.Keys
    && (forall o :: o in w.db.runs && o != r ==> v.db.runs[o] == w.db.runs[o])
    && (forall o :: o in w.rests && o != r ==> o in v.rests && v.rests[o] == w.rests[o])
    && (forall i :: i in w.db.interventions && Some(i) != id ==> v.db.interventions[i] == w.db.interventions[i])
    && (id.Some? ==>
         && id.value in w.db.interventions && w.db.interventions[id.value].runId == r
         && SameRow(w.db.interventions[id.value], v.db.interventions[id.value]))
    && SessionsKept(w.db, v.db)
  }

  lemma InterventionsFrame(w: World, v: World, r: Id, id: Option<Id>, i: Id)
    requires ChainsOk(w) && OnlyRunChanged(w, v, r, id) && i in v.db.interventions
    ensures InterventionOk(v, i)
  {
    assert InterventionOk(w, i);
    assert SameRow(w.db.interventions[i], v.db.interventions[i]);
    var newest := w.newest[w.db.interventions[i].runId];
    assert SameRow(w.db.interventions[newest], v.db.interventions[newest]) by { assert InterventionOk(w, newest); }
  }

  lemma PhaseFrame(w: World, v: World, r: Id, id: Option<Id>, o: Id)
    requires OnlyRunChanged(w, v, r, id) && o in v.db.runs && o != r && RunOk(w.db.runs[o]) && PhaseOk(w, o)
    ensures RunOk(v.db.runs[o]) && PhaseOk(v, o)
  {
    assert o in w.newest ==> Some(w.newest[o]) != id;
  }

  lemma ChainsFrame(w: World, v: World, r: Id, id: Option<Id>)
    requires ChainsOk(w) && OnlyRunChanged(w, v, r, id)
    requires r in v.db.runs ==> RunOk(v.db.runs[r]) && PhaseOk(v, r)
    ensures ChainsOk(v)
  {
    forall i | i in v.db.interventions ensures InterventionOk(v, i) {
      InterventionsFrame(w, v, r, id, i);
    }
    forall o | o in v.db.runs ensures RunOk(v.db.runs[o]) && PhaseOk(v, o) {
      if o != r { PhaseFrame(w, v, r, id, o); }
    }
  }

  lemma BeginKeepsChains(w: World, a: InterventionAdmission, v: World)
    requires ChainsOk(w) && Next(w, Begin(a), v)
    ensures ChainsOk(v)
  {
    if BeginIntervention(w.db, a).Done? {
      assert InterventionOk(w, a.intervention);
      ChainsFrame(w, v, w.db.interventions[a.intervention].runId, Some(a.intervention));
    }
  }

  lemma CompleteOnlyRun(w: World, c: Completion, v: World)
    requires CompleteIntervention(w.db, c) == Done(v.db) && v.newest == w.newest && v.rests == w.rests && v.clock == w.clock
    requires InterventionOk(w, c.intervention) && RunOk(w.db.runs[w.db.interventions[c.intervention].runId])
    requires PhaseOk(w, w.db.interventions[c.intervention].runId)
    ensures var r := w.db.interventions[c.intervention].runId;
      OnlyRunChanged(w, v, r, Some(c.intervention)) && RunOk(v.db.runs[r]) && PhaseOk(v, r)
  {
  }

  lemma CompleteKeepsChains(w: World, c: Completion, v: World)
    requires ChainsOk(w) && Next(w, Complete(c), v)
    ensures ChainsOk(v)
  {
    if CompleteIntervention(w.db, c).Done? {
      assert InterventionOk(w, c.intervention);
      RunPhase(w, w.db.interventions[c.intervention].runId);
      CompleteOnlyRun(w, c, v);
      ChainsFrame(w, v, w.db.interventions[c.intervention].runId, Some(c.intervention));
    }
  }

  lemma ResolvesNewest(w: World, r: Resolution)
    requires ChainsOk(w) && ResolveIntervention(w.db, r).Done?
    ensures r.runId in w.newest && r.intervention == w.newest[r.runId] && InChain(w, r.runId)
  {
    assert InterventionOk(w, r.intervention);
    NewestIsLatest(w, r.runId);
    LatestUnique(w.db, r.runId);
  }

  lemma ResolvedPhase(w: World, r: Resolution, v: World)
    requires ResolveIntervention(w.db, r) == Done(v.db) && v.newest == w.newest && v.rests == w.rests
    requires r.runId in w.newest && r.intervention == w.newest[r.runId] && InChain(w, r.runId)
    requires RunOk(w.db.runs[r.runId]) && PhaseOk(w, r.runId)
    ensures RunOk(v.db.runs[r.runId]) && PhaseOk(v, r.runId)
  {
    assert !InChain(v, r.runId);
  }

  lemma ResolvedOnlyRun(w: World, r: Resolution, v: World)
    requires ResolveIntervention(w.db, r) == Done(v.db) && v.newest == w.newest && v.rests == w.rests && v.clock == w.clock
    ensures OnlyRunChanged(w, v, r.runId, Some(r.intervention))
  {
  }

  lemma ResolveKeepsChains(w: World, r: Resolution, v: World)
    requires ChainsOk(w) && Next(w, Resolve(r), v)
    ensures ChainsOk(v)
  {
    if ResolveIntervention(w.db, r).Done? {
      ResolvesNewest(w, r);
      RunPhase(w, r.runId);
      ResolvedPhase(w, r, v);
      ResolvedOnlyRun(w, r, v);
      ChainsFrame(w, v, r.runId, Some(r.intervention));
    }
  }

  lemma RunPhase(w: World, r: Id)
    requires ChainsOk(w) && r in w.db.runs
    ensures RunOk(w.db.runs[r]) && PhaseOk(w, r)
  {
  }

  ghost predicate ResumesFree(w: World, m: PauseMutation) {
    m.action.Resume? && m.runId in w.newest ==>
      w.newest[m.runId] in w.db.interventions && w.db.interventions[w.newest[m.runId]].resolvedBy.Some?
  }

  lemma PausedOnlyRun(w: World, m: PauseMutation, v: World)
    requires ApplyPause(w.db, m) == Done(v.db) && v.newest == w.newest && v.rests == w.rests && v.clock == w.clock
    requires RunOk(w.db.runs[m.runId]) && PhaseOk(w, m.runId) && ResumesFree(w, m)
    ensures OnlyRunChanged(w, v, m.runId, None)
    ensures RunOk(v.db.runs[m.runId]) && PhaseOk(v, m.runId)
  {
  }

  lemma PauseKeepsChains(w: World, m: PauseMutation, v: World)
    requires ChainsOk(w) && Next(w, PauseOrResume(m), v)
    ensures ChainsOk(v)
  {
    if ApplyPause(w.db, m).Done? {
      RunPhase(w, m.runId);
      PausedOnlyRun(w, m, v);
      ChainsFrame(w, v, m.runId, None);
    }
  }

  // Only a run's newest intervention can wait for a boundary.
  lemma OnlyNewestWaits(w: World, r: Id)
    requires ChainsOk(w) && r in w.db.runs
    ensures forall i :: i in w.db.interventions && w.db.interventions[i].runId == r && w.db.interventions[i].status.WaitingForBoundary? ==>
      r in w.newest && i == w.newest[r]
    ensures r in w.newest ==> w.newest[r] in w.db.interventions && w.db.interventions[w.newest[r]].runId == r
    ensures forall i :: i in w.db.interventions && w.db.interventions[i].resolvedBy.Some? ==> w.db.interventions[i].status.Answered?
  {
    forall i | i in w.db.interventions ensures InterventionOk(w, i) {}
    assert PhaseOk(w, r);
  }

  lemma MovedRows(d: Tables, t: RunTransition)
    requires TransitionRun(d, t).Done?
    ensures var e := TransitionRun(d, t).after;
      && e.sessions == d.sessions && e.checkpoints == d.checkpoints
      && e.runs == d.runs[t.runId := Moved(d.runs[t.runId], t)]
      && e.interventions.Keys == d.interventions.Keys
      && (forall i :: i in d.interventions ==>
           var iv := d.interventions[i];
           var flushed := t.status.WaitingForUser? && d.runs[t.runId].paused && iv.runId == t.runId && iv.status.WaitingForBoundary?;
           e.interventions[i] == if flushed then iv.(status := Queued, resumeReason := t.reason) else iv)
  {
  }

  lemma MovedOnlyRun(w: World, t: RunTransition, v: World, id: Option<Id>)
    requires ChainsOk(w) && v == Stepped(w, Move(t)) && TransitionRun(w.db, t).Done?
    requires id == if t.runId in w.newest then Some(w.newest[t.runId]) else None
    ensures OnlyRunChanged(w, v, t.runId, id)
  {
    OnlyNewestWaits(w, t.runId);
    MovedRows(w.db, t);
  }

  lemma MovedPhase(w: World, t: RunTransition, v: World)
    requires TransitionRun(w.db, t) == Done(v.db) && v.newest == w.newest
    requires RunOk(w.db.runs[t.runId]) && PhaseOk(w, t.runId)
    requires RestsPaused(w.db.runs[t.runId]) ==> KeepsChain(w, t)
    requires v.rests == if t.status.WaitingForUser? then w.rests[t.runId := BoundaryOf(t)] else w.rests
    ensures RunOk(v.db.runs[t.runId]) && PhaseOk(v, t.runId)
  {
    MovedRows(w.db, t);
  }

  lemma MoveKeepsChains(w: World, t: RunTransition, v: World)
    requires ChainsOk(w) && Next(w, Move(t), v)
    ensures ChainsOk(v)
  {
    if TransitionRun(w.db, t).Done? {
      var id := if t.runId in w.newest then Some(w.newest[t.runId]) else None;
      MovedOnlyRun(w, t, v, id);
      RunPhase(w, t.runId);
      MovedPhase(w, t, v);
      ChainsFrame(w, v, t.runId, id);
    }
  }

  lemma TurnOnlyRun(w: World, a: TurnAdmission, v: World)
    requires BeginAutonomousTurn(w.db, a) == Done(v.db) && v.newest == w.newest && v.rests == w.rests && v.clock == w.clock
    requires var r := w.db.sessions[a.sessionId].runId; RunOk(w.db.runs[r]) && PhaseOk(w, r)
    ensures var r := w.db.sessions[a.sessionId].runId; OnlyRunChanged(w, v, r, None) && RunOk(v.db.runs[r]) && PhaseOk(v, r)
  {
  }

  lemma TurnKeepsChains(w: World, a: TurnAdmission, v: World)
    requires ChainsOk(w) && Next(w, Turn(a), v)
    ensures ChainsOk(v)
  {
    if BeginAutonomousTurn(w.db, a).Done? {
      RunPhase(w, w.db.sessions[a.sessionId].runId);
      TurnOnlyRun(w, a, v);
      ChainsFrame(w, v, w.db.sessions[a.sessionId].runId, None);
    }
  }

  lemma ParallelOnlyRun(w: World, a: ParallelAdmission, v: World)
    requires BeginParallelTurns(w.db, a) == Done(v.db) && v.newest == w.newest && v.rests == w.rests && v.clock == w.clock
    requires RunOk(w.db.runs[a.runId]) && PhaseOk(w, a.runId)
    ensures OnlyRunChanged(w, v, a.runId, None)
    ensures RunOk(v.db.runs[a.runId]) && PhaseOk(v, a.runId)
  {
  }

  lemma ParallelKeepsChains(w: World, a: ParallelAdmission, v: World)
    requires ChainsOk(w) && Next(w, Parallel(a), v)
    ensures ChainsOk(v)
  {
    if BeginParallelTurns(w.db, a).Done? {
      RunPhase(w, a.runId);
      ParallelOnlyRun(w, a, v);
      ChainsFrame(w, v, a.runId, None);
    }
  }

  lemma NewSessionOnlyRun(w: World, a: NewSessionAdmission, v: World)
    requires BeginNewSession(w.db, a) == Done(v.db) && v.newest == w.newest && v.rests == w.rests && v.clock == w.clock
    requires RunOk(w.db.runs[a.session.runId]) && PhaseOk(w, a.session.runId)
    ensures OnlyRunChanged(w, v, a.session.runId, None)
    ensures RunOk(v.db.runs[a.session.runId]) && PhaseOk(v, a.session.runId)
  {
  }

  lemma NewSessionKeepsChains(w: World, a: NewSessionAdmission, v: World)
    requires ChainsOk(w) && Next(w, NewSession(a), v)
    ensures ChainsOk(v)
  {
    if BeginNewSession(w.db, a).Done? {
      RunPhase(w, a.session.runId);
      NewSessionOnlyRun(w, a, v);
      ChainsFrame(w, v, a.session.runId, None);
    }
  }

  lemma SessionsFrame(w: World, v: World)
    requires ChainsOk(w) && v.newest == w.newest && v.clock == w.clock && v.rests == w.rests
    requires v.db.runs == w.db.runs && v.db.interventions == w.db.interventions && SessionsKept(w.db, v.db)
    ensures ChainsOk(v)
  {
    forall i | i in v.db.interventions ensures InterventionOk(v, i) { assert InterventionOk(w, i); }
    forall o | o in v.db.runs ensures RunOk(v.db.runs[o]) && PhaseOk(v, o) { RunPhase(w, o); }
  }

  lemma SessionStepsKeepChains(w: World, step: Step, v: World)
    requires ChainsOk(w) && Next(w, step, v) && (step.MoveSession? || step.NewAttempt? || step.WorkerEvent? || step.Append?)
    ensures ChainsOk(v)
  {
    SessionsFrame(w, v);
  }

  // The reason the chain carries into a new request: that of its newest intervention.
  function ChainReason(w: World, r: Id): string
    requires r in w.db.runs && (r in w.newest ==> w.newest[r] in w.db.interventions)
  {
    if !w.db.runs[r].status.WaitingForUser? then ""
    else if r in w.newest && w.db.interventions[w.newest[r]].resolvedBy.None? && w.db.interventions[w.newest[r]].resumeReason != ""
    then w.db.interventions[w.newest[r]].resumeReason
    else w.db.runs[r].reason
  }

  // What queueing a request leaves: every earlier intervention of the run was answered, the
  // new one is the newest and carries the chain's reason, and the run is armed to pause.
  ghost predicate QueuedRows(w: World, q: InterventionRequest, v: World) {
    var r := q.runId;
    && r in w.db.runs && !w.db.runs[r].status.IsTerminal() && (r in w.newest ==> w.newest[r] in w.db.interventions)
    && v.newest == w.newest[r := q.id] && w.clock < v.clock == q.at && v.rests == w.rests
    && q.id !in w.db.interventions && v.db.interventions.Keys == w.db.interventions.Keys + {q.id}
    && (forall i :: i in w.db.interventions ==> v.db.interventions[i] == w.db.interventions[i])
    && (forall i :: i in w.db.interventions && w.db.interventions[i].runId == r ==> w.db.interventions[i].status.Answered?)
    && v.db.sessions == w.db.sessions
    && v.db.runs == w.db.runs[r := ArmPause(w.db.runs[r])] && ArmPause(w.db.runs[r]).Valid()
    && var iv := v.db.interventions[q.id];
    && iv.runId == r && iv.requestedAt == q.at && iv.target == q.target && iv.resolvedBy.None?
    && iv.sessionId in Targets(w.db, r, q.target)
    && iv.status == (if w.db.runs[r].status.WaitingForUser? then Queued else WaitingForBoundary)
    && iv.resumeReason == ChainReason(w, r)
  }

  lemma ResumesAsChain(w: World, r: Id)
    requires ChainsOk(w) && r in w.db.runs
    requires forall i :: i in w.db.interventions && w.db.interventions[i].runId == r ==> w.db.interventions[i].status.Answered?
    ensures (r in w.newest ==> w.newest[r] in w.db.interventions) && ResumeReason(w.db, r) == ChainReason(w, r)
  {
    RunPhase(w, r);
    if r in w.newest { NewestIsLatest(w, r); } else { NoneIsLatest(w, r); }
  }

  lemma QueueStores(d: Tables, q: InterventionRequest)
    requires QueueIntervention(d, q).Done?
    ensures q.runId in d.runs && q.id !in d.interventions && !d.runs[q.runId].status.IsTerminal() && ArmPause(d.runs[q.runId]).Valid()
    ensures forall i :: i in d.interventions && d.interventions[i].runId == q.runId ==> d.interventions[i].status.Answered?
    ensures var e := QueueIntervention(d, q).after;
      && e.sessions == d.sessions && e.runs == d.runs[q.runId := ArmPause(d.runs[q.runId])] && q.id in e.interventions
      && var iv := e.interventions[q.id];
      && e.interventions == d.interventions[q.id := iv] && iv.sessionId in Targets(d, q.runId, q.target)
      && iv == Intervention(q.runId, iv.sessionId, q.target, q.message, if d.runs[q.runId].status.WaitingForUser? then Queued else WaitingForBoundary,
                            0, NoEffect, ResumeReason(d, q.runId), q.at, None)
  {
    assert forall i :: i in d.interventions && d.interventions[i].runId == q.runId && !d.interventions[i].status.Answered? ==>
      i in Unfinished(d, q.runId);
  }

  lemma QueueLeavesRows(w: World, q: InterventionRequest, v: World)
    requires ChainsOk(w) && Next(w, Queue(q), v) && QueueIntervention(w.db, q).Done?
    ensures QueuedRows(w, q, v)
  {
    QueueStores(w.db, q);
    ResumesAsChain(w, q.runId);
  }

  lemma QueuedPhase(w: World, q: InterventionRequest, v: World)
    requires ChainsOk(w) && QueuedRows(w, q, v)
    ensures RunOk(v.db.runs[q.runId]) && PhaseOk(v, q.runId)
  {
    RunPhase(w, q.runId);
    if q.runId in w.newest { assert InterventionOk(w, w.newest[q.runId]); }
  }

  lemma QueuedBehind(w: World, q: InterventionRequest, v: World, i: Id)
    requires ChainsOk(w) && QueuedRows(w, q, v) && i in v.db.interventions
    ensures InterventionOk(v, i)
  {
    if i != q.id { assert InterventionOk(w, i); }
  }

  lemma QueueKeepsChains(w: World, q: InterventionRequest, v: World)
    requires ChainsOk(w) && QueuedRows(w, q, v)
    ensures ChainsOk(v)
  {
    forall i | i in v.db.interventions ensures InterventionOk(v, i) { QueuedBehind(w, q, v, i); }
    QueuedPhase(w, q, v);
    forall o | o in v.db.runs ensures RunOk(v.db.runs[o]) && PhaseOk(v, o) {
      if o != q.runId {
        RunPhase(w, o);
        if o in w.newest { assert InterventionOk(w, w.newest[o]); }
      }
    }
  }

  lemma StepKeepsChains(w: World, step: Step, v: World)
    requires ChainsOk(w) && Next(w, step, v)
    ensures ChainsOk(v)
  {
    match step
    case Queue(q) =>
      if QueueIntervention(w.db, q).Done? {
        QueueLeavesRows(w, q, v);
        QueueKeepsChains(w, q, v);
      }
    case Begin(a) => BeginKeepsChains(w, a, v);
    case Complete(c) => CompleteKeepsChains(w, c, v);
    case Resolve(r) => ResolveKeepsChains(w, r, v);
    case Move(t) => MoveKeepsChains(w, t, v);
    case Turn(a) => TurnKeepsChains(w, a, v);
    case Parallel(a) => ParallelKeepsChains(w, a, v);
    case NewSession(a) => NewSessionKeepsChains(w, a, v);
    case PauseOrResume(m) => PauseKeepsChains(w, m, v);
    case _ => SessionStepsKeepChains(w, step, v);
  }
}
