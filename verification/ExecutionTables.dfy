/** The tables of runs, sessions, worker attempts and interventions, and what each
    transaction on them does: it commits new tables, answers a repeat, or is refused. */
module ExecutionTables {
  import opened Options

  // Identifiers are ordered tokens; zero stands for the empty one. Times are counted from one.
  type Id = nat
  type Time = nat

  datatype RunStatus = Running | WaitingForUser | Succeeded | Stopped | Failed
  {
    predicate IsTerminal() { Succeeded? || Stopped? || Failed? }

    predicate CanTransitionTo(next: RunStatus) {
      !IsTerminal() && this != next && (Running? || next.Running? || next.IsTerminal())
    }
  }

  datatype WaitKind = NoWait | PhaseCheckpoint | RoundCap | Blocker | MergeGate | Clarification | PausedWait

  datatype Run = Run(featureId: Id, status: RunStatus, reason: string, waitKind: WaitKind,
                     paused: bool, pausedFrom: WaitKind, independentTests: bool)
  {
    // What Validate demands of the fields that transactions change.
    predicate Valid() {
      && (paused <==> waitKind.PausedWait?)
      && (status.WaitingForUser? ==> !waitKind.NoWait?)
      && (!status.WaitingForUser? && !paused ==> waitKind.NoWait?)
      && (!pausedFrom.NoWait? ==> paused && !pausedFrom.PausedWait?)
    }
  }

  datatype SessionStatus =
    Starting | Active | AtRest | PauseRequested | OnPause | Completed | Ended | Broken
  {
    predicate IsTerminal() { Completed? || Ended? || Broken? }

    // What the queries for active sessions count.
    predicate IsActive() { !IsTerminal() && !AtRest? }

    predicate CanTransitionTo(next: SessionStatus) {
      match this
      case Starting => next.Active? || next.Ended? || next.Broken?
      case Active => next.AtRest? || next.PauseRequested? || next.IsTerminal()
      case AtRest => next.Active? || next.Ended? || next.Broken?
      case PauseRequested => next.AtRest? || next.OnPause? || next.Active? || next.IsTerminal()
      case OnPause => next.Active? || next.Ended? || next.Broken?
      case _ => false
    }
  }

  datatype Role = Lead | Reviewer

  datatype Session = Session(runId: Id, agentId: Id, role: Role, status: SessionStatus, provider: Id)

  datatype Checkpoint = Checkpoint(attempt: Id, lastEvent: nat)

  datatype InterventionStatus = WaitingForBoundary | Queued | BeingAnswered | Answered

  datatype Effect = NoEffect | GuidanceApplied | ClarificationRequired | ReplanningRequired

  datatype Intervention = Intervention(
    runId: Id, sessionId: Id, target: Role, message: string, status: InterventionStatus,
    attempt: Id, effect: Effect, resumeReason: string, requestedAt: Time, resolvedBy: Option<Id>)

  datatype FeatureState =
    Draft | Ready | Planning | Implementing | Reviewing | ReadyToMerge | FeatureCompleted | Cancelled

  datatype Feature = Feature(state: FeatureState, goal: string, goalAccepted: bool)
  {
    predicate HasGoal() { !Blank(goal) && goalAccepted }
  }

  datatype PauseAction = Pause | Resume

  datatype EventId = UserMessageOf(intervention: Id) | Recorded(id: Id)

  // A row of session_events; the rows stand in the order they were inserted.
  datatype SessionEvent = SessionEvent(id: EventId, sessionId: Id, sequence: nat, fromUser: bool, text: string)

  datatype Tables = Tables(
    runs: map<Id, Run>, sessions: map<Id, Session>, checkpoints: map<Id, Checkpoint>,
    interventions: map<Id, Intervention>, actions: map<Id, (Id, PauseAction)>,
    features: map<Id, Feature>, events: seq<SessionEvent>)

  datatype Error =
    | Invalid | NotFound | StateConflict | AttemptConflict | RecordConflict | ActionConflict | EventConflict
    | InterventionConflict | InterventionInProgress | NotAllowed | TargetUnavailable | Storage

  datatype Outcome = Done(after: Tables) | Repeat | Refuse(error: Error)

  function After(db: Tables, outcome: Outcome): Tables {
    if outcome.Done? then outcome.after else db
  }

  predicate IsSpace(c: char) { c == ' ' || '\t' <= c <= '\r' }

  predicate Blank(text: string) { forall i :: 0 <= i < |text| ==> IsSpace(text[i]) }

  /******* Queries *******/

  function ActiveSessions(db: Tables, run: Id): set<Id> {
    set s | s in db.sessions && db.sessions[s].runId == run && db.sessions[s].status.IsActive()
  }

  function Targets(db: Tables, run: Id, role: Role): set<Id> {
    set s | s in db.sessions && db.sessions[s].runId == run && db.sessions[s].role == role && !db.sessions[s].status.IsTerminal()
  }

  function Unfinished(db: Tables, run: Id): set<Id> {
    set i | i in db.interventions && db.interventions[i].runId == run && !db.interventions[i].status.Answered?
  }

  // ORDER BY requested_at DESC, id DESC LIMIT 1
  predicate IsLatest(db: Tables, run: Id, latest: Id) {
    && latest in db.interventions && db.interventions[latest].runId == run
    && forall i :: i in db.interventions && db.interventions[i].runId == run && i != latest ==>
      var other, mine := db.interventions[i].requestedAt, db.interventions[latest].requestedAt;
      other < mine || (other == mine && i < latest)
  }

  predicate HasLatest(db: Tables, run: Id) {
    exists i :: i in db.interventions && IsLatest(db, run, i)
  }

  function Latest(db: Tables, run: Id): (latest: Id)
    requires HasLatest(db, run)
    ensures IsLatest(db, run, latest)
  {
    LatestUnique(db, run);
    var i :| i in db.interventions && IsLatest(db, run, i);
    i
  }

  lemma LatestUnique(db: Tables, run: Id)
    ensures forall i, j :: IsLatest(db, run, i) && IsLatest(db, run, j) ==> i == j
  {
  }

  // The reason an unresolved chain of interventions carries, if there is one.
  function CarriedReason(db: Tables, run: Id): Option<string> {
    if !HasLatest(db, run) then None
    else
      var prior := db.interventions[Latest(db, run)];
      if prior.status.Answered? && prior.resolvedBy.None? && prior.resumeReason != "" then Some(prior.resumeReason) else None
  }

  // COALESCE(MAX(sequence), 0) + 1
  function NextSequence(events: seq<SessionEvent>, session: Id): nat {
    if events == [] then 1
    else
      var before, last := NextSequence(events[..|events| - 1], session), events[|events| - 1];
      if last.sessionId == session && last.sequence >= before then last.sequence + 1 else before
  }

  function FindEvent(events: seq<SessionEvent>, id: EventId): Option<SessionEvent> {
    if events == [] then None
    else if events[0].id == id then Some(events[0])
    else FindEvent(events[1..], id)
  }
}
