/** What the store has recorded stands: over every run of its steps a request keeps what it asks, an
    answer its effect, an action its meaning, and a session its agent and its provider. */
module InterventionRecords {
  import opened Options
  import opened ExecutionTables
  import opened Transactions
  import opened InterventionRuns
  import opened Interventions
  import opened SessionEvents

  /******* Requests and answers *******/

  // A row later on: it asks the same of the same; once queued it keeps its reason, once answered its
  // answer, and once resolved its action.
  predicate RowKept(before: Intervention, after: Intervention) {
    && after.runId == before.runId && after.sessionId == before.sessionId && after.target == before.target
    && after.message == before.message && after.requestedAt == before.requestedAt
    && (!before.status.WaitingForBoundary? ==> !after.status.WaitingForBoundary? && after.resumeReason == before.resumeReason)
    && (before.status.BeingAnswered? ==> (after.status.BeingAnswered? || after.status.Answered?) && after.attempt == before.attempt)
    && (before.status.Answered? ==> after.status.Answered? && after.attempt == before.attempt && after.effect == before.effect)
    && (before.resolvedBy.Some? ==> after.resolvedBy == before.resolvedBy)
  }

  ghost predicate RowsKept(d: Tables, e: Tables) {
    forall i :: i in d.interventions ==> i in e.interventions && RowKept(d.interventions[i], e.interventions[i])
  }

  lemma StepKeepsRows(d: Tables, step: Step)
    requires Apply(d, step).Done?
    ensures RowsKept(d, Apply(d, step).after)
  {
    match step
    case Move(t) => MoveKeepsRows(d, t);
    case Queue(q) => QueueStores(d, q);
    case Turn(_) => TurnLeavesRows(d, step);
    case Parallel(_) => TurnLeavesRows(d, step);
    case NewSession(_) => TurnLeavesRows(d, step);
    case _ =>
  }

  lemma TurnLeavesRows(d: Tables, step: Step)
    requires Apply(d, step).Done? && (step.Turn? || step.Parallel? || step.NewSession?)
    ensures Apply(d, step).after.interventions == d.interventions
  {
  }

  lemma MoveKeepsRows(d: Tables, t: RunTransition)
    requires TransitionRun(d, t).Done?
    ensures RowsKept(d, TransitionRun(d, t).after)
  {
    MovedRows(d, t);
  }

  lemma WorldKeepsRows(w: World, step: Step, v: World)
    requires Next(w, step, v)
    ensures RowsKept(w.db, v.db)
  {
    if Apply(w.db, step).Done? { StepKeepsRows(w.db, step); }
  }

  lemma KeptTwice(a: Tables, b: Tables, c: Tables)
    requires RowsKept(a, b) && RowsKept(b, c)
    ensures RowsKept(a, c)
  {
    forall i | i in a.interventions ensures i in c.interventions && RowKept(a.interventions[i], c.interventions[i]) {
      assert RowKept(a.interventions[i], b.interventions[i]) && RowKept(b.interventions[i], c.interventions[i]);
    }
  }

  lemma {:induction false} RecordsStand(trace: Trace, m: nat, n: nat)
    requires trace.Valid() && m <= n < |trace.worlds|
    ensures RowsKept(trace.worlds[m].db, trace.worlds[n].db)
  {
    if m < n {
      RecordsStand(trace, m, n - 1);
      assert Next(trace.worlds[n - 1], trace.steps[n - 1], trace.worlds[n]);
      WorldKeepsRows(trace.worlds[n - 1], trace.steps[n - 1], trace.worlds[n]);
      KeptTwice(trace.worlds[m].db, trace.worlds[n - 1].db, trace.worlds[n].db);
    }
  }

  /** A request that was taken stands at every later state as it was asked, of the one live session its
      agent had, and so does the message it put to that session; asked again it changes nothing. */
  lemma RequestStands(trace: Trace, m: nat, n: nat)
    requires trace.Valid() && m < n < |trace.worlds| && trace.steps[m].Queue?
    requires QueueIntervention(trace.worlds[m].db, trace.steps[m].request).Done?
    ensures var q, db := trace.steps[m].request, trace.worlds[n].db;
      && q.id in db.interventions && var iv := db.interventions[q.id];
      && iv.runId == q.runId && iv.target == q.target && iv.message == q.message && iv.requestedAt == q.at
      && iv.sessionId in Targets(trace.worlds[m].db, q.runId, q.target)
      && var said := FindEvent(db.events, UserMessageOf(q.id));
      && said.Some? && said.value.sessionId == iv.sessionId && said.value.fromUser && said.value.text == q.message
      && QueueIntervention(db, q) == Repeat
  {
    var d, q := trace.worlds[m].db, trace.steps[m].request;
    assert Next(trace.worlds[m], trace.steps[m], trace.worlds[m + 1]);
    QueueStores(d, q);
    RecordsStand(trace, m + 1, n);
    var e := QueueIntervention(d, q).after;
    assert RowKept(e.interventions[q.id], trace.worlds[n].db.interventions[q.id]);
    QueueSays(d, q);
    EventStays(trace, m + 1, n, UserMessageOf(q.id));
  }

  lemma QueueSays(d: Tables, q: InterventionRequest)
    requires QueueIntervention(d, q).Done?
    ensures var e := QueueIntervention(d, q).after;
      && q.id in e.interventions && var said := FindEvent(e.events, UserMessageOf(q.id));
      && said.Some? && said.value.sessionId == e.interventions[q.id].sessionId && said.value.fromUser && said.value.text == q.message
  {
    var e := QueueIntervention(d, q).after;
    var event := e.events[|d.events|];
    assert e.events == d.events + [event] && event.id == UserMessageOf(q.id);
    FoundStays(d.events, event, UserMessageOf(q.id));
  }

  /** An answer that was completed stands, with its attempt and its effect; completed again it changes
      nothing, and any other completion of it is refused. */
  lemma AnswerStands(trace: Trace, m: nat, n: nat, other: Completion)
    requires trace.Valid() && m < n < |trace.worlds| && trace.steps[m].Complete?
    requires CompleteIntervention(trace.worlds[m].db, trace.steps[m].completion).Done?
    requires other.intervention == trace.steps[m].completion.intervention
    ensures var c, db := trace.steps[m].completion, trace.worlds[n].db;
      && c.intervention in db.interventions && var iv := db.interventions[c.intervention];
      && iv.status.Answered? && iv.attempt == c.attempt && iv.effect == c.effect
      && CompleteIntervention(db, c) == Repeat
      && !CompleteIntervention(db, other).Done?
      && (CompleteIntervention(db, other).Repeat? ==> other.attempt == c.attempt && other.effect == c.effect)
  {
    var d, c := trace.worlds[m].db, trace.steps[m].completion;
    assert Next(trace.worlds[m], trace.steps[m], trace.worlds[m + 1]);
    RecordsStand(trace, m + 1, n);
    var e := CompleteIntervention(d, c).after;
    assert RowKept(e.interventions[c.intervention], trace.worlds[n].db.interventions[c.intervention]);
  }

  /******* Actions and sessions *******/

  ghost predicate ActionsKept(d: Tables, e: Tables) { forall a :: a in d.actions ==> a in e.actions && e.actions[a] == d.actions[a] }

  // A session later on: the same agent's, in the same role, of the same run, with the provider it had.
  predicate SessionKept(before: Session, after: Session) {
    && after.runId == before.runId && after.agentId == before.agentId && after.role == before.role
    && (before.provider != 0 ==> after.provider == before.provider)
    && (before.status in {Completed, Ended, Broken} ==> after.status == before.status)
  }

  ghost predicate AllSessionsKept(d: Tables, e: Tables) {
    forall s :: s in d.sessions ==> s in e.sessions && SessionKept(d.sessions[s], e.sessions[s])
  }

  // A run that has ended does not go on.
  predicate EndKept(before: Run, after: Run) {
    && after.featureId == before.featureId && after.independentTests == before.independentTests
    && (before.status in {Succeeded, Stopped, RunStatus.Failed} ==> after.status == before.status)
  }

  ghost predicate EndsKept(d: Tables, e: Tables) {
    forall r :: r in d.runs ==> r in e.runs && EndKept(d.runs[r], e.runs[r])
  }

  lemma StepKeepsActions(d: Tables, step: Step)
    requires Apply(d, step).Done?
    ensures ActionsKept(d, Apply(d, step).after)
  {
  }

  lemma StepKeepsSessionRows(d: Tables, step: Step)
    requires Apply(d, step).Done?
    ensures AllSessionsKept(d, Apply(d, step).after)
  {
    if step.Turn? || step.Parallel? || step.NewSession? { TurnKeepsSessionRows(d, step); }
  }

  lemma TurnKeepsSessionRows(d: Tables, step: Step)
    requires Apply(d, step).Done? && (step.Turn? || step.Parallel? || step.NewSession?)
    ensures AllSessionsKept(d, Apply(d, step).after)
  {
  }

  lemma InterventionKeepsEnds(d: Tables, step: Step)
    requires Apply(d, step).Done? && (step.Queue? || step.Begin? || step.Complete? || step.Resolve? || step.Move? || step.PauseOrResume?)
    ensures EndsKept(d, Apply(d, step).after)
  {
  }

  lemma TurnKeepsEnds(d: Tables, step: Step)
    requires Apply(d, step).Done? && (step.Turn? || step.Parallel? || step.NewSession?)
    ensures EndsKept(d, Apply(d, step).after)
  {
  }

  lemma StepKeepsEnds(d: Tables, step: Step)
    requires Apply(d, step).Done?
    ensures EndsKept(d, Apply(d, step).after)
  {
    match step
    case Turn(_) => TurnKeepsEnds(d, step);
    case Parallel(_) => TurnKeepsEnds(d, step);
    case NewSession(_) => TurnKeepsEnds(d, step);
    case MoveSession(_) =>
    case NewAttempt(_, _) =>
    case WorkerEvent(_) =>
    case Append(_) =>
    case _ => InterventionKeepsEnds(d, step);
  }

  ghost predicate StoreKept(d: Tables, e: Tables) { ActionsKept(d, e) && AllSessionsKept(d, e) && EndsKept(d, e) }

  lemma StepKeepsStore(w: World, step: Step, v: World)
    requires Next(w, step, v)
    ensures StoreKept(w.db, v.db)
  {
    if Apply(w.db, step).Done? {
      StepKeepsActions(w.db, step);
      StepKeepsSessionRows(w.db, step);
      StepKeepsEnds(w.db, step);
    }
  }

  /** Over every run each action keeps its meaning, a session its run, its agent, its role, the provider
      once it has one and its end once it has ended; and a run that has ended stays so. */
  lemma {:induction false} RowsStand(trace: Trace, m: nat, n: nat)
    requires trace.Valid() && m <= n < |trace.worlds|
    ensures StoreKept(trace.worlds[m].db, trace.worlds[n].db)
  {
    if m < n {
      RowsStand(trace, m, n - 1);
      assert Next(trace.worlds[n - 1], trace.steps[n - 1], trace.worlds[n]);
      StepKeepsStore(trace.worlds[n - 1], trace.steps[n - 1], trace.worlds[n]);
      BothKept(trace.worlds[m].db, trace.worlds[n - 1].db, trace.worlds[n].db);
    }
  }

  lemma BothKept(a: Tables, b: Tables, c: Tables)
    requires StoreKept(a, b) && StoreKept(b, c)
    ensures StoreKept(a, c)
  {
    forall s | s in a.sessions ensures s in c.sessions && SessionKept(a.sessions[s], c.sessions[s]) {
      assert SessionKept(a.sessions[s], b.sessions[s]) && SessionKept(b.sessions[s], c.sessions[s]);
    }
  }

  /** A pause, a resume or a resolution that committed is answered as a repeat at every later state, and
      any other call under its ID is refused. */
  lemma ActionReplays(trace: Trace, m: nat, n: nat, other: PauseMutation)
    requires trace.Valid() && m < n < |trace.worlds| && trace.steps[m].PauseOrResume?
    requires ApplyPause(trace.worlds[m].db, trace.steps[m].mutation).Done? && other.id == trace.steps[m].mutation.id
    ensures var done, db := trace.steps[m].mutation, trace.worlds[n].db;
      && ApplyPause(db, done) == Repeat && !ApplyPause(db, other).Done?
      && (ApplyPause(db, other).Repeat? ==> other.runId == done.runId && other.action == done.action)
  {
    assert Next(trace.worlds[m], trace.steps[m], trace.worlds[m + 1]);
    RowsStand(trace, m + 1, n);
  }

  lemma ResolutionReplays(trace: Trace, m: nat, n: nat)
    requires trace.Valid() && m < n < |trace.worlds| && trace.steps[m].Resolve?
    requires ResolveIntervention(trace.worlds[m].db, trace.steps[m].resolution).Done?
    ensures ResolveIntervention(trace.worlds[n].db, trace.steps[m].resolution) == Repeat
  {
    var r := trace.steps[m].resolution;
    assert Next(trace.worlds[m], trace.steps[m], trace.worlds[m + 1]);
    RowsStand(trace, m + 1, n);
    RecordsStand(trace, m + 1, n);
    assert RowKept(trace.worlds[m + 1].db.interventions[r.intervention], trace.worlds[n].db.interventions[r.intervention]);
  }
}
