/** When a document is taken and when a goal is, over every run: a put commits exactly onto the
    revision it expected, and an accepted goal stands, the only one, until somebody edits it. */
module GoalHistory {
  import opened Options
  import opened Artifacts
  import opened ArtifactHistory

  /******* Documents *******/

  ghost predicate KeyTaken(db: Db, feature: Id, key: Id) {
    exists i :: 0 <= i < |db.events| && db.events[i].feature == feature && db.events[i].key == key
  }

  ghost predicate IdTaken(db: Db, id: Id) { exists i :: 0 <= i < |db.events| && db.events[i].id == id }

  lemma TakenIsFound(db: Db, feature: Id, key: Id)
    ensures KeyTaken(db, feature, key) <==> FindByKey(db.events, feature, key).Some?
  {
    FindByKeyFinds(db.events, feature, key);
  }

  lemma {:induction false} WithinMax(events: seq<Event>, feature: Id, i: nat)
    requires i < |events| && events[i].feature == feature
    ensures events[i].sequence <= MaxSequence(events, feature)
  {
    if i < |events| - 1 { WithinMax(events[..|events| - 1], feature, i); }
  }

  // With the next sequence and a new key only an event's ID can clash.
  lemma OnlyIdClashes(db: Db, event: Event)
    requires event.sequence == MaxSequence(db.events, event.feature) + 1 && !KeyTaken(db, event.feature, event.key)
    ensures Clashes(db.events, event) <==> IdTaken(db, event.id)
  {
    forall i | 0 <= i < |db.events| && db.events[i].feature == event.feature ensures db.events[i].sequence != event.sequence {
      WithinMax(db.events, event.feature, i);
    }
  }

  /** In every reachable state a put under a new key is taken exactly when the feature is there and has as
      many revisions of the kind as it expects; it adds that many and one as its revision, and the event
      that says so, and changes nothing else. */
  lemma PutTaken(run: Run, n: nat, m: Mutation)
    requires run.Valid() && n < |run.dbs| && m.Valid() && !KeyTaken(run.dbs[n], m.feature, m.key) && !IdTaken(run.dbs[n], m.event)
    ensures var db := run.dbs[n]; var revisions := |RowsOf(db.artifacts, m.feature, m.kind)|; var after := PutArtifact(db, m);
      && (after.Done? <==> m.feature in db.features && m.expected == revisions)
      && (after == Refused(NotFound) <==> m.feature !in db.features)
      && (after == Refused(ArtifactConflict) <==> m.feature in db.features && m.expected != revisions)
      && (after.Done? ==>
           var row := Row(m.feature, m.kind, revisions + 1, m.document, m.actor, m.at);
           var event := Event(m.event, m.feature, |EventsOf(db.events, m.feature)| + 1, m.actor, m.key, m.at,
                              ArtifactUpdated(m.kind, revisions + 1, revisions, Sha256(m.document)));
           after == Done(Db(db.features, db.artifacts + [row], db.events + [event]), (row, event)))
  {
    var db := run.dbs[n];
    Reachable(run, n);
    TakenIsFound(db, m.feature, m.key);
    RevisionsMatchEvents(run, n, m.feature, m.kind);
    MaxIsCount(db.events, m.feature);
    OnlyIdClashes(db, EventOf(db, m));
  }

  /** A call whose event ID is taken changes nothing. */
  lemma TakenIdRefused(run: Run, n: nat, m: Mutation, a: Acceptance)
    requires run.Valid() && n < |run.dbs|
    ensures IdTaken(run.dbs[n], m.event) && !KeyTaken(run.dbs[n], m.feature, m.key) ==> PutArtifact(run.dbs[n], m).Refused?
    ensures IdTaken(run.dbs[n], a.event) && !KeyTaken(run.dbs[n], a.feature, a.key) ==> AcceptGoal(run.dbs[n], a).Refused?
  {
    TakenIsFound(run.dbs[n], m.feature, m.key);
    TakenIsFound(run.dbs[n], a.feature, a.key);
    assert IdTaken(run.dbs[n], m.event) ==> Clashes(run.dbs[n].events, EventOf(run.dbs[n], m));
    assert IdTaken(run.dbs[n], a.event) ==> Clashes(run.dbs[n].events, GoalEvent(run.dbs[n], a));
  }

  // A key that names another call is refused, whatever it asks for.
  lemma KeyConflicts(db: Db, m: Mutation, i: nat)
    requires m.Valid() && i < |db.events| && KeysUnique(db) && db.events[i].feature == m.feature && db.events[i].key == m.key
    ensures PutArtifact(db, m) == Refused(IdempotencyConflict) <==>
      !(db.events[i].payload.ArtifactUpdated? && db.events[i].payload.kind == m.kind && db.events[i].payload.expected == m.expected
        && db.events[i].payload.digest == m.digest && db.events[i].actor == m.actor)
  {
    FindByKeyFinds(db.events, m.feature, m.key);
    var found := FindByKey(db.events, m.feature, m.key).value;
    var j :| 0 <= j < |db.events| && db.events[j] == found;
    assert i == j;
  }

  lemma GoalKeyConflicts(db: Db, a: Acceptance, i: nat)
    requires a.Valid() && i < |db.events| && KeysUnique(db) && db.events[i].feature == a.feature && db.events[i].key == a.key
    ensures AcceptGoal(db, a) == Refused(IdempotencyConflict) <==>
      !(db.events[i].payload == GoalAccepted(a.goal, a.session) && db.events[i].actor == a.actor)
  {
    FindByKeyFinds(db.events, a.feature, a.key);
    var found := FindByKey(db.events, a.feature, a.key).value;
    var j :| 0 <= j < |db.events| && db.events[j] == found;
    assert i == j;
  }

  /** What is not valid is refused as that, first of all. */
  lemma InvalidRefused(db: Db, m: Mutation, a: Acceptance)
    ensures PutArtifact(db, m) == Refused(Invalid) <==>
      m.event == 0 || m.feature == 0 || m.digest != Sha256(m.document) || m.actor == 0 || m.at == 0 || m.key == 0
    ensures AcceptGoal(db, a) == Refused(Invalid) <==>
      a.event == 0 || a.feature == 0 || a.session == 0 || a.goal == "" || a.actor == 0 || a.at == 0 || a.key == 0
  {
  }

  /******* Goals *******/

  // A feature that may be given a goal.
  predicate Open(db: Db, feature: Id) {
    feature in db.features && db.features[feature].state.Ready? && db.features[feature].goal == "" && db.features[feature].acceptedAt == 0
  }

  /** In every reachable state a goal under a new key is taken exactly while the feature is ready and has
      none; then the feature has it, from that time, and the event says so, and nothing else changes. */
  lemma GoalTaken(run: Run, n: nat, a: Acceptance)
    requires run.Valid() && n < |run.dbs| && a.Valid() && !KeyTaken(run.dbs[n], a.feature, a.key) && !IdTaken(run.dbs[n], a.event)
    ensures var db := run.dbs[n]; var after := AcceptGoal(db, a);
      && (after.Done? <==> Open(db, a.feature))
      && (after == Refused(GoalNotAllowed) <==> !Open(db, a.feature))
      && (after.Done? ==>
           var event := Event(a.event, a.feature, |EventsOf(db.events, a.feature)| + 1, a.actor, a.key, a.at, GoalAccepted(a.goal, a.session));
           after == Done(Db(db.features[a.feature := Feature(Ready, a.goal, a.at)], db.artifacts, db.events + [event]), event))
  {
    var db := run.dbs[n];
    Reachable(run, n);
    TakenIsFound(db, a.feature, a.key);
    MaxIsCount(db.events, a.feature);
    OnlyIdClashes(db, GoalEvent(db, a));
  }

  // An acceptance that committed now, rather than before.
  ghost predicate Accepts(db: Db, step: Step) {
    step.Accept? && AcceptGoal(db, step.acceptance).Done? && !KeyTaken(db, step.acceptance.feature, step.acceptance.key)
  }

  predicate HasGoal(db: Db, feature: Id, goal: string, at: nat) {
    feature in db.features && db.features[feature].goal == goal && db.features[feature].acceptedAt == at
  }

  // Nobody edits what a feature's goal is, or when it was accepted.
  ghost predicate GoalLeft(run: Run, feature: Id, m: nat, n: nat)
    requires n <= |run.steps| == |run.dbs| - 1
  {
    forall k :: m <= k < n && run.steps[k].Edit? && feature in run.dbs[k].features ==>
      HasGoal(run.dbs[k + 1], feature, run.dbs[k].features[feature].goal, run.dbs[k].features[feature].acceptedAt)
  }

  lemma AcceptsStores(db: Db, step: Step, after: Db)
    requires Next(db, step, after) && Accepts(db, step)
    ensures step.acceptance.Valid() && Open(db, step.acceptance.feature)
    ensures HasGoal(after, step.acceptance.feature, step.acceptance.goal, step.acceptance.at)
  {
    TakenIsFound(db, step.acceptance.feature, step.acceptance.key);
  }

  lemma StepLeavesGoal(db: Db, step: Step, after: Db, feature: Id, goal: string, at: nat)
    requires Next(db, step, after) && HasGoal(db, feature, goal, at) && goal != ""
    requires step.Edit? ==> HasGoal(after, feature, goal, at)
    ensures HasGoal(after, feature, goal, at)
  {
  }

  /** A goal that was accepted stands, with its time, until somebody edits them. */
  lemma {:induction false} GoalStands(run: Run, m: nat, n: nat)
    requires run.Valid() && m < n < |run.dbs| && Accepts(run.dbs[m], run.steps[m])
    requires GoalLeft(run, run.steps[m].acceptance.feature, m + 1, n)
    ensures var a := run.steps[m].acceptance; a.goal != "" && HasGoal(run.dbs[n], a.feature, a.goal, a.at)
    decreases n
  {
    var a := run.steps[m].acceptance;
    assert Next(run.dbs[n - 1], run.steps[n - 1], run.dbs[n]);
    if m == n - 1 {
      AcceptsStores(run.dbs[m], run.steps[m], run.dbs[n]);
    } else {
      GoalStands(run, m, n - 1);
      StepLeavesGoal(run.dbs[n - 1], run.steps[n - 1], run.dbs[n], a.feature, a.goal, a.at);
    }
  }

  /** While it stands, every other acceptance is refused, so a feature has one. */
  lemma OtherGoalsRefused(run: Run, m: nat, n: nat, b: Acceptance)
    requires run.Valid() && m < n < |run.dbs| && Accepts(run.dbs[m], run.steps[m])
    requires GoalLeft(run, run.steps[m].acceptance.feature, m + 1, n)
    requires b.Valid() && b.feature == run.steps[m].acceptance.feature && !KeyTaken(run.dbs[n], b.feature, b.key)
    ensures AcceptGoal(run.dbs[n], b) == Refused(GoalNotAllowed)
  {
    GoalStands(run, m, n);
    TakenIsFound(run.dbs[n], b.feature, b.key);
  }

  function GoalsOf(events: seq<Event>, feature: Id): nat {
    if events == [] then 0
    else
      var last := events[|events| - 1];
      GoalsOf(events[..|events| - 1], feature) + if last.feature == feature && last.payload.GoalAccepted? then 1 else 0
  }

  // Nobody clears a feature's goal, and no other writer records one.
  ghost predicate GoalKept(run: Run, feature: Id, n: nat)
    requires n <= |run.steps| == |run.dbs| - 1
  {
    forall k :: 0 <= k < n ==>
      && (run.steps[k].Edit? && feature in run.dbs[k].features && run.dbs[k].features[feature].goal != "" ==>
           feature in run.dbs[k + 1].features && run.dbs[k + 1].features[feature].goal != "")
      && (run.steps[k].Other? ==> !(run.steps[k].event.feature == feature && run.steps[k].event.payload.GoalAccepted?))
  }

  lemma StepGoals(db: Db, step: Step, after: Db, feature: Id)
    requires Next(db, step, after) && (step.Other? ==> !(step.event.feature == feature && step.event.payload.GoalAccepted?))
    ensures GoalsOf(after.events, feature) == GoalsOf(db.events, feature) + if Accepts(db, step) && step.acceptance.feature == feature then 1 else 0
  {
    if step.Accept? { TakenIsFound(db, step.acceptance.feature, step.acceptance.key); }
    if after.events != db.events { assert after.events[..|db.events|] == db.events; }
  }

  /** A feature is given a goal once at most, as long as nobody clears it. */
  lemma {:induction false} OneGoal(run: Run, n: nat, feature: Id)
    requires run.Valid() && n < |run.dbs| && GoalKept(run, feature, n)
    ensures GoalsOf(run.dbs[n].events, feature) <= 1
    ensures GoalsOf(run.dbs[n].events, feature) == 1 ==> feature in run.dbs[n].features && run.dbs[n].features[feature].goal != ""
  {
    if n > 0 {
      var db, step, after := run.dbs[n - 1], run.steps[n - 1], run.dbs[n];
      OneGoal(run, n - 1, feature);
      assert Next(db, step, after);
      StepGoals(db, step, after, feature);
      if Accepts(db, step) { AcceptsStores(db, step, after); }
    }
  }
}
