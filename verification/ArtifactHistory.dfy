/** Over every run of the artifact and goal transactions, the table of revisions and the log of
    events tell the same story, and a repeated key is answered as it was first. */
module ArtifactHistory {
  import opened Options
  import opened Artifacts

  // A feature's events, its updates of one kind, and the rows of that kind, in order.
  function EventsOf(events: seq<Event>, feature: Id): seq<Event> {
    if events == [] then []
    else
      var before, last := EventsOf(events[..|events| - 1], feature), events[|events| - 1];
      if last.feature == feature then before + [last] else before
  }

  predicate IsUpdate(event: Event, feature: Id, kind: Kind) {
    event.feature == feature && event.payload.ArtifactUpdated? && event.payload.kind == kind
  }

  function UpdatesOf(events: seq<Event>, feature: Id, kind: Kind): seq<Event> {
    if events == [] then []
    else
      var before, last := UpdatesOf(events[..|events| - 1], feature, kind), events[|events| - 1];
      if IsUpdate(last, feature, kind) then before + [last] else before
  }

  function RowsOf(rows: seq<Row>, feature: Id, kind: Kind): seq<Row> {
    if rows == [] then []
    else
      var before, last := RowsOf(rows[..|rows| - 1], feature, kind), rows[|rows| - 1];
      if last.feature == feature && last.kind == kind then before + [last] else before
  }

  // The n-th update made the n-th revision of this row.
  predicate Matches(event: Event, row: Row, n: nat) {
    && event.payload.ArtifactUpdated? && row.revision == n == event.payload.revision && event.payload.expected + 1 == n
    && event.payload.digest == Sha256(row.document) && event.actor == row.actor && event.at == row.at
  }

  ghost predicate Gapless(db: Db) {
    forall feature, i :: 0 <= i < |EventsOf(db.events, feature)| ==> EventsOf(db.events, feature)[i].sequence == i + 1
  }

  ghost predicate Agree(db: Db, feature: Id, kind: Kind) {
    var updates, rows := UpdatesOf(db.events, feature, kind), RowsOf(db.artifacts, feature, kind);
    |updates| == |rows| && forall i :: 0 <= i < |rows| ==> Matches(updates[i], rows[i], i + 1)
  }

  ghost predicate KeysUnique(db: Db) {
    forall i, j :: 0 <= i < j < |db.events| && db.events[i].feature == db.events[j].feature ==> db.events[i].key != db.events[j].key
  }

  ghost predicate Invariant(db: Db) {
    Gapless(db) && KeysUnique(db) && forall feature, kind :: Agree(db, feature, kind)
  }

  /******* What the queries find *******/

  lemma {:induction false} MaxIsCount(events: seq<Event>, feature: Id)
    requires forall i :: 0 <= i < |EventsOf(events, feature)| ==> EventsOf(events, feature)[i].sequence == i + 1
    ensures MaxSequence(events, feature) == |EventsOf(events, feature)|
  {
    if events != [] {
      var init, last := events[..|events| - 1], events[|events| - 1];
      var all := EventsOf(events, feature);
      assert forall i :: 0 <= i < |EventsOf(init, feature)| ==> all[i] == EventsOf(init, feature)[i];
      MaxIsCount(init, feature);
      assert last.feature == feature ==> all[|all| - 1] == last;
    }
  }

  lemma {:induction false} RevisionIsCount(rows: seq<Row>, feature: Id, kind: Kind)
    requires forall i :: 0 <= i < |RowsOf(rows, feature, kind)| ==> RowsOf(rows, feature, kind)[i].revision == i + 1
    ensures MaxRevision(rows, feature, kind) == |RowsOf(rows, feature, kind)|
  {
    if rows != [] {
      var init, last := rows[..|rows| - 1], rows[|rows| - 1];
      var all := RowsOf(rows, feature, kind);
      assert forall i :: 0 <= i < |RowsOf(init, feature, kind)| ==> all[i] == RowsOf(init, feature, kind)[i];
      RevisionIsCount(init, feature, kind);
      assert last.feature == feature && last.kind == kind ==> all[|all| - 1] == last;
    }
  }

  lemma OneMoreEvent(events: seq<Event>, event: Event, feature: Id, kind: Kind)
    ensures EventsOf(events + [event], feature) == EventsOf(events, feature) + if event.feature == feature then [event] else []
    ensures UpdatesOf(events + [event], feature, kind) == UpdatesOf(events, feature, kind) + if IsUpdate(event, feature, kind) then [event] else []
  {
    assert (events + [event])[..|events|] == events;
  }

  lemma OneMoreRow(rows: seq<Row>, row: Row, feature: Id, kind: Kind)
    ensures RowsOf(rows + [row], feature, kind) == RowsOf(rows, feature, kind) + if row.feature == feature && row.kind == kind then [row] else []
  {
    assert (rows + [row])[..|rows|] == rows;
  }

  lemma {:induction false} FindByKeyFinds(events: seq<Event>, feature: Id, key: Id)
    ensures FindByKey(events, feature, key).Some? ==>
      FindByKey(events, feature, key).value in events
      && FindByKey(events, feature, key).value.feature == feature && FindByKey(events, feature, key).value.key == key
    ensures FindByKey(events, feature, key).None? ==> forall i :: 0 <= i < |events| ==> !(events[i].feature == feature && events[i].key == key)
  {
    if events != [] { FindByKeyFinds(events[1..], feature, key); }
  }

  lemma {:induction false} FoundStays(events: seq<Event>, more: seq<Event>, feature: Id, key: Id)
    requires FindByKey(events, feature, key).Some?
    ensures FindByKey(events + more, feature, key) == FindByKey(events, feature, key)
  {
    if !(events[0].feature == feature && events[0].key == key) {
      FoundStays(events[1..], more, feature, key);
      assert (events + more)[1..] == events[1..] + more;
    }
  }

  lemma {:induction false} NewlyFound(events: seq<Event>, event: Event)
    requires FindByKey(events, event.feature, event.key).None?
    ensures FindByKey(events + [event], event.feature, event.key) == Some(event)
  {
    if events != [] {
      NewlyFound(events[1..], event);
      assert (events + [event])[1..] == events[1..] + [event];
    }
  }

  lemma {:induction false} RowStays(rows: seq<Row>, more: seq<Row>, feature: Id, kind: Kind, revision: nat)
    requires FindRow(rows, feature, kind, revision).Some?
    ensures FindRow(rows + more, feature, kind, revision) == FindRow(rows, feature, kind, revision)
  {
    if !(rows[0].feature == feature && rows[0].kind == kind && rows[0].revision == revision) {
      RowStays(rows[1..], more, feature, kind, revision);
      assert (rows + more)[1..] == rows[1..] + more;
    }
  }

  lemma {:induction false} RowNewlyFound(rows: seq<Row>, row: Row)
    requires row.revision == MaxRevision(rows, row.feature, row.kind) + 1
    ensures FindRow(rows + [row], row.feature, row.kind, row.revision) == Some(row)
  {
    NoLargerRow(rows, row.feature, row.kind, row.revision);
    FoundAtEnd(rows, row);
  }

  lemma {:induction false} FoundAtEnd(rows: seq<Row>, row: Row)
    requires forall i :: 0 <= i < |rows| ==> !(rows[i].feature == row.feature && rows[i].kind == row.kind && rows[i].revision == row.revision)
    ensures FindRow(rows + [row], row.feature, row.kind, row.revision) == Some(row)
  {
    if rows != [] {
      FoundAtEnd(rows[1..], row);
      assert (rows + [row])[1..] == rows[1..] + [row];
    }
  }

  lemma {:induction false} NoLargerRow(rows: seq<Row>, feature: Id, kind: Kind, revision: nat)
    requires revision > MaxRevision(rows, feature, kind)
    ensures forall i :: 0 <= i < |rows| ==> !(rows[i].feature == feature && rows[i].kind == kind && rows[i].revision == revision)
  {
    if rows != [] { NoLargerRow(rows[..|rows| - 1], feature, kind, revision); }
  }

  /******* What each step keeps *******/

  // Other writers of the log add an event that is no update, with the next sequence and a new key.
  datatype Step = Put(mutation: Mutation) | Accept(acceptance: Acceptance) | Other(event: Event) | Edit(features: map<Id, Feature>)

  ghost predicate Next(db: Db, step: Step, after: Db) {
    match step
    case Put(m) => after == DbAfter(db, PutArtifact(db, m))
    case Accept(a) => after == DbAfter(db, AcceptGoal(db, a))
    case Other(event) =>
      && !event.payload.ArtifactUpdated? && event.sequence == MaxSequence(db.events, event.feature) + 1
      && FindByKey(db.events, event.feature, event.key).None? && after == db.(events := db.events + [event])
    case Edit(features) => after == db.(features := features)
  }

  lemma EventKeeps(db: Db, event: Event)
    requires Gapless(db) && KeysUnique(db)
    requires event.sequence == MaxSequence(db.events, event.feature) + 1
    requires FindByKey(db.events, event.feature, event.key).None?
    ensures Gapless(db.(events := db.events + [event])) && KeysUnique(db.(events := db.events + [event]))
  {
    var after := db.(events := db.events + [event]);
    MaxIsCount(db.events, event.feature);
    FindByKeyFinds(db.events, event.feature, event.key);
    forall feature, i | 0 <= i < |EventsOf(after.events, feature)| ensures EventsOf(after.events, feature)[i].sequence == i + 1 {
      OneMoreEvent(db.events, event, feature, GoalDraft);
    }
  }

  lemma OtherKeepsAgreement(db: Db, event: Event, feature: Id, kind: Kind)
    requires Agree(db, feature, kind) && !IsUpdate(event, feature, kind)
    ensures Agree(db.(events := db.events + [event]), feature, kind)
  {
    OneMoreEvent(db.events, event, feature, kind);
  }

  lemma PutKeepsAgreement(db: Db, m: Mutation, feature: Id, kind: Kind)
    requires Agree(db, feature, kind) && Agree(db, m.feature, m.kind) && m.Valid() && MaxRevision(db.artifacts, m.feature, m.kind) == m.expected
    ensures Agree(db.(artifacts := db.artifacts + [RowOf(db, m)], events := db.events + [EventOf(db, m)]), feature, kind)
  {
    OneMoreEvent(db.events, EventOf(db, m), feature, kind);
    OneMoreRow(db.artifacts, RowOf(db, m), feature, kind);
    RevisionIsCount(db.artifacts, m.feature, m.kind);
  }

  lemma StepKeepsInvariant(db: Db, step: Step, after: Db)
    requires Invariant(db) && Next(db, step, after)
    ensures Invariant(after)
  {
    if after != db {
      match step {
        case Put(m) => EventKeeps(db, EventOf(db, m));
        case Accept(a) => EventKeeps(db, GoalEvent(db, a));
        case Other(event) => EventKeeps(db, event);
        case Edit(_) =>
      }
      forall feature, kind ensures Agree(after, feature, kind) {
        assert Agree(db, feature, kind);
        match step {
          case Put(m) => assert Agree(db, m.feature, m.kind); PutKeepsAgreement(db, m, feature, kind);
          case Accept(a) => OtherKeepsAgreement(db, GoalEvent(db, a), feature, kind);
          case Other(event) => OtherKeepsAgreement(db, event, feature, kind);
          case Edit(_) =>
        }
      }
    }
  }

  datatype Run = Run(dbs: seq<Db>, steps: seq<Step>)
  {
    ghost predicate Valid() {
      && |dbs| == |steps| + 1 && dbs[0].artifacts == [] && dbs[0].events == []
      && forall n {:trigger steps[n]} :: 0 <= n < |steps| ==> Next(dbs[n], steps[n], dbs[n + 1])
    }
  }

  lemma {:induction false} Reachable(run: Run, n: nat)
    requires run.Valid() && n < |run.dbs|
    ensures Invariant(run.dbs[n])
  {
    if n > 0 {
      Reachable(run, n - 1);
      assert Next(run.dbs[n - 1], run.steps[n - 1], run.dbs[n]);
      StepKeepsInvariant(run.dbs[n - 1], run.steps[n - 1], run.dbs[n]);
    }
  }

  /** In every reachable state a feature's revisions of a kind are exactly 1 to n, matched one to
      one and in order with its update events, which carry the revision expected and the digest. */
  lemma RevisionsMatchEvents(run: Run, n: nat, feature: Id, kind: Kind)
    requires run.Valid() && n < |run.dbs|
    ensures Agree(run.dbs[n], feature, kind)
    ensures MaxRevision(run.dbs[n].artifacts, feature, kind) == |RowsOf(run.dbs[n].artifacts, feature, kind)|
  {
    Reachable(run, n);
    assert Agree(run.dbs[n], feature, kind);
    RevisionIsCount(run.dbs[n].artifacts, feature, kind);
  }

  /** A feature's events are numbered from one without a gap, whichever steps wrote them. */
  lemma SequencesGapless(run: Run, n: nat, feature: Id, i: nat)
    requires run.Valid() && n < |run.dbs| && i < |EventsOf(run.dbs[n].events, feature)|
    ensures EventsOf(run.dbs[n].events, feature)[i].sequence == i + 1
    ensures MaxSequence(run.dbs[n].events, feature) == |EventsOf(run.dbs[n].events, feature)|
  {
    Reachable(run, n);
    MaxIsCount(run.dbs[n].events, feature);
  }

  /******* A repeated key *******/

  lemma StepAppends(db: Db, step: Step, after: Db)
    requires Next(db, step, after)
    ensures db.events <= after.events && db.artifacts <= after.artifacts
  {
  }

  lemma {:induction false} RunAppends(run: Run, m: nat, n: nat)
    requires run.Valid() && m <= n < |run.dbs|
    ensures run.dbs[m].events <= run.dbs[n].events && run.dbs[m].artifacts <= run.dbs[n].artifacts
  {
    if m < n {
      RunAppends(run, m, n - 1);
      assert Next(run.dbs[n - 1], run.steps[n - 1], run.dbs[n]);
      StepAppends(run.dbs[n - 1], run.steps[n - 1], run.dbs[n]);
    }
  }

  // After a put, its key finds its event, and the event's revision its row.
  lemma PutIsFound(db: Db, m: Mutation)
    requires PutArtifact(db, m).Done?
    ensures var (after, result) := (PutArtifact(db, m).db, PutArtifact(db, m).value);
      && m.Valid() && FindByKey(after.events, m.feature, m.key) == Some(result.1) && SameMutation(result.1, m)
      && FindRow(after.artifacts, m.feature, m.kind, result.1.payload.revision) == Some(result.0)
  {
    if FindByKey(db.events, m.feature, m.key).None? {
      NewlyFound(db.events, EventOf(db, m));
      RowNewlyFound(db.artifacts, RowOf(db, m));
    }
  }

  lemma FoundLater(db: Db, later: Db, m: Mutation, row: Row, event: Event)
    requires m.Valid() && FindByKey(db.events, m.feature, m.key) == Some(event) && SameMutation(event, m)
    requires FindRow(db.artifacts, m.feature, m.kind, event.payload.revision) == Some(row)
    requires db.events <= later.events && db.artifacts <= later.artifacts
    ensures PutArtifact(later, m) == Done(later, (row, event))
  {
    FoundStays(db.events, later.events[|db.events|..], m.feature, m.key);
    RowStays(db.artifacts, later.artifacts[|db.artifacts|..], m.feature, m.kind, event.payload.revision);
    assert later.events == db.events + later.events[|db.events|..];
    assert later.artifacts == db.artifacts + later.artifacts[|db.artifacts|..];
  }

  /** A put that is repeated, at any later state, returns the revision and the event it first made,
      and changes nothing. */
  lemma PutReplays(run: Run, k: nat, n: nat)
    requires run.Valid() && k < n < |run.dbs| && run.steps[k].Put?
    requires PutArtifact(run.dbs[k], run.steps[k].mutation).Done?
    ensures PutArtifact(run.dbs[n], run.steps[k].mutation) == Done(run.dbs[n], PutArtifact(run.dbs[k], run.steps[k].mutation).value)
  {
    var m := run.steps[k].mutation;
    assert Next(run.dbs[k], run.steps[k], run.dbs[k + 1]);
    PutIsFound(run.dbs[k], m);
    RunAppends(run, k + 1, n);
    var result := PutArtifact(run.dbs[k], m).value;
    FoundLater(run.dbs[k + 1], run.dbs[n], m, result.0, result.1);
  }

  /** So does an accepted goal that is repeated. */
  lemma AcceptReplays(run: Run, k: nat, n: nat)
    requires run.Valid() && k < n < |run.dbs| && run.steps[k].Accept?
    requires AcceptGoal(run.dbs[k], run.steps[k].acceptance).Done?
    ensures AcceptGoal(run.dbs[n], run.steps[k].acceptance) == Done(run.dbs[n], AcceptGoal(run.dbs[k], run.steps[k].acceptance).value)
  {
    var a, db, later := run.steps[k].acceptance, run.dbs[k + 1], run.dbs[n];
    assert Next(run.dbs[k], run.steps[k], db);
    if FindByKey(run.dbs[k].events, a.feature, a.key).None? { NewlyFound(run.dbs[k].events, GoalEvent(run.dbs[k], a)); }
    RunAppends(run, k + 1, n);
    FoundStays(db.events, later.events[|db.events|..], a.feature, a.key);
    assert later.events == db.events + later.events[|db.events|..];
  }

  /** Getting a document returns its last revision, the row of the last update, in every reachable
      state in which there is one, and otherwise says which is missing. */
  lemma GetReturnsLast(run: Run, n: nat, feature: Id, kind: Kind)
    requires run.Valid() && n < |run.dbs|
    ensures var db := run.dbs[n]; var rows := RowsOf(db.artifacts, feature, kind);
      if rows == [] then GetArtifact(db, feature, kind) == Refused(if feature in db.features then ArtifactNotFound else NotFound)
      else GetArtifact(db, feature, kind) == Done(db, rows[|rows| - 1])
  {
    RevisionsMatchEvents(run, n, feature, kind);
    FindsByRevision(run.dbs[n].artifacts, feature, kind, |RowsOf(run.dbs[n].artifacts, feature, kind)|);
  }

  lemma {:induction false} FindsByRevision(rows: seq<Row>, feature: Id, kind: Kind, revision: nat)
    requires forall i :: 0 <= i < |RowsOf(rows, feature, kind)| ==> RowsOf(rows, feature, kind)[i].revision == i + 1
    ensures FindRow(rows, feature, kind, revision) ==
      if 1 <= revision <= |RowsOf(rows, feature, kind)| then Some(RowsOf(rows, feature, kind)[revision - 1]) else None
  {
    if rows != [] {
      var init, last := rows[..|rows| - 1], rows[|rows| - 1];
      var all := RowsOf(rows, feature, kind);
      assert forall i :: 0 <= i < |RowsOf(init, feature, kind)| ==> all[i] == RowsOf(init, feature, kind)[i];
      FindsByRevision(init, feature, kind, revision);
      assert last.feature == feature && last.kind == kind ==> all[|all| - 1] == last;
      LastRow(init, last, feature, kind, revision);
      assert rows == init + [last];
    }
  }

  lemma {:induction false} LastRow(rows: seq<Row>, last: Row, feature: Id, kind: Kind, revision: nat)
    ensures FindRow(rows + [last], feature, kind, revision) ==
      if FindRow(rows, feature, kind, revision).Some? then FindRow(rows, feature, kind, revision)
      else if last.feature == feature && last.kind == kind && last.revision == revision then Some(last) else None
  {
    if rows != [] {
      assert (rows + [last])[1..] == rows[1..] + [last];
      LastRow(rows[1..], last, feature, kind, revision);
    }
  }
}
