/** A work order's documents: the table of their revisions and the log of workflow events, which
    each transaction writes together. */
module Artifacts {
  import opened Options

  // Identifiers and times are counted from one; zero stands for a missing one.
  type Id = nat

  datatype Kind = GoalDraft | ImplementationPlan | AcceptanceTests | HandoffBrief

  // A digest names the document it is of, and no other.
  datatype Digest = Sha256(document: string)

  datatype State = Ready | AnotherState

  datatype Feature = Feature(state: State, goal: string, acceptedAt: nat)

  datatype Row = Row(feature: Id, kind: Kind, revision: nat, document: string, actor: Id, at: nat)

  datatype Payload =
    | ArtifactUpdated(kind: Kind, revision: nat, expected: nat, digest: Digest)
    | GoalAccepted(goal: string, session: Id)
    | OtherPayload(text: string)

  datatype Event = Event(id: Id, feature: Id, sequence: nat, actor: Id, key: Id, at: nat, payload: Payload)

  // The rows stand in the order they were inserted.
  datatype Db = Db(features: map<Id, Feature>, artifacts: seq<Row>, events: seq<Event>)

  datatype Error = Invalid | NotFound | ArtifactNotFound | ArtifactConflict | IdempotencyConflict | GoalNotAllowed | Storage

  datatype Outcome<T> = Done(db: Db, value: T) | Refused(error: Error)

  function DbAfter<T>(db: Db, outcome: Outcome<T>): Db { if outcome.Done? then outcome.db else db }

  datatype Mutation = Mutation(
    event: Id, feature: Id, kind: Kind, expected: nat, document: string, digest: Digest, actor: Id, at: nat, key: Id)
  {
    predicate Valid() {
      event != 0 && feature != 0 && digest == Sha256(document) && actor != 0 && at != 0 && key != 0
    }
  }

  datatype Acceptance = Acceptance(event: Id, feature: Id, session: Id, goal: string, actor: Id, at: nat, key: Id)
  {
    predicate Valid() {
      event != 0 && feature != 0 && session != 0 && goal != "" && actor != 0 && at != 0 && key != 0
    }
  }

  /******* Queries *******/

  function FindByKey(events: seq<Event>, feature: Id, key: Id): Option<Event> {
    if events == [] then None
    else if events[0].feature == feature && events[0].key == key then Some(events[0])
    else FindByKey(events[1..], feature, key)
  }

  function FindRow(rows: seq<Row>, feature: Id, kind: Kind, revision: nat): Option<Row> {
    if rows == [] then None
    else if rows[0].feature == feature && rows[0].kind == kind && rows[0].revision == revision then Some(rows[0])
    else FindRow(rows[1..], feature, kind, revision)
  }

  // COALESCE(MAX(revision), 0)
  function MaxRevision(rows: seq<Row>, feature: Id, kind: Kind): nat {
    if rows == [] then 0
    else
      var before, last := MaxRevision(rows[..|rows| - 1], feature, kind), rows[|rows| - 1];
      if last.feature == feature && last.kind == kind && last.revision > before then last.revision else before
  }

  // COALESCE(MAX(sequence), 0)
  function MaxSequence(events: seq<Event>, feature: Id): nat {
    if events == [] then 0
    else
      var before, last := MaxSequence(events[..|events| - 1], feature), events[|events| - 1];
      if last.feature == feature && last.sequence > before then last.sequence else before
  }

  // What the table of events does not take: an ID, a sequence or a key that is there already.
  predicate Clashes(events: seq<Event>, event: Event) {
    exists i :: 0 <= i < |events| && (events[i].id == event.id
      || (events[i].feature == event.feature && (events[i].sequence == event.sequence || events[i].key == event.key)))
  }

  predicate SameMutation(event: Event, m: Mutation) {
    && event.payload.ArtifactUpdated? && event.actor == m.actor && event.payload.kind == m.kind
    && event.payload.expected == m.expected && event.payload.digest == m.digest
  }

  predicate SameAcceptance(event: Event, a: Acceptance) {
    && event.payload.GoalAccepted? && event.actor == a.actor && event.payload.goal == a.goal && event.payload.session == a.session
  }

  /******* Transactions *******/

  function RowOf(db: Db, m: Mutation): Row {
    Row(m.feature, m.kind, MaxRevision(db.artifacts, m.feature, m.kind) + 1, m.document, m.actor, m.at)
  }

  function EventOf(db: Db, m: Mutation): Event {
    Event(m.event, m.feature, MaxSequence(db.events, m.feature) + 1, m.actor, m.key, m.at,
          ArtifactUpdated(m.kind, MaxRevision(db.artifacts, m.feature, m.kind) + 1, m.expected, m.digest))
  }

  function PutArtifact(db: Db, m: Mutation): Outcome<(Row, Event)> {
    var existing := FindByKey(db.events, m.feature, m.key);
    if !m.Valid() then Refused(Invalid)
    else if existing.Some? then
      if !SameMutation(existing.value, m) then Refused(IdempotencyConflict)
      else
        var row := FindRow(db.artifacts, m.feature, m.kind, existing.value.payload.revision);
        if row.Some? then Done(db, (row.value, existing.value)) else Refused(Storage)
    else if m.feature !in db.features then Refused(NotFound)
    else if MaxRevision(db.artifacts, m.feature, m.kind) != m.expected then Refused(ArtifactConflict)
    else if Clashes(db.events, EventOf(db, m)) then Refused(Storage)
    else Done(db.(artifacts := db.artifacts + [RowOf(db, m)], events := db.events + [EventOf(db, m)]), (RowOf(db, m), EventOf(db, m)))
  }

  function GoalEvent(db: Db, a: Acceptance): Event {
    Event(a.event, a.feature, MaxSequence(db.events, a.feature) + 1, a.actor, a.key, a.at, GoalAccepted(a.goal, a.session))
  }

  function AcceptGoal(db: Db, a: Acceptance): Outcome<Event> {
    var existing := FindByKey(db.events, a.feature, a.key);
    if !a.Valid() then Refused(Invalid)
    else if existing.Some? then
      if SameAcceptance(existing.value, a) then Done(db, existing.value) else Refused(IdempotencyConflict)
    else if a.feature !in db.features || !db.features[a.feature].state.Ready? || db.features[a.feature].goal != ""
            || db.features[a.feature].acceptedAt != 0 then Refused(GoalNotAllowed)
    else if Clashes(db.events, GoalEvent(db, a)) then Refused(Storage)
    else Done(db.(features := db.features[a.feature := db.features[a.feature].(goal := a.goal, acceptedAt := a.at)],
                  events := db.events + [GoalEvent(db, a)]), GoalEvent(db, a))
  }

  function GetArtifact(db: Db, feature: Id, kind: Kind): Outcome<Row> {
    var row := FindRow(db.artifacts, feature, kind, MaxRevision(db.artifacts, feature, kind));
    if row.Some? then Done(db, row.value)
    else if feature !in db.features then Refused(NotFound) else Refused(ArtifactNotFound)
  }

  /** The store: each transaction reads, then inserts its rows one after the other. */
  class WorkflowStore {
    var features: map<Id, Feature>
    var artifacts: seq<Row>
    var events: seq<Event>

    function Value(): Db
      reads this
    {
      Db(features, artifacts, events)
    }

    method Rollback(begun: Db)
      modifies this
      ensures Value() == begun
    {
      features, artifacts, events := begun.features, begun.artifacts, begun.events;
    }

    method InsertEvent(event: Event) returns (inserted: bool)
      modifies this`events
      ensures inserted == !Clashes(old(events), event)
      ensures events == if inserted then old(events) + [event] else old(events)
    {
      if Clashes(events, event) { return false; }
      events := events + [event];
      return true;
    }

    method PutFeatureArtifact(m: Mutation) returns (result: Outcome<(Row, Event)>)
      modifies this
      ensures result == PutArtifact(old(Value()), m) && Value() == DbAfter(old(Value()), result)
    {
      if !m.Valid() { return Refused(Invalid); }
      var begun := Value();
      var existing := FindByKey(events, m.feature, m.key);
      if existing.Some? {
        var event := existing.value;
        if !event.payload.ArtifactUpdated? || event.actor != m.actor || event.payload.kind != m.kind
           || event.payload.expected != m.expected || event.payload.digest != m.digest {
          return Refused(IdempotencyConflict);
        }
        var row := FindRow(artifacts, m.feature, m.kind, event.payload.revision);
        if row.None? { return Refused(Storage); }
        return Done(Value(), (row.value, event));
      }
      if m.feature !in features { return Refused(NotFound); }
      var current := MaxRevision(artifacts, m.feature, m.kind);
      if current != m.expected { return Refused(ArtifactConflict); }
      var row := Row(m.feature, m.kind, current + 1, m.document, m.actor, m.at);
      artifacts := artifacts + [row];
      var sequence := MaxSequence(events, m.feature) + 1;
      var event := Event(m.event, m.feature, sequence, m.actor, m.key, m.at, ArtifactUpdated(m.kind, current + 1, m.expected, m.digest));
      var inserted := InsertEvent(event);
      if !inserted {
        Rollback(begun);
        return Refused(Storage);
      }
      return Done(Value(), (row, event));
    }

    method AcceptGoalAtStart(a: Acceptance) returns (result: Outcome<Event>)
      modifies this
      ensures result == AcceptGoal(old(Value()), a) && Value() == DbAfter(old(Value()), result)
    {
      if !a.Valid() { return Refused(Invalid); }
      var begun := Value();
      var existing := FindByKey(events, a.feature, a.key);
      if existing.Some? {
        if !SameAcceptance(existing.value, a) { return Refused(IdempotencyConflict); }
        return Done(Value(), existing.value);
      }
      var event := Event(a.event, a.feature, MaxSequence(events, a.feature) + 1, a.actor, a.key, a.at, GoalAccepted(a.goal, a.session));
      if a.feature !in features || !features[a.feature].state.Ready? || features[a.feature].goal != "" || features[a.feature].acceptedAt != 0 {
        return Refused(GoalNotAllowed);
      }
      features := features[a.feature := features[a.feature].(goal := a.goal, acceptedAt := a.at)];
      var inserted := InsertEvent(event);
      if !inserted {
        Rollback(begun);
        return Refused(Storage);
      }
      return Done(Value(), event);
    }

    method GetFeatureArtifact(feature: Id, kind: Kind) returns (result: Outcome<Row>)
      ensures result == GetArtifact(Value(), feature, kind)
    {
      var latest := FindRow(artifacts, feature, kind, MaxRevision(artifacts, feature, kind));
      if latest.Some? { return Done(Value(), latest.value); }
      if feature !in features { return Refused(NotFound); }
      return Refused(ArtifactNotFound);
    }
  }
}
