/** The log of session events: whichever steps write it, each session's events are numbered from
    one without a gap, and an event appended again is the one there is. */
module SessionEvents {
  import opened Options
  import opened ExecutionTables
  import opened Transactions
  import opened InterventionRuns
  import opened Interventions

  function EventsIn(events: seq<SessionEvent>, session: Id): seq<SessionEvent> {
    if events == [] then []
    else
      var before, last := EventsIn(events[..|events| - 1], session), events[|events| - 1];
      if last.sessionId == session then before + [last] else before
  }

  ghost predicate Numbered(events: seq<SessionEvent>, session: Id) {
    forall i :: 0 <= i < |EventsIn(events, session)| ==> EventsIn(events, session)[i].sequence == i + 1
  }

  ghost predicate Gapless(events: seq<SessionEvent>) { forall session :: Numbered(events, session) }

  lemma {:induction false} NextIsCount(events: seq<SessionEvent>, session: Id)
    requires Numbered(events, session)
    ensures NextSequence(events, session) == |EventsIn(events, session)| + 1
  {
    if events != [] {
      var init, last := events[..|events| - 1], events[|events| - 1];
      var all := EventsIn(events, session);
      assert forall i :: 0 <= i < |EventsIn(init, session)| ==> all[i] == EventsIn(init, session)[i];
      NextIsCount(init, session);
      assert last.sessionId == session ==> all[|all| - 1] == last;
    }
  }

  lemma NextKeepsGapless(events: seq<SessionEvent>, event: SessionEvent)
    requires Gapless(events) && event.sequence == NextSequence(events, event.sessionId)
    ensures Gapless(events + [event])
  {
    assert (events + [event])[..|events|] == events;
    forall session ensures Numbered(events + [event], session) {
      assert Numbered(events, session);
      NextIsCount(events, event.sessionId);
    }
  }

  // Only queueing an intervention and appending write the log.
  lemma StepWrites(d: Tables, step: Step)
    requires Apply(d, step).Done?
    ensures var events := Apply(d, step).after.events;
      || events == d.events
      || exists event :: events == d.events + [event] && event.sequence == NextSequence(d.events, event.sessionId)
  {
    var events := Apply(d, step).after.events;
    if step.Queue? || step.Append? {
      var event := events[|d.events|];
      assert events == d.events + [event] && event.sequence == NextSequence(d.events, event.sessionId);
    }
  }

  lemma {:induction false} LogStaysGapless(trace: Trace, n: nat)
    requires trace.Valid() && n < |trace.worlds| && Gapless(trace.worlds[0].db.events)
    ensures Gapless(trace.worlds[n].db.events)
  {
    if n > 0 {
      LogStaysGapless(trace, n - 1);
      var w, step, v := trace.worlds[n - 1], trace.steps[n - 1], trace.worlds[n];
      assert Next(w, step, v);
      if Apply(w.db, step).Done? {
        StepWrites(w.db, step);
        if v.db.events != w.db.events {
          var event :| v.db.events == w.db.events + [event] && event.sequence == NextSequence(w.db.events, event.sessionId);
          NextKeepsGapless(w.db.events, event);
        }
      }
    }
  }

  /** However interventions and other events interleave, a session's events are numbered one, two,
      three and on, in the order they were stored. */
  lemma EventsNumbered(trace: Trace, n: nat, session: Id, i: nat)
    requires trace.Valid() && n < |trace.worlds| && Gapless(trace.worlds[0].db.events)
    requires i < |EventsIn(trace.worlds[n].db.events, session)|
    ensures EventsIn(trace.worlds[n].db.events, session)[i].sequence == i + 1
    ensures NextSequence(trace.worlds[n].db.events, session) == |EventsIn(trace.worlds[n].db.events, session)| + 1
  {
    LogStaysGapless(trace, n);
    assert Numbered(trace.worlds[n].db.events, session);
    NextIsCount(trace.worlds[n].db.events, session);
  }

  lemma {:induction false} FoundStays(events: seq<SessionEvent>, event: SessionEvent, id: EventId)
    ensures FindEvent(events + [event], id) ==
      if FindEvent(events, id).Some? then FindEvent(events, id) else if event.id == id then Some(event) else None
  {
    if events != [] {
      assert (events + [event])[1..] == events[1..] + [event];
      FoundStays(events[1..], event, id);
    }
  }

  lemma {:induction false} EventStays(trace: Trace, m: nat, n: nat, id: EventId)
    requires trace.Valid() && m <= n < |trace.worlds| && FindEvent(trace.worlds[m].db.events, id).Some?
    ensures FindEvent(trace.worlds[n].db.events, id) == FindEvent(trace.worlds[m].db.events, id)
  {
    if m < n {
      EventStays(trace, m, n - 1, id);
      var w, step, v := trace.worlds[n - 1], trace.steps[n - 1], trace.worlds[n];
      assert Next(w, step, v);
      if Apply(w.db, step).Done? {
        StepWrites(w.db, step);
        if v.db.events != w.db.events {
          var event :| v.db.events == w.db.events + [event] && event.sequence == NextSequence(w.db.events, event.sessionId);
          FoundStays(w.db.events, event, id);
        }
      }
    }
  }

  /** An event that was appended is answered as a repeat at any later state, and changes nothing. */
  lemma AppendReplays(trace: Trace, m: nat, n: nat)
    requires trace.Valid() && m < n < |trace.worlds| && trace.steps[m].Append?
    requires AppendEvent(trace.worlds[m].db, trace.steps[m].pending).Done?
    ensures AppendEvent(trace.worlds[n].db, trace.steps[m].pending) == Repeat
  {
    var d, p := trace.worlds[m].db, trace.steps[m].pending;
    assert Next(trace.worlds[m], trace.steps[m], trace.worlds[m + 1]);
    FoundStays(d.events, SessionEvent(p.id, p.sessionId, NextSequence(d.events, p.sessionId), p.fromUser, p.text), p.id);
    EventStays(trace, m + 1, n, p.id);
  }
}
