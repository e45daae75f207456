/** What becomes of a turn that fails: it is retried twice at most, when it is due, and then it is the
    user's to retry. */
module TurnRetries {
  import opened Options
  import opened Turns
  import opened TurnHistory
  import opened TurnPrompts

  function Tries(r: Record): nat { if r.retry.Some? then r.retry.value.count else 0 }

  // A failure that no retry is left for, or that none can help.
  predicate Plain(r: Record, op: Op) { op.Fail? && (op.kind.Final? || Tries(r) >= 2) }

  // How long a failed turn waits: no time for a reply to correct, else five seconds and then thirty.
  function WaitAfter(r: Record, kind: Failure): int {
    match kind
    case Correctable => 0
    case _ => if Tries(r) == 0 then 5 else 30
  }

  /** A failed turn waits for its next retry, running on as it was, or it ends as failed with a note
      that says so, and nothing waits. */
  lemma FailedTurn(r: Record, op: Op)
    requires op.Fail?
    ensures var s := Applied(r, op);
      && s.lastTurn == r.lastTurn && s.turn == r.turn
      && if Plain(r, op) then !s.running && s.failed && s.retry.None? && s.lines == r.lines + [Line(Note, op.reason)]
         else s.running && s.failed == r.failed && s.lines == r.lines && s.retry.Some? && s.retry.value.count == Tries(r) + 1
              && s.retry.value.due == Some(op.at + WaitAfter(r, op.kind)) && (s.retry.value.corrects <==> op.kind.Correctable?)
  {
  }

  // Any other operation starts a turn with a clean slate, does a due retry once, or ends the turn.
  lemma OtherRetry(r: Record, op: Op)
    requires !op.Fail?
    ensures var s := Applied(r, op);
      && (Starts(r, op) && !op.RetryDue? ==> s.retry.None? && !s.failed)
      && (Starts(r, op) && op.RetryDue? ==> s.retry == Some(r.retry.value.(due := None)) && s.failed == r.failed && s.lines == r.lines)
      && (!Starts(r, op) ==> s.failed == r.failed && s.retry == if op.End? && !op.ending.LoginFailed? then None else r.retry)
      && (op.End? ==> !s.running) && (!Starts(r, op) && !op.End? ==> s.running == r.running)
  {
  }

  /** A turn that ends says so in the conversation: with the reply, or with a note. */
  lemma EndedTurn(r: Record, ending: Ending)
    ensures var s := Applied(r, End(ending));
      match ending
      case Replied(text) => s.lines == r.lines + [Line(Assistant, text)]
      case LoginFailed(note) => s.lines == r.lines + (if note == None then [] else [Line(Note, note.value)])
      case LimitReached(text) => s.lines == r.lines + [Line(Note, text)]
  {
  }

  /** What is observed is noted, all of it and in order. */
  lemma {:induction false} EventsNoted(events: seq<Observed>)
    ensures |NotesOf(events)| == |events| && forall i :: 0 <= i < |events| ==> NotesOf(events)[i] == Line(Note, events[i].text)
  {
    if events != [] { EventsNoted(events[..|events| - 1]); }
  }

  lemma TellNotes(r: Record, events: seq<Observed>, driving: bool)
    ensures var s := Applied(r, Tell(events, driving));
      && |s.lines| == |r.lines| + |events| && s.lines[..|r.lines|] == r.lines
      && forall i :: 0 <= i < |events| ==> s.lines[|r.lines| + i] == Line(Note, events[i].text)
  {
    EventsNoted(events);
  }

  /******* Runs *******/

  // Turns fail and end only while they run, and none starts but as a due retry.
  ghost predicate OneTurn(run: ChatRun, m: nat, n: nat)
    requires n <= |run.ops| == |run.records| - 1
  {
    forall k :: m <= k < n ==>
      (run.ops[k].Fail? || run.ops[k].End? ==> run.records[k].running) && (Starts(run.records[k], run.ops[k]) ==> run.ops[k].RetryDue?)
  }

  function DueRetries(run: ChatRun, m: nat, n: nat): nat
    requires m <= n <= |run.ops| == |run.records| - 1
  {
    if m == n then 0
    else DueRetries(run, m, n - 1) + if run.ops[n - 1].RetryDue? && Starts(run.records[n - 1], run.ops[n - 1]) then 1 else 0
  }

  // Each retry done or due was counted, up to two.
  predicate Counted(r: Record, done: nat) {
    if r.retry.None? then done <= 2 && (r.running ==> done == 0)
    else done + (if r.retry.value.due.Some? then 1 else 0) <= r.retry.value.count <= 2
  }

  lemma StepCounts(r: Record, op: Op, done: nat)
    requires Counted(r, done) && (op.Fail? || op.End? ==> r.running) && (Starts(r, op) ==> op.RetryDue?)
    ensures Counted(Applied(r, op), done + if Starts(r, op) then 1 else 0)
  {
    if op.Fail? { FailedTurn(r, op); } else { OtherRetry(r, op); }
  }

  lemma {:induction false} RetriesCounted(run: ChatRun, m: nat, n: nat)
    requires run.Valid() && m <= n < |run.records| && run.records[m].retry.None? && OneTurn(run, m, n)
    ensures Counted(run.records[n], DueRetries(run, m, n))
  {
    if m < n {
      RetriesCounted(run, m, n - 1);
      assert run.StepOk(n - 1);
      StepCounts(run.records[n - 1], run.ops[n - 1], DueRetries(run, m, n - 1));
    }
  }

  /** A turn is retried by itself twice at most, however it fails, and a third failure ends it: from
      when it started until another one does. */
  lemma RetriedTwice(run: ChatRun, m: nat, n: nat)
    requires run.Valid() && m < n < |run.records| && Starts(run.records[m], run.ops[m]) && !run.ops[m].RetryDue? && OneTurn(run, m + 1, n)
    ensures DueRetries(run, m + 1, n) <= 2
    ensures DueRetries(run, m + 1, n) == 2 && n < |run.ops| && run.ops[n].Fail? && run.records[n].running ==>
      run.records[n + 1].failed && !run.records[n + 1].running && run.records[n + 1].retry.None?
  {
    assert run.StepOk(m);
    OtherRetry(run.records[m], run.ops[m]);
    RetriesCounted(run, m + 1, n);
    if n < |run.ops| && run.ops[n].Fail? {
      assert run.StepOk(n);
      FailedTurn(run.records[n], run.ops[n]);
    }
  }

  ghost predicate Undisturbed(run: ChatRun, m: nat, n: nat)
    requires n <= |run.ops| == |run.records| - 1
  {
    forall k :: m <= k < n ==> !run.ops[k].Fail? && !run.ops[k].End? && !Starts(run.records[k], run.ops[k])
  }

  lemma {:induction false} RetryStays(run: ChatRun, m: nat, n: nat)
    requires run.Valid() && m <= n < |run.records| && Undisturbed(run, m, n)
    ensures run.records[n].retry == run.records[m].retry
  {
    if m < n {
      RetryStays(run, m, n - 1);
      assert run.StepOk(n - 1);
      OtherRetry(run.records[n - 1], run.ops[n - 1]);
    }
  }

  /** A retry comes no sooner than its wait after the failure: at once for a reply to correct, five
      seconds after a first failure of the service and thirty after a second; and from then on it
      may come. */
  lemma RetryWaits(run: ChatRun, m: nat, n: nat)
    requires run.Valid() && m < n < |run.ops| && run.ops[m].Fail? && !Plain(run.records[m], run.ops[m]) && Undisturbed(run, m + 1, n)
    requires run.ops[n].RetryDue?
    ensures Starts(run.records[n], run.ops[n]) <==>
      run.records[n].lastTurn.Some? && run.ops[n].now >= run.ops[m].at + WaitAfter(run.records[m], run.ops[m].kind)
  {
    assert run.StepOk(m);
    FailedTurn(run.records[m], run.ops[m]);
    RetryStays(run, m + 1, n);
  }
}
