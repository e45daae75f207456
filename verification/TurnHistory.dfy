/** Every run of a chat's operations keeps each accepted message once, and in order. */
module TurnHistory {
  import opened Options
  import opened Turns

  datatype Op =
    | Send(text: string, key: string)
    | StartWaiting
    | Fail(kind: Failure, reason: string, at: int)
    | RetryDue(now: int)
    | RetryAsked
    | RetrySignIn(mayTry: bool)
    | Tell(events: seq<Observed>, driving: bool)
    | End(ending: Ending)

  // An operation that finds nothing to do leaves the record as it is.
  function Applied(r: Record, op: Op): Record {
    match op
    case Send(text, key) => SentTo(r, text, key)
    case StartWaiting => if Waits(r) then StartedWaiting(r) else r
    case Fail(kind, reason, at) => Failed(r, kind, reason, at)
    case RetryDue(now) => if RetryIsDue(r, now) then RetriedDue(r) else r
    case RetryAsked => if !r.running && r.failed && r.lastTurn.Some? then Retried(r, RetryTurn(r.turn + 1)) else r
    case RetrySignIn(mayTry) =>
      if r.waitsForSignIn && !r.running && r.lastTurn.Some? && mayTry then Retried(r, SignedIn(r.turn + 1)) else r
    case Tell(events, driving) => ToldOf(r, events, driving)
    case End(ending) => Ended(r, ending)
  }

  /******* Messages *******/

  function UserTexts(lines: seq<Line>): seq<string> {
    if lines == [] then []
    else UserTexts(lines[..|lines| - 1]) + if lines[|lines| - 1].author.User? then [lines[|lines| - 1].text] else []
  }

  // The messages a chat holds: those in the conversation, and those that wait.
  function Messages(r: Record): multiset<string> { multiset(UserTexts(r.lines)) + multiset(r.queued) }

  predicate Accepts(r: Record, op: Op) { op.Send? && Sent(op.key) !in r.keys }

  lemma {:induction false} UserTextsPlus(a: seq<Line>, b: seq<Line>)
    ensures UserTexts(a + b) == UserTexts(a) + UserTexts(b)
  {
    if b == [] {
      assert a + b == a;
    } else {
      UserTextsPlus(a, b[..|b| - 1]);
      assert (a + b)[..|a + b| - 1] == a + b[..|b| - 1];
    }
  }

  lemma {:induction false} TextsOfUserLines(texts: seq<string>)
    ensures UserTexts(UserLines(texts)) == texts
  {
    if texts != [] {
      var n := |texts| - 1;
      TextsOfUserLines(texts[..n]);
      assert UserLines(texts)[..n] == UserLines(texts[..n]);
    }
  }

  lemma {:induction false} NotesSayNothing(events: seq<Observed>)
    ensures UserTexts(NotesOf(events)) == []
  {
    if events != [] {
      NotesSayNothing(events[..|events| - 1]);
      UserTextsPlus(NotesOf(events[..|events| - 1]), [Line(Note, events[|events| - 1].text)]);
      assert UserTexts([Line(Note, events[|events| - 1].text)]) == [];
    }
  }

  lemma OneLine(lines: seq<Line>, line: Line)
    ensures UserTexts(lines + [line]) == UserTexts(lines) + if line.author.User? then [line.text] else []
  {
    assert (lines + [line])[..|lines|] == lines;
  }

  // What an operation accepts, adds to the conversation, puts in the queue, and takes off it.
  function AcceptedBy(r: Record, op: Op): seq<string> { if Accepts(r, op) then [op.text] else [] }

  predicate Drains(r: Record, op: Op) { op.StartWaiting? && Waits(r) }

  function DrainedBy(r: Record, op: Op): seq<string> { if Drains(r, op) then r.queued else [] }

  function QueuedBy(r: Record, op: Op): seq<string> { if r.running then AcceptedBy(r, op) else [] }

  function AddedBy(r: Record, op: Op): seq<string> { if r.running then [] else AcceptedBy(r, op) + DrainedBy(r, op) }

  predicate TextsMoved(r: Record, op: Op, s: Record) {
    && UserTexts(s.lines) == UserTexts(r.lines) + AddedBy(r, op)
    && s.queued == if Drains(r, op) then [] else r.queued + QueuedBy(r, op)
  }

  lemma TextsStay(r: Record, op: Op, s: Record)
    requires AddedBy(r, op) == [] && QueuedBy(r, op) == [] && !Drains(r, op)
    requires UserTexts(s.lines) == UserTexts(r.lines) && s.queued == r.queued
    ensures TextsMoved(r, op, s)
  {
  }

  lemma SentTexts(r: Record, text: string, key: string)
    ensures TextsMoved(r, Send(text, key), SentTo(r, text, key))
  {
    OneLine(r.lines, Line(User, text));
    if !Accepts(r, Send(text, key)) { TextsStay(r, Send(text, key), r); }
  }

  lemma WaitingTexts(r: Record)
    requires Waits(r)
    ensures TextsMoved(r, StartWaiting, StartedWaiting(r))
  {
    UserTextsPlus(r.lines, UserLines(r.queued));
    TextsOfUserLines(r.queued);
    if r.queued == [] { assert UserTexts(r.lines) + [] == UserTexts(r.lines); }
  }

  lemma FailedTexts(r: Record, op: Op)
    requires op.Fail?
    ensures TextsMoved(r, op, Applied(r, op))
  {
    OneLine(r.lines, Line(Note, op.reason));
    TextsStay(r, op, Applied(r, op));
  }

  // What is done again says nothing new.
  lemma AgainTexts(r: Record, op: Op)
    requires op.RetryDue? || op.RetryAsked? || op.RetrySignIn?
    ensures TextsMoved(r, op, Applied(r, op))
  {
    TextsStay(r, op, Applied(r, op));
  }

  lemma ToldTexts(r: Record, op: Op)
    requires op.Tell?
    ensures TextsMoved(r, op, Applied(r, op))
  {
    UserTextsPlus(r.lines, NotesOf(op.events));
    NotesSayNothing(op.events);
    TextsStay(r, op, Applied(r, op));
  }

  lemma EndedTexts(r: Record, op: Op)
    requires op.End?
    ensures TextsMoved(r, op, Applied(r, op))
  {
    assert UserTexts(Applied(r, op).lines) == UserTexts(r.lines) by {
      match op.ending {
        case Replied(text) => OneLine(r.lines, Line(Assistant, text));
        case LoginFailed(note) => if note.Some? { OneLine(r.lines, Line(Note, note.value)); } else { assert r.lines + [] == r.lines; }
        case LimitReached(text) => OneLine(r.lines, Line(Note, text));
      }
    }
    TextsStay(r, op, Applied(r, op));
  }

  // What each operation does to the conversation and the queue.
  lemma OpTexts(r: Record, op: Op)
    ensures TextsMoved(r, op, Applied(r, op))
  {
    match op {
      case Send(text, key) => SentTexts(r, text, key);
      case StartWaiting => if Waits(r) { WaitingTexts(r); } else { TextsStay(r, op, r); }
      case Fail(_, _, _) => FailedTexts(r, op);
      case Tell(_, _) => ToldTexts(r, op);
      case End(_) => EndedTexts(r, op);
      case _ => AgainTexts(r, op);
    }
  }

  // The same, as the messages the chat holds.
  lemma OpMessages(r: Record, op: Op, s: Record)
    requires TextsMoved(r, op, s)
    ensures Messages(s) == Messages(r) + multiset(AcceptedBy(r, op))
  {
    assert r.queued + [] == r.queued && UserTexts(r.lines) + [] == UserTexts(r.lines);
    if Accepts(r, op) {
      assert AcceptedBy(r, op) == [op.text] && DrainedBy(r, op) == [];
      assert [op.text] + [] == [op.text];
    } else if Drains(r, op) {
      assert [] + r.queued == r.queued;
    }
  }

  lemma OpKeys(r: Record, op: Op)
    ensures r.keys.Keys <= Applied(r, op).keys.Keys
    ensures Accepts(r, op) ==> Sent(op.key) in Applied(r, op).keys
  {
  }

  /** A repeated key adds nothing, whatever the chat did since. */
  lemma RepeatedKeyAddsNothing(run: ChatRun, m: nat, n: nat, text: string)
    requires run.Valid() && m < n < |run.records| && Accepts(run.records[m], run.ops[m])
    ensures Applied(run.records[n], Send(text, run.ops[m].key)) == run.records[n]
  {
    KeysStay(run, m, n);
  }

  datatype ChatRun = ChatRun(records: seq<Record>, ops: seq<Op>)
  {
    predicate StepOk(i: nat)
      requires i < |ops| && |records| == |ops| + 1
    {
      records[i + 1] == Applied(records[i], ops[i])
    }

    predicate Valid() { |records| == |ops| + 1 && forall i :: 0 <= i < |ops| ==> StepOk(i) }
  }

  lemma {:induction false} KeysStay(run: ChatRun, m: nat, n: nat)
    requires run.Valid() && m < n < |run.records| && Accepts(run.records[m], run.ops[m])
    ensures Sent(run.ops[m].key) in run.records[n].keys
    decreases n
  {
    assert run.StepOk(n - 1);
    OpKeys(run.records[n - 1], run.ops[n - 1]);
    if m < n - 1 { KeysStay(run, m, n - 1); }
  }

  // The messages accepted in the first n operations; those queued; and those taken off the queue.
  function AcceptedIn(run: ChatRun, n: nat): seq<string>
    requires n <= |run.ops| == |run.records| - 1
  {
    if n == 0 then [] else AcceptedIn(run, n - 1) + AcceptedBy(run.records[n - 1], run.ops[n - 1])
  }

  function QueuedIn(run: ChatRun, n: nat): seq<string>
    requires n <= |run.ops| == |run.records| - 1
  {
    if n == 0 then run.records[0].queued else QueuedIn(run, n - 1) + QueuedBy(run.records[n - 1], run.ops[n - 1])
  }

  function DrainedIn(run: ChatRun, n: nat): seq<string>
    requires n <= |run.ops| == |run.records| - 1
  {
    if n == 0 then [] else DrainedIn(run, n - 1) + DrainedBy(run.records[n - 1], run.ops[n - 1])
  }

  // A turn for what waited puts the whole queue at the end of the conversation, in its order.
  lemma RunTexts(run: ChatRun, n: nat)
    requires run.Valid() && 0 < n < |run.records|
    ensures TextsMoved(run.records[n - 1], run.ops[n - 1], run.records[n])
  {
    assert run.StepOk(n - 1);
    OpTexts(run.records[n - 1], run.ops[n - 1]);
  }

  lemma BothCounted(a: seq<string>, b: seq<string>)
    ensures multiset(a + b) == multiset(a) + multiset(b)
  {
  }

  /** Every accepted message is kept exactly once: a chat's user messages and its queued ones are
      those it began with and those accepted since. */
  lemma {:induction false} MessagesKeptOnce(run: ChatRun, n: nat)
    requires run.Valid() && n < |run.records|
    ensures Messages(run.records[n]) == Messages(run.records[0]) + multiset(AcceptedIn(run, n))
  {
    if n > 0 {
      MessagesKeptOnce(run, n - 1);
      RunTexts(run, n);
      OpMessages(run.records[n - 1], run.ops[n - 1], run.records[n]);
      BothCounted(AcceptedIn(run, n - 1), AcceptedBy(run.records[n - 1], run.ops[n - 1]));
    }
  }

  lemma QueueMoves(inAll: seq<string>, outAll: seq<string>, before: seq<string>, enters: seq<string>, leaves: seq<string>, after: seq<string>)
    requires inAll == outAll + before && before + enters == leaves + after
    ensures inAll + enters == (outAll + leaves) + after
  {
    assert inAll + enters == outAll + (before + enters);
  }

  /** Queued messages leave the queue in the order they were queued. */
  lemma {:induction false} QueueDrainsInOrder(run: ChatRun, n: nat)
    requires run.Valid() && n < |run.records|
    ensures QueuedIn(run, n) == DrainedIn(run, n) + run.records[n].queued
  {
    if n > 0 {
      var r, op := run.records[n - 1], run.ops[n - 1];
      QueueDrainsInOrder(run, n - 1);
      RunTexts(run, n);
      assert Drains(r, op) ==> r.queued + QueuedBy(r, op) == r.queued + [];
      assert !Drains(r, op) ==> [] + run.records[n].queued == run.records[n].queued;
      QueueMoves(QueuedIn(run, n - 1), DrainedIn(run, n - 1), r.queued, QueuedBy(r, op), DrainedBy(r, op), run.records[n].queued);
    }
  }
}
