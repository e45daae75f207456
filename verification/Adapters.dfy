/** The two agents' readers on top of the lines: Claude Code's session, which ends with one
    terminal result, and Codex's client, which answers each request once. */
module Adapters {
  import opened Options
  import opened LineReader

  /******* Claude Code *******/

  // What a record means depends on the session so far; a translation may end the session.
  datatype Translation<T, E, R> = Meaning(events: seq<E>, result: Option<R>, session: T) | Unreadable(session: T)

  datatype Rules<!T, !E, !R> = Rules(
    translate: (T, seq<Byte>) -> Translation<T, E, R>,
    informational: seq<Byte> -> bool,
    room: nat -> bool)

  datatype Session<T, E, R> = Session(translator: T, published: seq<E>, terminal: Option<R>)

  // Events are published until one finds the consumer behind.
  function Published<E>(before: seq<E>, events: seq<E>, room: nat -> bool): (seq<E>, bool)
    decreases |events|
  {
    if events == [] then (before, true)
    else if !room(|before|) then (before, false)
    else Published(before + [events[0]], events[1..], room)
  }

  method Publish<E>(before: seq<E>, events: seq<E>, room: nat -> bool) returns (published: seq<E>, all: bool)
    ensures (published, all) == Published(before, events, room)
  {
    published := before;
    for i := 0 to |events|
      invariant Published(before, events, room) == Published(published, events[i..], room)
    {
      if !room(|published|) { return published, false; }
      published := published + [events[i]];
    }
    return published, true;
  }

  function LineRead<T, E, R>(s: Session<T, E, R>, line: seq<Byte>, rules: Rules<T, E, R>): Reader<Session<T, E, R>> {
    if s.terminal.Some? then
      if rules.informational(line) then Going(s) else Failed(s, false)
    else match rules.translate(s.translator, line)
      case Unreadable(t) => Failed(s.(translator := t), false)
      case Meaning(events, result, t) =>
        var (published, all) := Published(s.published, events, rules.room);
        if all then Going(Session(t, published, result)) else Failed(Session(t, published, None), false)
  }

  method ReadLine<T, E, R>(s: Session<T, E, R>, line: seq<Byte>, rules: Rules<T, E, R>) returns (r: Reader<Session<T, E, R>>)
    ensures r == LineRead(s, line, rules)
  {
    if s.terminal.Some? {
      if rules.informational(line) { return Going(s); }
      return Failed(s, false);
    }
    match rules.translate(s.translator, line) {
      case Unreadable(t) => return Failed(s.(translator := t), false);
      case Meaning(events, result, t) =>
        var published, all := Publish(s.published, events, rules.room);
        if !all { return Failed(Session(t, published, None), false); }
        return Going(Session(t, published, result));
    }
  }

  // The state a reader is in, whether it goes on or not.
  function StateOf<S>(r: Reader<S>): S { if r.Going? then r.state else r.last }

  /** At most one terminal result is accepted: after one, the session and what it published stay
      as they are, and the reader goes on only past blank lines and informational records. */
  lemma {:induction false} TerminalOnce<T, E, R>(s: Session<T, E, R>, lines: seq<seq<Byte>>, rules: Rules<T, E, R>)
    requires s.terminal.Some?
    ensures var r := AllFed(Going(s), lines, (t, line) => LineRead(t, line, rules));
      && StateOf(r) == s
      && (r.Going? <==> forall k :: 0 <= k < |lines| && Trim(lines[k]) != [] ==>
           |Trim(lines[k])| <= MAX_LINE && rules.informational(Trim(lines[k])))
    decreases |lines|
  {
    var handle := (t, line) => LineRead(t, line, rules);
    if lines != [] {
      var next := Fed(Going(s), lines[0], handle);
      if next.Going? {
        TerminalOnce(s, lines[1..], rules);
        assert forall k :: 1 <= k < |lines| ==> lines[k] == lines[1..][k - 1];
      } else {
        FailedStays(next, lines[1..], handle);
      }
    }
  }

  /** What a Claude Code session publishes and ends with depends on its output alone, however the
      output was chunked. */
  lemma SessionIgnoresChunking<T, E, R>(start: T, chunks: seq<Chunk>, others: seq<Chunk>, rules: Rules<T, E, R>)
    requires Stdout(chunks) == Stdout(others) && Fits(Stdout(chunks))
    ensures var handle := (s: Session<T, E, R>, line) => LineRead(s, line, rules);
      var one, other := Read(Session(start, [], None), chunks, handle), Read(Session(start, [], None), others, handle);
      one == other && StateOf(one).published == StateOf(other).published && StateOf(one).terminal == StateOf(other).terminal
  {
    ChunkingDoesNotMatter(Session(start, [], None), chunks, others, (s: Session<T, E, R>, line) => LineRead(s, line, rules));
  }

  /** No prefix of its output is read differently for being chunked differently if and only if every
      line a session comes to is within the limit, or beyond it even without the space around it. */
  lemma SessionChunkingExact<T(!new), E(!new), R(!new)>(start: T, s: seq<Byte>, rules: Rules<T, E, R>)
    ensures var handle := (s: Session<T, E, R>, line) => LineRead(s, line, rules);
      (forall n :: 0 <= n <= |s| ==> ChunkFree(Session(start, [], None), s[..n], handle)) <==> Tidy(Session(start, [], None), s, handle)
  {
    ChunkingExact(Session(start, [], None), s, (s: Session<T, E, R>, line) => LineRead(s, line, rules));
  }

  // The line at k is the one whose result is accepted.
  ghost predicate AcceptsAt<T, E, R>(s: Session<T, E, R>, lines: seq<seq<Byte>>, rules: Rules<T, E, R>, k: int, result: R) {
    var handle := (t, line) => LineRead(t, line, rules);
    0 <= k < |lines| && var before := AllFed(Going(s), lines[..k], handle);
      && before.Going? && before.state.terminal.None?
      && var after := Fed(before, lines[k], handle); after.Going? && after.state.terminal == Some(result)
  }

  predicate PassedOver<T, E, R>(line: seq<Byte>, rules: Rules<T, E, R>) {
    Trim(line) == [] || (|Trim(line)| <= MAX_LINE && rules.informational(Trim(line)))
  }

  ghost predicate ResultAt<T, E, R>(s: Session<T, E, R>, lines: seq<seq<Byte>>, rules: Rules<T, E, R>, k: int, result: R) {
    AcceptsAt(s, lines, rules, k, result) && forall j :: k < j < |lines| ==> PassedOver(lines[j], rules)
  }

  lemma FedInTwo<S>(r: Reader<S>, lines: seq<seq<Byte>>, k: nat, handle: (S, seq<Byte>) -> Reader<S>)
    requires k < |lines|
    ensures AllFed(r, lines, handle) == AllFed(Fed(AllFed(r, lines[..k], handle), lines[k], handle), lines[k + 1..], handle)
  {
    assert lines == lines[..k] + lines[k..];
    AllFedPlus(r, lines[..k], lines[k..], handle);
    assert lines[k..][1..] == lines[k + 1..];
  }

  lemma ResultStays<T, E, R>(s: Session<T, E, R>, lines: seq<seq<Byte>>, rules: Rules<T, E, R>, k: nat, result: R)
    requires AcceptsAt(s, lines, rules, k, result)
    ensures var r := AllFed(Going(s), lines, (t, line) => LineRead(t, line, rules));
      && (r.Going? <==> forall j :: k < j < |lines| ==> PassedOver(lines[j], rules))
      && (r.Going? ==> r.state.terminal == Some(result))
  {
    var handle := (t, line) => LineRead(t, line, rules);
    FedInTwo(Going(s), lines, k, handle);
    var after := Fed(AllFed(Going(s), lines[..k], handle), lines[k], handle);
    TerminalOnce(after.state, lines[k + 1..], rules);
    assert forall j :: k < j < |lines| ==> lines[j] == lines[k + 1..][j - k - 1];
  }

  // A reader that goes on with a result accepted it at some line.
  lemma {:induction false} ResultHasLine<T, E, R>(s: Session<T, E, R>, lines: seq<seq<Byte>>, rules: Rules<T, E, R>, n: nat, result: R) returns (k: nat)
    requires s.terminal.None? && n <= |lines|
    requires var r := AllFed(Going(s), lines[..n], (t, line) => LineRead(t, line, rules)); r.Going? && r.state.terminal == Some(result)
    ensures AcceptsAt(s, lines, rules, k, result)
  {
    var handle := (t, line) => LineRead(t, line, rules);
    assert n > 0 && lines[..n][..n - 1] == lines[..n - 1] && lines[..n][n..] == [];
    FedInTwo(Going(s), lines[..n], n - 1, handle);
    var before := AllFed(Going(s), lines[..n - 1], handle);
    if before.state.terminal.None? { k := n - 1; } else { k := ResultHasLine(s, lines, rules, n - 1, result); }
  }

  /** The lines of a stream lead to a result exactly when one of them, come to before any result,
      gave it, and those after it are blank or informational. */
  lemma ResultFromOneLine<T, E, R>(s: Session<T, E, R>, lines: seq<seq<Byte>>, rules: Rules<T, E, R>, result: R)
    requires s.terminal.None?
    ensures var r := AllFed(Going(s), lines, (t, line) => LineRead(t, line, rules));
      (r.Going? && r.state.terminal == Some(result)) <==> exists k :: ResultAt(s, lines, rules, k, result)
  {
    var handle := (t, line) => LineRead(t, line, rules);
    var r := AllFed(Going(s), lines, handle);
    assert lines[..|lines|] == lines;
    if r.Going? && r.state.terminal == Some(result) {
      var k := ResultHasLine(s, lines, rules, |lines|, result);
      ResultStays(s, lines, rules, k, result);
      assert ResultAt(s, lines, rules, k, result);
    }
    if exists k :: ResultAt(s, lines, rules, k, result) {
      var k :| ResultAt(s, lines, rules, k, result);
      ResultStays(s, lines, rules, k, result);
    }
  }

  // How the process ended, and what the session is completed with: once, in this order of causes.
  datatype Exit = Exit(stopped: bool, waitFailed: bool, code: int)

  datatype Completion<R> = Stopped | Result(result: R) | ProtocolFailed | WaitFailed

  function Completed<T, E, R>(r: Reader<Session<T, E, R>>, exit: Exit, succeeds: R -> bool, valid: R -> bool): Completion<R> {
    if exit.stopped then Stopped
    else if r.Failed? then ProtocolFailed
    else if exit.waitFailed then WaitFailed
    else match r.state.terminal
      case None => ProtocolFailed
      case Some(result) =>
        if (succeeds(result) && exit.code != 0) || !valid(result) then ProtocolFailed else Result(result)
  }

  /** A session completes with a result exactly when one line of its output gave it, nothing but
      blank and informational lines followed, it is a valid one that the exit code bears out, and
      the session was neither stopped nor lost. */
  lemma CompletesWithTerminal<T, E, R>(start: T, chunks: seq<Chunk>, rules: Rules<T, E, R>, exit: Exit, succeeds: R -> bool,
                                       valid: R -> bool, result: R)
    requires Fits(Stdout(chunks))
    ensures var s := Session(start, [], None);
      Completed(Read(s, chunks, (t, line) => LineRead(t, line, rules)), exit, succeeds, valid) == Result(result) <==>
        && !exit.stopped && !exit.waitFailed && valid(result) && (succeeds(result) ==> exit.code == 0)
        && exists k :: ResultAt(s, AllLines(Stdout(chunks)), rules, k, result)
  {
    ReadIsAllLines(Session(start, [], None), chunks, (t, line) => LineRead(t, line, rules));
    ResultFromOneLine(Session(start, [], None), AllLines(Stdout(chunks)), rules, result);
  }

  /******* Codex *******/

  datatype Message =
    | NotJson
    | Notification(named: bool)
    | ServerRequest
    | Response(id: int, hasResult: bool, hasError: bool)

  // Requests that wait, and the one answer each got.
  datatype Calls = Calls(nextId: nat, pending: set<int>, answers: map<int, Message>, notifications: seq<Message>)

  const NOTIFICATION_ROOM: nat := 128

  // unread counts the notifications the consumer has yet to take.
  function Dispatched(c: Calls, message: Message, unread: nat): Reader<Calls> {
    match message
    case NotJson => Failed(c, false)
    case Notification(named) =>
      if named && unread < NOTIFICATION_ROOM then Going(c.(notifications := c.notifications + [message])) else Failed(c, false)
    case ServerRequest => Failed(c, false)
    case Response(id, hasResult, hasError) =>
      if id < 1 || hasResult == hasError then Failed(c, false)
      else if id in c.pending then Going(c.(pending := c.pending - {id}, answers := c.answers[id := message]))
      else Going(c)
  }

  // A line is dispatched as the message it is; unread is how many of the notifications so far the
  // consumer has yet to take.
  function LineDispatched(c: Calls, line: seq<Byte>, parse: seq<Byte> -> Message, unread: nat -> nat): Reader<Calls> {
    Dispatched(c, parse(line), unread(|c.notifications|))
  }

  /** The client's answers and notifications, too, do not depend on the chunks of any prefix of its
      output if and only if every line it comes to is within the limit, or beyond it even trimmed. */
  lemma DispatchChunkingExact(start: Calls, s: seq<Byte>, parse: seq<Byte> -> Message, unread: nat -> nat)
    ensures var handle := (c: Calls, line) => LineDispatched(c, line, parse, unread);
      (forall n :: 0 <= n <= |s| ==> ChunkFree(start, s[..n], handle)) <==> Tidy(start, s, handle)
  {
    ChunkingExact(start, s, (c: Calls, line) => LineDispatched(c, line, parse, unread));
  }

  class Client {
    var nextId: nat
    var pending: set<int>
    var answers: map<int, Message>
    var notifications: seq<Message>

    function Value(): Calls
      reads this
    {
      Calls(nextId, pending, answers, notifications)
    }

    method Request() returns (id: int)
      modifies this`nextId, this`pending
      ensures id == old(nextId) + 1 && Value() == Requested(old(Value()))
    {
      nextId := nextId + 1;
      id := nextId;
      pending := pending + {id};
    }

    // A caller that gave up no longer waits.
    method RemovePending(id: int)
      modifies this`pending
      ensures Value() == old(Value()).(pending := old(pending) - {id})
    {
      pending := pending - {id};
    }

    method Dispatch(message: Message, unread: nat) returns (ok: bool)
      modifies this
      ensures var r := Dispatched(old(Value()), message, unread); ok == r.Going? && Value() == StateOf(r)
    {
      match message {
        case NotJson => return false;
        case Notification(named) =>
          if !named || unread >= NOTIFICATION_ROOM { return false; }
          notifications := notifications + [message];
          return true;
        case ServerRequest => return false;
        case Response(id, hasResult, hasError) =>
          if id < 1 || hasResult == hasError { return false; }
          if id in pending {
            pending := pending - {id};
            answers := answers[id := message];
          }
          return true;
      }
    }
  }

  function Requested(c: Calls): Calls { c.(nextId := c.nextId + 1, pending := c.pending + {c.nextId + 1}) }

  datatype Move = Ask | GiveUp(id: int) | Hear(message: Message, unread: nat)

  function Moved(c: Calls, move: Move): Calls {
    match move
    case Ask => Requested(c)
    case GiveUp(id) => c.(pending := c.pending - {id})
    case Hear(message, unread) => StateOf(Dispatched(c, message, unread))
  }

  predicate CallsOk(c: Calls) {
    && (forall id :: id in c.pending ==> 1 <= id <= c.nextId && id !in c.answers)
    && (forall id :: id in c.answers ==> 1 <= id <= c.nextId)
  }

  // The calls after some of the moves.
  function CallsAfter(moves: seq<Move>): Calls {
    if moves == [] then Calls(0, {}, map[], []) else Moved(CallsAfter(moves[..|moves| - 1]), moves[|moves| - 1])
  }

  lemma {:induction false} CallsStayOk(moves: seq<Move>)
    ensures CallsOk(CallsAfter(moves))
  {
    if moves != [] { CallsStayOk(moves[..|moves| - 1]); }
  }

  /** Each request is answered at most once, only while its caller waits, and by a response that
      came after it was made; a late or repeated response changes nothing. */
  lemma AnsweredOnce(moves: seq<Move>, move: Move, id: int)
    ensures var c, d := CallsAfter(moves), CallsAfter(moves + [move]);
      && (id in c.answers ==> id in d.answers && d.answers[id] == c.answers[id] && id !in d.pending)
      && (id in d.answers && id !in c.answers ==>
           id in c.pending && id !in d.pending && move.Hear? && move.message == d.answers[id] && move.message.Response? && move.message.id == id)
      && (move.Hear? && move.message.Response? && move.message.id !in c.pending ==> d == c)
  {
    CallsStayOk(moves);
    assert (moves + [move])[..|moves|] == moves;
  }
}
