/** What becomes of each event of a Claude Code session and of each request and notification of a
    Codex client, over every run: none is skipped, and none is heard twice. */
module AgentCalls {
  import opened Options
  import opened LineReader
  import opened Adapters

  /******* What a session publishes *******/

  /** Events go out in order from the first, up to where the consumer is behind. */
  lemma {:induction false} PublishedIs<E>(before: seq<E>, events: seq<E>, room: nat -> bool)
    ensures var (published, all) := Published(before, events, room);
      && |before| <= |published| && published <= before + events
      && (all <==> forall n :: |before| <= n < |before| + |events| ==> room(n))
      && (if all then published == before + events else |published| < |before| + |events| && !room(|published|))
    decreases |events|
  {
    if events == [] {
      assert before + events == before;
    } else if room(|before|) {
      PublishedIs(before + [events[0]], events[1..], room);
      assert before + [events[0]] + events[1..] == before + events;
    }
  }

  // What the lines of a stream mean, up to the one that gives the result.
  function Meant<T, E, R>(t: T, lines: seq<seq<Byte>>, rules: Rules<T, E, R>): seq<E>
    decreases |lines|
  {
    if lines == [] then []
    else if Trim(lines[0]) == [] then Meant(t, lines[1..], rules)
    else match rules.translate(t, Trim(lines[0]))
      case Unreadable(_) => []
      case Meaning(events, result, next) => events + if result.Some? then [] else Meant(next, lines[1..], rules)
  }

  // Each event finds room behind what was published.
  ghost predicate Room<T, E, R>(published: nat, events: seq<E>, rules: Rules<T, E, R>) {
    forall n :: published <= n < published + |events| ==> rules.room(n)
  }

  lemma FedPublishes<T, E, R>(s: Session<T, E, R>, line: seq<Byte>, rules: Rules<T, E, R>)
    requires s.terminal.None? && Trim(line) != [] && |Trim(line)| <= MAX_LINE
    ensures var r := Fed(Going(s), line, (t, raw) => LineRead(t, raw, rules));
      match rules.translate(s.translator, Trim(line))
      case Unreadable(next) => r == Failed(s.(translator := next), false)
      case Meaning(events, result, next) =>
        && (r.Going? <==> Room(|s.published|, events, rules))
        && if r.Going? then r.state == Session(next, s.published + events, result)
           else r.last.published <= s.published + events && r.last.terminal.None? && !r.tooLong
  {
    match rules.translate(s.translator, Trim(line)) {
      case Unreadable(_) =>
      case Meaning(events, _, _) => PublishedIs(s.published, events, rules.room);
    }
  }

  /** A session publishes what its lines mean, all of it and in order while the reader goes on, and
      otherwise a first part of it. */
  lemma {:induction false} SessionPublishes<T, E, R>(s: Session<T, E, R>, lines: seq<seq<Byte>>, rules: Rules<T, E, R>)
    requires s.terminal.None?
    ensures var r := AllFed(Going(s), lines, (t, line) => LineRead(t, line, rules));
      && StateOf(r).published <= s.published + Meant(s.translator, lines, rules)
      && (r.Going? ==> r.state.published == s.published + Meant(s.translator, lines, rules))
    decreases |lines|
  {
    var handle := (t, line) => LineRead(t, line, rules);
    if lines == [] {
      assert s.published + [] == s.published;
    } else {
      var next := Fed(Going(s), lines[0], handle);
      if next.Failed? { FailedStays(next, lines[1..], handle); }
      if Trim(lines[0]) == [] {
        SessionPublishes(s, lines[1..], rules);
      } else if |Trim(lines[0])| <= MAX_LINE {
        FedPublishes(s, lines[0], rules);
        if next.Going? { NextPublishes(s, next.state, lines, rules); }
      }
    }
  }

  lemma NextPublishes<T, E, R>(s: Session<T, E, R>, next: Session<T, E, R>, lines: seq<seq<Byte>>, rules: Rules<T, E, R>)
    requires lines != [] && Trim(lines[0]) != [] && rules.translate(s.translator, Trim(lines[0])).Meaning?
    requires var m := rules.translate(s.translator, Trim(lines[0])); next == Session(m.session, s.published + m.events, m.result)
    ensures var r := AllFed(Going(next), lines[1..], (t, line) => LineRead(t, line, rules));
      && StateOf(r).published <= s.published + Meant(s.translator, lines, rules)
      && (r.Going? ==> r.state.published == s.published + Meant(s.translator, lines, rules))
    decreases |lines|, 0
  {
    var m := rules.translate(s.translator, Trim(lines[0]));
    if m.result.Some? {
      TerminalOnce(next, lines[1..], rules);
      assert m.events + [] == m.events && Meant(s.translator, lines, rules) == m.events + [];
    } else {
      SessionPublishes(next, lines[1..], rules);
      Regrouped(s.published, m.events, Meant(m.session, lines[1..], rules));
    }
  }

  lemma Regrouped<E>(a: seq<E>, b: seq<E>, c: seq<E>)
    ensures (a + b) + c == a + (b + c)
  {
  }

  // The lines are all read: each is blank, or fits and means something there is room for; and after the
  // result each is passed over.
  ghost predicate ReadsAll<T, E, R>(t: T, published: nat, lines: seq<seq<Byte>>, rules: Rules<T, E, R>)
    decreases |lines|
  {
    lines == [] ||
    if Trim(lines[0]) == [] then ReadsAll(t, published, lines[1..], rules)
    else |Trim(lines[0])| <= MAX_LINE && match rules.translate(t, Trim(lines[0]))
      case Unreadable(_) => false
      case Meaning(events, result, next) =>
        && Room(published, events, rules)
        && if result.Some? then forall k :: 0 <= k < |lines[1..]| ==> PassedOver(lines[1..][k], rules)
           else ReadsAll(next, published + |events|, lines[1..], rules)
  }

  /** A session goes on to the end of its lines exactly when it can read them all. */
  lemma {:induction false} SessionReads<T, E, R>(s: Session<T, E, R>, lines: seq<seq<Byte>>, rules: Rules<T, E, R>)
    requires s.terminal.None?
    ensures AllFed(Going(s), lines, (t, line) => LineRead(t, line, rules)).Going? <==> ReadsAll(s.translator, |s.published|, lines, rules)
    decreases |lines|
  {
    var handle := (t, line) => LineRead(t, line, rules);
    if lines != [] {
      var next := Fed(Going(s), lines[0], handle);
      if next.Failed? { FailedStays(next, lines[1..], handle); }
      if Trim(lines[0]) == [] {
        SessionReads(s, lines[1..], rules);
      } else if |Trim(lines[0])| <= MAX_LINE {
        FedPublishes(s, lines[0], rules);
        if next.Going? {
          if next.state.terminal.Some? { TerminalOnce(next.state, lines[1..], rules); } else { SessionReads(next.state, lines[1..], rules); }
        }
      }
    }
  }

  /** What a session completes with is its first cause: it was stopped, its reading failed, its
      process was lost, or the result does not hold. */
  lemma CompletionCauses<T, E, R>(r: Reader<Session<T, E, R>>, exit: Exit, succeeds: R -> bool, valid: R -> bool)
    ensures var done := Completed(r, exit, succeeds, valid);
      && (done.Stopped? <==> exit.stopped)
      && (done.WaitFailed? <==> !exit.stopped && r.Going? && exit.waitFailed)
      && (done.Result? ==> r.Going? && r.state.terminal == Some(done.result) && valid(done.result) && (succeeds(done.result) ==> exit.code == 0))
  {
  }

  /******* What becomes of a request *******/

  function AskedIn(moves: seq<Move>): nat {
    if moves == [] then 0 else AskedIn(moves[..|moves| - 1]) + if moves[|moves| - 1].Ask? then 1 else 0
  }

  // A response as the protocol has it: to a request, with a result or an error.
  predicate WellFormed(message: Message) { message.Response? && message.id >= 1 && (message.hasResult <==> !message.hasError) }

  ghost predicate GaveUpAt(moves: seq<Move>, k: int, id: int) {
    0 <= k < |moves| && moves[k] == GiveUp(id) && id in CallsAfter(moves[..k]).pending
  }

  ghost predicate GaveUp(moves: seq<Move>, id: int) { exists k :: GaveUpAt(moves, k, id) }

  ghost predicate AnsweredAt(moves: seq<Move>, k: int, id: int) {
    && 0 <= k < |moves| && moves[k].Hear? && WellFormed(moves[k].message) && moves[k].message.id == id
    && id in CallsAfter(moves[..k]).pending
  }

  /** A well-formed response becomes the answer to its request while that is pending, and then it
      changes nothing else; the client goes on exactly past such responses, late ones too, and
      past named notifications that find room, each of which is queued last. */
  lemma Hears(c: Calls, message: Message, unread: nat)
    ensures var r := Dispatched(c, message, unread);
      && (r.Going? <==> WellFormed(message) || (message == Notification(true) && unread < 128))
      && (r.Failed? ==> r.last == c)
      && (WellFormed(message) ==>
           r.state == if message.id in c.pending then c.(pending := c.pending - {message.id}, answers := c.answers[message.id := message]) else c)
      && (message.Notification? && r.Going? ==> r.state == c.(notifications := c.notifications + [message]))
  {
  }

  lemma LastMove(moves: seq<Move>)
    requires moves != []
    ensures CallsAfter(moves) == Moved(CallsAfter(moves[..|moves| - 1]), moves[|moves| - 1])
    ensures forall k :: 0 <= k < |moves| - 1 ==> moves[..|moves| - 1][..k] == moves[..k] && moves[..|moves| - 1][k] == moves[k]
  {
  }

  lemma GaveUpLater(moves: seq<Move>, id: int)
    requires moves != []
    ensures GaveUp(moves, id) <==>
      GaveUp(moves[..|moves| - 1], id) || (moves[|moves| - 1] == GiveUp(id) && id in CallsAfter(moves[..|moves| - 1]).pending)
  {
    var init := moves[..|moves| - 1];
    LastMove(moves);
    forall k ensures GaveUpAt(moves, k, id) <==> GaveUpAt(init, k, id) || (k == |init| && moves[k] == GiveUp(id) && id in CallsAfter(init).pending) {
    }
    if moves[|init|] == GiveUp(id) && id in CallsAfter(init).pending { assert GaveUpAt(moves, |init|, id); }
    if GaveUp(init, id) {
      var k :| GaveUpAt(init, k, id);
      assert GaveUpAt(moves, k, id);
    }
  }

  // One of three, and of no more than one.
  predicate OneOf(a: bool, b: bool, c: bool) { (a || b || c) && !(a && b) && !(a && c) && !(b && c) }

  /** Every request made is pending, given up or answered, and one of these only; no other is any
      of them. */
  lemma {:induction false} EachRequestOnce(moves: seq<Move>, id: int)
    ensures var c := CallsAfter(moves);
      && c.nextId == AskedIn(moves)
      && (1 <= id <= AskedIn(moves) ==> OneOf(id in c.pending, id in c.answers, GaveUp(moves, id)))
      && (!(1 <= id <= AskedIn(moves)) ==> id !in c.pending && id !in c.answers && !GaveUp(moves, id))
  {
    if moves != [] {
      var init, last := moves[..|moves| - 1], moves[|moves| - 1];
      EachRequestOnce(init, id);
      LastMove(moves);
      GaveUpLater(moves, id);
      if last.Hear? { Hears(CallsAfter(init), last.message, last.unread); }
    }
  }

  ghost predicate WasAnswered(moves: seq<Move>, id: int) { exists k :: AnsweredAt(moves, k, id) }

  lemma AnsweredLater(moves: seq<Move>, id: int)
    requires moves != []
    ensures forall k :: AnsweredAt(moves, k, id) ==> AnsweredAt(moves[..|moves| - 1], k, id) || k == |moves| - 1
    ensures WasAnswered(moves, id) <==> WasAnswered(moves[..|moves| - 1], id) || AnsweredAt(moves, |moves| - 1, id)
  {
    LastMove(moves);
    var init := moves[..|moves| - 1];
    if WasAnswered(init, id) {
      var k :| AnsweredAt(init, k, id);
      assert AnsweredAt(moves, k, id);
    }
  }

  /** A request has an answer exactly when a well-formed response to it came while it was pending,
      and its answer is that one. */
  lemma {:induction false} AnsweredExactly(moves: seq<Move>, id: int)
    ensures id in CallsAfter(moves).answers <==> WasAnswered(moves, id)
    ensures forall k :: AnsweredAt(moves, k, id) ==> id in CallsAfter(moves).answers && CallsAfter(moves).answers[id] == moves[k].message
  {
    if moves != [] {
      var init, last := moves[..|moves| - 1], moves[|moves| - 1];
      AnsweredExactly(init, id);
      LastMove(moves);
      if last.Hear? { Hears(CallsAfter(init), last.message, last.unread); }
      CallsStayOk(init);
      AnsweredLater(moves, id);
    }
  }

  // The notifications that the client heard and had room for.
  function NamedIn(moves: seq<Move>): seq<Message> {
    if moves == [] then []
    else
      var last := moves[|moves| - 1];
      NamedIn(moves[..|moves| - 1]) + if last.Hear? && last.message == Notification(true) && last.unread < 128 then [last.message] else []
  }

  /** The queue of notifications holds the named ones that found room, in the order they came. */
  lemma {:induction false} NotificationsInOrder(moves: seq<Move>)
    ensures CallsAfter(moves).notifications == NamedIn(moves)
  {
    if moves != [] {
      NotificationsInOrder(moves[..|moves| - 1]);
      LastMove(moves);
      var last := moves[|moves| - 1];
      if last.Hear? { Hears(CallsAfter(moves[..|moves| - 1]), last.message, last.unread); }
    }
  }
}
