/** What a chat's operations do to its record: the messages it keeps and queues, the events its
    assistant has yet to hear, and the prompt each turn is kept as. */
module Turns {
  import opened Options

  type Event = nat

  // A prompt by its parts: an event it tells, or the text of a message it carries.
  datatype Part = Told(event: Event) | Said(text: string)

  type Prompt = seq<Part>

  datatype Author = User | Assistant | Note

  datatype Line = Line(author: Author, text: string)

  datatype Retry = Retry(count: nat, due: Option<int>, corrects: bool)

  // A key's answer: queued, or the turn it started.
  datatype Answer = InQueue | Turn(number: nat)

  datatype Key = Sent(key: string) | Events(turn: nat) | FromQueue(turn: nat) | Again(turn: nat, retry: nat) | RetryTurn(turn: nat) | SignedIn(turn: nat)

  datatype Record = Record(
    running: bool, lines: seq<Line>, queued: seq<string>, keys: map<Key, Answer>, turn: nat,
    pending: seq<Event>, lastTurn: Option<Prompt>, waitsForSignIn: bool, retry: Option<Retry>, failed: bool)

  datatype Failure = Final | Correctable | Transient

  const MAX_TURN_RETRIES: nat := 2
  const TRANSIENT_DELAYS := [5, 30]

  function TellAll(events: seq<Event>): (prompt: Prompt)
    ensures |prompt| == |events| && forall i :: 0 <= i < |events| ==> prompt[i] == Told(events[i])
  {
    seq(|events|, i requires 0 <= i < |events| => Told(events[i]))
  }

  function SayAll(texts: seq<string>): (prompt: Prompt)
    ensures |prompt| == |texts| && forall i :: 0 <= i < |texts| ==> prompt[i] == Said(texts[i])
  {
    seq(|texts|, i requires 0 <= i < |texts| => Said(texts[i]))
  }

  function UserLines(texts: seq<string>): (lines: seq<Line>)
    ensures |lines| == |texts| && forall i :: 0 <= i < |texts| ==> lines[i] == Line(User, texts[i])
  {
    seq(|texts|, i requires 0 <= i < |texts| => Line(User, texts[i]))
  }

  lemma UserLinesNext(texts: seq<string>, i: nat)
    requires i < |texts|
    ensures UserLines(texts[..i + 1]) == UserLines(texts[..i]) + [Line(User, texts[i])]
  {
  }

  /******* Turns *******/

  // What a turn is kept as, to run it again.
  function Launched(r: Record, key: Key, lastPrompt: Prompt): Record {
    r.(turn := r.turn + 1, keys := r.keys[key := Turn(r.turn + 1)], lastTurn := Some(lastPrompt), running := true)
  }

  function Started(r: Record, key: Key, prompt: Prompt): Record {
    Launched(r.(retry := None, failed := false, pending := []), key, TellAll(r.pending) + prompt)
  }

  function SentTo(r: Record, text: string, key: string): Record {
    if Sent(key) in r.keys then r
    else if r.running then r.(keys := r.keys[Sent(key) := InQueue], queued := r.queued + [text])
    else
      var carried := if r.waitsForSignIn && r.lastTurn.Some? then r.lastTurn.value else [];
      Started(r.(lines := r.lines + [Line(User, text)]), Sent(key), carried + [Said(text)])
  }

  predicate Waits(r: Record) { !r.running && !r.waitsForSignIn && (r.pending != [] || r.queued != []) }

  function StartedWaiting(r: Record): Record {
    if r.queued == [] then Started(r, Events(r.turn + 1), [])
    else Started(r.(lines := r.lines + UserLines(r.queued), queued := []), FromQueue(r.turn + 1), SayAll(r.queued))
  }

  function Retried(r: Record, key: Key): Record
    requires r.lastTurn.Some?
  {
    Started(r, key, r.lastTurn.value)
  }

  function Failed(r: Record, kind: Failure, text: string, now: int): Record {
    var tried := if r.retry.Some? then r.retry.value.count else 0;
    if !kind.Final? && tried < MAX_TURN_RETRIES then
      var due := if kind.Correctable? then now else now + TRANSIENT_DELAYS[if tried < 1 then tried else 1];
      r.(retry := Some(Retry(tried + 1, Some(due), kind.Correctable?)), running := true)
    else r.(retry := None, lines := r.lines + [Line(Note, text)], failed := true, running := false)
  }

  predicate RetryIsDue(r: Record, now: int) {
    r.retry.Some? && r.retry.value.due.Some? && r.retry.value.due.value <= now && r.lastTurn.Some?
  }

  function RetriedDue(r: Record): Record
    requires r.retry.Some? && r.lastTurn.Some?
  {
    var retry := r.retry.value;
    Launched(r.(retry := Some(retry.(due := None))), Again(r.turn, retry.count), r.lastTurn.value)
  }

  /******* Events and replies *******/

  datatype Observed = Observed(text: string, event: Event, wakes: bool, news: bool)

  function HeardOf(events: seq<Observed>, driving: bool): seq<Event> {
    if events == [] then []
    else
      var last := events[|events| - 1];
      HeardOf(events[..|events| - 1], driving) + if last.wakes && (!last.news || driving) then [last.event] else []
  }

  function NotesOf(events: seq<Observed>): seq<Line> {
    if events == [] then [] else NotesOf(events[..|events| - 1]) + [Line(Note, events[|events| - 1].text)]
  }

  function ToldOf(r: Record, events: seq<Observed>, driving: bool): Record {
    r.(lines := r.lines + NotesOf(events), pending := r.pending + HeardOf(events, driving))
  }

  // A turn that ended: with a reply, for want of its agent's login (which it waits for, its prompt
  // kept), or on a usage limit.
  datatype Ending = Replied(text: string) | LoginFailed(note: Option<string>) | LimitReached(text: string)

  function Ended(r: Record, ending: Ending): Record {
    match ending
    case Replied(text) => r.(retry := None, waitsForSignIn := false, lines := r.lines + [Line(Assistant, text)], running := false)
    case LoginFailed(note) =>
      r.(waitsForSignIn := true, lines := r.lines + (if note.Some? then [Line(Note, note.value)] else []), running := false)
    case LimitReached(text) => r.(retry := None, lines := r.lines + [Line(Note, text)], running := false)
  }

  /** A chat's record, changed in place by one operation after another under the chat's lock. */
  class Chat {
    var running: bool
    var lines: seq<Line>
    var queued: seq<string>
    var keys: map<Key, Answer>
    var turn: nat
    var pending: seq<Event>
    var lastTurn: Option<Prompt>
    var waitsForSignIn: bool
    var retry: Option<Retry>
    var failed: bool

    function Value(): Record
      reads this
    {
      Record(running, lines, queued, keys, turn, pending, lastTurn, waitsForSignIn, retry, failed)
    }

    method LaunchTurn(key: Key, lastPrompt: Prompt)
      modifies this`turn, this`keys, this`lastTurn, this`running
      ensures Value() == Launched(old(Value()), key, lastPrompt)
    {
      turn := turn + 1;
      keys := keys[key := Turn(turn)];
      lastTurn := Some(lastPrompt);
      running := true;
    }

    method StartTurn(key: Key, prompt: Prompt)
      modifies this`retry, this`failed, this`turn, this`keys, this`lastTurn, this`running
      ensures Value() == Launched(old(Value()).(retry := None, failed := false), key, prompt)
    {
      retry, failed := None, false;
      LaunchTurn(key, prompt);
    }

    // What waits for the assistant rides along with the prompt.
    method WithEvents(said: Prompt) returns (prompt: Prompt)
      modifies this`pending
      ensures prompt == TellAll(old(pending)) + said && pending == []
    {
      prompt := said;
      if |pending| > 0 {
        prompt := TellAll(pending) + prompt;
        pending := [];
      } else {
        assert TellAll(pending) + said == said;
      }
    }

    method Send(text: string, key: string)
      modifies this
      ensures Value() == SentTo(old(Value()), text, key)
    {
      if Sent(key) in keys { return; }
      if running {
        keys := keys[Sent(key) := InQueue];
        queued := queued + [text];
        return;
      }
      lines := lines + [Line(User, text)];
      var prompt := [Said(text)];
      if waitsForSignIn && lastTurn.Some? {
        prompt := lastTurn.value + prompt;
      } else {
        assert [] + prompt == prompt;
      }
      prompt := WithEvents(prompt);
      StartTurn(Sent(key), prompt);
    }

    method StartWaitingTurn()
      requires Waits(Value())
      modifies this
      ensures Value() == StartedWaiting(old(Value()))
    {
      if |queued| == 0 {
        var prompt := WithEvents([]);
        StartTurn(Events(turn + 1), prompt);
        return;
      }
      ghost var waiting := queued;
      var texts, before := [], lines;
      for i := 0 to |queued|
        invariant queued == waiting && texts == queued[..i] && lines == before + UserLines(queued[..i])
        invariant Value() == old(Value()).(lines := lines)
      {
        texts := texts + [queued[i]];
        UserLinesNext(queued, i);
        lines := lines + [Line(User, queued[i])];
      }
      assert queued[..|queued|] == queued;
      queued := [];
      var prompt := WithEvents(SayAll(texts));
      StartTurn(FromQueue(turn + 1), prompt);
    }

    method FailTurn(kind: Failure, text: string, now: int)
      modifies this`retry, this`running, this`lines, this`failed
      ensures Value() == Failed(old(Value()), kind, text, now)
    {
      var tried := 0;
      if retry.Some? { tried := retry.value.count; }
      if !kind.Final? && tried < MAX_TURN_RETRIES {
        var due := now;
        if !kind.Correctable? { due := now + TRANSIENT_DELAYS[if tried < 1 then tried else 1]; }
        retry := Some(Retry(tried + 1, Some(due), kind.Correctable?));
        running := true;
        return;
      }
      retry := None;
      lines := lines + [Line(Note, text)];
      failed, running := true, false;
    }

    method RetryWhenDue(now: int) returns (launched: bool)
      modifies this
      ensures launched == RetryIsDue(old(Value()), now)
      ensures Value() == if launched then RetriedDue(old(Value())) else old(Value())
    {
      if retry.None? || retry.value.due.None? || now < retry.value.due.value || lastTurn.None? { return false; }
      var count := retry.value.count;
      retry := Some(retry.value.(due := None));
      LaunchTurn(Again(turn, count), lastTurn.value);
      return true;
    }

    // The user's Retry on a turn whose retries ran out.
    method RetryAsked() returns (started: bool)
      modifies this
      ensures started == (!old(running) && old(failed) && old(lastTurn).Some?)
      ensures Value() == if started then Retried(old(Value()), RetryTurn(old(turn) + 1)) else old(Value())
    {
      if running || !failed || lastTurn.None? { return false; }
      var prompt := WithEvents(lastTurn.value);
      StartTurn(RetryTurn(turn + 1), prompt);
      return true;
    }

    // The turn kept for its agent's login runs again once that works.
    method RetrySignIn(mayTry: bool) returns (started: bool)
      modifies this
      ensures started == (old(waitsForSignIn) && !old(running) && old(lastTurn).Some? && mayTry)
      ensures Value() == if started then Retried(old(Value()), SignedIn(old(turn) + 1)) else old(Value())
    {
      if !waitsForSignIn || running || lastTurn.None? { return false; }
      if !mayTry { return false; }
      var prompt := WithEvents(lastTurn.value);
      StartTurn(SignedIn(turn + 1), prompt);
      return true;
    }

    method Tell(events: seq<Observed>, driving: bool)
      modifies this`lines, this`pending
      ensures Value() == ToldOf(old(Value()), events, driving)
    {
      for i := 0 to |events|
        invariant lines == old(lines) + NotesOf(events[..i]) && pending == old(pending) + HeardOf(events[..i], driving)
      {
        assert events[..i + 1][..i] == events[..i];
        lines := lines + [Line(Note, events[i].text)];
        if events[i].wakes && (!events[i].news || driving) {
          pending := pending + [events[i].event];
        }
      }
      assert events[..|events|] == events;
    }

    method EndTurn(ending: Ending)
      modifies this
      ensures Value() == Ended(old(Value()), ending)
    {
      match ending {
        case Replied(text) =>
          retry, waitsForSignIn := None, false;
          lines := lines + [Line(Assistant, text)];
        case LoginFailed(note) =>
          waitsForSignIn := true;
          if note.Some? { lines := lines + [Line(Note, note.value)]; }
        case LimitReached(text) =>
          lines := lines + [Line(Note, text)];
          retry := None;
      }
      running := false;
    }
  }
}
