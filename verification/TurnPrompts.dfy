/** What each turn of a chat asks: every message that joins the conversation is said in the prompt
    stored with it, what waits for a sign-in or a retry stays in it, and a key answers with the turn
    it started. */
module TurnPrompts {
  import opened Options
  import opened Turns
  import opened TurnHistory

  /******* What a prompt says and tells *******/

  function SaidIn(prompt: Prompt): seq<string> {
    if prompt == [] then []
    else SaidIn(prompt[..|prompt| - 1]) + match prompt[|prompt| - 1] case Said(text) => [text] case Told(_) => []
  }

  function ToldIn(prompt: Prompt): seq<Event> {
    if prompt == [] then []
    else ToldIn(prompt[..|prompt| - 1]) + match prompt[|prompt| - 1] case Told(event) => [event] case Said(_) => []
  }

  lemma Together<T>(a: seq<T>, b: seq<T>, c: seq<T>)
    ensures a + (b + c) == (a + b) + c
  {
  }

  lemma {:induction false} SaidPlus(a: Prompt, b: Prompt)
    ensures SaidIn(a + b) == SaidIn(a) + SaidIn(b)
  {
    if b == [] {
      assert a + b == a;
    } else {
      var init, last := b[..|b| - 1], b[|b| - 1];
      SaidPlus(a, init);
      assert (a + b)[..|a + b| - 1] == a + init;
      Together(SaidIn(a), SaidIn(init), match last case Said(text) => [text] case Told(_) => []);
    }
  }

  lemma {:induction false} ToldPlus(a: Prompt, b: Prompt)
    ensures ToldIn(a + b) == ToldIn(a) + ToldIn(b)
  {
    if b == [] {
      assert a + b == a;
    } else {
      var init, last := b[..|b| - 1], b[|b| - 1];
      ToldPlus(a, init);
      assert (a + b)[..|a + b| - 1] == a + init;
      Together(ToldIn(a), ToldIn(init), match last case Told(event) => [event] case Said(_) => []);
    }
  }

  lemma PartsPlus(a: Prompt, b: Prompt)
    ensures SaidIn(a + b) == SaidIn(a) + SaidIn(b) && ToldIn(a + b) == ToldIn(a) + ToldIn(b)
  {
    SaidPlus(a, b);
    ToldPlus(a, b);
  }

  lemma {:induction false} PartsOfTold(events: seq<Event>)
    ensures SaidIn(TellAll(events)) == [] && ToldIn(TellAll(events)) == events
  {
    if events != [] {
      PartsOfTold(events[..|events| - 1]);
      assert TellAll(events)[..|events| - 1] == TellAll(events[..|events| - 1]);
    }
  }

  lemma {:induction false} PartsOfSaid(texts: seq<string>)
    ensures SaidIn(SayAll(texts)) == texts && ToldIn(SayAll(texts)) == []
  {
    if texts != [] {
      PartsOfSaid(texts[..|texts| - 1]);
      assert SayAll(texts)[..|texts| - 1] == SayAll(texts[..|texts| - 1]);
    }
  }

  /******* When a turn starts, and what it asks *******/

  predicate IsDue(r: Record, now: int) {
    r.lastTurn.Some? && match r.retry case None => false case Some(retry) => retry.due.Some? && retry.due.value <= now
  }

  // A turn that answers what is new, or does the kept one again.
  predicate StartsAnew(r: Record, op: Op) {
    match op
    case Send(_, key) => !r.running && Sent(key) !in r.keys
    case StartWaiting => !r.running && !r.waitsForSignIn && |r.pending| + |r.queued| > 0
    case _ => false
  }

  predicate StartsAgain(r: Record, op: Op) {
    match op
    case RetryDue(now) => IsDue(r, now)
    case RetryAsked => !r.running && r.failed && r.lastTurn.Some?
    case RetrySignIn(mayTry) => mayTry && !r.running && r.waitsForSignIn && r.lastTurn.Some?
    case _ => false
  }

  predicate Starts(r: Record, op: Op) { StartsAnew(r, op) || StartsAgain(r, op) }

  // What the turn takes along of the one kept before: all of it, where that is unanswered.
  function CarriedBy(r: Record, op: Op): Prompt {
    if r.lastTurn.Some? && (StartsAgain(r, op) || (op.Send? && r.waitsForSignIn)) then r.lastTurn.value else []
  }

  // The events it takes off the list; a retry that comes due by itself tells nothing new.
  function TakenBy(r: Record, op: Op): seq<Event> { if op.RetryDue? then [] else r.pending }

  // The turn that starts is the next, and its prompt tells and says exactly what it should.
  predicate Asks(r: Record, op: Op, s: Record) {
    && s.turn == r.turn + 1 && s.running && s.lastTurn.Some?
    && SaidIn(s.lastTurn.value) == SaidIn(CarriedBy(r, op)) + AddedBy(r, op)
    && ToldIn(s.lastTurn.value) == TakenBy(r, op) + ToldIn(CarriedBy(r, op))
    && r.pending == TakenBy(r, op) + s.pending && s.waitsForSignIn == r.waitsForSignIn
    && multiset(CarriedBy(r, op)) <= multiset(s.lastTurn.value)
  }

  lemma StartedAsks(r: Record, key: Key, carried: Prompt, texts: seq<string>)
    ensures var prompt := Started(r, key, carried + SayAll(texts)).lastTurn;
      && prompt.Some? && SaidIn(prompt.value) == SaidIn(carried) + texts && ToldIn(prompt.value) == r.pending + ToldIn(carried)
      && multiset(carried) <= multiset(prompt.value)
  {
    assert Started(r, key, carried + SayAll(texts)).lastTurn == Some(TellAll(r.pending) + (carried + SayAll(texts)));
    PromptParts(r.pending, carried, texts);
  }

  lemma PromptParts(events: seq<Event>, carried: Prompt, texts: seq<string>)
    ensures var prompt := TellAll(events) + (carried + SayAll(texts));
      && SaidIn(prompt) == SaidIn(carried) + texts && ToldIn(prompt) == events + ToldIn(carried)
      && multiset(carried) <= multiset(prompt)
  {
    PartsPlus(TellAll(events), carried + SayAll(texts));
    PartsPlus(carried, SayAll(texts));
    PartsOfTold(events);
    PartsOfSaid(texts);
    assert [] + (SaidIn(carried) + texts) == SaidIn(carried) + texts && ToldIn(carried) + [] == ToldIn(carried);
  }

  lemma SendAsks(r: Record, text: string, key: string)
    requires StartsAnew(r, Send(text, key))
    ensures Asks(r, Send(text, key), SentTo(r, text, key))
  {
    var joined := r.(lines := r.lines + [Line(User, text)]);
    StartedAsks(joined, Sent(key), CarriedBy(r, Send(text, key)), [text]);
    assert SayAll([text]) == [Said(text)] && AddedBy(r, Send(text, key)) == [text];
    assert r.pending + [] == r.pending;
  }

  lemma EventsAsk(r: Record)
    requires StartsAnew(r, StartWaiting) && r.queued == []
    ensures Asks(r, StartWaiting, StartedWaiting(r))
  {
    StartedAsks(r, Events(r.turn + 1), [], []);
    assert [] + SayAll([]) == [] && SaidIn([]) == [] && ToldIn([]) == [] && r.pending + [] == r.pending;
  }

  lemma WaitingPrompt(r: Record)
    requires r.queued != []
    ensures StartedWaiting(r).lastTurn == Some(TellAll(r.pending) + SayAll(r.queued))
    ensures StartedWaiting(r).turn == r.turn + 1 && StartedWaiting(r).running && StartedWaiting(r).pending == []
    ensures StartedWaiting(r).waitsForSignIn == r.waitsForSignIn
  {
  }

  lemma TellsAndSays(events: seq<Event>, texts: seq<string>)
    ensures var prompt := TellAll(events) + SayAll(texts); SaidIn(prompt) == [] + texts && ToldIn(prompt) == events + []
  {
    PartsPlus(TellAll(events), SayAll(texts));
    PartsOfTold(events);
    PartsOfSaid(texts);
  }

  lemma QueueAdded(r: Record)
    requires StartsAnew(r, StartWaiting)
    ensures AddedBy(r, StartWaiting) == r.queued && CarriedBy(r, StartWaiting) == [] && TakenBy(r, StartWaiting) == r.pending
  {
    assert [] + r.queued == r.queued;
  }

  lemma QueueAsks(r: Record)
    requires StartsAnew(r, StartWaiting) && r.queued != []
    ensures Asks(r, StartWaiting, StartedWaiting(r))
  {
    WaitingPrompt(r);
    TellsAndSays(r.pending, r.queued);
    QueueAdded(r);
    assert SaidIn([]) == [] && ToldIn([]) == [] && r.pending + [] == r.pending;
  }

  lemma RetriedPrompt(r: Record, key: Key)
    requires r.lastTurn.Some?
    ensures var s := Retried(r, key);
      && s.lastTurn.Some? && s.lastTurn.value == TellAll(r.pending) + r.lastTurn.value && s.turn == r.turn + 1 && s.running
      && s.pending == [] && s.waitsForSignIn == r.waitsForSignIn
    ensures SaidIn(TellAll(r.pending) + r.lastTurn.value) == SaidIn(r.lastTurn.value)
    ensures ToldIn(TellAll(r.pending) + r.lastTurn.value) == r.pending + ToldIn(r.lastTurn.value)
  {
    PartsPlus(TellAll(r.pending), r.lastTurn.value);
    PartsOfTold(r.pending);
    assert [] + SaidIn(r.lastTurn.value) == SaidIn(r.lastTurn.value);
  }

  lemma AgainAsks(r: Record, op: Op)
    requires StartsAgain(r, op) && !op.RetryDue?
    ensures Asks(r, op, Applied(r, op))
  {
    RetriedPrompt(r, if op.RetryAsked? then RetryTurn(r.turn + 1) else SignedIn(r.turn + 1));
    assert AddedBy(r, op) == [] && SaidIn(r.lastTurn.value) + [] == SaidIn(r.lastTurn.value) && r.pending + [] == r.pending;
  }

  lemma DueAsks(r: Record, op: Op)
    requires StartsAgain(r, op) && op.RetryDue?
    ensures Asks(r, op, Applied(r, op))
  {
    var kept := r.lastTurn.value;
    assert AddedBy(r, op) == [] && SaidIn(kept) + [] == SaidIn(kept) && [] + ToldIn(kept) == ToldIn(kept) && [] + r.pending == r.pending;
  }

  /** Each operation starts the next turn exactly when it should, and the turn's prompt, which the
      chat keeps, says the messages that join the conversation, in their order, after what it carries
      of an unanswered one, and tells the events it takes off the list; any other operation leaves
      the turn, its prompt and the list's events be. */
  lemma TurnAsks(r: Record, op: Op)
    ensures var s := Applied(r, op);
      if Starts(r, op) then Asks(r, op, s)
      else s.turn == r.turn && s.lastTurn == r.lastTurn && AddedBy(r, op) == [] && r.pending <= s.pending
  {
    match op {
      case Send(text, key) => if Starts(r, op) { SendAsks(r, text, key); }
      case StartWaiting => if Starts(r, op) { if r.queued == [] { EventsAsk(r); } else { QueueAsks(r); } }
      case RetryDue(_) => if Starts(r, op) { DueAsks(r, op); }
      case RetryAsked => if Starts(r, op) { AgainAsks(r, op); }
      case RetrySignIn(_) => if Starts(r, op) { AgainAsks(r, op); }
      case _ =>
    }
  }

  // The messages that a state's last step added are the last its prompt says.
  predicate SaysLast(s: Record, texts: seq<string>) {
    texts != [] ==> s.lastTurn.Some? && var said := SaidIn(s.lastTurn.value); |said| >= |texts| && said[|said| - |texts|..] == texts
  }

  /** Over every run, the step that adds messages of the user's to the conversation, sent or taken off
      the queue, stores a prompt that says them last, in that order. */
  lemma EachMessageIsAsked(run: ChatRun, n: nat)
    requires run.Valid() && n < |run.ops|
    ensures UserTexts(run.records[n + 1].lines) == UserTexts(run.records[n].lines) + AddedBy(run.records[n], run.ops[n])
    ensures SaysLast(run.records[n + 1], AddedBy(run.records[n], run.ops[n]))
  {
    assert run.StepOk(n);
    OpTexts(run.records[n], run.ops[n]);
    TurnAsks(run.records[n], run.ops[n]);
  }

  /******* What stays in the kept prompt *******/

  ghost predicate NoneAnew(run: ChatRun, m: nat, n: nat)
    requires n <= |run.ops| == |run.records| - 1
  {
    forall k :: m <= k < n && StartsAnew(run.records[k], run.ops[k]) ==> run.ops[k].Send? && run.records[k].waitsForSignIn
  }

  /** Every part of a kept prompt stays in the kept one through any retries, the due ones, the user's
      and those after a sign-in, and through messages sent while it waits for a sign-in. */
  lemma {:induction false} PartsStay(run: ChatRun, m: nat, n: nat)
    requires run.Valid() && m <= n < |run.records| && run.records[m].lastTurn.Some? && NoneAnew(run, m, n)
    ensures run.records[n].lastTurn.Some? && multiset(run.records[m].lastTurn.value) <= multiset(run.records[n].lastTurn.value)
  {
    if m < n {
      PartsStay(run, m, n - 1);
      assert run.StepOk(n - 1);
      TurnAsks(run.records[n - 1], run.ops[n - 1]);
    }
  }

  ghost predicate NoReply(run: ChatRun, m: nat, n: nat)
    requires n <= |run.ops|
  {
    forall k :: m <= k < n ==> !Replies(run.ops[k])
  }

  predicate Replies(op: Op) { op.End? && op.ending.Replied? }

  lemma AwaitsSignIn(r: Record, op: Op)
    ensures op.End? && op.ending.LoginFailed? ==> Applied(r, op).waitsForSignIn && Applied(r, op).lastTurn == r.lastTurn
    ensures Replies(op) ==> !Applied(r, op).waitsForSignIn
    ensures r.waitsForSignIn && !Replies(op) ==> Applied(r, op).waitsForSignIn
    ensures r.waitsForSignIn ==> Applied(r, StartWaiting) == r
  {
  }

  lemma WaitKeepsTurn(r: Record, op: Op)
    requires r.waitsForSignIn && r.lastTurn.Some?
    ensures Applied(r, op).lastTurn.Some? && multiset(r.lastTurn.value) <= multiset(Applied(r, op).lastTurn.value)
  {
    TurnAsks(r, op);
  }

  /** A turn that failed for want of its agent's login is kept, whole, in every prompt until a reply:
      meanwhile no turn starts without it. */
  lemma {:induction false} SignInKeepsTurn(run: ChatRun, m: nat, n: nat)
    requires run.Valid() && m < n < |run.records| && run.ops[m].End? && run.ops[m].ending.LoginFailed?
    requires run.records[m].lastTurn.Some? && NoReply(run, m, n)
    ensures run.records[n].waitsForSignIn && run.records[n].lastTurn.Some?
    ensures multiset(run.records[m].lastTurn.value) <= multiset(run.records[n].lastTurn.value)
    decreases n
  {
    assert run.StepOk(n - 1);
    AwaitsSignIn(run.records[n - 1], run.ops[n - 1]);
    if m < n - 1 {
      SignInKeepsTurn(run, m, n - 1);
      WaitKeepsTurn(run.records[n - 1], run.ops[n - 1]);
    }
  }

  /******* Keys *******/

  // A key that names a turn answers with that turn.
  predicate AnswersItself(key: Key, answer: Answer) {
    match key
    case Sent(_) => true
    case Events(turn) => answer == Turn(turn)
    case FromQueue(turn) => answer == Turn(turn)
    case RetryTurn(turn) => answer == Turn(turn)
    case SignedIn(turn) => answer == Turn(turn)
    case Again(turn, _) => answer == Turn(turn + 1)
  }

  ghost predicate KeysOk(r: Record) {
    forall key :: key in r.keys ==> AnswersItself(key, r.keys[key]) && (r.keys[key].Turn? ==> r.keys[key].number <= r.turn)
  }

  lemma OpKeepsKeys(r: Record, op: Op)
    requires KeysOk(r)
    ensures KeysOk(Applied(r, op))
    ensures forall key :: key in r.keys ==> key in Applied(r, op).keys && Applied(r, op).keys[key] == r.keys[key]
  {
    NewKey(r, op);
  }

  // An operation adds one key at most, which no turn had yet.
  lemma NewKey(r: Record, op: Op)
    ensures var s := Applied(r, op);
      if Starts(r, op) then exists key :: s.keys == r.keys[key := Turn(s.turn)] && AnswersItself(key, Turn(s.turn)) && (key.Sent? ==> key !in r.keys)
      else s.keys == if Accepts(r, op) then r.keys[Sent(op.key) := InQueue] else r.keys
  {
    if Starts(r, op) {
      var next := r.turn + 1;
      var key := SignedIn(next);
      match op {
        case Send(_, sent) => key := Sent(sent);
        case StartWaiting => key := if r.queued == [] then Events(next) else FromQueue(next);
        case RetryDue(_) => key := Again(r.turn, r.retry.value.count);
        case RetryAsked => key := RetryTurn(next);
        case _ =>
      }
      assert Applied(r, op).keys == r.keys[key := Turn(next)] && AnswersItself(key, Turn(next)) && (key.Sent? ==> key !in r.keys);
    }
  }

  lemma {:induction false} KeysStayOk(run: ChatRun, n: nat)
    requires run.Valid() && n < |run.records| && run.records[0].keys == map[]
    ensures KeysOk(run.records[n])
  {
    if n > 0 {
      KeysStayOk(run, n - 1);
      assert run.StepOk(n - 1);
      OpKeepsKeys(run.records[n - 1], run.ops[n - 1]);
    }
  }

  /** A key answers as it did first, at any later state: with the turn it started, or that its
      message was queued. */
  lemma {:induction false} AnswersStay(run: ChatRun, m: nat, n: nat, key: Key)
    requires run.Valid() && m <= n < |run.records| && run.records[0].keys == map[] && key in run.records[m].keys
    ensures key in run.records[n].keys && run.records[n].keys[key] == run.records[m].keys[key]
    ensures AnswersItself(key, run.records[n].keys[key])
  {
    KeysStayOk(run, n);
    if m < n {
      AnswersStay(run, m, n - 1, key);
      KeysStayOk(run, n - 1);
      assert run.StepOk(n - 1);
      OpKeepsKeys(run.records[n - 1], run.ops[n - 1]);
    }
  }
}
