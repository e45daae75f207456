/** Every interleaving of chats' reads, writes, creates, moves and stops: what becomes of each event
    that waits for an assistant, and exactly when one is lost. */
module EventHistory {
  import opened Options
  import opened Turns
  import opened TurnHistory
  import MessageIds

  type Place = (string, string)

  predicate Tells(lastTurn: Option<Prompt>, event: Event) { lastTurn.Some? && Told(event) in lastTurn.value }

  // What an operation takes off the list of events is in the prompt it is kept as.
  lemma OpKeepsEvents(r: Record, op: Op, event: Event)
    requires event in r.pending
    ensures event in Applied(r, op).pending || Tells(Applied(r, op).lastTurn, event)
  {
    var i :| 0 <= i < |r.pending| && r.pending[i] == event;
    assert TellAll(r.pending)[i] == Told(event);
    var prompt := Applied(r, op).lastTurn;
    if Applied(r, op).pending == [] && prompt.Some? && |prompt.value| >= |r.pending| && prompt.value[..|r.pending|] == TellAll(r.pending) {
      assert prompt.value[i] == Told(event);
    }
  }

  predicate ChangesEvents(op: Op) { op.Send? || op.StartWaiting? || op.RetryAsked? || op.RetrySignIn? || op.Tell? }

  // An operation that holds a chat's lock: the events it read, and the record as it is by now.
  datatype Session = Session(base: seq<Event>, record: Record, changed: bool)

  /** The chat files and the lists of events in the project files; the operations at work; and
      the events that ever waited, or were told in a stored prompt. */
  datatype World = World(
    chats: map<Place, Record>, pending: map<Place, seq<Event>>, sessions: map<Place, Session>,
    noted: set<Event>, told: set<Event>)

  function PendingAt(w: World, place: Place): seq<Event> {
    if place in w.pending then w.pending[place] else []
  }

  // A chat not written yet reads empty, but for the events that wait for it.
  const UNWRITTEN := Record(false, [], [], map[], 0, [], None, false, None, false)

  function ReadAt(w: World, place: Place): Record {
    (if place in w.chats then w.chats[place] else UNWRITTEN).(pending := PendingAt(w, place))
  }

  datatype Step =
    | Open(place: Place)
    | Act(place: Place, op: Op)
    | WriteChat(place: Place)
    | WriteProject(place: Place)
    | Close(place: Place)
    | Crash
    | Create(place: Place)
    | Move(place: Place, target: Place, placed: bool, carried: bool, cleared: bool, removed: bool)

  function EventsTold(lastTurn: Option<Prompt>): set<Event> {
    if lastTurn.None? then {} else set i | 0 <= i < |lastTurn.value| && lastTurn.value[i].Told? :: lastTurn.value[i].event
  }

  // The merge of a chat's list: changed since it was read, it replaces what is stored.
  function MergedList(base: seq<Event>, ours: seq<Event>, current: seq<Event>): seq<Event> {
    if base == ours then current else ours
  }

  // A new chat is main or has an ID nobody has open; main may be open, read as not written yet.
  ghost predicate MayStore(w: World, place: Place) {
    place !in w.chats && (place.1 == MessageIds.MAIN || place !in w.sessions)
  }

  // An operation changes the list at most once between opening a chat and letting it go, and a
  // write puts the chat's file before the project's. A move carries the list before it clears it.
  ghost predicate Next(w: World, step: Step, v: World) {
    match step
    case Open(place) =>
      place !in w.sessions && v == w.(sessions := w.sessions[place := Session(PendingAt(w, place), ReadAt(w, place), false)])
    case Act(place, op) =>
      && place in w.sessions && (ChangesEvents(op) ==> !w.sessions[place].changed)
      && var s := w.sessions[place];
      v == w.(sessions := w.sessions[place := Session(s.base, Applied(s.record, op), s.changed || ChangesEvents(op))])
    case WriteChat(place) =>
      && place in w.sessions
      && v == w.(chats := w.chats[place := w.sessions[place].record], told := w.told + EventsTold(w.sessions[place].record.lastTurn))
    case WriteProject(place) =>
      && place in w.sessions && place in w.chats && w.chats[place] == w.sessions[place].record
      && var s := w.sessions[place];
      v == w.(pending := w.pending[place := MergedList(s.base, s.record.pending, PendingAt(w, place))],
              noted := w.noted + set event | event in s.record.pending)
    case Close(place) => place in w.sessions && v == w.(sessions := w.sessions - {place})
    case Crash => v == w.(sessions := map[])
    case Create(place) => MayStore(w, place) && v == w.(chats := w.chats[place := UNWRITTEN])
    case Move(from, target, placed, carried, cleared, removed) =>
      && from in w.sessions && !w.sessions[from].changed && from in w.chats && MayStore(w, target) && target != from
      && (carried ==> placed) && (cleared ==> carried) && (removed ==> placed && (cleared || PendingAt(w, from) == []))
      && var put := if placed then w.chats[target := MovedRecord(w.chats[from])] else w.chats;
      var lists := if carried then w.pending[target := PendingAt(w, target) + PendingAt(w, from)] else w.pending;
      v == w.(chats := if removed then put - {from} else put, pending := if cleared then lists - {from} else lists,
              sessions := w.sessions - {from})
  }

  function MovedRecord(r: Record): Record {
    r.(lastTurn := None, running := false, waitsForSignIn := false, retry := None, failed := false)
  }

  datatype Run = Run(worlds: seq<World>, steps: seq<Step>)
  {
    ghost predicate Valid() {
      && |worlds| == |steps| + 1 && Init(worlds[0])
      && forall n {:trigger steps[n]} :: 0 <= n < |steps| ==> Next(worlds[n], steps[n], worlds[n + 1])
    }
  }

  ghost predicate Init(w: World) {
    && w.sessions == map[] && (forall event :: event in w.noted <==> Waiting(w, event))
    && forall place, event :: place in w.chats && Tells(w.chats[place].lastTurn, event) ==> event in w.told
  }

  ghost predicate Waiting(w: World, event: Event) { exists place :: event in PendingAt(w, place) }

  /******* What every step keeps *******/

  // What a session read is in its list or its prompt, and still waits or was told.
  ghost predicate SessionOk(w: World, place: Place)
    requires place in w.sessions
  {
    var s := w.sessions[place];
    && (!s.changed ==> s.base == s.record.pending)
    && (forall event :: event in s.base ==> event in s.record.pending || Tells(s.record.lastTurn, event))
    && (forall event :: event in s.base ==> event in PendingAt(w, place) || event in w.told)
  }

  ghost predicate Invariant(w: World) {
    && (forall place :: place in w.sessions ==> SessionOk(w, place))
    && (forall event :: Waiting(w, event) ==> event in w.noted)
    && (forall place, event :: place in w.chats && Tells(w.chats[place].lastTurn, event) ==> event in w.told)
  }

  lemma QuietOp(r: Record, op: Op)
    requires !ChangesEvents(op)
    ensures Applied(r, op).pending == r.pending
    ensures forall event :: Tells(r.lastTurn, event) <==> Tells(Applied(r, op).lastTurn, event)
  {
  }

  lemma ActedSession(s: Session, op: Op)
    requires ChangesEvents(op) ==> !s.changed && s.base == s.record.pending
    requires forall event :: event in s.base ==> event in s.record.pending || Tells(s.record.lastTurn, event)
    ensures forall event :: event in s.base ==> event in Applied(s.record, op).pending || Tells(Applied(s.record, op).lastTurn, event)
    ensures !ChangesEvents(op) && s.base == s.record.pending ==> s.base == Applied(s.record, op).pending
  {
    if ChangesEvents(op) {
      forall event | event in s.base ensures event in Applied(s.record, op).pending || Tells(Applied(s.record, op).lastTurn, event) {
        OpKeepsEvents(s.record, op, event);
      }
    } else {
      QuietOp(s.record, op);
    }
  }

  lemma ToldIsTold(lastTurn: Option<Prompt>, event: Event)
    ensures Tells(lastTurn, event) <==> event in EventsTold(lastTurn)
  {
    if Tells(lastTurn, event) {
      var i :| 0 <= i < |lastTurn.value| && lastTurn.value[i] == Told(event);
      assert lastTurn.value[i].Told? && lastTurn.value[i].event == event;
    }
  }

  lemma ActKeeps(w: World, step: Step, v: World)
    requires Invariant(w) && Next(w, step, v) && step.Act?
    ensures Invariant(v)
  {
    assert SessionOk(w, step.place);
    ActedSession(w.sessions[step.place], step.op);
    forall place | place in v.sessions ensures SessionOk(v, place) { assert SessionOk(w, place); }
    SameLists(w, v);
  }

  lemma SameLists(w: World, v: World)
    requires v.pending == w.pending
    ensures forall event :: Waiting(v, event) <==> Waiting(w, event)
  {
    forall event ensures Waiting(v, event) <==> Waiting(w, event) {
      assert forall place :: PendingAt(v, place) == PendingAt(w, place);
    }
  }

  lemma WriteChatKeeps(w: World, step: Step, v: World)
    requires Invariant(w) && Next(w, step, v) && step.WriteChat?
    ensures Invariant(v)
  {
    forall place | place in v.sessions ensures SessionOk(v, place) { assert SessionOk(w, place); }
    SameLists(w, v);
    forall place, event | place in v.chats && Tells(v.chats[place].lastTurn, event) ensures event in v.told {
      if place == step.place { ToldIsTold(v.chats[place].lastTurn, event); }
    }
  }

  lemma WriteProjectKeepsSessions(w: World, step: Step, v: World)
    requires Invariant(w) && Next(w, step, v) && step.WriteProject?
    ensures forall place :: place in v.sessions ==> SessionOk(v, place)
  {
    forall place | place in v.sessions ensures SessionOk(v, place) {
      assert SessionOk(w, place);
      if place == step.place {
        forall event | event in v.sessions[place].base ensures event in PendingAt(v, place) || event in v.told {
          assert Tells(w.chats[place].lastTurn, event) ==> event in w.told;
        }
      }
    }
  }

  lemma WriteProjectKeeps(w: World, step: Step, v: World)
    requires Invariant(w) && Next(w, step, v) && step.WriteProject?
    ensures Invariant(v)
  {
    WriteProjectKeepsSessions(w, step, v);
    forall event | Waiting(v, event) ensures event in v.noted {
      var place :| event in PendingAt(v, place);
      if place != step.place || event !in w.sessions[step.place].record.pending { assert event in PendingAt(w, place); }
    }
  }

  lemma MoveKeeps(w: World, step: Step, v: World)
    requires Invariant(w) && Next(w, step, v) && step.Move?
    ensures Invariant(v)
  {
    forall place | place in v.sessions ensures SessionOk(v, place) {
      assert SessionOk(w, place);
      assert forall event :: event in PendingAt(w, place) ==> event in PendingAt(v, place);
    }
    forall event | Waiting(v, event) ensures event in v.noted {
      var place :| event in PendingAt(v, place);
      assert event in PendingAt(w, place) || event in PendingAt(w, step.place);
    }
  }

  lemma LocksKeep(w: World, step: Step, v: World)
    requires Invariant(w) && Next(w, step, v) && (step.Open? || step.Close? || step.Crash? || step.Create?)
    ensures Invariant(v)
  {
    forall place | place in v.sessions ensures SessionOk(v, place) {
      if place in w.sessions { assert SessionOk(w, place); }
    }
    SameLists(w, v);
  }

  lemma StepKeepsInvariant(w: World, step: Step, v: World)
    requires Invariant(w) && Next(w, step, v)
    ensures Invariant(v)
  {
    match step
    case Act(_, _) => ActKeeps(w, step, v);
    case WriteChat(_) => WriteChatKeeps(w, step, v);
    case WriteProject(_) => WriteProjectKeeps(w, step, v);
    case Move(_, _, _, _, _, _) => MoveKeeps(w, step, v);
    case _ => LocksKeep(w, step, v);
  }

  lemma {:induction false} Reachable(run: Run, n: nat)
    requires run.Valid() && n < |run.worlds|
    ensures Invariant(run.worlds[n])
  {
    if n > 0 {
      Reachable(run, n - 1);
      assert Next(run.worlds[n - 1], run.steps[n - 1], run.worlds[n]);
      StepKeepsInvariant(run.worlds[n - 1], run.steps[n - 1], run.worlds[n]);
    }
  }

  /******* What moved in while a chat was open *******/

  ghost predicate HeldThrough(run: Run, m: nat, n: nat, place: Place)
    requires n < |run.worlds|
  {
    forall k :: m <= k <= n ==> place in run.worlds[k].sessions
  }

  // At step m a move put the event on the list of a chat that was open then, and has been since.
  ghost predicate MovedInAt(run: Run, m: nat, n: nat, place: Place, event: Event)
    requires run.Valid() && n < |run.worlds|
  {
    && m < n && run.steps[m].Move? && run.steps[m].target == place && run.steps[m].carried && place.1 == MessageIds.MAIN
    && event in PendingAt(run.worlds[m], run.steps[m].place) && HeldThrough(run, m, n, place)
  }

  ghost predicate MovedInSince(run: Run, n: nat, place: Place, event: Event)
    requires run.Valid() && n < |run.worlds|
  {
    exists m: nat :: MovedInAt(run, m, n, place, event)
  }

  lemma MovedInStays(run: Run, n: nat, place: Place, event: Event)
    requires run.Valid() && n + 1 < |run.worlds| && MovedInSince(run, n, place, event) && place in run.worlds[n + 1].sessions
    ensures MovedInSince(run, n + 1, place, event)
  {
    var m: nat :| MovedInAt(run, m, n, place, event);
    assert MovedInAt(run, m, n + 1, place, event);
  }

  // What a session neither read nor holds, and yet waits at its chat.
  ghost predicate Unseen(w: World, place: Place, event: Event) {
    && place in w.sessions && event in PendingAt(w, place)
    && event !in w.sessions[place].base && event !in w.sessions[place].record.pending
  }

  lemma UnseenBefore(w: World, step: Step, v: World, place: Place, event: Event)
    requires Invariant(w) && Next(w, step, v) && Unseen(v, place, event)
    ensures place in w.sessions
    ensures Unseen(w, place, event) || (step.Move? && step.target == place && step.carried && event in PendingAt(w, step.place))
  {
    if step.Act? && step.place == place {
      assert SessionOk(w, place);
      if ChangesEvents(step.op) { assert w.sessions[place].base == w.sessions[place].record.pending; } else { QuietOp(w.sessions[place].record, step.op); }
    }
  }

  lemma {:induction false} UnseenMovedIn(run: Run, n: nat, place: Place, event: Event)
    requires run.Valid() && n < |run.worlds| && Unseen(run.worlds[n], place, event)
    ensures MovedInSince(run, n, place, event)
  {
    if n > 0 {
      Reachable(run, n - 1);
      assert Next(run.worlds[n - 1], run.steps[n - 1], run.worlds[n]);
      UnseenBefore(run.worlds[n - 1], run.steps[n - 1], run.worlds[n], place, event);
      if Unseen(run.worlds[n - 1], place, event) {
        UnseenMovedIn(run, n - 1, place, event);
        MovedInStays(run, n - 1, place, event);
      } else {
        assert MovedInAt(run, n - 1, n, place, event);
      }
    }
  }

  /******* Exactly when an event is lost *******/

  ghost predicate Lost(w: World, event: Event) { event in w.noted && event !in w.told && !Waiting(w, event) }

  // The write of a chat's holder that loses an event: a move put it on the list after the holder
  // read that, the holder changed the list without it, and it waits nowhere else and was never told.
  ghost predicate Loses(run: Run, n: nat, event: Event)
    requires run.Valid() && n < |run.steps|
  {
    var w, step := run.worlds[n], run.steps[n];
    && step.WriteProject? && step.place in w.sessions && MovedInSince(run, n, step.place, event)
    && w.sessions[step.place].base != w.sessions[step.place].record.pending && event !in w.sessions[step.place].record.pending
    && event in PendingAt(w, step.place) && (forall place :: place != step.place ==> event !in PendingAt(w, place)) && event !in w.told
  }

  // A write that stores the event as waiting, or a prompt that tells it.
  ghost predicate Stores(w: World, step: Step, event: Event) {
    || (step.WriteProject? && step.place in w.sessions && event in w.sessions[step.place].record.pending)
    || (step.WriteChat? && step.place in w.sessions && Tells(w.sessions[step.place].record.lastTurn, event))
  }

  lemma StoredIsNotLost(w: World, step: Step, v: World, event: Event)
    requires Invariant(w) && Next(w, step, v) && Stores(w, step, event)
    ensures !Lost(v, event)
  {
    var s := w.sessions[step.place];
    if step.WriteChat? {
      ToldIsTold(s.record.lastTurn, event);
    } else {
      assert SessionOk(w, step.place);
      assert event in PendingAt(v, step.place) || event in v.told;
    }
  }

  lemma LostStays(w: World, step: Step, v: World, event: Event)
    requires Next(w, step, v) && Lost(w, event) && !Stores(w, step, event)
    ensures Lost(v, event)
  {
    forall place ensures event !in PendingAt(v, place) {
      assert event !in PendingAt(w, place);
      assert step.Move? ==> event !in PendingAt(w, step.place) && event !in PendingAt(w, step.target);
    }
    if step.WriteChat? { ToldIsTold(w.sessions[step.place].record.lastTurn, event); }
  }

  // An event that waits is still waiting after a step, or told, but for a holder's write.
  lemma WaitingLeaves(w: World, step: Step, v: World, event: Event, place: Place)
    requires Invariant(w) && Next(w, step, v) && event in PendingAt(w, place) && !Waiting(v, event) && event !in v.told
    ensures step == WriteProject(place) && Unseen(w, place, event) && w.sessions[place].base != w.sessions[place].record.pending
  {
    assert event !in PendingAt(v, place);
    assert step.Move? ==> event !in PendingAt(v, step.target);
    if step.WriteProject? {
      assert SessionOk(w, step.place);
      assert Tells(w.chats[step.place].lastTurn, event) ==> event in w.told;
    }
  }

  lemma BecomesLost(run: Run, n: nat, event: Event)
    requires run.Valid() && n < |run.steps| && Lost(run.worlds[n + 1], event) && !Lost(run.worlds[n], event)
    ensures Loses(run, n, event)
  {
    var w, step, v := run.worlds[n], run.steps[n], run.worlds[n + 1];
    Reachable(run, n);
    assert Next(w, step, v);
    if Stores(w, step, event) { StoredIsNotLost(w, step, v, event); }
    assert event in w.noted && event !in w.told;
    var place :| event in PendingAt(w, place);
    WaitingLeaves(w, step, v, event, place);
    UnseenMovedIn(run, n, place, event);
    forall other | other != place ensures event !in PendingAt(w, other) {
      if event in PendingAt(w, other) { WaitingLeaves(w, step, v, event, other); }
    }
  }

  lemma LosesIsLost(run: Run, n: nat, event: Event)
    requires run.Valid() && n < |run.steps| && Loses(run, n, event)
    ensures Lost(run.worlds[n + 1], event)
  {
    var w, v, at := run.worlds[n], run.worlds[n + 1], run.steps[n].place;
    Reachable(run, n);
    assert Next(w, run.steps[n], v);
    assert Waiting(w, event);
    assert PendingAt(v, at) == w.sessions[at].record.pending;
    assert forall place :: place != at ==> PendingAt(v, place) == PendingAt(w, place);
  }

  ghost predicate StoredBetween(run: Run, m: nat, n: nat, event: Event)
    requires run.Valid() && n < |run.worlds|
  {
    exists k :: m < k < n && Stores(run.worlds[k], run.steps[k], event)
  }

  lemma StoredNext(run: Run, m: nat, n: nat, next: nat, event: Event)
    requires run.Valid() && m < n < |run.steps| && next == n + 1
    ensures StoredBetween(run, m, next, event) <==> StoredBetween(run, m, n, event) || Stores(run.worlds[n], run.steps[n], event)
  {
  }

  ghost predicate LostSince(run: Run, m: nat, n: nat, event: Event)
    requires run.Valid() && n < |run.worlds|
  {
    m < n && Loses(run, m, event) && !StoredBetween(run, m, n, event)
  }

  ghost predicate WasLost(run: Run, n: nat, event: Event)
    requires run.Valid() && n < |run.worlds|
  {
    exists m: nat :: LostSince(run, m, n, event)
  }

  lemma StartsKept(run: Run, event: Event)
    requires run.Valid()
    ensures !Lost(run.worlds[0], event) && !WasLost(run, 0, event)
  {
    Reachable(run, 0);
  }

  /** Over every run, with stops anywhere, an event that ever waited is lost (told in no stored
      prompt, and on no list) if and only if a holder's write lost it and nothing stored it since:
      a move had put it on main's list after the holder read that list, and the holder changed it. */
  lemma {:induction false} LostExactly(run: Run, n: nat, event: Event)
    requires run.Valid() && n < |run.worlds|
    ensures Lost(run.worlds[n], event) <==> WasLost(run, n, event)
  {
    if n == 0 {
      StartsKept(run, event);
    } else {
      LostExactly(run, n - 1, event);
      LostNext(run, n - 1, n, event);
    }
  }

  // A step leaves an event lost exactly if it loses it, or it was lost and the step does not store it.
  lemma StepLoses(run: Run, n: nat, event: Event)
    requires run.Valid() && n < |run.steps|
    ensures Lost(run.worlds[n + 1], event) <==>
      Loses(run, n, event) || (Lost(run.worlds[n], event) && !Stores(run.worlds[n], run.steps[n], event))
  {
    var w, step, v := run.worlds[n], run.steps[n], run.worlds[n + 1];
    Reachable(run, n);
    assert Next(w, step, v);
    if Loses(run, n, event) { LosesIsLost(run, n, event); }
    if Lost(w, event) && !Stores(w, step, event) { LostStays(w, step, v, event); }
    if Lost(v, event) {
      if Stores(w, step, event) { StoredIsNotLost(w, step, v, event); }
      if !Lost(w, event) { BecomesLost(run, n, event); }
    }
  }

  lemma LostSinceNext(run: Run, m: nat, n: nat, next: nat, event: Event)
    requires run.Valid() && n < |run.steps| && next == n + 1
    ensures LostSince(run, m, next, event) <==>
      (m == n && Loses(run, n, event)) || (LostSince(run, m, n, event) && !Stores(run.worlds[n], run.steps[n], event))
  {
    if m < n { StoredNext(run, m, n, next, event); }
  }

  lemma LostNext(run: Run, n: nat, next: nat, event: Event)
    requires run.Valid() && n < |run.steps| && next == n + 1
    requires Lost(run.worlds[n], event) <==> WasLost(run, n, event)
    ensures Lost(run.worlds[next], event) <==> WasLost(run, next, event)
  {
    assert Lost(run.worlds[next], event) <==>
      Loses(run, n, event) || (Lost(run.worlds[n], event) && !Stores(run.worlds[n], run.steps[n], event)) by { StepLoses(run, n, event); }
    LostSinceNext(run, n, n, next, event);
    forall m: nat ensures LostSince(run, m, next, event) <==>
      (m == n && Loses(run, n, event)) || (LostSince(run, m, n, event) && !Stores(run.worlds[n], run.steps[n], event))
    {
      LostSinceNext(run, m, n, next, event);
    }
  }

  /** No event is lost where no holder's write loses it: at any point of any run, stopped as often as
      it may be, it still waits in some chat's list, or was told in a prompt a chat stored. */
  lemma NoEventLost(run: Run, n: nat, event: Event)
    requires run.Valid() && n < |run.worlds| && event in run.worlds[n].noted
    requires forall m :: 0 <= m < n ==> !Loses(run, m, event)
    ensures event in run.worlds[n].told || Waiting(run.worlds[n], event)
  {
    LostExactly(run, n, event);
  }

  lemma LeavesByWrite(run: Run, n: nat, place: Place, event: Event)
    requires run.Valid() && n < |run.steps| && run.steps[n] == WriteProject(place)
    requires event in PendingAt(run.worlds[n], place) && event !in PendingAt(run.worlds[n + 1], place)
    ensures place in run.worlds[n].sessions && place in run.worlds[n + 1].chats
    ensures Tells(run.worlds[n + 1].chats[place].lastTurn, event) || MovedInSince(run, n, place, event)
  {
    var w := run.worlds[n];
    Reachable(run, n);
    assert Next(w, run.steps[n], run.worlds[n + 1]);
    assert SessionOk(w, place);
    if event !in w.sessions[place].base { UnseenMovedIn(run, n, place, event); }
  }

  /** A chat's list changes only in a write by the holder of its lock or in a move; and an event
      leaves it only whole into the new scope's list, or in a holder's write: whose stored prompt
      tells it, or whose holder read the list before a move put it there. */
  lemma EventsLeave(run: Run, n: nat, place: Place)
    requires run.Valid() && n < |run.steps|
    ensures var w, step, v := run.worlds[n], run.steps[n], run.worlds[n + 1];
      && (PendingAt(v, place) != PendingAt(w, place) ==>
           (step == WriteProject(place) && place in w.sessions) || (step.Move? && (place == step.place || place == step.target)))
      && (forall event :: event in PendingAt(w, place) && event !in PendingAt(v, place) ==>
           || (step.Move? && place == step.place && event in PendingAt(v, step.target))
           || (step == WriteProject(place) && place in v.chats
               && (Tells(v.chats[place].lastTurn, event) || MovedInSince(run, n, place, event))))
  {
    var w, step, v := run.worlds[n], run.steps[n], run.worlds[n + 1];
    assert Next(w, step, v);
    forall event | event in PendingAt(w, place) && event !in PendingAt(v, place)
      ensures (step.Move? && place == step.place && event in PendingAt(v, step.target))
        || (step == WriteProject(place) && place in v.chats && (Tells(v.chats[place].lastTurn, event) || MovedInSince(run, n, place, event)))
    {
      if step == WriteProject(place) { LeavesByWrite(run, n, place, event); }
    }
  }

  /******* A run that loses an event *******/

  lemma OneMore(run: Run, step: Step, v: World) returns (longer: Run)
    requires run.Valid() && Next(run.worlds[|run.steps|], step, v)
    ensures longer.Valid() && longer == Run(run.worlds + [v], run.steps + [step])
  {
    longer := Run(run.worlds + [v], run.steps + [step]);
    forall n {:trigger longer.steps[n]} | 0 <= n < |longer.steps| ensures Next(longer.worlds[n], longer.steps[n], longer.worlds[n + 1]) {
      if n < |run.steps| { assert run.steps[n] == longer.steps[n]; }
    }
  }

  // Main is opened while it is not written, and a chat with a waiting event moves in as main.
  lemma MovesIn(w: World, from: Place, main: Place, event: Event) returns (run: Run)
    requires Init(w) && from in w.chats && main !in w.chats && main.1 == MessageIds.MAIN && w.pending == map[from := [event]]
    ensures run.Valid() && |run.steps| == 3 && run.worlds[0] == w
    ensures var v := run.worlds[3];
      && v.pending == map[main := [event]] && v.sessions == map[main := Session([], UNWRITTEN, false)] && v.noted == w.noted && v.told == w.told
  {
    run := Run([w], []);
    var opened1 := w.(sessions := map[main := Session([], UNWRITTEN, false)]);
    run := OneMore(run, Open(main), opened1);
    var opened2 := opened1.(sessions := opened1.sessions[from := Session([event], ReadAt(w, from), false)]);
    run := OneMore(run, Open(from), opened2);
    var moved := opened1.(chats := w.chats[main := MovedRecord(w.chats[from])] - {from}, pending := map[main := [event]]);
    assert [] + [event] == [event];
    assert opened2.sessions - {from} == moved.sessions;
    assert opened2.pending[main := [event]] - {from} == moved.pending;
    run := OneMore(run, Move(from, main, true, true, true, true), moved);
  }

  /** A project's main is opened to be told something while it has no chat; a chat with a waiting
      event moves in as main; what is told replaces the list, and the event is lost. */
  lemma MovedInIsLost(w: World, from: Place, main: Place, event: Event, news: Observed) returns (run: Run)
    requires Init(w) && from in w.chats && main !in w.chats && main.1 == MessageIds.MAIN && w.pending == map[from := [event]]
    requires event !in w.told && news.wakes && !news.news && news.event != event
    ensures run.Valid() && |run.steps| == 6 && run.worlds[0] == w
    ensures Lost(run.worlds[6], event)
  {
    assert event in PendingAt(w, from);
    run := MovesIn(w, from, main, event);
    var moved := run.worlds[3];
    TellsOne(news);
    var told := Applied(UNWRITTEN, Tell([news], false));
    var acted := moved.(sessions := map[main := Session([], told, true)]);
    run := OneMore(run, Act(main, Tell([news], false)), acted);
    var wrote := acted.(chats := acted.chats[main := told], told := acted.told + EventsTold(told.lastTurn));
    run := OneMore(run, WriteChat(main), wrote);
    var shared := wrote.(pending := map[main := [news.event]], noted := wrote.noted + {news.event});
    WritesOne(wrote, main, told, event, news.event, shared);
    run := OneMore(run, WriteProject(main), shared);
  }

  lemma TellsOne(news: Observed)
    requires news.wakes && !news.news
    ensures Applied(UNWRITTEN, Tell([news], false)).pending == [news.event]
    ensures Applied(UNWRITTEN, Tell([news], false)).lastTurn == None
  {
    assert [news][..0] == [] && HeardOf([], false) == [] && HeardOf([news], false) == [] + [news.event];
  }

  lemma WritesOne(w: World, main: Place, told: Record, event: Event, other: Event, v: World)
    requires w.sessions == map[main := Session([], told, true)] && main in w.chats && w.chats[main] == told
    requires w.pending == map[main := [event]] && told.pending == [other]
    requires v == w.(pending := map[main := [other]], noted := w.noted + {other})
    ensures Next(w, WriteProject(main), v)
  {
    assert (set e | e in told.pending) == {other};
    assert w.pending[main := [other]] == v.pending;
  }
}
