/** Opening a chat as the steps it is (naming it, locking it, reading it and only then writing it),
    while other chats are created and moved: exactly when a write destroys a stored chat. */
module ChatOpens {
  import opened Options
  import opened MessageIds
  import opened ChatFiles
  import opened ChatHistory

  // How far a piece of work on a chat is, and what it last read or wrote of the chat.
  datatype Work = Named(place: Place) | Locked(place: Place) | Open(place: Place, seen: Option<Chat>)
  {
    predicate Holds(at: Place) { !Named? && place == at }
  }

  datatype Desk = Desk(files: Files, work: map<nat, Work>)

  // A move is made by the work that opened the chat it moves; a create and a move that name their
  // chat hold the service lock, and not the lock of the chat they store.
  datatype Step =
    | Name(worker: nat, named: Place)
    | Lock(worker: nat)
    | Read(worker: nat)
    | Write(worker: nat, chat: Chat)
    | Move(worker: nat, to: string, id: string, at: int, stop: nat)
    | Leave(worker: nat)
    | Create(scope: string, random: string, now: int)
    | Share(shared: string, project: Project)

  predicate By(step: Step, w: nat) { !step.Create? && !step.Share? && step.worker == w }

  // A random ID is one that no chat of the scope has, and no work has open.
  ghost predicate Fresh(d: Desk, place: Place) { place !in d.files.chats && forall w :: w in d.work ==> d.work[w].place != place }

  ghost predicate Allowed(d: Desk, step: Step) {
    var f := d.files;
    match step
    case Name(w, place) =>
      && w !in d.work && place.0 !in f.legacy
      && (place in f.chats || (place.1 == MAIN && ChatsOf(f, place.0) == {} && !ProjectOf(f, place.0).mainMoved))
    case Lock(w) => w in d.work && d.work[w].Named? && forall o :: o in d.work ==> !d.work[o].Holds(d.work[w].place)
    case Read(w) => w in d.work && d.work[w].Locked?
    case Write(w, _) => w in d.work && d.work[w].Open?
    case Move(w, to, random, _, _) =>
      && w in d.work && d.work[w].Open? && d.work[w].seen.Some? && d.work[w].place in f.chats
      && d.work[w].place.0 != to && to !in f.legacy && Fresh(d, (to, random))
    case Leave(w) => w in d.work
    case Create(scope, random, _) => scope !in f.legacy && Fresh(d, (scope, random))
    case Share(scope, project) => scope !in f.legacy && project.mainMoved == ProjectOf(f, scope).mainMoved
  }

  function After(d: Desk, step: Step): Desk
    requires !step.Create? && !step.Share? && !step.Name? ==> step.worker in d.work
    requires step.Move? ==> d.work[step.worker].place in d.files.chats
  {
    var f := d.files;
    match step
    case Name(w, place) => d.(work := d.work[w := Named(place)])
    case Lock(w) => d.(work := d.work[w := Locked(d.work[w].place)])
    case Read(w) => d.(work := d.work[w := Open(d.work[w].place, Lookup(f.chats, d.work[w].place))])
    case Write(w, chat) => Desk(ApplyOp(f, PutChat(d.work[w].place, chat)), d.work[w := Open(d.work[w].place, Some(chat))])
    case Move(w, to, random, now, stop) => Desk(Applied(f, Prefix(MovePlan(f, d.work[w].place, to, random, now), stop)), d.work - {w})
    case Leave(w) => d.(work := d.work - {w})
    case Create(scope, random, now) => d.(files := ApplyOp(f, PutChat((scope, FirstChat(f, scope, random)), NewChat(now))))
    case Share(scope, project) => d.(files := ApplyOp(f, PutProject(scope, project)))
  }

  ghost predicate Next(d: Desk, step: Step, e: Desk) { Allowed(d, step) && e == After(d, step) }

  // No two pieces of work hold one chat's lock.
  ghost predicate Exclusive(d: Desk) {
    forall v, w :: v in d.work && w in d.work && v != w && !d.work[v].Named? && !d.work[w].Named? ==> d.work[v].place != d.work[w].place
  }

  datatype Run = Run(desks: seq<Desk>, steps: seq<Step>)
  {
    ghost predicate Valid() {
      && |desks| == |steps| + 1 && desks[0].work == map[]
      && forall n {:trigger steps[n]} :: 0 <= n < |steps| ==> Next(desks[n], steps[n], desks[n + 1])
    }
  }

  lemma StepKeepsExclusive(d: Desk, step: Step, e: Desk)
    requires Exclusive(d) && Next(d, step, e)
    ensures Exclusive(e)
  {
  }

  lemma {:induction false} LocksExclude(run: Run, n: nat)
    requires run.Valid() && n < |run.desks|
    ensures Exclusive(run.desks[n])
  {
    if n > 0 {
      LocksExclude(run, n - 1);
      assert Next(run.desks[n - 1], run.steps[n - 1], run.desks[n]);
      StepKeepsExclusive(run.desks[n - 1], run.steps[n - 1], run.desks[n]);
    }
  }

  // A create or a move put a chat where none was.
  ghost predicate Stores(d: Desk, step: Step, e: Desk, place: Place) {
    (step.Create? || step.Move?) && place !in d.files.chats && place in e.files.chats
  }

  // A write now would replace a stored chat that its work never saw.
  predicate WouldDestroy(d: Desk, w: nat) {
    w in d.work && d.work[w].Open? && d.work[w].place in d.files.chats && d.work[w].seen != Some(d.files.chats[d.work[w].place])
  }

  lemma MovedFiles(f: Files, from: Place, to: string, random: string, now: int, stop: nat)
    requires from in f.chats && from.0 != to && (to, random) !in f.chats
    ensures var g, target := Applied(f, Prefix(MovePlan(f, from, to, random, now), stop)), (to, FirstChat(f, to, random));
      && target !in f.chats
      && forall place: Place :: place != from && place != target ==> Lookup(g.chats, place) == Lookup(f.chats, place)
  {
    var plan := MovePlan(f, from, to, random, now);
    var k := if stop < |plan| then stop else |plan|;
    assert Prefix(plan, stop) == plan[..k];
    MoveLosesNothing(f, from, to, random, now, k);
  }

  // While a chat is open, others change it only by storing it where it was not.
  lemma OthersAtPlace(d: Desk, step: Step, e: Desk, w: nat)
    requires Exclusive(d) && Next(d, step, e) && !By(step, w) && w in d.work && d.work[w].Open?
    ensures w in e.work && e.work[w] == d.work[w]
    ensures var place := d.work[w].place;
      if Stores(d, step, e, place) then place.1 == MAIN else Lookup(e.files.chats, place) == Lookup(d.files.chats, place)
  {
    var f, place := d.files, d.work[w].place;
    match step {
      case Move(v, to, random, now, stop) =>
        assert d.work[v].place != place && place != (to, random);
        MovedFiles(f, d.work[v].place, to, random, now, stop);
        assert e.files == Applied(f, Prefix(MovePlan(f, d.work[v].place, to, random, now), stop));
        if place != (to, FirstChat(f, to, random)) { assert Lookup(e.files.chats, place) == Lookup(f.chats, place); }
      case Create(scope, random, now) =>
        assert place != (scope, random);
        TargetIsNew(f, scope, random);
      case _ =>
    }
  }

  // Whether a create or a move stored the chat after step s and before step n.
  ghost predicate StoredBetween(run: Run, s: nat, n: nat, place: Place)
    requires run.Valid() && n < |run.desks|
  {
    exists k :: s < k < n && Stores(run.desks[k], run.steps[k], run.desks[k + 1], place)
  }

  lemma BetweenGrows(run: Run, s: nat, n: nat, place: Place)
    requires run.Valid() && s < n < |run.steps|
    ensures StoredBetween(run, s, n + 1, place) <==>
      StoredBetween(run, s, n, place) || Stores(run.desks[n], run.steps[n], run.desks[n + 1], place)
  {
  }

  lemma OthersInRun(run: Run, n: nat, w: nat)
    requires run.Valid() && n < |run.steps| && !By(run.steps[n], w)
    requires w in run.desks[n].work && run.desks[n].work[w].Open?
    ensures w in run.desks[n + 1].work && run.desks[n + 1].work[w] == run.desks[n].work[w]
    ensures var place, stores := run.desks[n].work[w].place, Stores(run.desks[n], run.steps[n], run.desks[n + 1], run.desks[n].work[w].place);
      && (stores ==> place.1 == MAIN && place !in run.desks[n].files.chats && place in run.desks[n + 1].files.chats)
      && (!stores ==> Lookup(run.desks[n + 1].files.chats, place) == Lookup(run.desks[n].files.chats, place))
  {
    LocksExclude(run, n);
    assert Next(run.desks[n], run.steps[n], run.desks[n + 1]);
    OthersAtPlace(run.desks[n], run.steps[n], run.desks[n + 1], w);
  }

  // What a piece of work saw at step s, and what became of the chat there before step n.
  predicate SeenThen(at: Desk, d: Desk, w: nat, wrote: bool, stored: bool) {
    && w in d.work && d.work[w].Open?
    && var place, seen := d.work[w].place, d.work[w].seen;
    && seen == Lookup(at.files.chats, place) && (wrote ==> seen.Some?)
    && (seen.Some? || !stored ==> Lookup(d.files.chats, place) == seen)
    && (stored ==> place.1 == MAIN && seen.None? && place in d.files.chats)
  }

  lemma SeenStays(at: Desk, d: Desk, e: Desk, w: nat, wrote: bool, before: bool, now: bool)
    requires SeenThen(at, d, w, wrote, before) && w in e.work && e.work[w] == d.work[w]
    requires now ==> d.work[w].place.1 == MAIN && d.work[w].place !in d.files.chats && d.work[w].place in e.files.chats
    requires !now ==> Lookup(e.files.chats, d.work[w].place) == Lookup(d.files.chats, d.work[w].place)
    ensures SeenThen(at, e, w, wrote, before || now)
  {
  }

  lemma SeenAtOnce(run: Run, s: nat, w: nat)
    requires run.Valid() && s < |run.steps| && (run.steps[s].Read? || run.steps[s].Write?) && run.steps[s].worker == w
    ensures SeenThen(run.desks[s + 1], run.desks[s + 1], w, run.steps[s].Write?, false)
  {
    assert Next(run.desks[s], run.steps[s], run.desks[s + 1]);
  }

  lemma {:induction false} SinceSeen(run: Run, s: nat, n: nat, w: nat)
    requires run.Valid() && s < n < |run.desks| && (run.steps[s].Read? || run.steps[s].Write?) && run.steps[s].worker == w
    requires forall k :: s < k < n ==> !By(run.steps[k], w)
    ensures w in run.desks[n].work
    ensures SeenThen(run.desks[s + 1], run.desks[n], w, run.steps[s].Write?, StoredBetween(run, s, n, run.desks[n].work[w].place))
  {
    if n == s + 1 {
      SeenAtOnce(run, s, w);
    } else {
      SinceSeen(run, s, n - 1, w);
      var d, place := run.desks[n - 1], run.desks[n - 1].work[w].place;
      OthersInRun(run, n - 1, w);
      BetweenGrows(run, s, n - 1, place);
      SeenStays(run.desks[s + 1], d, run.desks[n], w, run.steps[s].Write?, StoredBetween(run, s, n - 1, place), Stores(d, run.steps[n - 1], run.desks[n], place));
    }
  }

  /** Over every run, a write destroys a stored chat exactly when the read before it found none there
      and a create or a move stored one in between; that one is its scope's main. A chat stored
      before the read is read and kept, and a write after a write never destroys one. */
  lemma WriteDestroysExactly(run: Run, s: nat, n: nat, w: nat)
    requires run.Valid() && s < n < |run.desks| && (run.steps[s].Read? || run.steps[s].Write?) && run.steps[s].worker == w
    requires forall k :: s < k < n ==> !By(run.steps[k], w)
    ensures w in run.desks[n].work
    ensures var place := run.desks[n].work[w].place;
      WouldDestroy(run.desks[n], w) <==> (place !in run.desks[s + 1].files.chats && StoredBetween(run, s, n, place))
    ensures WouldDestroy(run.desks[n], w) ==> run.steps[s].Read? && run.desks[n].work[w].place.1 == MAIN
  {
    SinceSeen(run, s, n, w);
  }

  /******* A run that loses a chat *******/

  lemma OneMore(run: Run, step: Step) returns (longer: Run)
    requires run.Valid() && Allowed(run.desks[|run.steps|], step)
    ensures longer.Valid() && longer == Run(run.desks + [After(run.desks[|run.steps|], step)], run.steps + [step])
  {
    longer := Run(run.desks + [After(run.desks[|run.steps|], step)], run.steps + [step]);
    forall n {:trigger longer.steps[n]} | 0 <= n < |longer.steps| ensures Next(longer.desks[n], longer.steps[n], longer.desks[n + 1]) {
      if n < |run.steps| { assert run.steps[n] == longer.steps[n]; }
    }
  }

  // Main is read as not there; then a chat is opened elsewhere to be moved in.
  lemma BothOpen(f: Files, from: Place, to: string) returns (run: Run)
    requires from in f.chats && from.0 != to && from.0 !in f.legacy && to !in f.legacy && ChatsOf(f, to) == {} && !ProjectOf(f, to).mainMoved
    ensures run.Valid() && |run.steps| == 6 && run.desks[0] == Desk(f, map[])
    ensures run.steps[2] == Read(0) && run.desks[6] == Desk(f, map[0 := Open((to, MAIN), None), 1 := Open(from, Some(f.chats[from]))])
  {
    assert (to, MAIN) in f.chats ==> MAIN in ChatsOf(f, to);
    run := Run([Desk(f, map[])], []);
    run := OneMore(run, Name(0, (to, MAIN)));
    run := OneMore(run, Lock(0));
    run := OneMore(run, Read(0));
    run := OneMore(run, Name(1, from));
    run := OneMore(run, Lock(1));
    run := OneMore(run, Read(1));
  }

  /** Main of a scope without chats is named, locked and read as not there; a chat moved in then is
      main, for all the lock; the first write replaces it, and it is nowhere else. */
  lemma FirstWriteDestroys(f: Files, from: Place, to: string, random: string, now: int, first: Chat) returns (run: Run)
    requires from in f.chats && from.0 != to && from.0 !in f.legacy && to !in f.legacy && ChatsOf(f, to) == {} && !ProjectOf(f, to).mainMoved
    requires random != MAIN
    ensures run.Valid() && |run.steps| == 8 && run.desks[0] == Desk(f, map[])
    ensures WouldDestroy(run.desks[7], 0) && Lookup(run.desks[7].files.chats, (to, MAIN)) == Some(MovedChat(f.chats[from], now))
    ensures run.steps[7] == Write(0, first) && run.desks[8].files.chats == f.chats - {from} + map[(to, MAIN) := first]
  {
    run := BothOpen(f, from, to);
    var moved := MovesToMain(run.desks[6], from, to, random, now);
    run := OneMore(run, Move(1, to, random, now, 4));
    run := OneMore(run, Write(0, first));
  }

  lemma MovesToMain(d: Desk, from: Place, to: string, random: string, now: int) returns (e: Desk)
    requires var f := d.files; from in f.chats && from.0 != to && to !in f.legacy && ChatsOf(f, to) == {} && !ProjectOf(f, to).mainMoved
    requires d.work == map[0 := Open((to, MAIN), None), 1 := Open(from, Some(d.files.chats[from]))] && random != MAIN
    ensures Allowed(d, Move(1, to, random, now, 4)) && e == After(d, Move(1, to, random, now, 4))
    ensures e.work == map[0 := Open((to, MAIN), None)]
    ensures e.files.chats == d.files.chats[(to, MAIN) := MovedChat(d.files.chats[from], now)] - {from}
  {
    var f, plan := d.files, MovePlan(d.files, from, to, random, now);
    assert (to, random) in f.chats ==> random in ChatsOf(f, to);
    MoveProgress(f, from, to, random, now, |plan|);
    assert plan[..|plan|] == plan && Prefix(plan, 4) == plan;
    e := After(d, Move(1, to, random, now, 4));
    assert e.files == Moving(f, from, (to, MAIN), now, ProgressAfter(f, from, |plan|));
  }

  // A chat is named by one and opened by another.
  lemma OneNames(f: Files, from: Place) returns (run: Run)
    requires from in f.chats && from.0 !in f.legacy
    ensures run.Valid() && |run.steps| == 4 && run.desks[0] == Desk(f, map[])
    ensures run.desks[4] == Desk(f, map[0 := Named(from), 1 := Open(from, Some(f.chats[from]))])
  {
    run := Run([Desk(f, map[])], []);
    run := OneMore(run, Name(0, from));
    run := OneMore(run, Name(1, from));
    run := OneMore(run, Lock(1));
    run := OneMore(run, Read(1));
  }

  lemma MovesAway(d: Desk, from: Place, to: string, random: string, now: int) returns (stop: nat)
    requires var f := d.files; from in f.chats && from.0 != to && to !in f.legacy && (to, random) !in f.chats
    requires d.work == map[0 := Named(from), 1 := Open(from, Some(d.files.chats[from]))]
    ensures Allowed(d, Move(1, to, random, now, stop))
    ensures var e := After(d, Move(1, to, random, now, stop)); e.work == map[0 := Named(from)] && from !in e.files.chats
  {
    var plan := MovePlan(d.files, from, to, random, now);
    stop := |plan|;
    MoveLosesNothing(d.files, from, to, random, now, stop);
    assert plan[..stop] == plan && Prefix(plan, stop) == plan;
  }

  // A chat is moved away while other work has only named it.
  lemma MovesNamed(f: Files, from: Place, to: string, random: string, now: int) returns (run: Run)
    requires from in f.chats && from.0 != to && from.0 !in f.legacy && to !in f.legacy && (to, random) !in f.chats
    ensures run.Valid() && |run.steps| == 5 && run.desks[0] == Desk(f, map[]) && run.steps[4].Move?
    ensures var d := run.desks[5]; d.work == map[0 := Named(from)] && from !in d.files.chats
  {
    run := OneNames(f, from);
    var stop := MovesAway(run.desks[4], from, to, random, now);
    run := OneMore(run, Move(1, to, random, now, stop));
  }

  /** A chat that moves away between being named and being locked reads as not there, and is written
      again at the place it left. */
  lemma LeftPlaceReturns(f: Files, from: Place, to: string, random: string, now: int, first: Chat) returns (run: Run)
    requires from in f.chats && from.0 != to && from.0 !in f.legacy && to !in f.legacy && (to, random) !in f.chats
    ensures run.Valid() && |run.steps| == 8 && run.desks[0] == Desk(f, map[])
    ensures from !in run.desks[5].files.chats && Lookup(run.desks[8].files.chats, from) == Some(first)
  {
    run := MovesNamed(f, from, to, random, now);
    run := OneMore(run, Lock(0));
    run := OneMore(run, Read(0));
    run := OneMore(run, Write(0, first));
  }
}
