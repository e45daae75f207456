/** The files of every scope's chats, and the operations on them that a stop can cut short:
    migrating a scope's single conversation and moving a chat to another scope. Each file is
    written or removed in one step. */
module ChatFiles {
  import opened Options
  import opened MessageIds

  // A place for a chat: its scope and its ID there.
  type Place = (string, string)

  datatype Message = Message(id: string, text: string, at: int)

  // turn is what a turn left behind (the last prompt, a retry, a sign-in, a failure, the provider
  // session, the focus), as one JSON text.
  datatype Chat = Chat(
    running: bool, archived: bool, createdAt: int, usedAt: int, updatedAt: int,
    messages: seq<Message>, actions: seq<string>, queued: seq<string>, turn: Option<string>)

  datatype Project = Project(shared: string, pending: map<string, seq<string>>, mainMoved: bool, updatedAt: int)

  datatype Legacy = Legacy(
    scope: string, running: bool, messages: seq<Message>, actions: seq<string>, queued: seq<string>,
    turn: Option<string>, shared: string, pending: seq<string>, updatedAt: int)

  datatype Files = Files(legacy: map<string, Legacy>, projects: map<string, Project>, chats: map<Place, Chat>)

  datatype FileOp =
    | PutChat(place: Place, chat: Chat) | PutProject(scope: string, project: Project)
    | RemoveLegacy(scope: string) | RemoveChat(place: Place)

  function ApplyOp(f: Files, op: FileOp): Files {
    match op
    case PutChat(place, chat) => f.(chats := f.chats[place := chat])
    case PutProject(scope, project) => f.(projects := f.projects[scope := project])
    case RemoveLegacy(scope) => f.(legacy := f.legacy - {scope})
    case RemoveChat(place) => f.(chats := f.chats - {place})
  }

  function Applied(f: Files, ops: seq<FileOp>): Files {
    if ops == [] then f else ApplyOp(Applied(f, ops[..|ops| - 1]), ops[|ops| - 1])
  }

  // What is done of a plan when the process stops after so many file operations.
  function Prefix(plan: seq<FileOp>, budget: nat): seq<FileOp> {
    if budget < |plan| then plan[..budget] else plan
  }

  const NO_PROJECT := Project("", map[], false, 0)

  function ProjectOf(f: Files, scope: string): Project {
    if scope in f.projects then f.projects[scope] else NO_PROJECT
  }

  function PendingIn(project: Project, id: string): seq<string> {
    if id in project.pending then project.pending[id] else []
  }

  function Pending(f: Files, place: Place): seq<string> { PendingIn(ProjectOf(f, place.0), place.1) }

  function ChatsOf(f: Files, scope: string): set<string> {
    set place | place in f.chats && place.0 == scope :: place.1
  }

  /******* Migration *******/

  function MigratedChat(l: Legacy): Chat {
    Chat(l.running, false, if l.messages == [] then l.updatedAt else l.messages[0].at, l.updatedAt, l.updatedAt,
         l.messages, l.actions, l.queued, l.turn)
  }

  function MigratedProject(l: Legacy): Project {
    Project(l.shared, if l.pending == [] then map[] else map[MAIN := l.pending], false, l.updatedAt)
  }

  // A single conversation that cannot be read as its scope's stops every read of the scope.
  predicate Unreadable(f: Files, scope: string) {
    scope in f.legacy && scope !in f.projects && f.legacy[scope].scope != scope
  }

  function MigrationPlan(f: Files, scope: string): seq<FileOp> {
    if scope !in f.legacy || Unreadable(f, scope) then []
    else if scope in f.projects then [RemoveLegacy(scope)]
    else [PutChat((scope, MAIN), MigratedChat(f.legacy[scope])), PutProject(scope, MigratedProject(f.legacy[scope])), RemoveLegacy(scope)]
  }

  function Migrated(f: Files, scope: string): Files { Applied(f, MigrationPlan(f, scope)) }

  /******* Naming and moving *******/

  function FirstChat(f: Files, scope: string, random: string): string {
    if ChatsOf(f, scope) != {} || ProjectOf(f, scope).mainMoved then random else MAIN
  }

  function NewChat(now: int): Chat { Chat(false, false, now, now, now, [], [], [], None) }

  function MovedChat(chat: Chat, now: int): Chat {
    chat.(running := false, archived := false, usedAt := now, updatedAt := now, turn := None)
  }

  function MovePlan(f: Files, from: Place, to: string, random: string, now: int): seq<FileOp>
    requires from in f.chats
  {
    var id := FirstChat(f, to, random);
    var source, target := ProjectOf(f, from.0), ProjectOf(f, to);
    var events := PendingIn(source, from.1);
    var moved := source.mainMoved || from.1 == MAIN;
    [PutChat((to, id), MovedChat(f.chats[from], now))]
    + (if events == [] then []
       else [PutProject(to, target.(pending := target.pending[id := PendingIn(target, id) + events], updatedAt := now))])
    + (if events == [] && moved == source.mainMoved then []
       else [PutProject(from.0, source.(
         pending := if events == [] then source.pending else source.pending - {from.1}, mainMoved := moved, updatedAt := now))])
    + [RemoveChat(from)]
  }

  lemma {:induction false} AppliedPlus(f: Files, a: seq<FileOp>, b: seq<FileOp>)
    ensures Applied(f, a + b) == Applied(Applied(f, a), b)
  {
    if b == [] {
      assert a + b == a;
    } else {
      AppliedPlus(f, a, b[..|b| - 1]);
      assert (a + b)[..|a + b| - 1] == a + b[..|b| - 1];
    }
  }

  lemma AppliedThree(f: Files, one: FileOp, two: FileOp, three: FileOp)
    ensures Applied(f, [one]) == ApplyOp(f, one)
    ensures Applied(f, [one, two]) == ApplyOp(ApplyOp(f, one), two)
    ensures Applied(f, [one, two, three]) == ApplyOp(ApplyOp(ApplyOp(f, one), two), three)
  {
    assert [one, two][..1] == [one] && [one][..0] == [] && [one, two, three][..2] == [one, two];
  }

  // Migrating a scope writes or removes nothing of another.
  lemma MigratedLeaves(f: Files, scope: string)
    ensures !Unreadable(f, scope) ==> scope !in Migrated(f, scope).legacy
    ensures forall other :: other != scope ==> Lookup(Migrated(f, scope).legacy, other) == Lookup(f.legacy, other)
    ensures forall other :: other != scope ==> Lookup(Migrated(f, scope).projects, other) == Lookup(f.projects, other)
    ensures forall place: Place :: place != (scope, MAIN) ==> Lookup(Migrated(f, scope).chats, place) == Lookup(f.chats, place)
  {
    var plan := MigrationPlan(f, scope);
    if |plan| == 3 {
      AppliedThree(f, plan[0], plan[1], plan[2]);
      assert plan == [plan[0], plan[1], plan[2]];
    } else if |plan| == 1 {
      AppliedThree(f, plan[0], plan[0], plan[0]);
      assert plan == [plan[0]];
    }
  }

  // The whole of a move: the target's migration comes first.
  function FullMovePlan(f: Files, from: Place, to: string, random: string, now: int): seq<FileOp>
    requires from in f.chats && from.0 != to
  {
    MigratedLeaves(f, to);
    assert Lookup(Migrated(f, to).chats, from) == Lookup(f.chats, from);
    MigrationPlan(f, to) + MovePlan(Migrated(f, to), from, to, random, now)
  }

  /** The store itself. The process stops once it has done as many file operations as its budget. */
  class Store {
    var legacy: map<string, Legacy>
    var projects: map<string, Project>
    var chats: map<Place, Chat>
    var budget: nat

    function Value(): Files
      reads this
    {
      Files(legacy, projects, chats)
    }

    method Do(op: FileOp) returns (done: bool)
      modifies this
      ensures done == (old(budget) > 0)
      ensures done ==> Value() == ApplyOp(old(Value()), op) && budget == old(budget) - 1
      ensures !done ==> Value() == old(Value()) && budget == 0
    {
      if budget == 0 { return false; }
      budget := budget - 1;
      match op {
        case PutChat(place, chat) => chats := chats[place := chat];
        case PutProject(scope, project) => projects := projects[scope := project];
        case RemoveLegacy(scope) => legacy := legacy - {scope};
        case RemoveChat(place) => chats := chats - {place};
      }
      return true;
    }

    method Migrate(scope: string) returns (readable: bool, done: bool)
      modifies this
      ensures var plan := MigrationPlan(old(Value()), scope);
        && readable == !Unreadable(old(Value()), scope)
        && Value() == Applied(old(Value()), Prefix(plan, old(budget))) && done == (|plan| <= old(budget))
        && budget == if done then old(budget) - |plan| else 0
    {
      ghost var begun, plan := Value(), MigrationPlan(Value(), scope);
      if scope !in legacy { return true, true; }
      if scope in projects {
        done := Do(RemoveLegacy(scope));
        assert plan[..0] == [];
        return true, done;
      }
      var l := legacy[scope];
      if l.scope != scope { return false, true; }
      assert plan[..0] == [] && plan[..1][..0] == [] && plan[..2][..1] == plan[..1];
      var chat := Chat(l.running, false, l.updatedAt, l.updatedAt, l.updatedAt, l.messages, l.actions, l.queued, l.turn);
      if |l.messages| > 0 { chat := chat.(createdAt := l.messages[0].at); }
      done := Do(PutChat((scope, MAIN), chat));
      if !done { return true, false; }
      assert Value() == Applied(begun, plan[..1]);
      var project := Project(l.shared, map[], false, l.updatedAt);
      if |l.pending| > 0 { project := project.(pending := map[MAIN := l.pending]); }
      done := Do(PutProject(scope, project));
      if !done { return true, false; }
      assert Value() == Applied(begun, plan[..2]);
      done := Do(RemoveLegacy(scope));
      return true, done;
    }

    // Whoever names a chat has had the scope migrated.
    method NameFirst(scope: string, random: string) returns (id: string)
      ensures id == FirstChat(Value(), scope, random)
    {
      if ChatsOf(Value(), scope) != {} { return random; }
      if scope in projects && projects[scope].mainMoved { return random; }
      return MAIN;
    }

    /** The scope's most recently used open chat: main, not yet written, while it has none, and
        a new one once every chat is archived. */
    method Recent(scope: string, random: string, now: int) returns (id: string, done: bool)
      requires (scope, random) !in chats
      modifies this
      ensures (exists open :: open in old(chats) && open.0 == scope && !old(chats)[open].archived) ==>
        && done && Value() == old(Value()) && (scope, id) in old(chats) && !old(chats)[(scope, id)].archived
        && forall open :: open in old(chats) && open.0 == scope && !old(chats)[open].archived ==>
          old(chats)[open].usedAt <= old(chats)[(scope, id)].usedAt
      ensures (forall open :: open in old(chats) && open.0 == scope ==> old(chats)[open].archived) ==>
        && id == FirstChat(old(Value()), scope, random)
        && (ChatsOf(old(Value()), scope) == {} && id == MAIN ==> done && Value() == old(Value()))
        && (ChatsOf(old(Value()), scope) != {} || id != MAIN ==>
             done == (old(budget) > 0)
             && Value() == Applied(old(Value()), Prefix([PutChat((scope, id), NewChat(now))], old(budget))))
    {
      var todo := set place | place in chats && place.0 == scope && !chats[place].archived;
      ghost var open := todo;
      var recent: Option<Place> := None;
      while todo != {}
        invariant todo <= open && (recent.None? ==> todo == open)
        invariant recent.Some? ==> recent.value in open
        invariant recent.Some? ==> forall place :: place in open - todo ==> chats[place].usedAt <= chats[recent.value].usedAt
      {
        var place :| place in todo;
        if recent.None? || chats[place].usedAt > chats[recent.value].usedAt { recent := Some(place); }
        todo := todo - {place};
      }
      if recent.Some? {
        assert recent.value in open && recent.value == (scope, recent.value.1);
        return recent.value.1, true;
      }
      assert forall place :: place in chats && place.0 == scope && !chats[place].archived ==> place in open;
      id := NameFirst(scope, random);
      if ChatsOf(Value(), scope) == {} && id == MAIN { return id, true; }
      done := Do(PutChat((scope, id), NewChat(now)));
    }

    /** Moves a chat, whose caller holds its lock and has read its scope, into scope to. */
    method Move(from: Place, to: string, random: string, now: int) returns (id: string, readable: bool, done: bool)
      requires from in chats && from.0 != to && from.0 !in legacy
      modifies this
      ensures readable == !Unreadable(old(Value()), to)
      ensures !readable ==> Value() == old(Value())
      ensures readable ==>
        var plan := FullMovePlan(old(Value()), from, to, random, now);
        Value() == Applied(old(Value()), Prefix(plan, old(budget))) && done == (|plan| <= old(budget))
      ensures readable && done ==> id == FirstChat(Migrated(old(Value()), to), to, random)
    {
      ghost var begun, first, plan := Value(), MigrationPlan(Value(), to), FullMovePlan(Value(), from, to, random, now);
      MigratedLeaves(begun, to);
      assert Lookup(Migrated(begun, to).chats, from) == Lookup(begun.chats, from);
      id := MAIN;
      readable, done := Migrate(to);
      if !readable || !done {
        assert done || Prefix(plan, old(budget)) == Prefix(first, old(budget));
        return;
      }
      ghost var left, second := budget, MovePlan(Value(), from, to, random, now);
      id, done := Carry(from, to, random, now);
      AppliedPlus(begun, first, Prefix(second, left));
      assert Prefix(plan, old(budget)) == first + Prefix(second, left);
    }

    method Carry(from: Place, to: string, random: string, now: int) returns (id: string, done: bool)
      requires from in chats && from.0 != to
      modifies this
      ensures var plan := MovePlan(old(Value()), from, to, random, now);
        && Value() == Applied(old(Value()), Prefix(plan, old(budget))) && done == (|plan| <= old(budget))
      ensures id == FirstChat(old(Value()), to, random)
    {
      ghost var begun, plan, first := Value(), MovePlan(Value(), from, to, random, now), budget;
      ghost var k := 0;
      id := NameFirst(to, random);
      var chat := chats[from];
      chat := chat.(running := false, archived := false, usedAt := now, updatedAt := now, turn := None);
      done := Do(PutChat((to, id), chat));
      if !done { assert plan[..0] == []; return id, false; }
      k := 1;
      assert plan[..1] == [plan[0]] && Applied(begun, []) == begun;
      assert Value() == Applied(begun, plan[..1]);
      var source := if from.0 in projects then projects[from.0] else NO_PROJECT;
      var events := PendingIn(source, from.1);
      if |events| > 0 {
        var target := if to in projects then projects[to] else NO_PROJECT;
        target := target.(pending := target.pending[id := PendingIn(target, id) + events], updatedAt := now);
        done := Do(PutProject(to, target));
        if !done { return id, false; }
        k := 2;
        assert plan[..2][..1] == plan[..1];
        source := source.(pending := source.pending - {from.1});
      }
      assert Value() == Applied(begun, plan[..k]) && budget == first - k;
      if |events| > 0 || (from.1 == MAIN && !source.mainMoved) {
        source := source.(mainMoved := source.mainMoved || from.1 == MAIN, updatedAt := now);
        done := Do(PutProject(from.0, source));
        if !done { return id, false; }
        assert plan[..k + 1][..k] == plan[..k];
        k := k + 1;
      }
      assert Value() == Applied(begun, plan[..k]) && k + 1 == |plan|;
      done := Do(RemoveChat(from));
      assert plan[..|plan| - 1] == plan[..k];
      assert plan == plan[..|plan|];
    }
  }
}
