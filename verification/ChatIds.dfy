/** Every run of creating, writing, moving and migrating chats, in which a stop may cut a move or
    a migration short: no place for a chat is given out twice, and no message ID is. */
module ChatIds {
  import opened Options
  import opened MessageIds
  import opened ChatFiles
  import opened ChatHistory

  datatype Mint = Mint(place: Place, index: nat)

  /** The files, every place that ever held a chat, and every message ever written, in order. */
  datatype World = World(files: Files, given: set<Place>, minted: seq<Mint>)

  // Naming a chat, locking it and its first write are one step. Write stores a chat with what
  // it said since; Share stores the project state of a scope.
  datatype Step =
    | Migrate(migrating: string, budget: nat)
    | Create(scope: string, random: string, now: int)
    | Write(place: Place, chat: Chat)
    | Share(shared: string, project: Project)
    | Move(from: Place, to: string, id: string, at: int, stop: nat)

  // Sixteen random hexadecimal digits are taken to be ones no chat ever had.
  ghost predicate Unused(w: World, id: string) {
    IsChat(id) && id != MAIN && forall place :: place in w.given ==> place.1 != id
  }

  function MessagesAt(f: Files, place: Place): seq<Message> {
    if place in f.chats then f.chats[place].messages else []
  }

  predicate Extends(place: Place, before: seq<Message>, after: seq<Message>) {
    && |before| <= |after|
    && (forall i :: 0 <= i < |before| ==> after[i].id == before[i].id)
    && (forall i :: |before| <= i < |after| ==> after[i].id == MessageId(place.0, place.1, i))
  }

  function Mints(place: Place, first: nat, end: nat): (mints: seq<Mint>)
    requires first <= end
    ensures |mints| == end - first
    ensures forall k :: 0 <= k < |mints| ==> mints[k] == Mint(place, first + k)
  {
    if first == end then [] else Mints(place, first, end - 1) + [Mint(place, end - 1)]
  }

  ghost predicate Allowed(w: World, step: Step) {
    var f := w.files;
    match step
    case Migrate(scope, _) => true
    case Create(scope, random, _) => IsScope(scope) && scope !in f.legacy && Unused(w, random)
    case Write(place, chat) =>
      && IsScope(place.0) && place.0 !in f.legacy
      && (place in f.chats || (place.1 == MAIN && ChatsOf(f, place.0) == {} && !ProjectOf(f, place.0).mainMoved))
      && Extends(place, MessagesAt(f, place), chat.messages)
    case Share(scope, project) => scope !in f.legacy && project.mainMoved == ProjectOf(f, scope).mainMoved
    case Move(from, to, random, _, _) =>
      from in f.chats && from.0 != to && IsScope(to) && from.0 !in f.legacy && to !in f.legacy && Unused(w, random)
  }

  function FilesAfter(f: Files, step: Step): Files
    requires step.Move? ==> step.from in f.chats
  {
    match step
    case Migrate(scope, budget) => Applied(f, Prefix(MigrationPlan(f, scope), budget))
    case Create(scope, random, now) => ApplyOp(f, PutChat((scope, FirstChat(f, scope, random)), NewChat(now)))
    case Write(place, chat) => ApplyOp(f, PutChat(place, chat))
    case Share(scope, project) => ApplyOp(f, PutProject(scope, project))
    case Move(from, to, random, now, stop) => Applied(f, Prefix(MovePlan(f, from, to, random, now), stop))
  }

  ghost predicate Next(w: World, step: Step, v: World) {
    && Allowed(w, step)
    && v.files == FilesAfter(w.files, step)
    && v.given == w.given + v.files.chats.Keys
    && v.minted == w.minted +
         if step.Write? then Mints(step.place, |MessagesAt(w.files, step.place)|, |step.chat.messages|) else []
  }

  // Before chats there were single conversations, whose messages were numbered as main's are.
  ghost predicate Init(w: World) {
    && w.files.projects == map[] && w.files.chats == map[]
    && (forall scope :: scope in w.files.legacy ==> IsScope(scope) && w.files.legacy[scope].scope == scope)
    && w.given == (set scope | scope in w.files.legacy :: (scope, MAIN))
    && (forall m :: m in w.minted ==>
         m.place in w.given && m.index < |w.files.legacy[m.place.0].messages|)
    && Distinct(w.minted)
  }

  ghost predicate Distinct(minted: seq<Mint>) {
    forall i, j :: 0 <= i < j < |minted| ==> minted[i] != minted[j]
  }

  /******* The invariant *******/

  predicate HasHome(f: Files, scope: string) {
    (scope, MAIN) in f.chats || ProjectOf(f, scope).mainMoved || scope in f.legacy
  }

  // A conversation not yet migrated is its scope's only chat, written at most as it will be.
  ghost predicate LegacyOk(w: World, scope: string)
    requires scope in w.files.legacy
  {
    && w.files.legacy[scope].scope == scope && (scope, MAIN) in w.given
    && !ProjectOf(w.files, scope).mainMoved
    && (scope in w.files.projects ==> (scope, MAIN) in w.files.chats)
    && ((scope, MAIN) in w.files.chats ==> w.files.chats[(scope, MAIN)].messages == w.files.legacy[scope].messages)
    && (forall place :: place in w.given && place.0 == scope ==> place.1 == MAIN)
  }

  ghost predicate PlaceOk(w: World, place: Place) {
    IsScope(place.0) && IsChat(place.1) && HasHome(w.files, place.0)
  }

  ghost predicate MintOk(w: World, m: Mint) {
    && m.place in w.given
    && (m.place in w.files.chats ==> m.index < |w.files.chats[m.place].messages|)
    && (m.place.0 in w.files.legacy ==> m.index < |w.files.legacy[m.place.0].messages|)
  }

  ghost predicate PlacesOk(w: World) {
    && w.files.chats.Keys <= w.given
    && (forall place :: place in w.given ==> PlaceOk(w, place))
    && (forall scope :: scope in w.files.legacy ==> LegacyOk(w, scope))
  }

  ghost predicate Invariant(w: World) {
    PlacesOk(w) && Distinct(w.minted) && forall m :: m in w.minted ==> MintOk(w, m)
  }

  /******* What each step keeps *******/

  // A step other than a migration puts chats only where none ever was, or where one is.
  ghost predicate NewPlaces(w: World, v: World) {
    forall place :: place in v.files.chats && place !in w.files.chats ==> place !in w.given
  }

  lemma NamedIsNew(w: World, scope: string, random: string)
    requires PlacesOk(w) && IsScope(scope) && scope !in w.files.legacy && Unused(w, random)
    ensures (scope, FirstChat(w.files, scope, random)) !in w.given && IsChat(FirstChat(w.files, scope, random))
    ensures FirstChat(w.files, scope, random) == MAIN || HasHome(w.files, scope)
  {
    if ChatsOf(w.files, scope) != {} {
      var id :| id in ChatsOf(w.files, scope);
      assert (scope, id) in w.given && PlaceOk(w, (scope, id));
    }
    assert (scope, MAIN) in w.given ==> PlaceOk(w, (scope, MAIN));
    assert (scope, MAIN) in w.files.chats ==> MAIN in ChatsOf(w.files, scope);
  }

  lemma CreateKeepsPlaces(w: World, step: Step, v: World)
    requires PlacesOk(w) && Next(w, step, v) && (step.Create? || step.Write? || step.Share?)
    ensures PlacesOk(v) && NewPlaces(w, v)
  {
    match step {
      case Create(scope, random, _) => NamedIsNew(w, scope, random);
      case Write(place, _) =>
        if place !in w.files.chats {
          assert (place.0, MAIN) in w.given ==> PlaceOk(w, (place.0, MAIN));
        }
      case _ =>
    }
    forall place | place in v.given ensures PlaceOk(v, place) {
      if place in w.given { assert PlaceOk(w, place); }
    }
    forall scope | scope in v.files.legacy ensures LegacyOk(v, scope) { assert LegacyOk(w, scope); }
  }

  lemma PrefixIs(plan: seq<FileOp>, budget: nat)
    ensures Prefix(plan, budget) == plan[..if budget < |plan| then budget else |plan|]
  {
  }

  // What a move leaves, stopped or not: main is marked moved before its file goes.
  ghost predicate MoveLeft(f: Files, g: Files, from: Place, target: Place) {
    && g.legacy == f.legacy
    && (forall scope :: scope != from.0 && scope != target.0 ==> Lookup(g.projects, scope) == Lookup(f.projects, scope))
    && g.chats.Keys <= f.chats.Keys + {target}
    && (forall place :: place in f.chats && place != from ==> place in g.chats)
    && (from !in g.chats ==> from.1 == MAIN ==> ProjectOf(g, from.0).mainMoved)
    && (target in g.chats && from in f.chats ==> |g.chats[target].messages| == |f.chats[from].messages|)
    && (forall scope :: ProjectOf(f, scope).mainMoved ==> ProjectOf(g, scope).mainMoved)
    && (forall scope :: ProjectOf(g, scope).mainMoved && !ProjectOf(f, scope).mainMoved ==> scope == from.0)
    && (forall place :: place in f.chats && place in g.chats && place != target ==> g.chats[place] == f.chats[place])
  }

  lemma MovingLeft(f: Files, from: Place, target: Place, now: int, k: nat)
    requires from in f.chats && from.0 != target.0 && target !in f.chats
    ensures MoveLeft(f, Moving(f, from, target, now, ProgressAfter(f, from, k)), from, target)
  {
  }

  lemma MoveLeaves(w: World, step: Step, v: World)
    requires step.Move? && Allowed(w, step) && v.files == FilesAfter(w.files, step)
    requires (step.to, FirstChat(w.files, step.to, step.id)) !in w.files.chats
    ensures MoveLeft(w.files, v.files, step.from, (step.to, FirstChat(w.files, step.to, step.id)))
  {
    var f, plan := w.files, MovePlan(w.files, step.from, step.to, step.id, step.at);
    var k := if step.stop < |plan| then step.stop else |plan|;
    PrefixIs(plan, step.stop);
    MoveProgress(f, step.from, step.to, step.id, step.at, k);
    MovingLeft(f, step.from, (step.to, FirstChat(f, step.to, step.id)), step.at, k);
  }

  lemma MovedPlacesOk(w: World, v: World, from: Place, target: Place)
    requires PlacesOk(w) && MoveLeft(w.files, v.files, from, target) && v.given == w.given + v.files.chats.Keys
    requires from.0 !in w.files.legacy && target.0 !in w.files.legacy
    requires target !in w.given && IsScope(target.0) && IsChat(target.1) && (target.1 == MAIN || HasHome(w.files, target.0))
    ensures PlacesOk(v) && NewPlaces(w, v)
  {
    forall place | place in v.given ensures PlaceOk(v, place) {
      if place in w.given { assert PlaceOk(w, place); }
    }
    forall scope | scope in v.files.legacy ensures LegacyOk(v, scope) {
      assert LegacyOk(w, scope);
      assert Lookup(v.files.projects, scope) == Lookup(w.files.projects, scope);
    }
  }

  lemma MoveKeepsPlaces(w: World, step: Step, v: World)
    requires PlacesOk(w) && Next(w, step, v) && step.Move?
    ensures PlacesOk(v) && NewPlaces(w, v)
  {
    NamedIsNew(w, step.to, step.id);
    MoveLeaves(w, step, v);
    MovedPlacesOk(w, v, step.from, (step.to, FirstChat(w.files, step.to, step.id)));
  }

  lemma MigrateLeaves(w: World, step: Step, v: World)
    requires step.Migrate? && v.files == FilesAfter(w.files, step)
    requires step.migrating in w.files.legacy ==> LegacyOk(w, step.migrating)
    ensures var s, f, g := step.migrating, w.files, v.files;
      && (s !in f.legacy ==> g == f)
      && (forall scope :: scope != s ==> Lookup(g.legacy, scope) == Lookup(f.legacy, scope))
      && (forall scope :: scope != s ==> Lookup(g.projects, scope) == Lookup(f.projects, scope))
      && (forall place: Place :: place != (s, MAIN) ==> Lookup(g.chats, place) == Lookup(f.chats, place))
      && (s in f.legacy ==>
           && ProjectOf(g, s).mainMoved == ProjectOf(f, s).mainMoved
           && (s in g.legacy ==> g.legacy[s] == f.legacy[s])
           && ((s, MAIN) in f.chats || s !in g.legacy || s in g.projects ==> (s, MAIN) in g.chats)
           && ((s, MAIN) in g.chats ==> g.chats[(s, MAIN)].messages == f.legacy[s].messages))
  {
    var f, plan := w.files, MigrationPlan(w.files, step.migrating);
    PrefixIs(plan, step.budget);
    if |plan| == 3 {
      AppliedStep(f, plan, 0);
      AppliedStep(f, plan, 1);
      AppliedStep(f, plan, 2);
      assert plan[..3] == plan;
    } else if |plan| == 1 {
      AppliedStep(f, plan, 0);
      assert plan[..1] == plan;
    }
  }

  lemma MigrateKeepsPlaces(w: World, step: Step, v: World)
    requires PlacesOk(w) && Next(w, step, v) && step.Migrate?
    ensures PlacesOk(v) && v.given == w.given
  {
    MigrateLeaves(w, step, v);
    var s := step.migrating;
    assert s in w.files.legacy ==> LegacyOk(w, s);
    forall place | place in v.files.chats ensures place in w.given {
      if place != (s, MAIN) { assert Lookup(v.files.chats, place) == Lookup(w.files.chats, place); }
    }
    assert v.given == w.given;
    forall place | place in v.given ensures PlaceOk(v, place) {
      assert PlaceOk(w, place);
      assert place.0 != s ==> Lookup(v.files.chats, (place.0, MAIN)) == Lookup(w.files.chats, (place.0, MAIN));
      assert place.0 != s ==> Lookup(v.files.legacy, place.0) == Lookup(w.files.legacy, place.0);
      assert place.0 != s ==> Lookup(v.files.projects, place.0) == Lookup(w.files.projects, place.0);
    }
    forall scope | scope in v.files.legacy ensures LegacyOk(v, scope) {
      assert scope in w.files.legacy && LegacyOk(w, scope) by {
        if scope != s { assert Lookup(v.files.legacy, scope) == Lookup(w.files.legacy, scope); }
      }
      if scope != s {
        assert Lookup(v.files.projects, scope) == Lookup(w.files.projects, scope);
        OtherLegacy(w, v, s, scope);
      }
    }
  }

  lemma OtherLegacy(w: World, v: World, s: string, scope: string)
    requires scope != s && scope in w.files.legacy && LegacyOk(w, scope) && v.given == w.given
    requires Lookup(v.files.legacy, scope) == Lookup(w.files.legacy, scope) && scope in v.files.legacy
    requires Lookup(v.files.projects, scope) == Lookup(w.files.projects, scope)
    requires Lookup(v.files.chats, (scope, MAIN)) == Lookup(w.files.chats, (scope, MAIN))
    ensures LegacyOk(v, scope)
  {
  }

  /******* Messages *******/

  // A step writes messages only at the place it writes, and takes none back.
  lemma MintsStay(w: World, step: Step, v: World, m: Mint)
    requires Invariant(w) && Next(w, step, v) && PlacesOk(v) && m in w.minted
    ensures MintOk(v, m)
  {
    assert MintOk(w, m);
    match step {
      case Migrate(scope, _) =>
        MigrateLeaves(w, step, v);
        if m.place.0 in w.files.legacy { assert LegacyOk(w, m.place.0); }
        assert m.place != (scope, MAIN) ==> Lookup(v.files.chats, m.place) == Lookup(w.files.chats, m.place);
        assert m.place.0 != scope ==> Lookup(v.files.legacy, m.place.0) == Lookup(w.files.legacy, m.place.0);
      case Move(from, to, id, _, _) =>
        NamedIsNew(w, to, id);
        MoveLeaves(w, step, v);
      case Create(scope, random, _) => NamedIsNew(w, scope, random);
      case Write(place, _) => if place == m.place && place !in w.files.chats { WrittenIsNew(w, place); }
      case Share(_, _) =>
    }
  }

  // A chat that is written but not stored yet was never given out.
  lemma WrittenIsNew(w: World, place: Place)
    requires PlacesOk(w) && place.0 !in w.files.legacy && place !in w.files.chats
    requires place.1 == MAIN && ChatsOf(w.files, place.0) == {} && !ProjectOf(w.files, place.0).mainMoved
    ensures place !in w.given
  {
    assert place in w.given ==> PlaceOk(w, place);
  }

  lemma MintedAreNew(w: World, step: Step, v: World)
    requires Invariant(w) && Next(w, step, v)
    ensures Distinct(v.minted)
    ensures forall m :: m in v.minted && m !in w.minted ==> MintOk(v, m)
  {
    if step.Write? {
      var first := |MessagesAt(w.files, step.place)|;
      if step.place !in w.files.chats { WrittenIsNew(w, step.place); }
      var mints := Mints(step.place, first, |step.chat.messages|);
      forall i, j | 0 <= i < j < |v.minted| ensures v.minted[i] != v.minted[j] {
        if i < |w.minted| {
          assert MintOk(w, w.minted[i]);
          assert j >= |w.minted| ==> v.minted[j] == mints[j - |w.minted|];
        } else {
          assert v.minted[i] == mints[i - |w.minted|] && v.minted[j] == mints[j - |w.minted|];
        }
      }
      forall m | m in v.minted && m !in w.minted ensures MintOk(v, m) {
        assert m in mints;
      }
    }
  }

  lemma StepKeepsInvariant(w: World, step: Step, v: World)
    requires Invariant(w) && Next(w, step, v)
    ensures Invariant(v)
    ensures !step.Migrate? ==> NewPlaces(w, v)
    ensures step.Migrate? ==> v.given == w.given
  {
    match step {
      case Migrate(_, _) => MigrateKeepsPlaces(w, step, v);
      case Move(_, _, _, _, _) => MoveKeepsPlaces(w, step, v);
      case _ => CreateKeepsPlaces(w, step, v);
    }
    MintedAreNew(w, step, v);
    forall m | m in v.minted ensures MintOk(v, m) {
      if m in w.minted { MintsStay(w, step, v, m); }
    }
  }

  /******* Every run *******/

  datatype Run = Run(worlds: seq<World>, steps: seq<Step>)
  {
    ghost predicate Valid() {
      && |worlds| == |steps| + 1 && Init(worlds[0])
      && forall n {:trigger steps[n]} :: 0 <= n < |steps| ==> Next(worlds[n], steps[n], worlds[n + 1])
    }
  }

  lemma {:induction false} Reachable(run: Run, n: nat)
    requires run.Valid() && n < |run.worlds|
    ensures Invariant(run.worlds[n])
  {
    if n > 0 {
      Reachable(run, n - 1);
      assert Next(run.worlds[n - 1], run.steps[n - 1], run.worlds[n]);
      StepKeepsInvariant(run.worlds[n - 1], run.steps[n - 1], run.worlds[n]);
    }
  }

  lemma {:induction false} GivenStays(run: Run, m: nat, n: nat)
    requires run.Valid() && m <= n < |run.worlds|
    ensures run.worlds[m].given <= run.worlds[n].given && run.worlds[m].files.chats.Keys <= run.worlds[n].given
  {
    if m < n {
      GivenStays(run, m, n - 1);
      assert Next(run.worlds[n - 1], run.steps[n - 1], run.worlds[n]);
    } else {
      Reachable(run, m);
    }
  }

  lemma MainStaysAtStep(w: World, step: Step, v: World, place: Place)
    requires Invariant(w) && Next(w, step, v) && place.0 in v.files.legacy
    ensures place.0 in w.files.legacy
    ensures place in w.files.chats ==> place in v.files.chats
  {
    match step {
      case Migrate(scope, _) =>
        MigrateLeaves(w, step, v);
        assert place.0 != scope ==> Lookup(v.files.legacy, place.0) == Lookup(w.files.legacy, place.0);
        assert place != (scope, MAIN) ==> Lookup(v.files.chats, place) == Lookup(w.files.chats, place);
      case Move(_, to, id, _, _) =>
        NamedIsNew(w, to, id);
        MoveLeaves(w, step, v);
      case _ =>
    }
  }

  // While the old conversation is there, main stays once it is written.
  lemma {:induction false} MainStays(run: Run, m: nat, n: nat, place: Place)
    requires run.Valid() && m <= n < |run.worlds|
    requires place in run.worlds[m].files.chats && place.0 in run.worlds[n].files.legacy
    ensures place in run.worlds[n].files.chats
  {
    if m < n {
      assert Next(run.worlds[n - 1], run.steps[n - 1], run.worlds[n]);
      Reachable(run, n - 1);
      MainStaysAtStep(run.worlds[n - 1], run.steps[n - 1], run.worlds[n], place);
      MainStays(run, m, n - 1, place);
    }
  }

  // Only the migration of an old conversation can store a chat at a place already given.
  lemma ReturnsByMigration(w: World, step: Step, v: World, place: Place)
    requires Invariant(w) && Next(w, step, v) && place in w.given
    ensures place in v.files.chats ==> place in w.files.chats || place.0 in w.files.legacy
  {
    StepKeepsInvariant(w, step, v);
    if step.Migrate? {
      MigrateLeaves(w, step, v);
      assert place != (step.migrating, MAIN) ==> Lookup(v.files.chats, place) == Lookup(w.files.chats, place);
    }
  }

  lemma HomeStays(run: Run, m: nat, n: nat, place: Place)
    requires run.Valid() && m <= n < |run.worlds| && place in run.worlds[m].files.chats
    ensures HasHome(run.worlds[n].files, place.0)
  {
    Reachable(run, n);
    GivenStays(run, m, n);
    assert PlaceOk(run.worlds[n], place);
  }

  lemma StepReturns(run: Run, n: nat, place: Place)
    requires run.Valid() && n < |run.steps| && place in run.worlds[n].given
    ensures place in run.worlds[n + 1].files.chats ==>
      place in run.worlds[n].files.chats || place.0 in run.worlds[n].files.legacy
  {
    Reachable(run, n);
    assert Next(run.worlds[n], run.steps[n], run.worlds[n + 1]);
    ReturnsByMigration(run.worlds[n], run.steps[n], run.worlds[n + 1], place);
  }

  /** A scope that ever had a chat holds main, or records that main moved away, or still has the
      single conversation that main will be. A place that held a chat is never given to another:
      gone, its file never comes back, and main is not given out twice. */
  lemma PlacesGivenOnce(run: Run, m: nat, n: nat, place: Place)
    requires run.Valid() && m <= n < |run.steps| && place in run.worlds[m].files.chats
    ensures HasHome(run.worlds[n].files, place.0)
    ensures place in run.worlds[n + 1].files.chats ==> place in run.worlds[n].files.chats
  {
    HomeStays(run, m, n, place);
    GivenStays(run, m, n);
    StepReturns(run, n, place);
    if place.0 in run.worlds[n].files.legacy { MainStays(run, m, n, place); }
  }

  /** No two messages ever written, in any scope and chat, have the same ID. */
  lemma MessageIdsUnique(run: Run, n: nat, i: nat, j: nat)
    requires run.Valid() && n < |run.worlds| && i < j < |run.worlds[n].minted|
    ensures var one, other := run.worlds[n].minted[i], run.worlds[n].minted[j];
      MessageId(one.place.0, one.place.1, one.index) != MessageId(other.place.0, other.place.1, other.index)
  {
    Reachable(run, n);
    var w, one, other := run.worlds[n], run.worlds[n].minted[i], run.worlds[n].minted[j];
    assert MintOk(w, one) && MintOk(w, other);
    assert PlaceOk(w, one.place) && PlaceOk(w, other.place);
    MessageIdInjective(one.place.0, one.place.1, one.index, other.place.0, other.place.1, other.index);
  }
}
