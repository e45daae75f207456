/** What stopping at any file operation leaves behind, and every run of writes, moves and
    migrations: nothing a chat holds is lost, and no chat or message ID is given twice. */
module ChatHistory {
  import opened Options
  import opened MessageIds
  import opened ChatFiles

  /******* Migration, however often it is stopped *******/

  // The files after runs of the migration that each stopped after so many operations.
  function Interrupted(f: Files, scope: string, stops: seq<nat>): Files {
    if stops == [] then f
    else
      var before := Interrupted(f, scope, stops[..|stops| - 1]);
      Applied(before, Prefix(MigrationPlan(before, scope), stops[|stops| - 1]))
  }

  lemma MigrationSteps(f: Files, scope: string, k: nat)
    requires k <= |MigrationPlan(f, scope)|
    ensures var g := Applied(f, MigrationPlan(f, scope)[..k]);
      && Migrated(g, scope) == Migrated(f, scope) && (Unreadable(g, scope) <==> Unreadable(f, scope))
  {
    var plan := MigrationPlan(f, scope);
    if |plan| == 3 {
      AppliedThree(f, plan[0], plan[1], plan[2]);
      assert plan == [plan[0], plan[1], plan[2]] && plan[..1] == [plan[0]] && plan[..2] == [plan[0], plan[1]];
      var g := Applied(f, plan[..k]);
      if k == 1 {
        AppliedThree(g, plan[0], plan[1], plan[2]);
      } else if k == 2 {
        AppliedThree(g, plan[2], plan[2], plan[2]);
      } else {
        assert plan[..3] == plan;
      }
    } else if |plan| == 1 {
      AppliedThree(f, plan[0], plan[0], plan[0]);
      assert plan == [plan[0]];
      assert k == 1 ==> plan[..1] == plan;
    }
  }

  /** However often a migration is stopped, and wherever, running it again reaches the files an
      uninterrupted one leaves; then it has nothing left to do, unless the old conversation
      cannot be read, when nothing was ever written. */
  lemma {:induction false} MigrationRestarts(f: Files, scope: string, stops: seq<nat>)
    ensures Migrated(Interrupted(f, scope, stops), scope) == Migrated(f, scope)
    ensures MigrationPlan(Migrated(f, scope), scope) == []
    ensures Unreadable(f, scope) ==> Interrupted(f, scope, stops) == f
  {
    MigratedLeaves(f, scope);
    if stops != [] {
      var before, last := Interrupted(f, scope, stops[..|stops| - 1]), stops[|stops| - 1];
      MigrationRestarts(f, scope, stops[..|stops| - 1]);
      var plan := MigrationPlan(before, scope);
      var k := if last < |plan| then last else |plan|;
      assert Prefix(plan, last) == plan[..k];
      MigrationSteps(before, scope, k);
    }
  }

  /** The migrated scope holds the whole conversation: its messages, actions and queue, what its turn
      left and whether it runs as its main chat, open and as old as its first message, with the events
      it had yet to hear as main's; and the project keeps what it shared. */
  lemma MigrationKeepsConversation(f: Files, scope: string)
    requires scope in f.legacy && scope !in f.projects && f.legacy[scope].scope == scope
    ensures var g, l := Migrated(f, scope), f.legacy[scope];
      && (scope, MAIN) in g.chats && g.chats[(scope, MAIN)].messages == l.messages
      && g.chats[(scope, MAIN)].actions == l.actions && g.chats[(scope, MAIN)].queued == l.queued
      && Pending(g, (scope, MAIN)) == l.pending && scope !in g.legacy
      && ProjectOf(g, scope).shared == l.shared && ProjectOf(g, scope).updatedAt == l.updatedAt && !ProjectOf(g, scope).mainMoved
      && var main := g.chats[(scope, MAIN)];
      && main.turn == l.turn && main.running == l.running && !main.archived && main.usedAt == l.updatedAt && main.updatedAt == l.updatedAt
      && main.createdAt == (if |l.messages| > 0 then l.messages[0].at else l.updatedAt)
      && forall id :: id != MAIN ==> Pending(g, (scope, id)) == []
  {
    var plan := MigrationPlan(f, scope);
    AppliedThree(f, plan[0], plan[1], plan[2]);
    assert plan == [plan[0], plan[1], plan[2]];
  }

  /** Once a scope has its project, migrating removes what is left of the old conversation, whoever's it
      says it is; before, it writes nothing exactly when there is none, or it says it is another's. */
  lemma MigrationDecides(f: Files, scope: string)
    ensures scope in f.projects ==> Migrated(f, scope) == f.(legacy := f.legacy - {scope})
    ensures scope !in f.projects ==> (Migrated(f, scope) == f <==> scope !in f.legacy || f.legacy[scope].scope != scope)
  {
    var plan := MigrationPlan(f, scope);
    if |plan| == 3 {
      AppliedThree(f, plan[0], plan[1], plan[2]);
      assert plan == [plan[0], plan[1], plan[2]];
      assert scope !in Migrated(f, scope).legacy;
    } else if |plan| == 1 {
      AppliedThree(f, plan[0], plan[0], plan[0]);
      assert plan == [plan[0]];
    } else {
      assert scope !in f.legacy ==> f.legacy - {scope} == f.legacy;
    }
  }

  /******* A move, stopped anywhere *******/

  // The chat is at a place whole: what it said, its actions, its queue, and what it has yet to hear.
  ghost predicate Whole(g: Files, place: Place, chat: Chat, events: seq<string>) {
    && place in g.chats && g.chats[place].messages == chat.messages && g.chats[place].actions == chat.actions
    && g.chats[place].queued == chat.queued && EndsWith(Pending(g, place), events)
  }

  ghost predicate EndsWith(all: seq<string>, events: seq<string>) { exists before :: all == before + events }

  // Everything but the two places is as it was.
  ghost predicate OthersKept(f: Files, g: Files, one: Place, two: Place) {
    && g.legacy == f.legacy
    && (forall place: Place :: place != one && place != two ==>
         Lookup(g.chats, place) == Lookup(f.chats, place) && Pending(g, place) == Pending(f, place))
    && (forall scope :: ProjectOf(g, scope).shared == ProjectOf(f, scope).shared)
    && (forall scope :: ProjectOf(f, scope).mainMoved ==> ProjectOf(g, scope).mainMoved)
  }

  // The files once the chat was placed in its new scope, its events carried there, its old
  // project cleared of them and marked, and its old file removed.
  datatype Progress = Progress(placed: bool, carried: bool, cleared: bool, removed: bool)

  function CarriedProject(f: Files, from: Place, target: Place, now: int): Project {
    var project := ProjectOf(f, target.0);
    project.(pending := project.pending[target.1 := Pending(f, target) + Pending(f, from)], updatedAt := now)
  }

  function ClearedProject(f: Files, from: Place, now: int): Project {
    var project := ProjectOf(f, from.0);
    project.(pending := if Pending(f, from) == [] then project.pending else project.pending - {from.1},
             mainMoved := project.mainMoved || from.1 == MAIN, updatedAt := now)
  }

  function Moving(f: Files, from: Place, target: Place, now: int, p: Progress): Files
    requires from in f.chats
  {
    var placed := if p.placed then f.chats[target := MovedChat(f.chats[from], now)] else f.chats;
    var carried := if p.carried then f.projects[target.0 := CarriedProject(f, from, target, now)] else f.projects;
    Files(f.legacy,
          if p.cleared then carried[from.0 := ClearedProject(f, from, now)] else carried,
          if p.removed then placed - {from} else placed)
  }

  predicate Carries(f: Files, from: Place) { Pending(f, from) != [] }

  predicate Clears(f: Files, from: Place) { Carries(f, from) || (from.1 == MAIN && !ProjectOf(f, from.0).mainMoved) }

  function ProgressAfter(f: Files, from: Place, k: nat): Progress {
    var last := if Carries(f, from) then 4 else if Clears(f, from) then 3 else 2;
    Progress(k >= 1, Carries(f, from) && k >= 2, Clears(f, from) && k >= last - 1, k >= last)
  }

  lemma AppliedStep(f: Files, plan: seq<FileOp>, k: nat)
    requires k < |plan|
    ensures Applied(f, plan[..k + 1]) == ApplyOp(Applied(f, plan[..k]), plan[k])
    ensures Applied(f, plan[..0]) == f
  {
    assert plan[..k + 1][..k] == plan[..k];
  }

  lemma {:induction false} MoveProgress(f: Files, from: Place, to: string, random: string, now: int, k: nat)
    requires from in f.chats && from.0 != to && k <= |MovePlan(f, from, to, random, now)|
    ensures Applied(f, MovePlan(f, from, to, random, now)[..k]) ==
      Moving(f, from, (to, FirstChat(f, to, random)), now, ProgressAfter(f, from, k))
    ensures |MovePlan(f, from, to, random, now)| == if Carries(f, from) then 4 else if Clears(f, from) then 3 else 2
  {
    if k > 0 {
      MoveProgress(f, from, to, random, now, k - 1);
      AppliedStep(f, MovePlan(f, from, to, random, now), k - 1);
    }
  }

  lemma MovingKeepsOthers(f: Files, from: Place, target: Place, now: int, p: Progress)
    requires from in f.chats && from.0 != target.0
    ensures OthersKept(f, Moving(f, from, target, now, p), from, target)
  {
  }

  lemma MovingPending(f: Files, from: Place, target: Place, now: int, p: Progress)
    requires from in f.chats && from.0 != target.0
    ensures Pending(Moving(f, from, target, now, p), target) == Pending(f, target) + if p.carried then Pending(f, from) else []
    ensures Pending(Moving(f, from, target, now, p), from) == if p.cleared then [] else Pending(f, from)
  {
  }

  lemma MovingWhole(f: Files, from: Place, target: Place, now: int, p: Progress)
    requires from in f.chats && from.0 != target.0
    ensures p.placed && (p.carried || !Carries(f, from)) ==> Whole(Moving(f, from, target, now, p), target, f.chats[from], Pending(f, from))
    ensures !p.cleared && !p.removed ==> Whole(Moving(f, from, target, now, p), from, f.chats[from], Pending(f, from))
    ensures p.removed ==> from !in Moving(f, from, target, now, p).chats
  {
    MovingPending(f, from, target, now, p);
    Ending(Pending(f, target), Pending(f, from));
    Ending([], Pending(f, from));
    assert [] + Pending(f, from) == Pending(f, from);
  }

  lemma Ending(before: seq<string>, events: seq<string>)
    ensures EndsWith(before + events, events)
  {
  }

  lemma TargetIsNew(f: Files, to: string, random: string)
    requires (to, random) !in f.chats
    ensures (to, FirstChat(f, to, random)) !in f.chats
  {
    assert (to, MAIN) in f.chats ==> MAIN in ChatsOf(f, to);
  }

  /** At every prefix of a move the chat stands whole in one of the two scopes, with every event
      it has yet to hear, and nothing else is touched. A move that finishes leaves it in the new
      scope alone, its events after those the new place already had. */
  lemma MoveLosesNothing(f: Files, from: Place, to: string, random: string, now: int, k: nat)
    requires from in f.chats && from.0 != to && (to, random) !in f.chats
    requires k <= |MovePlan(f, from, to, random, now)|
    ensures var plan, target := MovePlan(f, from, to, random, now), (to, FirstChat(f, to, random));
      var g, events := Applied(f, plan[..k]), Pending(f, from);
      && target !in f.chats
      && (Whole(g, from, f.chats[from], events) || Whole(g, target, f.chats[from], events))
      && OthersKept(f, g, from, target)
      && (k == |plan| ==>
           from !in g.chats && Pending(g, from) == [] && Whole(g, target, f.chats[from], events)
           && Pending(g, target) == Pending(f, target) + events)
  {
    var target, p := (to, FirstChat(f, to, random)), ProgressAfter(f, from, k);
    TargetIsNew(f, to, random);
    MoveProgress(f, from, to, random, now, k);
    var g := Moving(f, from, target, now, p);
    assert OthersKept(f, g, from, target) by { MovingKeepsOthers(f, from, target, now, p); }
    MovingPending(f, from, target, now, p);
    MovingWhole(f, from, target, now, p);
  }

  /** A move that finishes leaves the chat in its new place as old as it was, idle, open and just used,
      with nothing of its last turn; and main's old scope, and no other, is marked by it. */
  lemma MoveArrives(f: Files, from: Place, to: string, random: string, now: int)
    requires from in f.chats && from.0 != to && (to, random) !in f.chats
    ensures var plan, target, chat := MovePlan(f, from, to, random, now), (to, FirstChat(f, to, random)), f.chats[from];
      var g := Applied(f, plan);
      && target in g.chats
      && g.chats[target] == Chat(false, false, chat.createdAt, now, now, chat.messages, chat.actions, chat.queued, None)
      && forall scope :: ProjectOf(g, scope).mainMoved <==> ProjectOf(f, scope).mainMoved || (scope == from.0 && from.1 == MAIN)
  {
    var plan := MovePlan(f, from, to, random, now);
    TargetIsNew(f, to, random);
    MoveProgress(f, from, to, random, now, |plan|);
    assert plan[..|plan|] == plan;
  }
}
