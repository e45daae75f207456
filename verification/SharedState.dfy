/** The project state that a scope's chats share (project.json), and the
    three-way merge with which a chat's write keeps what other chats changed. */
module SharedState {
  import opened Options
  import MessageIds

  // A stored value, as its JSON text: two values are the same when their texts are.
  type Json = string

  datatype Helper = Helper(id: string, state: Json)

  datatype Shared = Shared(
    notes: Json, goal: Json, launch: Json, developer: bool, refusals: int,
    buildsSince: Json, previewFailedAt: Json,
    watched: map<string, Json>, autoContinues: map<string, int>, gaps: map<string, Json>,
    helpers: seq<Helper>, pending: map<string, seq<string>>, mainMoved: bool)

  /******* Entries *******/

  function MergedEntry<V(==)>(base: map<string, V>, ours: map<string, V>, current: map<string, V>, key: string): Option<V> {
    if Lookup(base, key) != Lookup(ours, key) then Lookup(ours, key) else Lookup(current, key)
  }

  /** Every entry our side changed, added or removed since base, and the rest as they are now. */
  function MergedEntries<V(==)>(base: map<string, V>, ours: map<string, V>, current: map<string, V>): (merged: map<string, V>)
    ensures forall key :: Lookup(merged, key) == MergedEntry(base, ours, current, key)
  {
    map key | key in ours.Keys + current.Keys && MergedEntry(base, ours, current, key).Some? ::
      MergedEntry(base, ours, current, key).value
  }

  // The keys are visited in no particular order, as Go visits a map's.
  method MergeEntries<V(==)>(base: map<string, V>, ours: map<string, V>, current: map<string, V>)
    returns (merged: map<string, V>)
    ensures merged == MergedEntries(base, ours, current)
  {
    merged := current;
    var todo := ours.Keys;
    while todo != {}
      invariant todo <= ours.Keys
      invariant forall key ::
        Lookup(merged, key) == if key in todo || key !in ours then Lookup(current, key) else MergedEntry(base, ours, current, key)
    {
      var key :| key in todo;
      if key !in base || base[key] != ours[key] {
        merged := merged[key := ours[key]];
      }
      todo := todo - {key};
    }
    todo := base.Keys;
    while todo != {}
      invariant todo <= base.Keys
      invariant forall key ::
        Lookup(merged, key) == if key in todo && key !in ours then Lookup(current, key) else MergedEntry(base, ours, current, key)
    {
      var key :| key in todo;
      if key !in ours {
        merged := merged - {key};
      }
      todo := todo - {key};
    }
    EntriesEqual(merged, MergedEntries(base, ours, current));
  }

  lemma EntriesEqual<V>(a: map<string, V>, b: map<string, V>)
    requires forall key :: Lookup(a, key) == Lookup(b, key)
    ensures a == b
  {
    assert forall key :: key in a <==> Lookup(a, key).Some?;
    assert forall key :: key in b <==> Lookup(b, key).Some?;
  }

  /******* Helpers *******/

  ghost predicate UniqueIds(helpers: seq<Helper>) {
    forall i, j :: 0 <= i < j < |helpers| ==> helpers[i].id != helpers[j].id
  }

  function FindHelper(helpers: seq<Helper>, id: string): Option<Helper> {
    if helpers == [] then None
    else if helpers[0].id == id then Some(helpers[0])
    else FindHelper(helpers[1..], id)
  }

  // The first helper with the ID is replaced in place; a new one goes last.
  function PutHelper(helpers: seq<Helper>, helper: Helper): seq<Helper> {
    if helpers == [] then [helper]
    else if helpers[0].id == helper.id then [helper] + helpers[1..]
    else [helpers[0]] + PutHelper(helpers[1..], helper)
  }

  function HelpersById(helpers: seq<Helper>): map<string, Helper> {
    if helpers == [] then map[]
    else HelpersById(helpers[..|helpers| - 1])[helpers[|helpers| - 1].id := helpers[|helpers| - 1]]
  }

  function MergedHelpers(base: seq<Helper>, ours: seq<Helper>, current: seq<Helper>): seq<Helper> {
    if ours == [] then current
    else
      var before, helper := MergedHelpers(base, ours[..|ours| - 1], current), ours[|ours| - 1];
      if Lookup(HelpersById(base), helper.id) == Some(helper) then before else PutHelper(before, helper)
  }

  method MergeHelpers(base: seq<Helper>, ours: seq<Helper>, current: seq<Helper>) returns (merged: seq<Helper>)
    ensures merged == MergedHelpers(base, ours, current)
  {
    var before := map[];
    for i := 0 to |base|
      invariant before == HelpersById(base[..i])
    {
      before := before[base[i].id := base[i]];
      assert base[..i + 1][..i] == base[..i];
    }
    assert base[..|base|] == base;
    merged := current;
    for i := 0 to |ours|
      invariant merged == MergedHelpers(base, ours[..i], current)
    {
      assert ours[..i + 1][..i] == ours[..i];
      if !(ours[i].id in before && before[ours[i].id] == ours[i]) {
        merged := ReplaceOrAppend(merged, ours[i]);
      }
    }
    assert ours[..|ours|] == ours;
  }

  method ReplaceOrAppend(helpers: seq<Helper>, helper: Helper) returns (result: seq<Helper>)
    ensures result == PutHelper(helpers, helper)
  {
    var index := 0;
    while index < |helpers| && helpers[index].id != helper.id
      invariant 0 <= index <= |helpers|
      invariant PutHelper(helpers, helper) == helpers[..index] + PutHelper(helpers[index..], helper)
    {
      index := index + 1;
    }
    result := if index == |helpers| then helpers + [helper] else helpers[index := helper];
  }

  lemma {:induction false} PutHelperSlot(helpers: seq<Helper>, helper: Helper, id: string)
    requires UniqueIds(helpers)
    ensures FindHelper(PutHelper(helpers, helper), id) == if id == helper.id then Some(helper) else FindHelper(helpers, id)
    ensures UniqueIds(PutHelper(helpers, helper))
    ensures forall h :: h in PutHelper(helpers, helper) ==> h == helper || h in helpers
  {
    if helpers == [] {
    } else if helpers[0].id == helper.id {
      assert forall k :: 1 <= k < |helpers| ==> PutHelper(helpers, helper)[k] == helpers[k];
    } else {
      PutHelperSlot(helpers[1..], helper, id);
      assert PutHelper(helpers, helper)[1..] == PutHelper(helpers[1..], helper);
      assert forall j :: 1 <= j < |PutHelper(helpers, helper)| ==> PutHelper(helpers, helper)[j] in PutHelper(helpers[1..], helper);
    }
  }

  lemma {:induction false} FindHelperPrefix(helpers: seq<Helper>, id: string)
    requires helpers != []
    ensures FindHelper(helpers, id) == (
      if FindHelper(helpers[..|helpers| - 1], id).Some? then FindHelper(helpers[..|helpers| - 1], id)
      else if helpers[|helpers| - 1].id == id then Some(helpers[|helpers| - 1]) else None)
  {
    if |helpers| > 1 {
      FindHelperPrefix(helpers[1..], id);
      assert helpers[1..][..|helpers| - 2] == helpers[..|helpers| - 1][1..];
    }
  }

  lemma {:induction false} FindHelperAt(helpers: seq<Helper>, id: string)
    ensures FindHelper(helpers, id).Some? <==> exists i :: 0 <= i < |helpers| && helpers[i].id == id
    ensures FindHelper(helpers, id).Some? ==> FindHelper(helpers, id).value in helpers && FindHelper(helpers, id).value.id == id
  {
    if helpers != [] {
      FindHelperAt(helpers[1..], id);
      if i :| 0 <= i < |helpers| && helpers[i].id == id && i > 0 {
        assert helpers[1..][i - 1].id == id;
      }
    }
  }

  lemma {:induction false} HelpersByIdFinds(helpers: seq<Helper>, id: string)
    requires UniqueIds(helpers)
    ensures Lookup(HelpersById(helpers), id) == FindHelper(helpers, id)
  {
    if helpers != [] {
      var n := |helpers| - 1;
      HelpersByIdFinds(helpers[..n], id);
      FindHelperPrefix(helpers, id);
      FindHelperAt(helpers[..n], id);
    }
  }

  // A helper our side left out is not removed: only changed and added ones count.
  function MergedHelper(base: seq<Helper>, ours: seq<Helper>, current: seq<Helper>, id: string): Option<Helper> {
    if FindHelper(ours, id).Some? && FindHelper(base, id) != FindHelper(ours, id)
    then FindHelper(ours, id) else FindHelper(current, id)
  }

  lemma {:induction false} MergedHelperSlot(base: seq<Helper>, ours: seq<Helper>, current: seq<Helper>, id: string)
    requires UniqueIds(base) && UniqueIds(ours) && UniqueIds(current)
    ensures UniqueIds(MergedHelpers(base, ours, current))
    ensures FindHelper(MergedHelpers(base, ours, current), id) == MergedHelper(base, ours, current, id)
  {
    if ours != [] {
      var n := |ours| - 1;
      MergedHelperSlot(base, ours[..n], current, id);
      PutHelperSlot(MergedHelpers(base, ours[..n], current), ours[n], id);
      HelpersByIdFinds(base, ours[n].id);
      FindHelperPrefix(ours, id);
      FindHelperAt(ours[..n], id);
    }
  }

  /******* The whole state, slot by slot *******/

  datatype Slot =
    | Notes | Goal | Launch | Developer | Refusals | BuildsSince | PreviewFailedAt
    | Watched(key: string) | AutoContinues(key: string) | Gap(key: string)
    | HelperOf(id: string) | Pending(chat: string) | MainMark

  datatype Content =
    | Stored(json: Option<Json>) | Flag(on: bool) | Count(count: Option<int>)
    | HelperState(helper: Option<Helper>) | Events(events: seq<string>)

  function PendingOf(pending: map<string, seq<string>>, chat: string): seq<string> {
    if chat in pending then pending[chat] else []
  }

  function Get(shared: Shared, slot: Slot): Content {
    match slot
    case Notes => Stored(Some(shared.notes))
    case Goal => Stored(Some(shared.goal))
    case Launch => Stored(Some(shared.launch))
    case Developer => Flag(shared.developer)
    case Refusals => Count(Some(shared.refusals))
    case BuildsSince => Stored(Some(shared.buildsSince))
    case PreviewFailedAt => Stored(Some(shared.previewFailedAt))
    case Watched(key) => Stored(Lookup(shared.watched, key))
    case AutoContinues(key) => Count(Lookup(shared.autoContinues, key))
    case Gap(key) => Stored(Lookup(shared.gaps, key))
    case HelperOf(id) => HelperState(FindHelper(shared.helpers, id))
    case Pending(chat) => Events(PendingOf(shared.pending, chat))
    case MainMark => Flag(shared.mainMoved)
  }

  /** What one chat's write asks for: the record's shared part (ours), read as base,
      and the events the chat has yet to hear. */
  datatype Change = Change(base: Shared, ours: Shared, chat: string, events: seq<string>)
  {
    // What the write holds in a slot: of the pending lists, only its own chat's.
    function Holds(slot: Slot): Content {
      if slot.Pending? then Events(if slot.chat == chat then events else PendingOf(base.pending, slot.chat))
      else Get(ours, slot)
    }

    // Whether the write changed a slot from its own base; leaving a helper out changes nothing, and
    // no write changes the mark that main moved away.
    predicate Changes(slot: Slot) {
      && Holds(slot) != Get(base, slot) && !slot.MainMark?
      && (slot.HelperOf? ==> FindHelper(ours.helpers, slot.id).Some?)
    }

    ghost predicate Valid() {
      UniqueIds(base.helpers) && UniqueIds(ours.helpers)
    }
  }

  function MergedPending(current: map<string, seq<string>>, change: Change): map<string, seq<string>> {
    if PendingOf(change.base.pending, change.chat) == change.events then current
    else if change.events == [] then current - {change.chat}
    else current[change.chat := change.events]
  }

  function Merged(current: Shared, change: Change): Shared {
    var base, ours := change.base, change.ours;
    Shared(
      if base.notes != ours.notes then ours.notes else current.notes,
      if base.goal != ours.goal then ours.goal else current.goal,
      if base.launch != ours.launch then ours.launch else current.launch,
      if base.developer != ours.developer then ours.developer else current.developer,
      if base.refusals != ours.refusals then ours.refusals else current.refusals,
      if base.buildsSince != ours.buildsSince then ours.buildsSince else current.buildsSince,
      if base.previewFailedAt != ours.previewFailedAt then ours.previewFailedAt else current.previewFailedAt,
      MergedEntries(base.watched, ours.watched, current.watched),
      MergedEntries(base.autoContinues, ours.autoContinues, current.autoContinues),
      MergedEntries(base.gaps, ours.gaps, current.gaps),
      MergedHelpers(base.helpers, ours.helpers, current.helpers),
      MergedPending(current.pending, change),
      current.mainMoved)
  }

  /** The stored state that a write merges into, changed in place field by field. */
  class ProjectFile {
    var notes: Json
    var goal: Json
    var launch: Json
    var developer: bool
    var refusals: int
    var buildsSince: Json
    var previewFailedAt: Json
    var watched: map<string, Json>
    var autoContinues: map<string, int>
    var gaps: map<string, Json>
    var helpers: seq<Helper>
    var pending: map<string, seq<string>>
    var mainMoved: bool

    function Value(): Shared
      reads this
    {
      Shared(notes, goal, launch, developer, refusals, buildsSince, previewFailedAt,
             watched, autoContinues, gaps, helpers, pending, mainMoved)
    }

    method MergeScalars(base: Shared, ours: Shared)
      modifies this`notes, this`goal, this`launch, this`developer, this`refusals, this`buildsSince, this`previewFailedAt
      ensures notes == if base.notes != ours.notes then ours.notes else old(notes)
      ensures goal == if base.goal != ours.goal then ours.goal else old(goal)
      ensures launch == if base.launch != ours.launch then ours.launch else old(launch)
      ensures developer == if base.developer != ours.developer then ours.developer else old(developer)
      ensures refusals == if base.refusals != ours.refusals then ours.refusals else old(refusals)
      ensures buildsSince == if base.buildsSince != ours.buildsSince then ours.buildsSince else old(buildsSince)
      ensures previewFailedAt == if base.previewFailedAt != ours.previewFailedAt then ours.previewFailedAt else old(previewFailedAt)
    {
      if base.notes != ours.notes { notes := ours.notes; }
      if base.goal != ours.goal { goal := ours.goal; }
      if base.launch != ours.launch { launch := ours.launch; }
      if base.developer != ours.developer { developer := ours.developer; }
      if base.refusals != ours.refusals { refusals := ours.refusals; }
      if base.buildsSince != ours.buildsSince { buildsSince := ours.buildsSince; }
      if base.previewFailedAt != ours.previewFailedAt { previewFailedAt := ours.previewFailedAt; }
    }

    method MergePending(change: Change)
      modifies this`pending
      ensures pending == MergedPending(old(pending), change)
    {
      if PendingOf(change.base.pending, change.chat) != change.events {
        pending := pending[change.chat := change.events];
        if |change.events| == 0 {
          pending := pending - {change.chat};
        }
      }
    }

    method Merge(change: Change)
      modifies this
      ensures Value() == Merged(old(Value()), change)
    {
      var base, ours := change.base, change.ours;
      MergeScalars(base, ours);
      watched := MergeEntries(base.watched, ours.watched, watched);
      autoContinues := MergeEntries(base.autoContinues, ours.autoContinues, autoContinues);
      gaps := MergeEntries(base.gaps, ours.gaps, gaps);
      helpers := MergeHelpers(base.helpers, ours.helpers, helpers);
      MergePending(change);
    }
  }

  /** The law of the merge: a slot the write changed from its base is left as the write holds
      it, and every other slot keeps what is stored now. */
  lemma MergeSlot(current: Shared, change: Change, slot: Slot)
    requires change.Valid() && UniqueIds(current.helpers)
    ensures Get(Merged(current, change), slot) ==
      if change.Changes(slot) then change.Holds(slot) else Get(current, slot)
    ensures UniqueIds(Merged(current, change).helpers)
  {
    MergedHelperSlot(change.base.helpers, change.ours.helpers, current.helpers, if slot.HelperOf? then slot.id else "");
  }

  ghost predicate SameSlots(a: Shared, b: Shared) {
    forall slot :: Get(a, slot) == Get(b, slot)
  }

  /** Writes that change different slots may come in either order. */
  lemma DisjointMergesCommute(current: Shared, one: Change, two: Change)
    requires one.Valid() && two.Valid() && UniqueIds(current.helpers)
    requires forall slot :: !(one.Changes(slot) && two.Changes(slot))
    ensures SameSlots(Merged(Merged(current, one), two), Merged(Merged(current, two), one))
  {
    forall slot
      ensures Get(Merged(Merged(current, one), two), slot) == Get(Merged(Merged(current, two), one), slot)
    {
      MergeSlot(current, one, slot);
      MergeSlot(Merged(current, one), two, slot);
      MergeSlot(current, two, slot);
      MergeSlot(Merged(current, two), one, slot);
    }
  }

  lemma {:induction false} PutHelperPresent(helpers: seq<Helper>, helper: Helper)
    requires FindHelper(helpers, helper.id) == Some(helper)
    ensures PutHelper(helpers, helper) == helpers
  {
    if helpers[0].id != helper.id {
      PutHelperPresent(helpers[1..], helper);
    }
  }

  lemma {:induction false} MergedHelpersSettled(base: seq<Helper>, ours: seq<Helper>, current: seq<Helper>)
    requires forall i :: 0 <= i < |ours| && Lookup(HelpersById(base), ours[i].id) != Some(ours[i]) ==>
      FindHelper(current, ours[i].id) == Some(ours[i])
    ensures MergedHelpers(base, ours, current) == current
  {
    if ours != [] {
      var n := |ours| - 1;
      MergedHelpersSettled(base, ours[..n], current);
      if Lookup(HelpersById(base), ours[n].id) != Some(ours[n]) {
        PutHelperPresent(current, ours[n]);
      }
    }
  }

  lemma {:induction false} UniqueFinds(helpers: seq<Helper>, i: nat)
    requires UniqueIds(helpers) && i < |helpers|
    ensures FindHelper(helpers, helpers[i].id) == Some(helpers[i])
  {
    if i > 0 {
      UniqueFinds(helpers[1..], i - 1);
    }
  }

  /** Writing the same record twice running stores exactly what writing it once does. */
  lemma MergeTwice(current: Shared, change: Change)
    requires change.Valid() && UniqueIds(current.helpers)
    ensures Merged(Merged(current, change), change) == Merged(current, change)
  {
    var once := Merged(current, change);
    var base, ours := change.base, change.ours;
    EntriesEqual(MergedEntries(base.watched, ours.watched, once.watched), once.watched);
    EntriesEqual(MergedEntries(base.autoContinues, ours.autoContinues, once.autoContinues), once.autoContinues);
    EntriesEqual(MergedEntries(base.gaps, ours.gaps, once.gaps), once.gaps);
    forall i | 0 <= i < |ours.helpers| && Lookup(HelpersById(base.helpers), ours.helpers[i].id) != Some(ours.helpers[i])
      ensures FindHelper(once.helpers, ours.helpers[i].id) == Some(ours.helpers[i])
    {
      UniqueFinds(ours.helpers, i);
      HelpersByIdFinds(base.helpers, ours.helpers[i].id);
      MergedHelperSlot(base.helpers, ours.helpers, current.helpers, ours.helpers[i].id);
    }
    MergedHelpersSettled(base.helpers, ours.helpers, once.helpers);
  }

  /******* Every interleaving of reads, writes and updates *******/

  // open holds, for each chat at work, the project state it read (its base).
  datatype System = System(file: Shared, open: map<string, Shared>)

  datatype Step =
    | Open(chat: string)
    | Commit(chat: string, ours: Shared, events: seq<string>)
    | Close(chat: string)
    | Update(after: Shared)
    | MoveOut(chat: string)
    | MoveIn(chat: string, events: seq<string>)

  // updateShared changes the work it watches, the goal and the developer flag only.
  ghost predicate UpdateKeeps(before: Shared, after: Shared) {
    after == before.(watched := after.watched, goal := after.goal, developer := after.developer)
  }

  // A chat that moved away takes its events along; main leaves its mark.
  function Departed(file: Shared, chat: string): Shared {
    file.(pending := if PendingOf(file.pending, chat) == [] then file.pending else file.pending - {chat},
          mainMoved := file.mainMoved || chat == MessageIds.MAIN)
  }

  // One that moved in adds them to what waits under its new name.
  function Arrived(file: Shared, chat: string, events: seq<string>): Shared {
    if events == [] then file else file.(pending := file.pending[chat := PendingOf(file.pending, chat) + events])
  }

  ghost predicate Next(s: System, step: Step, t: System) {
    match step
    case Open(chat) => chat !in s.open && t == s.(open := s.open[chat := s.file])
    case Commit(chat, ours, events) =>
      && chat in s.open && UniqueIds(ours.helpers)
      && t == s.(file := Merged(s.file, Change(s.open[chat], ours, chat, events)))
    case Close(chat) => chat in s.open && t == s.(open := s.open - {chat})
    case Update(after) => UpdateKeeps(s.file, after) && t == s.(file := after)
    case MoveOut(chat) => chat in s.open && t == s.(file := Departed(s.file, chat))
    case MoveIn(chat, events) => t == s.(file := Arrived(s.file, chat, events))
  }

  datatype Run = Run(states: seq<System>, steps: seq<Step>)
  {
    ghost predicate Valid() {
      && |states| == |steps| + 1
      && states[0].open == map[] && UniqueIds(states[0].file.helpers)
      && forall i {:trigger steps[i]} :: 0 <= i < |steps| ==> Next(states[i], steps[i], states[i + 1])
    }
  }

  // Whether a step changed a slot, from the base of the one who took it, and what it left there.
  predicate StepChanges(s: System, step: Step, slot: Slot) {
    match step
    case Commit(chat, ours, events) => chat in s.open && Change(s.open[chat], ours, chat, events).Changes(slot)
    case Update(after) => Get(after, slot) != Get(s.file, slot)
    case MoveOut(chat) => (slot == Pending(chat) && PendingOf(s.file.pending, chat) != []) || (slot == MainMark && chat == MessageIds.MAIN && !s.file.mainMoved)
    case MoveIn(chat, events) => slot == Pending(chat) && events != []
    case _ => false
  }

  function StepLeaves(s: System, step: Step, slot: Slot): Content
    requires StepChanges(s, step, slot)
  {
    match step
    case Commit(chat, ours, events) => Change(s.open[chat], ours, chat, events).Holds(slot)
    case MoveOut(_) => if slot.MainMark? then Flag(true) else Events([])
    case MoveIn(chat, events) => Events(PendingOf(s.file.pending, chat) + events)
    case Update(after) => Get(after, slot)
    case _ => Get(s.file, slot)
  }

  lemma {:induction false} BasesUnique(run: Run, n: nat)
    requires run.Valid() && n < |run.states|
    ensures UniqueIds(run.states[n].file.helpers)
    ensures forall chat :: chat in run.states[n].open ==> UniqueIds(run.states[n].open[chat].helpers)
  {
    if n > 0 {
      BasesUnique(run, n - 1);
      var s, step := run.states[n - 1], run.steps[n - 1];
      assert Next(s, step, run.states[n]);
      if step.Commit? {
        MergeSlot(s.file, Change(s.open[step.chat], step.ours, step.chat, step.events), Notes);
      }
    }
  }

  lemma StepSlot(s: System, step: Step, t: System, slot: Slot)
    requires Next(s, step, t) && UniqueIds(s.file.helpers)
    requires forall chat :: chat in s.open ==> UniqueIds(s.open[chat].helpers)
    ensures Get(t.file, slot) == if StepChanges(s, step, slot) then StepLeaves(s, step, slot) else Get(s.file, slot)
  {
    if step.Commit? {
      MergeSlot(s.file, Change(s.open[step.chat], step.ours, step.chat, step.events), slot);
    }
  }

  lemma {:induction false} UnchangedSlot(run: Run, m: nat, n: nat, slot: Slot)
    requires run.Valid() && m <= n < |run.states|
    requires forall i :: m <= i < n ==> !StepChanges(run.states[i], run.steps[i], slot)
    ensures Get(run.states[n].file, slot) == Get(run.states[m].file, slot)
  {
    if m < n {
      UnchangedSlot(run, m, n - 1, slot);
      BasesUnique(run, n - 1);
      assert Next(run.states[n - 1], run.steps[n - 1], run.states[n]);
      StepSlot(run.states[n - 1], run.steps[n - 1], run.states[n], slot);
    }
  }

  /** For every interleaving, a slot holds what the last step that changed it from its own base
      left there: a write from a stale base never brings an older value back. */
  lemma LastChangeWins(run: Run, i: nat, n: nat, slot: Slot)
    requires run.Valid() && i < n < |run.states|
    requires StepChanges(run.states[i], run.steps[i], slot)
    requires forall j :: i < j < n ==> !StepChanges(run.states[j], run.steps[j], slot)
    ensures Get(run.states[n].file, slot) == StepLeaves(run.states[i], run.steps[i], slot)
  {
    UnchangedSlot(run, i + 1, n, slot);
    BasesUnique(run, i);
    assert Next(run.states[i], run.steps[i], run.states[i + 1]);
    StepSlot(run.states[i], run.steps[i], run.states[i + 1], slot);
  }

  ghost predicate MainMovedBefore(run: Run, n: nat)
    requires n <= |run.steps|
  {
    exists k :: 0 <= k < n && run.steps[k] == MoveOut(MessageIds.MAIN)
  }

  /** Over every interleaving, the project says that main moved away exactly from when it did, or from
      the start if it said so then: no write takes the mark back, or sets it, however stale its copy. */
  lemma {:induction false} MainMarkExactly(run: Run, n: nat)
    requires run.Valid() && n < |run.states|
    ensures run.states[n].file.mainMoved <==> run.states[0].file.mainMoved || MainMovedBefore(run, n)
  {
    if n > 0 {
      MainMarkExactly(run, n - 1);
      var s, step := run.states[n - 1], run.steps[n - 1];
      BasesUnique(run, n - 1);
      assert Next(s, step, run.states[n]);
      StepSlot(s, step, run.states[n], MainMark);
      assert Get(run.states[n].file, MainMark) == Flag(run.states[n].file.mainMoved);
    }
  }

  /** Once the project says that main moved, it always does. */
  lemma MainMarkStays(run: Run, m: nat, n: nat)
    requires run.Valid() && m <= n < |run.states| && run.states[m].file.mainMoved
    ensures run.states[n].file.mainMoved
  {
    MainMarkExactly(run, m);
    MainMarkExactly(run, n);
  }
}
