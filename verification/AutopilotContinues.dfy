/** Continues and recoveries of one work order stay bounded, although their counter lives in the
    project state that every chat writes back from the copy it read. */
module AutopilotContinues {
  import opened Options
  import opened Proposals
  import opened Autopilot
  import opened AutopilotClaims
  import State = SharedState

  function ContinuesOf(handed: seq<Action>, order: Order): nat {
    if handed == [] then 0
    else
      var last := handed[|handed| - 1];
      ContinuesOf(handed[..|handed| - 1], order) + if CountsContinue(last) && last.order == order then 1 else 0
  }

  lemma ContinuesOfOneMore(handed: seq<Action>, given: Action, order: Order)
    ensures ContinuesOf(handed + [given], order) ==
      ContinuesOf(handed, order) + if CountsContinue(given) && given.order == order then 1 else 0
  {
    assert (handed + [given])[..|handed|] == handed;
  }

  // Within a chat, what is handed over is counted, and the count never passes the bound.
  predicate Bounded(counted: map<Order, int>, p: Pass, order: Order) {
    && Count(counted, order) + ContinuesOf(p.handed, order) <= Count(p.continues, order)
    && Count(p.continues, order) <= (if Count(counted, order) < MAX_AUTO_CONTINUES then MAX_AUTO_CONTINUES else Count(counted, order))
  }

  lemma TriedCounts(v: View, p: Pass, i: nat, h: Hold, order: Order)
    requires i < |p.actions| && Marked(p.actions[i], h.action)
    ensures var q := Tried(v, p, i, h);
      && (Count(q.continues, order) == Count(p.continues, order)
          || Count(p.continues, order) < Count(q.continues, order) <= MAX_AUTO_CONTINUES)
      && (q.handed == p.handed ==> Count(q.continues, order) >= Count(p.continues, order))
      && (q.handed == p.handed || (q.handed == p.handed + [q.actions[i]]
           && Count(q.continues, order) == Count(p.continues, order) + if CountsContinue(q.actions[i]) && q.actions[i].order == order then 1 else 0))
  {
  }

  lemma TakeCounts(v: View, counted: map<Order, int>, p: Pass, i: nat, order: Order)
    requires i < |p.actions| && Bounded(counted, p, order)
    ensures Bounded(counted, Take(v, p, i), order)
  {
    var action := p.actions[i];
    if !Skips(v, p, action) {
      var h := Held(v, p.look.running, action, WaitOf(v, p, action));
      HeldSlots(v, p.look.running, action, WaitOf(v, p, action));
      if !h.later {
        TriedCounts(v, p, i, h, order);
        var q := Tried(v, p, i, h);
        if q.handed != p.handed { ContinuesOfOneMore(p.handed, q.actions[i], order); }
      }
    }
  }

  lemma {:induction false} TakenCounts(v: View, p: Pass, order: seq<nat>, work: Order)
    requires forall k :: 0 <= k < |order| ==> order[k] < |p.actions|
    requires p.handed == []
    ensures Bounded(p.continues, Taken(v, p, order), work)
  {
    if order != [] {
      TakenCounts(v, p, order[..|order| - 1], work);
      TakeCounts(v, p.continues, Taken(v, p, order[..|order| - 1]), order[|order| - 1], work);
    }
  }

  lemma LookedCounts(v: View, look: Look, stored: seq<Action>, counted: map<Order, int>, order: Order)
    ensures Bounded(counted, LookedAt(v, look, stored, counted), order)
  {
    var actions := AllSettled(v, stored);
    TakenCounts(v, Pass(Begun(v, look, actions), actions, counted, [], AnySettled(v, stored)), Ordered(actions), order);
  }

  /******* Over every run of the project state *******/

  /** A write that a look makes: what it read of the chat, and the step that opened it. */
  datatype Watch = Watch(v: View, look: Look, stored: seq<Action>, since: nat)

  ghost function LookedIn(run: State.Run, watch: Option<Watch>, i: nat): Pass
    requires run.Valid() && i < |run.steps| && watch.Some?
  {
    var s, step := run.states[i], run.steps[i];
    var counted := if step.Commit? && step.chat in s.open then s.open[step.chat].autoContinues else map[];
    LookedAt(watch.value.v, watch.value.look, watch.value.stored, counted)
  }

  ghost predicate WatchOk(run: State.Run, watches: seq<Option<Watch>>, i: nat)
    requires run.Valid() && i < |watches| == |run.steps|
  {
    var s, step := run.states[i], run.steps[i];
    if watches[i].Some? then
      var since := watches[i].value.since;
      && since < i && step.Commit? && run.steps[since] == State.Open(step.chat)
      && (forall k :: since < k < i ==> watches[k].None? && run.steps[k] != State.Close(step.chat))
      && step.ours.autoContinues == LookedIn(run, watches[i], i).continues
    else step.Commit? && step.chat in s.open ==> step.ours.autoContinues == s.open[step.chat].autoContinues
  }

  // One watcher looks at one chat at a time: it opens the chat, looks, and writes it, and only
  // its writes change the counters; all other chats read and write as they like meanwhile.
  ghost predicate Watched(run: State.Run, watches: seq<Option<Watch>>) {
    run.Valid() && |watches| == |run.steps| && forall i :: 0 <= i < |watches| ==> WatchOk(run, watches, i)
  }

  // The continues and recoveries of an order that a step hands over, and all until step n.
  ghost function HandedIn(run: State.Run, watches: seq<Option<Watch>>, i: nat, order: Order): nat
    requires run.Valid() && i < |watches| == |run.steps|
  {
    if watches[i].Some? then ContinuesOf(LookedIn(run, watches[i], i).handed, order) else 0
  }

  ghost function TotalHanded(run: State.Run, watches: seq<Option<Watch>>, n: nat, order: Order): nat
    requires run.Valid() && n <= |watches| == |run.steps|
  {
    if n == 0 then 0 else TotalHanded(run, watches, n - 1, order) + HandedIn(run, watches, n - 1, order)
  }

  lemma {:induction false} BaseStays(run: State.Run, since: nat, n: nat, chat: string)
    requires run.Valid() && since < n <= |run.steps| && run.steps[since] == State.Open(chat)
    requires forall k :: since < k < n ==> run.steps[k] != State.Close(chat)
    ensures chat in run.states[n].open && run.states[n].open[chat] == run.states[since].file
  {
    assert State.Next(run.states[n - 1], run.steps[n - 1], run.states[n]);
    if since < n - 1 {
      BaseStays(run, since, n - 1, chat);
    }
  }

  lemma OthersLeaveCounter(run: State.Run, watches: seq<Option<Watch>>, i: nat, order: Order)
    requires Watched(run, watches) && i < |run.steps| && watches[i].None?
    ensures !State.StepChanges(run.states[i], run.steps[i], State.AutoContinues(order))
  {
    assert WatchOk(run, watches, i);
    assert State.Next(run.states[i], run.steps[i], run.states[i + 1]);
  }

  lemma QuietBetween(run: State.Run, watches: seq<Option<Watch>>, i: nat, k: nat, order: Order)
    requires Watched(run, watches) && i < |run.steps| && watches[i].Some? && watches[i].value.since <= k < i
    ensures !State.StepChanges(run.states[k], run.steps[k], State.AutoContinues(order))
  {
    assert WatchOk(run, watches, i);
    if k > watches[i].value.since { OthersLeaveCounter(run, watches, k, order); }
  }

  lemma ReadStays(run: State.Run, watches: seq<Option<Watch>>, i: nat)
    requires Watched(run, watches) && i < |run.steps| && watches[i].Some?
    ensures watches[i].value.since < i && run.steps[i].Commit? && run.steps[i].chat in run.states[i].open
    ensures run.states[i].open[run.steps[i].chat] == run.states[watches[i].value.since].file
  {
    assert WatchOk(run, watches, i);
    BaseStays(run, watches[i].value.since, i, run.steps[i].chat);
  }

  // Nobody changed the counter since the look read it.
  lemma ReadIsCurrent(run: State.Run, watches: seq<Option<Watch>>, i: nat, order: Order)
    requires Watched(run, watches) && i < |run.steps| && watches[i].Some?
    ensures run.steps[i].Commit? && run.steps[i].chat in run.states[i].open
    ensures Lookup(run.states[i].open[run.steps[i].chat].autoContinues, order) == Lookup(run.states[i].file.autoContinues, order)
  {
    ReadStays(run, watches, i);
    var since, slot := watches[i].value.since, State.AutoContinues(order);
    forall k | since <= k < i ensures !State.StepChanges(run.states[k], run.steps[k], slot) {
      QuietBetween(run, watches, i, k, order);
    }
    State.UnchangedSlot(run, since, i, slot);
    assert State.Get(run.states[i].file, slot) == State.Get(run.states[since].file, slot);
  }

  // The counter a write leaves, when what it read was current, is the one it holds.
  lemma WrittenCounter(s: State.System, step: State.Step, t: State.System, order: Order)
    requires State.Next(s, step, t) && step.Commit? && State.UniqueIds(s.file.helpers) && State.UniqueIds(s.open[step.chat].helpers)
    requires Lookup(s.open[step.chat].autoContinues, order) == Lookup(s.file.autoContinues, order)
    ensures Lookup(t.file.autoContinues, order) == Lookup(step.ours.autoContinues, order)
  {
    var change, slot := State.Change(s.open[step.chat], step.ours, step.chat, step.events), State.AutoContinues(order);
    State.MergeSlot(s.file, change, slot);
    assert State.Get(t.file, slot) == if change.Changes(slot) then change.Holds(slot) else State.Get(s.file, slot);
  }

  function CounterAt(run: State.Run, n: nat, order: Order): int
    requires n < |run.states|
  {
    Count(run.states[n].file.autoContinues, order)
  }

  lemma WatchCounts(run: State.Run, watches: seq<Option<Watch>>, i: nat, order: Order)
    requires Watched(run, watches) && i < |run.steps| && watches[i].Some?
    ensures CounterAt(run, i, order) + HandedIn(run, watches, i, order) <= CounterAt(run, i + 1, order)
    ensures CounterAt(run, i + 1, order) <=
      if CounterAt(run, i, order) < MAX_AUTO_CONTINUES then MAX_AUTO_CONTINUES else CounterAt(run, i, order)
  {
    ReadIsCurrent(run, watches, i, order);
    State.BasesUnique(run, i);
    assert WatchOk(run, watches, i) && State.Next(run.states[i], run.steps[i], run.states[i + 1]);
    WrittenCounter(run.states[i], run.steps[i], run.states[i + 1], order);
    var w := watches[i].value;
    LookedCounts(w.v, w.look, w.stored, run.states[i].open[run.steps[i].chat].autoContinues, order);
  }

  lemma OthersCount(run: State.Run, watches: seq<Option<Watch>>, i: nat, order: Order)
    requires Watched(run, watches) && i < |run.steps| && watches[i].None?
    ensures CounterAt(run, i + 1, order) == CounterAt(run, i, order)
  {
    OthersLeaveCounter(run, watches, i, order);
    State.UnchangedSlot(run, i, i + 1, State.AutoContinues(order));
    assert State.Get(run.states[i + 1].file, State.AutoContinues(order)) == State.Get(run.states[i].file, State.AutoContinues(order));
  }

  lemma StepCounts(run: State.Run, watches: seq<Option<Watch>>, i: nat, order: Order)
    requires Watched(run, watches) && i < |run.steps|
    ensures CounterAt(run, i, order) + HandedIn(run, watches, i, order) <= CounterAt(run, i + 1, order)
    ensures CounterAt(run, i + 1, order) <= if CounterAt(run, i, order) < 8 then 8 else CounterAt(run, i, order)
  {
    if watches[i].Some? { WatchCounts(run, watches, i, order); } else { OthersCount(run, watches, i, order); }
  }

  /** Over every run, the continues and recoveries handed over for one work order are counted, and
      never pass eight in all, counting those stored before. */
  lemma {:induction false} ContinuesBounded(run: State.Run, watches: seq<Option<Watch>>, n: nat, order: Order)
    requires Watched(run, watches) && n <= |run.steps|
    ensures CounterAt(run, 0, order) + TotalHanded(run, watches, n, order) <= CounterAt(run, n, order)
    ensures CounterAt(run, n, order) <= if CounterAt(run, 0, order) < 8 then 8 else CounterAt(run, 0, order)
  {
    if n > 0 {
      ContinuesBounded(run, watches, n - 1, order);
      StepCounts(run, watches, n - 1, order);
    }
  }
}
