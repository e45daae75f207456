/** Every run of looks, of what applies the actions they hand over, wholly, in part or not at all,
    and of what everybody else does to the chats and the work meanwhile. */
module AutopilotRuns {
  import opened Options
  import opened Proposals
  import opened Autopilot
  import opened AutopilotClaims
  import opened AutopilotWaits

  type Chats = map<string, seq<Action>>

  // A look in progress: the work orders it read, and what it found claimed and running as it began.
  datatype Ongoing = Ongoing(
    look: Look, titles: map<Order, string>, states: map<Order, State>, start: map<Item, seq<Order>>, floor: nat)

  /** The chats and the work orders; the look in progress; the actions it handed over that are
      still to be applied; every action ever handed over, and the work it then followed; the work
      orders made by applying autopilot's creates, with their items, and which of them by creates that
      then failed; and those under way since autopilot started them, with the card that did. */
  datatype World = World(
    chats: Chats, titles: map<Order, string>, states: map<Order, State>, ongoing: Option<Ongoing>,
    queue: seq<Action>, given: seq<ActionId>, follows: map<ActionId, Followee>, made: map<Order, Item>, half: set<Order>,
    started: map<Order, ActionId>)

  // How applying an action goes: wholly, or failing after it changed the work orders (a create has
  // made one, and may have started it), or refused, perhaps as no longer needed.
  datatype How = Wholly(now: int) | Partly(now: int, begun: bool) | Refused(now: int, stale: bool)

  datatype Step =
    | Others(chats: Chats, titles: map<Order, string>, states: map<Order, State>)
    | BeginLook
    | LookAtChat(chat: string, v: View, continues: map<Order, int>)
    | EndLook
    | Stop
    | Apply(home: string, at: nat, order: Order, how: How)
    | Release(order: Order, reading: seq<string>, work: seq<WorkOrder>)

  // The one that holds the watcher applies what was handed over before it looks again.
  ghost predicate HoldsAt(chats: Chats, chat: string, i: int, id: ActionId) {
    chat in chats && 0 <= i < |chats[chat]| && chats[chat][i].id == id
  }

  ghost predicate UniqueAll(chats: Chats) {
    forall c, i, d, j, id :: HoldsAt(chats, c, i, id) && HoldsAt(chats, d, j, id) ==> c == d && i == j
  }

  // A card stays what it is: a try is not unmade, and what was applied stays as it was applied.
  predicate Same(a: Action, b: Action) {
    && b.id == a.id && b.kind == a.kind && b.item == a.item && b.title == a.title && b.after == a.after
    && (a.autoTried ==> b.autoTried)
    && (!a.kind.Create? ==> b.order == a.order)
    && (a.status.Applied? ==> b.status.Applied? && b.order == a.order && b.plansEarly == a.plansEarly && b.updatedAt == a.updatedAt)
  }

  ghost predicate Kept(before: Chats, after: Chats) {
    forall c, i, id :: HoldsAt(before, c, i, id) ==>
      exists j :: HoldsAt(after, c, j, id) && Same(before[c][i], after[c][j])
  }

  ghost predicate StaysCancelled(before: map<Order, State>, after: map<Order, State>) {
    forall order :: Lookup(before, order) == Some(Cancelled) ==> Lookup(after, order) == Some(Cancelled)
  }

  // A work order stays one, and finished work stays as it finished.
  ghost predicate StaysFinished(before: map<Order, State>, after: map<Order, State>) {
    forall order :: order in before ==> order in after && (before[order].IsTerminal() ==> after[order] == before[order])
  }

  predicate PastPlanning(states: map<Order, State>, order: Order) {
    order in states && (states[order].IsImplementing() || states[order].Completed?)
  }

  // The card by which autopilot started a work order planned early.
  ghost predicate StartedEarly(w: World, order: Order) {
    order in w.started && exists c, i :: HoldsAt(w.chats, c, i, w.started[order]) && w.chats[c][i].plansEarly
  }

  // A work order started to plan early goes past its plan only by a release.
  ghost predicate NoneSlipsPast(w: World, states: map<Order, State>) {
    forall order :: StartedEarly(w, order) && PastPlanning(states, order) ==> PastPlanning(w.states, order)
  }

  // Until an action handed over is applied, nobody else changes whether its card plans early.
  ghost predicate QueueUntouched(w: World, chats: Chats) {
    forall k, c, i, d, j ::
      0 <= k < |w.queue| && HoldsAt(w.chats, c, i, w.queue[k].id) && HoldsAt(chats, d, j, w.queue[k].id) ==>
        chats[d][j].plansEarly == w.chats[c][i].plansEarly
  }

  ghost predicate OthersAllowed(w: World, chats: Chats, states: map<Order, State>) {
    && UniqueAll(chats) && Kept(w.chats, chats) && StaysCancelled(w.states, states)
    && (forall c, i, id :: HoldsAt(chats, c, i, id) && id.StartOf? ==> exists d, j :: HoldsAt(w.chats, d, j, id))
    && StaysFinished(w.states, states) && NoneSlipsPast(w, states) && QueueUntouched(w, chats)
  }

  // A work order sent back before its planning is under way no more.
  function UnderWay(started: map<Order, ActionId>, states: map<Order, State>): map<Order, ActionId> {
    map order | order in started && order in states && !states[order].Draft? && !states[order].Ready? :: started[order]
  }

  // What a look reads of a chat and of the others.
  ghost predicate Reads(w: World, chat: string, v: View) {
    && chat in w.chats && w.ongoing.Some? && v.states == w.ongoing.value.states && v.titles == w.ongoing.value.titles
    && (forall c, i, id :: HoldsAt(w.chats, c, i, id) && c != chat ==> w.chats[c][i] in v.elsewhere)
  }

  function Queued(create: Action, order: Order): Action {
    create.(id := StartOf(create.id), kind := Start, status := Proposed, order := order, queued := true,
            autoTried := false, leftForUser := false, holdStart := false, plansEarly := false, settled := false)
  }

  // The first of the queue is applied to its card: a create makes a work order, and starts it
  // unless it only writes its brief or its start was held, which is then queued; a start starts
  // one that is not under way; a close cancels one.
  ghost predicate Applies(w: World, home: string, i: nat, order: Order, how: How) {
    && w.queue != [] && HoldsAt(w.chats, home, i, w.queue[0].id) && w.chats[home][i].status.Proposed? && !how.Refused?
    && (w.queue[0].kind.Create? ==> order != "" && order !in w.states && order !in w.made)
    && (w.queue[0].kind.Start? ==> w.queue[0].order in w.states && (var s := w.states[w.queue[0].order]; s.Draft? || s.Ready?))
    && (w.queue[0].kind.Close? ==> w.queue[0].order in w.states && !w.states[w.queue[0].order].Completed?)
    && (how.Partly? ==> w.queue[0].kind.Create? || w.queue[0].kind.Start? || w.queue[0].kind.Close?)
  }

  predicate StartsAtOnce(create: Action) { !create.holdStart && !create.brief }

  predicate Begins(create: Action, how: How) { StartsAtOnce(create) && (how.Partly? ==> how.begun) }

  // A card that could not be applied waits for the user.
  function LeftCard(card: Action): Action { card.(holdStart := false, plansEarly := false, leftForUser := true) }

  function SettledCard(card: Action, now: int): Action {
    card.(status := Applied, settled := true, queued := false, leftForUser := false, updatedAt := now)
  }

  function RefusedCard(card: Action, how: How): Action {
    if how.Refused? && how.stale && card.status.Proposed? && !card.kind.Create? && card.order != "" then SettledCard(card, how.now)
    else LeftCard(card)
  }

  // A start or a close that failed once its work order was there settles, as no longer needed.
  function AppliedCard(card: Action, create: bool, order: Order, how: How): Action
    requires !how.Refused?
  {
    if how.Wholly? then card.(status := Applied, leftForUser := false, updatedAt := how.now, order := if create then order else card.order)
    else if create then LeftCard(card)
    else SettledCard(card, how.now)
  }

  function AppliedChats(chats: Chats, given: Action, home: string, i: nat, order: Order, how: How): Chats
    requires home in chats && i < |chats[home]| && !how.Refused?
  {
    var done := AppliedCard(chats[home][i], given.kind.Create?, order, how);
    var queues := given.kind.Create? && given.holdStart && how.Wholly?;
    chats[home := chats[home][i := done] + if queues then [Queued(done, order)] else []]
  }

  function AppliedStates(states: map<Order, State>, given: Action, order: Order, how: How): map<Order, State> {
    if given.kind.Create? then states[order := if Begins(given, how) then Planning else Draft]
    else if given.kind.Start? then states[given.order := Planning]
    else if given.kind.Close? then states[given.order := Cancelled]
    else states
  }

  function AppliedStarts(started: map<Order, ActionId>, given: Action, order: Order, how: How): map<Order, ActionId> {
    if given.kind.Create? && Begins(given, how) then started[order := given.id]
    else if given.kind.Start? then started[given.order := given.id]
    else started
  }

  function AppliedTo(w: World, home: string, i: nat, order: Order, how: How): World
    requires w.queue != [] && home in w.chats && i < |w.chats[home]| && !how.Refused?
  {
    var given := w.queue[0];
    w.(chats := AppliedChats(w.chats, given, home, i, order, how), queue := w.queue[1..],
       states := AppliedStates(w.states, given, order, how), started := AppliedStarts(w.started, given, order, how),
       titles := if given.kind.Create? then w.titles[order := w.chats[home][i].title] else w.titles,
       made := if given.kind.Create? then w.made[order := given.item] else w.made,
       half := if given.kind.Create? && how.Partly? then w.half + {order} else w.half)
  }

  function RefusedTo(w: World, home: string, i: nat, how: How): World
    requires w.queue != [] && home in w.chats && i < |w.chats[home]|
  {
    w.(chats := w.chats[home := w.chats[home][i := RefusedCard(w.chats[home][i], how)]], queue := w.queue[1..])
  }

  // The followed work that the look knew of.
  function Known(states: map<Order, State>, followee: Followee): Followee {
    if followee.TheOrder? && followee.order !in states then Nobody else followee
  }

  ghost function FollowedBy(v: View, actions: seq<Action>, handed: seq<Action>): map<ActionId, Followee> {
    if handed == [] then map[]
    else
      var last := handed[|handed| - 1];
      FollowedBy(v, actions, handed[..|handed| - 1])[last.id := Known(v.states, Follows(actions + v.elsewhere, last, v.titles, v.states))]
  }

  function IdsOf(actions: seq<Action>): (ids: seq<ActionId>)
    ensures |ids| == |actions| && forall i :: 0 <= i < |ids| ==> ids[i] == actions[i].id
  {
    if actions == [] then [] else IdsOf(actions[..|actions| - 1]) + [actions[|actions| - 1].id]
  }

  ghost function Looked(w: World, chat: string, v: View, continues: map<Order, int>): World
    requires chat in w.chats && w.ongoing.Some?
  {
    var o, p := w.ongoing.value, LookedAt(v, w.ongoing.value.look, w.chats[chat], continues);
    var begun := Begun(v, o.look, AllSettled(v, w.chats[chat]));
    var now := if o.look.started || !p.look.started then o.(look := p.look) else o.(look := p.look, start := begun.claims, floor := begun.running);
    w.(chats := w.chats[chat := p.actions], ongoing := Some(now), queue := w.queue + p.handed, given := w.given + IdsOf(p.handed),
       follows := w.follows + FollowedBy(v, p.actions, p.handed))
  }

  // The chats as they are read together, in some order of use.
  ghost predicate Reading(chats: Chats, names: seq<string>) {
    && (forall c :: c in chats <==> c in names)
    && (forall i, j :: 0 <= i < j < |names| ==> names[i] != names[j])
  }

  function Together(chats: Chats, names: seq<string>): seq<Action> {
    if names == [] then [] else (if names[0] in chats then chats[names[0]] else []) + Together(chats, names[1..])
  }

  // A plan that is ready is implemented once nothing holds it.
  ghost predicate Releases(w: World, order: Order, names: seq<string>, work: seq<WorkOrder>) {
    && Lookup(w.states, order) == Some(Planning) && Reading(w.chats, names)
    && !Holds(Together(w.chats, names), order, w.titles, w.states, work)
  }

  ghost predicate Next(w: World, step: Step, u: World) {
    match step
    case Others(chats, titles, states) =>
      OthersAllowed(w, chats, states) && u == w.(chats := chats, titles := titles, states := states, started := UnderWay(w.started, states))
    case BeginLook => w.ongoing.None? && w.queue == [] && u == w.(ongoing := Some(Ongoing(NOTHING_SEEN, w.titles, w.states, map[], 0)))
    case LookAtChat(chat, v, continues) => Reads(w, chat, v) && u == Looked(w, chat, v, continues)
    case EndLook => w.ongoing.Some? && u == w.(ongoing := None)
    case Stop => u == w.(ongoing := None, queue := [])
    case Apply(home, i, order, how) =>
      && w.ongoing.None? && w.queue != []
      && (if how.Refused? then HoldsAt(w.chats, home, i, w.queue[0].id) && u == RefusedTo(w, home, i, how)
          else Applies(w, home, i, order, how) && u == AppliedTo(w, home, i, order, how))
    case Release(order, names, work) => Releases(w, order, names, work) && u == w.(states := w.states[order := Implementing])
  }

  ghost predicate Init(w: World) {
    && w.ongoing.None? && w.queue == [] && w.given == [] && w.follows == map[] && w.made == map[] && w.half == {}
    && w.started == map[]
    && UniqueAll(w.chats)
    && (forall c, i, id :: HoldsAt(w.chats, c, i, id) ==> id.Card?)
  }

  /******* The invariant *******/

  ghost predicate CardsOk(w: World) {
    && UniqueAll(w.chats)
    && (forall c, i, id :: HoldsAt(w.chats, c, i, id) && id.StartOf? ==> id.create in w.given && id.create !in IdsOf(w.queue))
  }

  ghost predicate HasTried(chats: Chats, id: ActionId) {
    exists c, i :: HoldsAt(chats, c, i, id) && chats[c][i].autoTried
  }

  ghost predicate Distinct(ids: seq<ActionId>) {
    forall i, j :: 0 <= i < j < |ids| ==> ids[i] != ids[j]
  }

  ghost predicate GivenOk(w: World) {
    && Distinct(w.given)
    && (forall id :: id in w.given ==> HasTried(w.chats, id))
    && |w.queue| <= |w.given| && w.given[|w.given| - |w.queue|..] == IdsOf(w.queue)
  }

  // A queue entry's card is of its kind and item.
  ghost predicate QueueCards(w: World) {
    forall k, c, i :: 0 <= k < |w.queue| && HoldsAt(w.chats, c, i, w.queue[k].id) ==>
      w.chats[c][i].kind == w.queue[k].kind && w.chats[c][i].item == w.queue[k].item
  }

  ghost predicate MadeBy(w: World, order: Order, c: string, i: int)
    requires order in w.made
  {
    c in w.chats && 0 <= i < |w.chats[c]| && IsCreated(w.chats[c][i]) && w.chats[c][i].order == order && w.chats[c][i].item == w.made[order]
  }

  ghost predicate HasMaker(w: World, order: Order)
    requires order in w.made
  {
    exists c, i :: MadeBy(w, order, c, i)
  }

  ghost predicate MadeOk(w: World) {
    && "" !in w.made
    && (forall order :: order in w.made && order !in w.half ==> HasMaker(w, order))
    && (forall o, p :: o in w.made && p in w.made && o != p && w.made[o] == w.made[p] != "" ==>
         Lookup(w.states, o) == Some(Cancelled) || Lookup(w.states, p) == Some(Cancelled))
  }

  ghost predicate QueueOk(w: World) {
    && (forall j, k :: 0 <= j < k < |w.queue| && w.queue[j].kind.Create? && w.queue[k].kind.Create? && w.queue[k].item != "" ==>
         w.queue[j].item != w.queue[k].item)
    && (forall k, o :: 0 <= k < |w.queue| && w.queue[k].kind.Create? && w.queue[k].item != "" && o in w.made && w.made[o] == w.queue[k].item ==>
         Freed(w.states, w.queue, k, o))
  }

  ghost predicate OngoingOk(w: World)
    requires w.ongoing.Some?
  {
    var o := w.ongoing.value;
    && StaysCancelled(o.states, w.states)
    && (!o.look.started ==> o.look == NOTHING_SEEN && w.queue == [])
    && (o.look.started ==>
         && LookOk(o.states, o.start, o.floor, o.look, w.queue)
         && forall order :: order in w.made ==> HeldFor(w, o.start, order))
  }

  // An order made keeps its item: it is claimed, unless it is cancelled.
  predicate HeldFor(w: World, claims: map<Item, seq<Order>>, order: Order)
    requires order in w.made
  {
    w.made[order] == "" || order in ClaimsOf(claims, w.made[order]) || Lookup(w.states, order) == Some(Cancelled)
  }

  ghost predicate Invariant(w: World) { CardsOk(w) && GivenOk(w) && QueueCards(w) }

  // One open work order for each item, as long as every step is sound.
  ghost predicate OneEach(w: World) { MadeOk(w) && QueueOk(w) && (w.ongoing.Some? ==> OngoingOk(w)) }

  // A look that begins finds each open work order that a create made and then failed.
  ghost predicate FindsHalf(w: World, step: Step) {
    step.LookAtChat? && step.chat in w.chats && w.ongoing.Some? && !w.ongoing.value.look.started ==>
      forall order :: order in w.half && order in w.made && w.made[order] != "" && Lookup(w.states, order) != Some(Cancelled) ==>
        Found(step.v, AllSettled(step.v, w.chats[step.chat]), w.made[order], order)
  }

  // A close that is applied is not refused.
  predicate Closes(w: World, step: Step) { step.Apply? && step.how.Refused? && w.queue != [] ==> !w.queue[0].kind.Close? }

  ghost predicate Sound(w: World, step: Step) { FindsHalf(w, step) && Closes(w, step) }
}
