/** Every interleaving of sends, notifications, broker confirms, channel deaths, watchers, drains and rebuilds
    around one sender (internal/rabbit/sender.go). One event is one lock-protected section or one environment
    step, with the purely local steps of a goroutine folded into it; any goroutine may call `rebuild` at any
    time with any expected generation.

    What is assumed of the AMQP library: a publish on a dead channel fails, a failed publish consumes no broker
    tag, the broker confirms each published tag at most once and no other tag, and confirms reach the listener
    of a channel only while the channel is alive. */
module SenderRuns {
  import opened Options
  import opened SenderCore

  /** Who published a message: a confirmed send or a notification. */
  datatype Origin = Send(id: nat) | Notification

  /** The tag ledger of one AMQP channel. `log` is the broker's publish sequence: position `i` carries tag
      `i + 1`. The counters are what moves the local tag counter away from it: notifications published,
      counter values discarded by a drain while the channel was alive, discarded after it died, and rollbacks
      that found their entry already gone. */
  datatype Ledger = Ledger(log: seq<Origin>, notes: nat, cut: nat, dropped: nat, lost: nat)

  const OPENED: Ledger := Ledger([], 0, 0, 0, 0)

  /** What a send remembers of its registration: its tag and channel, the misalignment of the channel at that
      moment, and whether the confirm of that tag had been consumed already. */
  datatype Ticket = Ticket(tag: nat, ch: Option<nat>, shift: int, stale: bool)

  datatype Phase =
    | Tagged | Undone | Published | Waiting | Finished(result: Result) | Refused
    | NoteReady(ch: Option<nat>) | NoteSent | NoteDone

  datatype Watcher = Watching | InHand(rc: nat, value: Result) | Gone

  datatype Rebuild =
    | Idle
    | Begun(expected: nat, requireOpen: bool)
    | Opening(expected: nat, requireOpen: bool)
    | Opened(expected: nat, requireOpen: bool, made: nat)
    | Checked(expected: nat, requireOpen: bool, made: nat)
    | Discarding(made: nat)
    | ClosingOld(prev: Option<nat>)
    | Spawning

  /** `acks` holds the confirms that reached their listener, by channel and tag, `consumed` those a watcher has
      taken. `places` is the broker position of every published send. `history[g - 1]` is the channel installed
      as generation `g`. `answered` collects the result channels that have received a value; `twice` records a
      second one. */
  datatype State = State(core: Core, ledgers: map<nat, Ledger>, alive: set<nat>,
                         acks: map<(nat, nat), bool>, consumed: set<(nat, nat)>,
                         sends: map<nat, Phase>, tickets: map<nat, Ticket>, places: map<nat, nat>, slot: Option<nat>,
                         watchers: map<nat, Watcher>, history: seq<nat>, rebuild: Rebuild, connOpen: bool,
                         answered: set<nat>, twice: bool)

  const START: State :=
    State(FRESH, map[], {}, map[], {}, map[], map[], map[], None, map[], [], Idle, true, {}, false)

  datatype Event =
    | Register(id: nat) | Rollback(id: nat) | Publish(id: nat) | Release(id: nat)
    | Receive(id: nat) | Expire(id: nat)
    | LookNote(id: nat) | PublishNote(id: nat)
    | Confirm(c: nat, tag: nat, ack: bool) | Die(c: nat) | SetConn(open: bool)
    | Take(gen: nat, tag: nat) | Put(gen: nat) | SeeClose(gen: nat)
    | Drain
    | Begin(expected: nat, requireOpen: bool) | FirstCheck | OpenFails | OpenWorks(c: nat) | LookClosed
    | Install | Discard | CloseOld | Spawn

  // ----- steps -----

  predicate Live(s: State, c: Option<nat>) {
    c.Some? && c.value in s.ledgers && c.value in s.alive
  }

  predicate CanRegister(s: State, id: nat) {
    id !in s.sends && s.slot == None
  }

  predicate CanRollback(s: State, id: nat) {
    id in s.sends && s.sends[id].Tagged? && id in s.tickets
  }

  predicate CanPublish(s: State, id: nat) {
    CanRollback(s, id) && Live(s, s.tickets[id].ch)
  }

  predicate CanRelease(s: State, id: nat) {
    id in s.sends && (s.sends[id].Published? || s.sends[id].Undone? || s.sends[id].NoteSent? || s.sends[id].NoteReady?)
  }

  predicate CanReceive(s: State, id: nat) {
    id in s.sends && s.sends[id].Waiting? && id in s.core.inbox
  }

  predicate CanExpire(s: State, id: nat) {
    id in s.sends && s.sends[id].Waiting? && id in s.tickets
  }

  predicate CanPublishNote(s: State, id: nat) {
    id in s.sends && s.sends[id].NoteReady? && Live(s, s.sends[id].ch)
  }

  predicate CanConfirm(s: State, c: nat, tag: nat) {
    c in s.alive && c in s.ledgers && 1 <= tag <= |s.ledgers[c].log| && (c, tag) !in s.acks
  }

  predicate CanTake(s: State, g: nat, tag: nat) {
    && g in s.watchers && s.watchers[g].Watching? && 1 <= g <= |s.history|
    && (s.history[g - 1], tag) in s.acks && (s.history[g - 1], tag) !in s.consumed
  }

  /** A result channel holds one value, so the send of `dispatchConfirm` waits while it is full. */
  predicate CanPut(s: State, g: nat) {
    g in s.watchers && s.watchers[g].InHand? && s.watchers[g].rc !in s.core.inbox
  }

  predicate CanSeeClose(s: State, g: nat) {
    g in s.watchers && s.watchers[g].Watching? && 1 <= g <= |s.history| && s.history[g - 1] !in s.alive
  }

  /** Steps of the holder of the publish slot. */
  predicate UnderSlot(e: Event) {
    e.Register? || e.Rollback? || e.Publish? || e.Release?
  }

  /** Steps of waiting sends and of notifications. */
  predicate ByWaiter(e: Event) {
    e.Receive? || e.Expire? || e.LookNote? || e.PublishNote?
  }

  /** Steps of `rebuild` up to its second check. */
  predicate ByOpening(e: Event) {
    e.Begin? || e.FirstCheck? || e.OpenFails? || e.OpenWorks? || e.LookClosed?
  }

  /** The other steps of `rebuild`. */
  predicate BySwap(e: Event) {
    e.Install? || e.Discard? || e.CloseOld? || e.Spawn?
  }

  predicate SlotEnabled(s: State, e: Event)
    requires UnderSlot(e)
  {
    match e
    case Register(id) => CanRegister(s, id)
    case Rollback(id) => CanRollback(s, id)
    case Publish(id) => CanPublish(s, id)
    case Release(id) => CanRelease(s, id)
  }

  predicate WaiterEnabled(s: State, e: Event)
    requires ByWaiter(e)
  {
    match e
    case Receive(id) => CanReceive(s, id)
    case Expire(id) => CanExpire(s, id)
    case LookNote(id) => CanRegister(s, id)
    case PublishNote(id) => CanPublishNote(s, id)
  }

  predicate OpeningEnabled(s: State, e: Event)
    requires ByOpening(e)
  {
    match e
    case Begin(_, _) => s.rebuild.Idle?
    case FirstCheck => s.rebuild.Begun?
    case OpenFails => s.rebuild.Opening?
    case OpenWorks(c) => s.rebuild.Opening? && c !in s.ledgers
    case LookClosed => s.rebuild.Opened?
  }

  predicate SwapEnabled(s: State, e: Event)
    requires BySwap(e)
  {
    match e
    case Install => s.rebuild.Checked?
    case Discard => s.rebuild.Discarding?
    case CloseOld => s.rebuild.ClosingOld?
    case Spawn => s.rebuild.Spawning?
  }

  /** Steps of the broker, the connection, the watchers and `Reconnect`. */
  predicate OtherEnabled(s: State, e: Event)
    requires !UnderSlot(e) && !ByWaiter(e) && !ByOpening(e) && !BySwap(e)
  {
    match e
    case Confirm(c, tag, _) => CanConfirm(s, c, tag)
    case Die(_) => true
    case SetConn(_) => true
    case Take(g, tag) => CanTake(s, g, tag)
    case Put(g) => CanPut(s, g)
    case SeeClose(g) => CanSeeClose(s, g)
    case Drain => true
  }

  predicate Enabled(s: State, e: Event) {
    if UnderSlot(e) then SlotEnabled(s, e)
    else if ByWaiter(e) then WaiterEnabled(s, e)
    else if ByOpening(e) then OpeningEnabled(s, e)
    else if BySwap(e) then SwapEnabled(s, e)
    else OtherEnabled(s, e)
  }

  function Misalignment(ledgers: map<nat, Ledger>, ch: Option<nat>): int {
    if ch.Some? && ch.value in ledgers then
      var l := ledgers[ch.value];
      l.notes + l.cut + l.dropped - l.lost
    else 0
  }

  /** Counter values thrown away by a drain, booked on the channel they belonged to. */
  function Booked(ledgers: map<nat, Ledger>, alive: set<nat>, core: Core): map<nat, Ledger> {
    if core.ch.Some? && core.ch.value in ledgers then
      var c := core.ch.value;
      var l := ledgers[c];
      ledgers[c := if c in alive then l.(cut := l.cut + core.nextTag) else l.(dropped := l.dropped + core.nextTag)]
    else ledgers
  }

  predicate AnswersTwice(core: Core, answered: set<nat>) {
    exists rc | rc in core.pending.Values :: rc !in core.inbox && rc in answered
  }

  function NewTicket(s: State): Ticket {
    var tag, ch := s.core.nextTag + 1, s.core.ch;
    Ticket(tag, ch, Misalignment(s.ledgers, ch), ch.Some? && (ch.value, tag) in s.consumed)
  }

  function DoRegister(s: State, id: nat): State {
    s.(core := Registered(s.core, id), slot := Some(id), sends := s.sends[id := Tagged],
       tickets := s.tickets[id := NewTicket(s)])
  }

  function Missed(l: Ledger): Ledger {
    l.(lost := l.lost + 1)
  }

  /** Reached when the context has expired, there is no channel, or the publish failed. */
  function DoRollback(s: State, id: nat): State
    requires CanRollback(s, id)
  {
    var t := s.tickets[id];
    var missed := !Owns(s.core, t.tag, id) && t.ch == s.core.ch && t.ch.Some? && t.ch.value in s.ledgers;
    var ledgers := if missed then s.ledgers[t.ch.value := Missed(s.ledgers[t.ch.value])] else s.ledgers;
    s.(core := RolledBack(s.core, t.tag, id), sends := s.sends[id := Undone], ledgers := ledgers)
  }

  function DoPublish(s: State, id: nat): State
    requires CanPublish(s, id)
  {
    var c := s.tickets[id].ch.value;
    var l := s.ledgers[c];
    s.(ledgers := s.ledgers[c := l.(log := l.log + [Send(id)])], places := s.places[id := |l.log| + 1],
       sends := s.sends[id := Published])
  }

  function DoRelease(s: State, id: nat): State
    requires CanRelease(s, id)
  {
    var p := s.sends[id];
    var next := if p.Published? then Waiting else if p.Undone? then Refused else NoteDone;
    s.(sends := s.sends[id := next], slot := None)
  }

  function DoReceive(s: State, id: nat): State
    requires CanReceive(s, id)
  {
    s.(sends := s.sends[id := Finished(s.core.inbox[id])], core := s.core.(inbox := s.core.inbox - {id}))
  }

  function DoExpire(s: State, id: nat): State
    requires CanExpire(s, id)
  {
    s.(sends := s.sends[id := Finished(ContextDone)], core := Forgotten(s.core, s.tickets[id].tag, id))
  }

  function DoLookNote(s: State, id: nat): State {
    s.(sends := s.sends[id := NoteReady(s.core.ch)], slot := Some(id))
  }

  function DoPublishNote(s: State, id: nat): State
    requires CanPublishNote(s, id)
  {
    var c := s.sends[id].ch.value;
    var l := s.ledgers[c];
    s.(sends := s.sends[id := NoteSent],
       ledgers := s.ledgers[c := l.(log := l.log + [Notification], notes := l.notes + 1)])
  }

  function DoTake(s: State, g: nat, tag: nat): State
    requires CanTake(s, g, tag)
  {
    var c := s.history[g - 1];
    var waiter := Claimed(s.core, g, tag);
    var hand := if waiter.Some? then InHand(waiter.value, if s.acks[(c, tag)] then Acked else Nacked) else Watching;
    s.(core := Taken(s.core, g, tag), consumed := s.consumed + {(c, tag)}, watchers := s.watchers[g := hand])
  }

  function DoPut(s: State, g: nat): State
    requires CanPut(s, g)
  {
    var w := s.watchers[g];
    s.(core := s.core.(inbox := s.core.inbox[w.rc := w.value]), watchers := s.watchers[g := Watching],
       answered := s.answered + {w.rc}, twice := s.twice || w.rc in s.answered)
  }

  function DoDrain(s: State): State {
    s.(core := Drained(s.core), ledgers := Booked(s.ledgers, s.alive, s.core),
       answered := s.answered + s.core.pending.Values, twice := s.twice || AnswersTwice(s.core, s.answered))
  }

  function DoSeeClose(s: State, g: nat): State
    requires CanSeeClose(s, g)
  {
    var drained := if s.core.gen == g then DoDrain(s) else s;
    drained.(watchers := s.watchers[g := Gone])
  }

  function DoFirstCheck(s: State): State
    requires s.rebuild.Begun?
  {
    var r := s.rebuild;
    var stale := s.core.gen != r.expected || (r.requireOpen && !s.connOpen);
    var next := if stale then Idle else Opening(r.expected, r.requireOpen);
    s.(rebuild := next)
  }

  function DoOpenWorks(s: State, c: nat): State
    requires s.rebuild.Opening?
  {
    s.(ledgers := s.ledgers[c := OPENED], alive := s.alive + {c},
       rebuild := Opened(s.rebuild.expected, s.rebuild.requireOpen, c))
  }

  function DoLookClosed(s: State): State
    requires s.rebuild.Opened?
  {
    var r := s.rebuild;
    var next := if r.made in s.alive then Checked(r.expected, r.requireOpen, r.made) else Discarding(r.made);
    s.(rebuild := next)
  }

  function Swapped(s: State, made: nat): (t: State)
    ensures t.ledgers == s.ledgers && t.sends == s.sends
  {
    s.(core := Installed(s.core, made), history := s.history + [made], rebuild := ClosingOld(s.core.ch),
       answered := s.answered + s.core.pending.Values, twice := s.twice || AnswersTwice(s.core, s.answered))
  }

  function DoInstall(s: State): (t: State)
    requires s.rebuild.Checked?
    ensures t.ledgers == s.ledgers && t.sends == s.sends
  {
    var r := s.rebuild;
    if s.core.gen != r.expected || (r.requireOpen && !s.connOpen) then s.(rebuild := Discarding(r.made))
    else Swapped(s, r.made)
  }

  function DoCloseOld(s: State): State
    requires s.rebuild.ClosingOld?
  {
    var alive := if s.rebuild.prev.Some? then s.alive - {s.rebuild.prev.value} else s.alive;
    s.(alive := alive, rebuild := Spawning)
  }

  function DoSpawn(s: State): State {
    s.(watchers := s.watchers[s.core.gen := Watching], rebuild := Idle)
  }

  /** A dead channel stays dead and delivers no further confirm. */
  ghost predicate NoRevival(s: State, t: State) {
    && s.ledgers.Keys <= t.ledgers.Keys
    && (forall c :: c in t.alive && c in s.ledgers ==> c in s.alive)
    && (forall c, tag :: (c, tag) in t.acks && c !in s.alive ==> (c, tag) in s.acks)
  }

  function DoSlot(s: State, e: Event): (t: State)
    requires UnderSlot(e) && SlotEnabled(s, e)
    ensures !e.Register? ==> t.tickets == s.tickets
    ensures NoRevival(s, t)
  {
    match e
    case Register(id) => DoRegister(s, id)
    case Rollback(id) => DoRollback(s, id)
    case Publish(id) => DoPublish(s, id)
    case Release(id) => DoRelease(s, id)
  }

  function DoWaiter(s: State, e: Event): (t: State)
    requires ByWaiter(e) && WaiterEnabled(s, e)
    ensures t.tickets == s.tickets
    ensures NoRevival(s, t)
  {
    match e
    case Receive(id) => DoReceive(s, id)
    case Expire(id) => DoExpire(s, id)
    case LookNote(id) => DoLookNote(s, id)
    case PublishNote(id) => DoPublishNote(s, id)
  }

  function DoOpening(s: State, e: Event): (t: State)
    requires ByOpening(e) && OpeningEnabled(s, e)
    ensures t.tickets == s.tickets
    ensures NoRevival(s, t)
  {
    match e
    case Begin(expected, requireOpen) => s.(rebuild := Begun(expected, requireOpen))
    case FirstCheck => DoFirstCheck(s)
    case OpenFails => s.(rebuild := Idle)
    case OpenWorks(c) => DoOpenWorks(s, c)
    case LookClosed => DoLookClosed(s)
  }

  function DoSwap(s: State, e: Event): (t: State)
    requires BySwap(e) && SwapEnabled(s, e)
    ensures t.tickets == s.tickets
    ensures NoRevival(s, t)
    ensures t.ledgers == s.ledgers && t.sends == s.sends
  {
    match e
    case Install => DoInstall(s)
    case Discard => s.(alive := s.alive - {s.rebuild.made}, rebuild := Idle)
    case CloseOld => DoCloseOld(s)
    case Spawn => DoSpawn(s)
  }

  function DoOther(s: State, e: Event): (t: State)
    requires !UnderSlot(e) && !ByWaiter(e) && !ByOpening(e) && !BySwap(e) && OtherEnabled(s, e)
    ensures t.tickets == s.tickets
    ensures NoRevival(s, t)
  {
    match e
    case Confirm(c, tag, ack) => s.(acks := s.acks[(c, tag) := ack])
    case Die(c) => s.(alive := s.alive - {c})
    case SetConn(open) => s.(connOpen := open)
    case Take(g, tag) => DoTake(s, g, tag)
    case Put(g) => DoPut(s, g)
    case SeeClose(g) => DoSeeClose(s, g)
    case Drain => DoDrain(s)
  }

  function Do(s: State, e: Event): (t: State)
    requires Enabled(s, e)
    ensures !e.Register? ==> t.tickets == s.tickets
    ensures NoRevival(s, t)
  {
    if UnderSlot(e) then DoSlot(s, e)
    else if ByWaiter(e) then DoWaiter(s, e)
    else if ByOpening(e) then DoOpening(s, e)
    else if BySwap(e) then DoSwap(s, e)
    else DoOther(s, e)
  }

  ghost predicate IsPath(states: seq<State>, events: seq<Event>) {
    && |states| == |events| + 1
    && forall i {:trigger events[i]} :: 0 <= i < |events| ==>
         Enabled(states[i], events[i]) && states[i + 1] == Do(states[i], events[i])
  }

  ghost predicate IsRun(states: seq<State>, events: seq<Event>) {
    IsPath(states, events) && states[0] == START
  }

  // ----- the invariant, one predicate per concern, over just the components it speaks of -----

  predicate HasSlot(p: Phase) {
    p.Tagged? || p.Undone? || p.Published? || p.NoteReady? || p.NoteSent?
  }

  /** The slot has one holder, and every send has the tickets and places its phase implies. */
  ghost predicate PhaseInv(sends: map<nat, Phase>, slot: Option<nat>,
                       tickets: map<nat, Ticket>, places: map<nat, nat>) {
    && (slot.Some? ==> slot.value in sends)
    && (forall id :: id in sends ==> (HasSlot(sends[id]) <==> slot == Some(id)))
    && (forall id :: id in tickets ==> id in sends)
    && (forall id :: id in places ==> id in tickets)
    && (forall id :: id in sends && sends[id].Tagged? ==> id in tickets && id !in places)
    && (forall id :: id in sends && (sends[id].Undone? || sends[id].Refused?) ==> id !in places)
    && (forall id :: id in sends && (sends[id].Published? || sends[id].Waiting? || sends[id].Finished?)
          ==> id in places)
  }

  /** Generations: one channel each, watched by the one watcher that the installing rebuild spawns. */
  ghost predicate GenInv(gen: nat, ch: Option<nat>, history: seq<nat>, watched: set<nat>, installing: bool) {
    && |history| == gen
    && ch == (if gen == 0 then None else Some(history[gen - 1]))
    && (forall i, j :: 0 <= i < j < |history| ==> history[i] != history[j])
    && (forall g :: g in watched ==> 1 <= g <= gen)
    && (forall g :: 1 <= g <= gen && g !in watched ==> g == gen && installing)
    && (installing ==> gen >= 1 && gen !in watched)
  }

  predicate Installing(r: Rebuild) {
    r.ClosingOld? || r.Spawning?
  }

  /** The channel a rebuild has opened and not yet installed or discarded. */
  function Made(r: Rebuild): Option<nat> {
    if r.Opened? || r.Checked? || r.Discarding? then Some(r.made) else None
  }

  /** The rebuild in progress, if any, and the only channels that may be open. */
  ghost predicate RebuildInv(r: Rebuild, gen: nat, ch: Option<nat>, alive: set<nat>, history: seq<nat>) {
    && (r.Opening? || r.Opened? || r.Checked? ==> r.expected == gen)
    && (Made(r).Some? ==> Made(r).value !in history)
    && (r.ClosingOld? && r.prev.Some? ==> r.prev != ch)
    && (forall c :: c in alive ==> ch == Some(c) || Made(r) == Some(c) || (r.ClosingOld? && r.prev == Some(c)))
  }

  /** A pending entry belongs to one unanswered send, registered on the current channel. */
  ghost predicate PendingInv(pending: map<nat, nat>, nextTag: nat, ch: Option<nat>,
                      tickets: map<nat, Ticket>, answered: set<nat>) {
    forall tag :: tag in pending ==>
      var id := pending[tag];
      && id in tickets && tickets[id].tag == tag && tickets[id].ch == ch
      && id !in answered
      && 1 <= tag <= nextTag
  }

  /** A value in a watcher's hand is the only one its result channel will ever get. */
  ghost predicate HandInv(watchers: map<nat, Watcher>, pending: map<nat, nat>, answered: set<nat>, ids: set<nat>) {
    && (forall g :: g in watchers && watchers[g].InHand? ==> watchers[g].rc in ids && watchers[g].rc !in answered)
    && (forall g, tag :: g in watchers && watchers[g].InHand? && tag in pending ==> pending[tag] != watchers[g].rc)
    && (forall g, h :: g in watchers && h in watchers && watchers[g].InHand? && watchers[h].InHand? && g != h ==>
          watchers[g].rc != watchers[h].rc)
    && answered <= ids
  }

  ghost predicate InboxInv(inbox: map<nat, Result>, answered: set<nat>, twice: bool) {
    inbox.Keys <= answered && !twice
  }

  predicate Held(watchers: map<nat, Watcher>, id: nat) {
    exists g | g in watchers :: watchers[g].InHand? && watchers[g].rc == id
  }

  predicate Open(p: Phase) {
    p.Tagged? || p.Published? || p.Waiting?
  }

  predicate Owed(core: Core, watchers: map<nat, Watcher>, id: nat, tag: nat) {
    id in core.inbox || Held(watchers, id) || Owns(core, tag, id)
  }

  /** Every open send has its answer in its channel, in a watcher's hand, or still owed through `pending`. */
  ghost predicate OwedInv(sends: map<nat, Phase>, tickets: map<nat, Ticket>, core: Core, watchers: map<nat, Watcher>) {
    forall id :: id in sends && Open(sends[id]) && id in tickets ==> Owed(core, watchers, id, tickets[id].tag)
  }

  /** A generation whose watcher is gone has a dead channel and nothing published left in `pending`. */
  ghost predicate WatchInv(watchers: map<nat, Watcher>, history: seq<nat>, alive: set<nat>,
                     gen: nat, pending: map<nat, nat>, places: map<nat, nat>) {
    && (forall g :: g in watchers && watchers[g].Gone? && 1 <= g <= |history| ==> history[g - 1] !in alive)
    && (gen in watchers && watchers[gen].Gone? ==> forall tag :: tag in pending ==> pending[tag] !in places)
  }

  /** 1 while the slot holder has a tag of the current channel that it has neither published nor given back. */
  function Outstanding(sends: map<nat, Phase>, slot: Option<nat>, tickets: map<nat, Ticket>, ch: Option<nat>): nat {
    if slot.Some? && slot.value in sends && sends[slot.value].Tagged?
       && slot.value in tickets && tickets[slot.value].ch == ch
    then 1 else 0
  }

  /** Conservation of tags: on the current channel every broker position is accounted for. */
  ghost predicate TagInv(ledgers: map<nat, Ledger>, ch: Option<nat>, nextTag: nat, outstanding: nat) {
    ch.Some? && ch.value in ledgers ==>
      var l := ledgers[ch.value];
      |l.log| + l.lost + outstanding == nextTag + l.notes + l.cut + l.dropped
  }

  predicate Clean(l: Ledger) {
    l.notes == 0 && l.cut == 0
  }

  /** Bookkeeping of each channel. */
  ghost predicate LedgerInv(ledgers: map<nat, Ledger>, alive: set<nat>, history: seq<nat>, made: Option<nat>) {
    && (made.Some? ==> made.value in ledgers)
    && (forall i :: 0 <= i < |history| ==> history[i] in ledgers)
    && (forall c :: c in alive ==> c in ledgers)
    && (forall c :: c in ledgers && c in alive ==>
          ledgers[c].dropped == 0 && (Clean(ledgers[c]) ==> ledgers[c].lost == 0))
    && (forall c :: c in ledgers && c !in history ==> ledgers[c] == OPENED)
    && (forall c :: c in ledgers ==> ledgers[c].lost <= ledgers[c].notes + ledgers[c].cut + ledgers[c].dropped)
  }

  ghost predicate ConfirmInv(acks: map<(nat, nat), bool>, consumed: set<(nat, nat)>, ledgers: map<nat, Ledger>) {
    && (forall c, tag :: (c, tag) in acks ==> c in ledgers && 1 <= tag <= |ledgers[c].log|)
    && consumed <= acks.Keys
  }

  /** A published send sits at the position its ticket predicts. */
  ghost predicate Placed(id: nat, places: map<nat, nat>, tickets: map<nat, Ticket>, ledgers: map<nat, Ledger>) {
    && id in places && id in tickets && tickets[id].ch.Some? && tickets[id].ch.value in ledgers
    && places[id] == tickets[id].tag + tickets[id].shift
    && 1 <= places[id] <= |ledgers[tickets[id].ch.value].log|
    && ledgers[tickets[id].ch.value].log[places[id] - 1] == Send(id)
    && (Clean(ledgers[tickets[id].ch.value]) ==> tickets[id].shift == 0)
  }

  /** Position `i` of channel `c` is the place of the send found there. */
  ghost predicate Logged(c: nat, i: nat, places: map<nat, nat>, tickets: map<nat, Ticket>, ledgers: map<nat, Ledger>) {
    c in ledgers && i < |ledgers[c].log| && ledgers[c].log[i].Send? ==>
      var id := ledgers[c].log[i].id;
      id in places && id in tickets && tickets[id].ch == Some(c) && places[id] == i + 1
  }

  ghost predicate PlaceInv(places: map<nat, nat>, tickets: map<nat, Ticket>, ledgers: map<nat, Ledger>) {
    && (forall id :: id in places ==> Placed(id, places, tickets, ledgers))
    && (forall c, i: nat :: c in ledgers && i < |ledgers[c].log| ==> Logged(c, i, places, tickets, ledgers))
  }

  /** The slot holder with an unpublished tag. Its entry can vanish only by a drain or by a skewed confirm. */
  ghost predicate HolderInv(id: nat, t: Ticket, core: Core, ledgers: map<nat, Ledger>, alive: set<nat>) {
    && t.tag >= 1
    && (t.ch.Some? ==>
          && t.ch.value in ledgers
          && |ledgers[t.ch.value].log| + 1 == t.tag + t.shift
          && (t.ch.value in alive && Clean(ledgers[t.ch.value]) ==> t.shift == 0))
    && (t.ch.Some? && t.ch == core.ch && t.ch.value in ledgers ==>
          var l := ledgers[t.ch.value];
          && t.shift <= l.notes + l.cut + l.dropped
          && (Owns(core, t.tag, id) ==> t.tag == core.nextTag)
          && (Owns(core, t.tag, id) || core.nextTag <= |l.log|))
  }

  ghost predicate SlotInv(sends: map<nat, Phase>, slot: Option<nat>, tickets: map<nat, Ticket>, core: Core,
                          ledgers: map<nat, Ledger>, alive: set<nat>, history: seq<nat>) {
    && (slot.Some? && slot.value in sends && sends[slot.value].Tagged? && slot.value in tickets ==>
          && HolderInv(slot.value, tickets[slot.value], core, ledgers, alive)
          && (tickets[slot.value].ch.Some? ==> tickets[slot.value].ch.value in history))
    && (slot.Some? && slot.value in sends && sends[slot.value].NoteReady? && sends[slot.value].ch.Some? ==>
          sends[slot.value].ch.value in history)
  }

  predicate ByBroker(r: Result) {
    r.Acked? || r.Nacked?
  }

  /** The broker gave answer `r` to the tag of `t` on the channel of `t`, after `t` was issued. */
  predicate AnsweredTag(acks: map<(nat, nat), bool>, t: Ticket, r: Result) {
    && t.ch.Some? && !t.stale
    && (t.ch.value, t.tag) in acks && acks[(t.ch.value, t.tag)] == r.Acked?
  }

  /** A broker's answer anywhere on its way to a send was given to that send's tag. */
  ghost predicate AckInv(watchers: map<nat, Watcher>, inbox: map<nat, Result>, sends: map<nat, Phase>,
                         tickets: map<nat, Ticket>, acks: map<(nat, nat), bool>) {
    && (forall g :: g in watchers && watchers[g].InHand? && ByBroker(watchers[g].value) && watchers[g].rc in tickets ==>
          AnsweredTag(acks, tickets[watchers[g].rc], watchers[g].value))
    && (forall id :: id in inbox && ByBroker(inbox[id]) && id in tickets ==>
          AnsweredTag(acks, tickets[id], inbox[id]))
    && (forall id :: id in sends && sends[id].Finished? && ByBroker(sends[id].result) && id in tickets ==>
          AnsweredTag(acks, tickets[id], sends[id].result))
  }

  /** The confirm of a pending tag has been consumed exactly if it had been at registration, and that takes a
      misaligned channel. */
  ghost predicate StaleInv(pending: map<nat, nat>, ch: Option<nat>, consumed: set<(nat, nat)>,
                     tickets: map<nat, Ticket>) {
    && (forall tag :: tag in pending && pending[tag] in tickets && ch.Some? ==>
          ((ch.value, tag) in consumed <==> tickets[pending[tag]].stale))
    && (forall id :: id in tickets ==> tickets[id].shift >= 0 && (tickets[id].stale ==> tickets[id].shift > 0))
  }

  ghost predicate PhaseOk(s: State) {
    PhaseInv(s.sends, s.slot, s.tickets, s.places)
  }

  ghost predicate GenOk(s: State) {
    GenInv(s.core.gen, s.core.ch, s.history, s.watchers.Keys, Installing(s.rebuild))
  }

  ghost predicate RebuildOk(s: State) {
    RebuildInv(s.rebuild, s.core.gen, s.core.ch, s.alive, s.history)
  }

  ghost predicate PendingOk(s: State) {
    PendingInv(s.core.pending, s.core.nextTag, s.core.ch, s.tickets, s.answered)
  }

  ghost predicate HandOk(s: State) {
    HandInv(s.watchers, s.core.pending, s.answered, s.tickets.Keys)
  }

  ghost predicate InboxOk(s: State) {
    InboxInv(s.core.inbox, s.answered, s.twice)
  }

  ghost predicate OwedOk(s: State) {
    OwedInv(s.sends, s.tickets, s.core, s.watchers)
  }

  ghost predicate WatchOk(s: State) {
    WatchInv(s.watchers, s.history, s.alive, s.core.gen, s.core.pending, s.places)
  }

  ghost predicate TagOk(s: State) {
    TagInv(s.ledgers, s.core.ch, s.core.nextTag, Outstanding(s.sends, s.slot, s.tickets, s.core.ch))
  }

  ghost predicate LedgerOk(s: State) {
    LedgerInv(s.ledgers, s.alive, s.history, Made(s.rebuild))
  }

  ghost predicate ConfirmOk(s: State) {
    ConfirmInv(s.acks, s.consumed, s.ledgers)
  }

  ghost predicate PlaceOk(s: State) {
    PlaceInv(s.places, s.tickets, s.ledgers)
  }

  ghost predicate SlotOk(s: State) {
    SlotInv(s.sends, s.slot, s.tickets, s.core, s.ledgers, s.alive, s.history)
  }

  ghost predicate AckOk(s: State) {
    AckInv(s.watchers, s.core.inbox, s.sends, s.tickets, s.acks)
  }

  ghost predicate StaleOk(s: State) {
    StaleInv(s.core.pending, s.core.ch, s.consumed, s.tickets)
  }

  ghost predicate Inv(s: State) {
    && PhaseOk(s) && GenOk(s) && RebuildOk(s) && PendingOk(s) && HandOk(s) && InboxOk(s) && OwedOk(s) && WatchOk(s)
    && TagOk(s) && LedgerOk(s) && ConfirmOk(s) && PlaceOk(s) && SlotOk(s) && AckOk(s) && StaleOk(s)
  }

  // ----- every event keeps it -----

  /** A value held by another watcher than `g` is still held when only `g` changes. */
  lemma HeldStays(before: map<nat, Watcher>, after: map<nat, Watcher>, g: nat, id: nat)
    requires forall h :: h in before && h != g ==> h in after && after[h] == before[h]
    ensures Held(before, id) ==> Held(after, id) || (g in before && before[g].InHand? && before[g].rc == id)
  {
    if Held(before, id) {
      var h :| h in before && before[h].InHand? && before[h].rc == id;
      assert h != g ==> after[h].rc == id;
    }
  }

  /** Positions survive when only the counters of some channel grow. */
  lemma PlacesStay(places: map<nat, nat>, tickets: map<nat, Ticket>, before: map<nat, Ledger>, after: map<nat, Ledger>)
    requires PlaceInv(places, tickets, before)
    requires after.Keys == before.Keys
    requires forall c :: c in before ==> after[c].log == before[c].log && (Clean(after[c]) ==> Clean(before[c]))
    ensures PlaceInv(places, tickets, after)
  {
    forall id | id in places
      ensures Placed(id, places, tickets, after)
    {
      assert Placed(id, places, tickets, before);
    }
    forall c, i: nat | c in after && i < |after[c].log|
      ensures Logged(c, i, places, tickets, after)
    {
      assert Logged(c, i, places, tickets, before);
    }
  }

  /** Positions survive when one message is appended to the log of channel `c`. */
  lemma PlacesGrow(places: map<nat, nat>, tickets: map<nat, Ticket>, before: map<nat, Ledger>, c: nat, next: Ledger)
    requires PlaceInv(places, tickets, before)
    requires c in before && |next.log| == |before[c].log| + 1 && next.log[..|before[c].log|] == before[c].log
    requires Clean(next) ==> Clean(before[c])
    ensures
      var after := before[c := next];
      && (forall id :: id in places ==> Placed(id, places, tickets, after))
      && (forall d, i: nat :: d in after && i < |after[d].log| && !(d == c && i == |before[c].log|) ==>
            Logged(d, i, places, tickets, after))
  {
    var after := before[c := next];
    assert forall i :: 0 <= i < |before[c].log| ==> next.log[i] == next.log[..|before[c].log|][i];
    forall id | id in places
      ensures Placed(id, places, tickets, after)
    {
      assert Placed(id, places, tickets, before);
    }
    forall d, i: nat | d in after && i < |after[d].log| && !(d == c && i == |before[c].log|)
      ensures Logged(d, i, places, tickets, after)
    {
      assert Logged(d, i, places, tickets, before);
    }
  }

  lemma RegisterPhase(s: State, id: nat)
    requires PhaseOk(s) && PendingOk(s) && HandOk(s) && CanRegister(s, id)
    ensures
      var t := DoRegister(s, id);
      PhaseOk(t) && PendingOk(t)
  {
  }

  lemma RegisterAnswers(s: State, id: nat)
    requires PhaseOk(s) && PendingOk(s) && HandOk(s) && OwedOk(s) && CanRegister(s, id)
    ensures
      var t := DoRegister(s, id);
      HandOk(t) && OwedOk(t)
  {
  }

  lemma RegisterPublished(s: State, id: nat)
    requires PhaseOk(s) && PendingOk(s) && WatchOk(s) && PlaceOk(s) && CanRegister(s, id)
    ensures
      var t := DoRegister(s, id);
      WatchOk(t) && PlaceOk(t)
  {
    var t := DoRegister(s, id);
    forall x | x in t.places
      ensures Placed(x, t.places, t.tickets, t.ledgers)
    {
      assert Placed(x, s.places, s.tickets, s.ledgers);
    }
    forall d, i: nat | d in t.ledgers && i < |t.ledgers[d].log|
      ensures Logged(d, i, t.places, t.tickets, t.ledgers)
    {
      assert Logged(d, i, s.places, s.tickets, s.ledgers);
    }
  }

  lemma RegisterTags(s: State, id: nat)
    requires PhaseOk(s) && TagOk(s) && LedgerOk(s) && GenOk(s) && HandOk(s)
        && InboxOk(s) && AckOk(s) && CanRegister(s, id)
    ensures
      var t := DoRegister(s, id);
      TagOk(t) && SlotOk(t) && AckOk(t)
  {
  }

  lemma RegisterStale(s: State, id: nat)
    requires PhaseOk(s) && PendingOk(s) && TagOk(s) && LedgerOk(s) && ConfirmOk(s) && StaleOk(s) && CanRegister(s, id)
    ensures
      var t := DoRegister(s, id);
      StaleOk(t)
  {
    var t := NewTicket(s);
    assert t.stale ==> t.tag <= |s.ledgers[t.ch.value].log|;
  }

  lemma RegisterKeeps(s: State, id: nat)
    requires Inv(s) && CanRegister(s, id)
    ensures Inv(DoRegister(s, id))
  {
    RegisterPhase(s, id);
    RegisterAnswers(s, id);
    RegisterPublished(s, id);
    RegisterTags(s, id);
    RegisterStale(s, id);
  }

  lemma RollbackAnswers(s: State, id: nat)
    requires PhaseOk(s) && PendingOk(s) && HandOk(s) && OwedOk(s) && AckOk(s) && CanRollback(s, id)
    ensures
      var t := DoRollback(s, id);
      PhaseOk(t) && PendingOk(t) && HandOk(t) && OwedOk(t) && AckOk(t)
  {
  }

  lemma RollbackPublished(s: State, id: nat)
    requires PhaseOk(s) && WatchOk(s) && PlaceOk(s) && StaleOk(s) && ConfirmOk(s) && CanRollback(s, id)
    ensures
      var t := DoRollback(s, id);
      WatchOk(t) && PlaceOk(t) && StaleOk(t) && ConfirmOk(t)
  {
    PlacesStay(s.places, s.tickets, s.ledgers, DoRollback(s, id).ledgers);
  }

  lemma RollbackTags(s: State, id: nat)
    requires PhaseOk(s) && TagOk(s) && SlotOk(s) && PendingOk(s) && LedgerOk(s) && GenOk(s) && CanRollback(s, id)
    ensures
      var t := DoRollback(s, id);
      TagOk(t) && SlotOk(t) && LedgerOk(t)
  {
  }

  lemma RollbackKeeps(s: State, id: nat)
    requires Inv(s) && CanRollback(s, id)
    ensures Inv(DoRollback(s, id))
  {
    RollbackAnswers(s, id);
    RollbackPublished(s, id);
    RollbackTags(s, id);
  }

  lemma PublishPhase(s: State, id: nat)
    requires PhaseOk(s) && OwedOk(s) && AckOk(s) && CanPublish(s, id)
    ensures
      var t := DoPublish(s, id);
      PhaseOk(t) && OwedOk(t) && AckOk(t)
  {
  }

  lemma PublishPlaces(s: State, id: nat)
    requires PhaseOk(s) && SlotOk(s) && PlaceOk(s) && LedgerOk(s) && CanPublish(s, id)
    ensures
      var t := DoPublish(s, id);
      forall x :: x in t.places ==> Placed(x, t.places, t.tickets, t.ledgers)
  {
    var t := DoPublish(s, id);
    var c := s.tickets[id].ch.value;
    PlacesGrow(s.places, s.tickets, s.ledgers, c, t.ledgers[c]);
    forall x | x in t.places
      ensures Placed(x, t.places, t.tickets, t.ledgers)
    {
      assert x != id ==> Placed(x, s.places, s.tickets, t.ledgers);
    }
  }

  lemma PublishLog(s: State, id: nat)
    requires PhaseOk(s) && PlaceOk(s) && CanPublish(s, id)
    ensures
      var t := DoPublish(s, id);
      forall d, i: nat :: d in t.ledgers && i < |t.ledgers[d].log| ==> Logged(d, i, t.places, t.tickets, t.ledgers)
  {
    var t := DoPublish(s, id);
    var c := s.tickets[id].ch.value;
    PlacesGrow(s.places, s.tickets, s.ledgers, c, t.ledgers[c]);
    forall d, i: nat | d in t.ledgers && i < |t.ledgers[d].log|
      ensures Logged(d, i, t.places, t.tickets, t.ledgers)
    {
      assert !(d == c && i == |s.ledgers[c].log|) ==> Logged(d, i, s.places, s.tickets, t.ledgers);
    }
  }

  lemma PublishWatch(s: State, id: nat)
    requires PhaseOk(s) && PendingOk(s) && WatchOk(s) && GenOk(s) && SlotOk(s) && ConfirmOk(s) && CanPublish(s, id)
    ensures
      var t := DoPublish(s, id);
      WatchOk(t) && ConfirmOk(t)
  {
  }

  lemma PublishTags(s: State, id: nat)
    requires PhaseOk(s) && TagOk(s) && SlotOk(s) && LedgerOk(s) && CanPublish(s, id)
    ensures
      var t := DoPublish(s, id);
      TagOk(t) && SlotOk(t) && LedgerOk(t)
  {
  }

  lemma PublishKeeps(s: State, id: nat)
    requires Inv(s) && CanPublish(s, id)
    ensures Inv(DoPublish(s, id))
  {
    PublishPhase(s, id);
    PublishPlaces(s, id);
    PublishLog(s, id);
    PublishWatch(s, id);
    PublishTags(s, id);
  }

  lemma ReleasePhase(s: State, id: nat)
    requires PhaseOk(s) && OwedOk(s) && AckOk(s) && TagOk(s) && CanRelease(s, id)
    ensures
      var t := DoRelease(s, id);
      PhaseOk(t) && OwedOk(t) && AckOk(t) && TagOk(t) && SlotOk(t)
  {
  }

  lemma ReleaseKeeps(s: State, id: nat)
    requires Inv(s) && CanRelease(s, id)
    ensures Inv(DoRelease(s, id))
  {
    ReleasePhase(s, id);
  }

  lemma ReceivePhase(s: State, id: nat)
    requires PhaseOk(s) && OwedOk(s) && AckOk(s) && CanReceive(s, id)
    ensures
      var t := DoReceive(s, id);
      PhaseOk(t) && OwedOk(t) && AckOk(t)
  {
  }

  lemma ReceiveTags(s: State, id: nat)
    requires PhaseOk(s) && TagOk(s) && SlotOk(s) && InboxOk(s) && CanReceive(s, id)
    ensures
      var t := DoReceive(s, id);
      TagOk(t) && SlotOk(t) && InboxOk(t)
  {
  }

  lemma ReceiveKeeps(s: State, id: nat)
    requires Inv(s) && CanReceive(s, id)
    ensures Inv(DoReceive(s, id))
  {
    ReceivePhase(s, id);
    ReceiveTags(s, id);
  }

  lemma ExpireAnswers(s: State, id: nat)
    requires PhaseOk(s) && PendingOk(s) && HandOk(s) && OwedOk(s) && AckOk(s) && CanExpire(s, id)
    ensures
      var t := DoExpire(s, id);
      PhaseOk(t) && PendingOk(t) && HandOk(t) && OwedOk(t) && AckOk(t)
  {
  }

  lemma ExpireTags(s: State, id: nat)
    requires PhaseOk(s) && TagOk(s) && SlotOk(s) && WatchOk(s) && StaleOk(s) && CanExpire(s, id)
    ensures
      var t := DoExpire(s, id);
      TagOk(t) && SlotOk(t) && WatchOk(t) && StaleOk(t)
  {
  }

  lemma ExpireKeeps(s: State, id: nat)
    requires Inv(s) && CanExpire(s, id)
    ensures Inv(DoExpire(s, id))
  {
    ExpireAnswers(s, id);
    ExpireTags(s, id);
  }

  lemma LookNotePhase(s: State, id: nat)
    requires PhaseOk(s) && TagOk(s) && OwedOk(s) && AckOk(s) && GenOk(s) && CanRegister(s, id)
    ensures
      var t := DoLookNote(s, id);
      PhaseOk(t) && TagOk(t) && SlotOk(t) && OwedOk(t) && AckOk(t)
  {
  }

  lemma LookNoteKeeps(s: State, id: nat)
    requires Inv(s) && CanRegister(s, id)
    ensures Inv(DoLookNote(s, id))
  {
    LookNotePhase(s, id);
  }

  lemma PublishNotePhase(s: State, id: nat)
    requires PhaseOk(s) && OwedOk(s) && AckOk(s) && CanPublishNote(s, id)
    ensures
      var t := DoPublishNote(s, id);
      PhaseOk(t) && OwedOk(t) && AckOk(t)
  {
  }

  lemma PublishNotePlace(s: State, id: nat)
    requires PlaceOk(s) && ConfirmOk(s) && CanPublishNote(s, id)
    ensures
      var t := DoPublishNote(s, id);
      PlaceOk(t) && ConfirmOk(t)
  {
    var t := DoPublishNote(s, id);
    var c := s.sends[id].ch.value;
    PlacesGrow(s.places, s.tickets, s.ledgers, c, t.ledgers[c]);
  }

  lemma PublishNoteTags(s: State, id: nat)
    requires PhaseOk(s) && TagOk(s) && SlotOk(s) && LedgerOk(s) && CanPublishNote(s, id)
    ensures
      var t := DoPublishNote(s, id);
      TagOk(t) && SlotOk(t) && LedgerOk(t)
  {
  }

  lemma PublishNoteKeeps(s: State, id: nat)
    requires Inv(s) && CanPublishNote(s, id)
    ensures Inv(DoPublishNote(s, id))
  {
    PublishNotePhase(s, id);
    PublishNotePlace(s, id);
    PublishNoteTags(s, id);
  }

  lemma ConfirmAcks(s: State, c: nat, tag: nat, ack: bool)
    requires ConfirmOk(s) && AckOk(s) && CanConfirm(s, c, tag)
    ensures
      var t := s.(acks := s.acks[(c, tag) := ack]);
      ConfirmOk(t) && AckOk(t)
  {
  }

  lemma ConfirmKeeps(s: State, c: nat, tag: nat, ack: bool)
    requires Inv(s) && CanConfirm(s, c, tag)
    ensures Inv(s.(acks := s.acks[(c, tag) := ack]))
  {
    ConfirmAcks(s, c, tag, ack);
  }

  lemma DieAlive(s: State, c: nat)
    requires RebuildOk(s) && WatchOk(s) && LedgerOk(s) && SlotOk(s)
    ensures
      var t := s.(alive := s.alive - {c});
      RebuildOk(t) && WatchOk(t) && LedgerOk(t) && SlotOk(t)
  {
  }

  lemma DieKeeps(s: State, c: nat)
    requires Inv(s)
    ensures Inv(s.(alive := s.alive - {c}))
  {
    DieAlive(s, c);
  }

  lemma TakeAnswers(s: State, g: nat, tag: nat)
    requires PendingOk(s) && HandOk(s) && AckOk(s) && GenOk(s) && StaleOk(s) && CanTake(s, g, tag)
    ensures
      var t := DoTake(s, g, tag);
      PendingOk(t) && HandOk(t) && AckOk(t)
  {
  }

  lemma TakeOwed(s: State, g: nat, tag: nat)
    requires OwedOk(s) && CanTake(s, g, tag)
    ensures
      var t := DoTake(s, g, tag);
      OwedOk(t)
  {
    var t := DoTake(s, g, tag);
    forall id | id in s.sends && Open(s.sends[id]) && id in s.tickets
      ensures Owed(t.core, t.watchers, id, s.tickets[id].tag)
    {
      HeldStays(s.watchers, t.watchers, g, id);
      assert t.watchers[g].InHand? && t.watchers[g].rc == id ==> Held(t.watchers, id);
    }
  }

  lemma TakeGens(s: State, g: nat, tag: nat)
    requires GenOk(s) && WatchOk(s) && ConfirmOk(s) && StaleOk(s) && CanTake(s, g, tag)
    ensures
      var t := DoTake(s, g, tag);
      GenOk(t) && WatchOk(t) && ConfirmOk(t) && StaleOk(t)
  {
  }

  lemma TakeSlot(s: State, g: nat, tag: nat)
    requires PhaseOk(s) && SlotOk(s) && ConfirmOk(s) && GenOk(s) && LedgerOk(s) && CanTake(s, g, tag)
    ensures
      var t := DoTake(s, g, tag);
      SlotOk(t)
  {
  }

  lemma TakeKeeps(s: State, g: nat, tag: nat)
    requires Inv(s) && CanTake(s, g, tag)
    ensures Inv(DoTake(s, g, tag))
  {
    TakeAnswers(s, g, tag);
    TakeOwed(s, g, tag);
    TakeGens(s, g, tag);
    TakeSlot(s, g, tag);
  }

  lemma PutAnswers(s: State, g: nat)
    requires PendingOk(s) && HandOk(s) && InboxOk(s) && AckOk(s) && SlotOk(s) && CanPut(s, g)
    ensures
      var t := DoPut(s, g);
      PendingOk(t) && HandOk(t) && InboxOk(t) && AckOk(t) && SlotOk(t)
  {
  }

  lemma PutOwed(s: State, g: nat)
    requires OwedOk(s) && CanPut(s, g)
    ensures
      var t := DoPut(s, g);
      OwedOk(t)
  {
    var t := DoPut(s, g);
    forall id | id in s.sends && Open(s.sends[id]) && id in s.tickets
      ensures Owed(t.core, t.watchers, id, s.tickets[id].tag)
    {
      HeldStays(s.watchers, t.watchers, g, id);
    }
  }

  lemma PutGens(s: State, g: nat)
    requires GenOk(s) && WatchOk(s) && CanPut(s, g)
    ensures
      var t := DoPut(s, g);
      GenOk(t) && WatchOk(t)
  {
  }

  lemma PutKeeps(s: State, g: nat)
    requires Inv(s) && CanPut(s, g)
    ensures Inv(DoPut(s, g))
  {
    PutAnswers(s, g);
    PutOwed(s, g);
    PutGens(s, g);
  }

  lemma DrainAnswers(s: State)
    requires PendingOk(s) && HandOk(s) && InboxOk(s) && OwedOk(s) && AckOk(s)
    ensures
      var t := DoDrain(s);
      PendingOk(t) && HandOk(t) && InboxOk(t) && OwedOk(t) && AckOk(t)
  {
  }

  lemma DrainTags(s: State)
    requires TagOk(s) && SlotOk(s) && LedgerOk(s) && GenOk(s)
    ensures
      var t := DoDrain(s);
      TagOk(t) && SlotOk(t) && LedgerOk(t)
  {
  }

  lemma DrainPublished(s: State)
    requires WatchOk(s) && PlaceOk(s) && StaleOk(s) && ConfirmOk(s)
    ensures
      var t := DoDrain(s);
      WatchOk(t) && PlaceOk(t) && StaleOk(t) && ConfirmOk(t)
  {
    PlacesStay(s.places, s.tickets, s.ledgers, DoDrain(s).ledgers);
  }

  lemma DrainKeeps(s: State)
    requires Inv(s)
    ensures Inv(DoDrain(s))
  {
    DrainAnswers(s);
    DrainTags(s);
    DrainPublished(s);
  }

  lemma LeaveOwed(s: State, g: nat)
    requires OwedOk(s) && CanSeeClose(s, g) && (s.core.gen == g ==> s.core.pending == map[])
    ensures
      var t := s.(watchers := s.watchers[g := Gone]);
      OwedOk(t)
  {
    var t := s.(watchers := s.watchers[g := Gone]);
    forall id | id in s.sends && Open(s.sends[id]) && id in s.tickets
      ensures Owed(t.core, t.watchers, id, s.tickets[id].tag)
    {
      HeldStays(s.watchers, t.watchers, g, id);
    }
  }

  lemma LeaveGens(s: State, g: nat)
    requires GenOk(s) && WatchOk(s) && HandOk(s) && AckOk(s) && CanSeeClose(s, g)
        && (s.core.gen == g ==> s.core.pending == map[])
    ensures
      var t := s.(watchers := s.watchers[g := Gone]);
      GenOk(t) && WatchOk(t) && HandOk(t) && AckOk(t)
  {
  }

  lemma LeaveKeeps(s: State, g: nat)
    requires Inv(s) && CanSeeClose(s, g) && (s.core.gen == g ==> s.core.pending == map[])
    ensures Inv(s.(watchers := s.watchers[g := Gone]))
  {
    LeaveOwed(s, g);
    LeaveGens(s, g);
  }

  lemma SeeCloseKeeps(s: State, g: nat)
    requires Inv(s) && CanSeeClose(s, g)
    ensures Inv(DoSeeClose(s, g))
  {
    if s.core.gen == g {
      DrainKeeps(s);
      LeaveKeeps(DoDrain(s), g);
    } else {
      LeaveKeeps(s, g);
    }
  }

  lemma FirstCheckKeeps(s: State)
    requires Inv(s) && s.rebuild.Begun?
    ensures Inv(DoFirstCheck(s))
  {
  }

  lemma OpenWorksAlive(s: State, c: nat)
    requires RebuildOk(s) && WatchOk(s) && LedgerOk(s) && SlotOk(s) && TagOk(s) && GenOk(s)
        && s.rebuild.Opening? && c !in s.ledgers
    ensures
      var t := DoOpenWorks(s, c);
      RebuildOk(t) && WatchOk(t) && LedgerOk(t) && SlotOk(t) && TagOk(t)
  {
  }

  lemma OpenWorksPlaces(s: State, c: nat)
    requires PlaceOk(s) && ConfirmOk(s) && LedgerOk(s) && s.rebuild.Opening? && c !in s.ledgers
    ensures
      var t := DoOpenWorks(s, c);
      PlaceOk(t) && ConfirmOk(t)
  {
    var t := DoOpenWorks(s, c);
    forall x | x in t.places
      ensures Placed(x, t.places, t.tickets, t.ledgers)
    {
      assert Placed(x, s.places, s.tickets, s.ledgers);
    }
    forall d, i: nat | d in t.ledgers && i < |t.ledgers[d].log|
      ensures Logged(d, i, t.places, t.tickets, t.ledgers)
    {
      assert Logged(d, i, s.places, s.tickets, s.ledgers);
    }
  }

  lemma OpenWorksKeeps(s: State, c: nat)
    requires Inv(s) && s.rebuild.Opening? && c !in s.ledgers
    ensures Inv(DoOpenWorks(s, c))
  {
    OpenWorksAlive(s, c);
    OpenWorksPlaces(s, c);
  }

  lemma LookClosedKeeps(s: State)
    requires Inv(s) && s.rebuild.Opened?
    ensures Inv(DoLookClosed(s))
  {
  }

  lemma SwapAnswers(s: State, made: nat)
    requires PendingOk(s) && HandOk(s) && InboxOk(s) && OwedOk(s) && AckOk(s)
    ensures
      var t := Swapped(s, made);
      PendingOk(t) && HandOk(t) && InboxOk(t) && OwedOk(t) && AckOk(t)
  {
  }

  lemma SwapGens(s: State, made: nat)
    requires GenOk(s) && RebuildOk(s) && WatchOk(s) && s.rebuild.Checked? && s.rebuild.made == made
    ensures
      var t := Swapped(s, made);
      GenOk(t) && RebuildOk(t) && WatchOk(t)
  {
  }

  lemma SwapTags(s: State, made: nat)
    requires PhaseOk(s) && SlotOk(s) && LedgerOk(s) && RebuildOk(s) && GenOk(s) && StaleOk(s)
    requires s.rebuild.Checked? && s.rebuild.made == made
    ensures
      var t := Swapped(s, made);
      TagOk(t) && SlotOk(t) && LedgerOk(t) && StaleOk(t)
  {
  }

  lemma SwapKeeps(s: State)
    requires Inv(s) && s.rebuild.Checked?
    ensures Inv(Swapped(s, s.rebuild.made))
  {
    SwapAnswers(s, s.rebuild.made);
    SwapGens(s, s.rebuild.made);
    SwapTags(s, s.rebuild.made);
  }

  lemma InstallKeeps(s: State)
    requires Inv(s) && s.rebuild.Checked?
    ensures Inv(DoInstall(s))
  {
    if DoInstall(s).rebuild.ClosingOld? {
      SwapKeeps(s);
    }
  }

  lemma DiscardKeeps(s: State)
    requires Inv(s) && s.rebuild.Discarding?
    ensures Inv(s.(alive := s.alive - {s.rebuild.made}, rebuild := Idle))
  {
  }

  lemma CloseOldKeeps(s: State)
    requires Inv(s) && s.rebuild.ClosingOld?
    ensures Inv(DoCloseOld(s))
  {
  }

  lemma SpawnGens(s: State)
    requires GenOk(s) && WatchOk(s) && HandOk(s) && AckOk(s) && s.rebuild.Spawning?
    ensures
      var t := DoSpawn(s);
      GenOk(t) && WatchOk(t) && HandOk(t) && AckOk(t)
  {
  }

  lemma SpawnOwed(s: State)
    requires OwedOk(s) && GenOk(s) && s.rebuild.Spawning?
    ensures
      var t := DoSpawn(s);
      OwedOk(t)
  {
    var t, g := DoSpawn(s), s.core.gen;
    forall id | id in s.sends && Open(s.sends[id]) && id in s.tickets
      ensures Owed(t.core, t.watchers, id, s.tickets[id].tag)
    {
      HeldStays(s.watchers, t.watchers, g, id);
    }
  }

  lemma SpawnKeeps(s: State)
    requires Inv(s) && s.rebuild.Spawning?
    ensures Inv(DoSpawn(s))
  {
    SpawnGens(s);
    SpawnOwed(s);
  }

  lemma QuietKeeps(s: State, rebuild: Rebuild, connOpen: bool)
    requires Inv(s) && !Installing(s.rebuild) && Made(s.rebuild) == None
    requires rebuild.Idle? || rebuild.Begun?
    ensures Inv(s.(rebuild := rebuild, connOpen := connOpen))
  {
  }

  lemma SetConnKeeps(s: State, open: bool)
    requires Inv(s)
    ensures Inv(s.(connOpen := open))
  {
  }

  lemma SlotStepKeeps(s: State, e: Event)
    requires Inv(s) && Enabled(s, e) && UnderSlot(e)
    ensures Inv(Do(s, e))
  {
    match e
    case Register(id) => RegisterKeeps(s, id);
    case Rollback(id) => RollbackKeeps(s, id);
    case Publish(id) => PublishKeeps(s, id);
    case Release(id) => ReleaseKeeps(s, id);
  }

  lemma WaiterStepKeeps(s: State, e: Event)
    requires Inv(s) && Enabled(s, e) && ByWaiter(e)
    ensures Inv(Do(s, e))
  {
    match e
    case Receive(id) => ReceiveKeeps(s, id);
    case Expire(id) => ExpireKeeps(s, id);
    case LookNote(id) => LookNoteKeeps(s, id);
    case PublishNote(id) => PublishNoteKeeps(s, id);
  }

  lemma OpeningStepKeeps(s: State, e: Event)
    requires Inv(s) && Enabled(s, e) && ByOpening(e)
    ensures Inv(Do(s, e))
  {
    match e
    case Begin(expected, requireOpen) => QuietKeeps(s, Begun(expected, requireOpen), s.connOpen);
    case FirstCheck => FirstCheckKeeps(s);
    case OpenFails => QuietKeeps(s, Idle, s.connOpen);
    case OpenWorks(c) => OpenWorksKeeps(s, c);
    case LookClosed => LookClosedKeeps(s);
  }

  lemma SwapStepKeeps(s: State, e: Event)
    requires Inv(s) && Enabled(s, e) && BySwap(e)
    ensures Inv(Do(s, e))
  {
    match e
    case Install => InstallKeeps(s);
    case Discard => DiscardKeeps(s);
    case CloseOld => CloseOldKeeps(s);
    case Spawn => SpawnKeeps(s);
  }

  lemma OtherStepKeeps(s: State, e: Event)
    requires Inv(s) && Enabled(s, e) && !UnderSlot(e) && !ByWaiter(e) && !ByOpening(e) && !BySwap(e)
    ensures Inv(Do(s, e))
  {
    match e
    case Confirm(c, tag, ack) => ConfirmKeeps(s, c, tag, ack);
    case Die(c) => DieKeeps(s, c);
    case SetConn(open) => SetConnKeeps(s, open);
    case Take(g, tag) => TakeKeeps(s, g, tag);
    case Put(g) => PutKeeps(s, g);
    case SeeClose(g) => SeeCloseKeeps(s, g);
    case Drain => DrainKeeps(s);
  }

  lemma StepKeeps(s: State, e: Event)
    requires Inv(s) && Enabled(s, e)
    ensures Inv(Do(s, e))
  {
    if UnderSlot(e) {
      SlotStepKeeps(s, e);
    } else if ByWaiter(e) {
      WaiterStepKeeps(s, e);
    } else if ByOpening(e) {
      OpeningStepKeeps(s, e);
    } else if BySwap(e) {
      SwapStepKeeps(s, e);
    } else {
      OtherStepKeeps(s, e);
    }
  }

  lemma InvHoldsAtStart()
    ensures Inv(START)
  {
  }

  lemma NextKeeps(states: seq<State>, events: seq<Event>, i: nat)
    requires IsPath(states, events) && i < |events| && Inv(states[i])
    ensures Inv(states[i + 1])
  {
    assert Enabled(states[i], events[i]) && states[i + 1] == Do(states[i], events[i]);
    StepKeeps(states[i], events[i]);
  }

  lemma {:induction false} RunKeeps(states: seq<State>, events: seq<Event>, n: nat)
    requires IsRun(states, events) && n < |states|
    ensures Inv(states[n])
  {
    if n > 0 {
      RunKeeps(states, events, n - 1);
      NextKeeps(states, events, n - 1);
    } else {
      InvHoldsAtStart();
    }
  }

  /** `s` is the last state of some run. */
  ghost predicate Reachable(s: State) {
    exists states, events :: IsRun(states, events) && states[|events|] == s
  }

  lemma ReachableKeeps(s: State)
    requires Reachable(s)
    ensures Inv(s)
  {
    var states, events :| IsRun(states, events) && states[|events|] == s;
    RunKeeps(states, events, |events|);
  }

  // ----- main results -----

  /** Every broker position of the current channel is accounted for, in every reachable state. On a live channel
      with no notification and no drain, the counter is the broker's sequence, or one ahead exactly while the
      slot holder has registered and not yet published. */
  lemma TagsAreConserved(s: State, c: nat)
    requires Reachable(s) && s.core.ch == Some(c)
    ensures c in s.ledgers
    ensures
      var l, ahead := s.ledgers[c], Outstanding(s.sends, s.slot, s.tickets, Some(c));
      && |l.log| + l.lost + ahead == s.core.nextTag + l.notes + l.cut + l.dropped
      && (c in s.alive && l.notes == 0 && l.cut == 0 ==> s.core.nextTag == |l.log| + ahead)
  {
    ReachableKeeps(s);
  }

  lemma SoundFromInvariants(s: State, id: nat)
    requires PhaseOk(s) && PlaceOk(s) && AckOk(s) && ConfirmOk(s)
    requires id in s.sends && s.sends[id].Finished? && ByBroker(s.sends[id].result)
    ensures Placed(id, s.places, s.tickets, s.ledgers) && AnsweredTag(s.acks, s.tickets[id], s.sends[id].result)
    ensures
      var t := s.tickets[id];
      var log := s.ledgers[t.ch.value].log;
      1 <= t.tag <= |log| && (log[t.tag - 1] == Send(id) <==> t.shift == 0)
  {
    var t := s.tickets[id];
    assert Placed(id, s.places, s.tickets, s.ledgers);
    assert (t.ch.value, t.tag) in s.acks;
    assert Logged(t.ch.value, t.tag - 1, s.places, s.tickets, s.ledgers);
  }

  /** A send that returned success or a nack got the broker's answer to its local tag. The message the broker
      answered for is the one this call published exactly when its ticket has shift 0; that is so on every
      channel that carried no notification and was not drained alive. */
  lemma ConfirmSoundness(s: State, id: nat)
    requires Reachable(s) && id in s.sends && s.sends[id].Finished? && ByBroker(s.sends[id].result)
    ensures id in s.tickets && id in s.places && s.tickets[id].ch.Some? && s.tickets[id].ch.value in s.ledgers
    ensures
      var t, c, ack := s.tickets[id], s.tickets[id].ch.value, s.sends[id].result.Acked?;
      var log := s.ledgers[c].log;
      && 1 <= s.places[id] <= |log| && log[s.places[id] - 1] == Send(id)
      && 1 <= t.tag <= |log| && (c, t.tag) in s.acks && s.acks[(c, t.tag)] == ack
      && (log[t.tag - 1] == Send(id) <==> t.shift == 0)
      && (Clean(s.ledgers[c]) ==> (c, s.places[id]) in s.acks && s.acks[(c, s.places[id])] == ack)
  {
    assert PhaseOk(s) && PlaceOk(s) && AckOk(s) && ConfirmOk(s) by {
      ReachableKeeps(s);
    }
    SoundFromInvariants(s, id);
  }

  /** No watcher has taken the broker's answer to `tag` of channel `c`. */
  predicate Unconsumed(s: State, c: nat, tag: nat) {
    c in s.ledgers && 1 <= tag <= |s.ledgers[c].log| && (c, tag) !in s.consumed
  }

  /** Registered with the current generation, whose watcher runs or is about to be spawned. */
  predicate Pending(s: State, id: nat) {
    && id in s.tickets && s.tickets[id].ch == s.core.ch && s.core.ch.Some?
    && Owns(s.core, s.tickets[id].tag, id)
    && (Installing(s.rebuild) || (s.core.gen in s.watchers && !s.watchers[s.core.gen].Gone?))
  }

  /** A waiting send has its answer, a watcher is about to hand it over, or it is pending. The confirm a pending
      send waits for is unconsumed exactly when it was so at registration; a stale one needs a channel that
      carried a notification or was drained alive. */
  lemma NoStrandedWaiter(s: State, id: nat)
    requires Reachable(s) && id in s.sends && s.sends[id].Waiting?
    ensures id in s.tickets
    ensures id in s.core.inbox || Held(s.watchers, id) || Pending(s, id)
    ensures Pending(s, id) ==> (Unconsumed(s, s.core.ch.value, s.tickets[id].tag) <==> !s.tickets[id].stale)
    ensures s.tickets[id].ch.Some? && s.tickets[id].ch.value in s.ledgers
    ensures s.tickets[id].stale ==> s.tickets[id].shift > 0 && !Clean(s.ledgers[s.tickets[id].ch.value])
  {
    ReachableKeeps(s);
    assert Placed(id, s.places, s.tickets, s.ledgers);
  }

  lemma ReachableStep(s: State, e: Event) returns (t: State)
    requires Reachable(s) && Enabled(s, e)
    ensures t == Do(s, e) && Reachable(t)
  {
    t := Do(s, e);
    var states, events :| IsRun(states, events) && states[|events|] == s;
    assert IsRun(states + [t], events + [e]);
  }

  /** Some continuation of `s` arrives at `t`. */
  ghost predicate Leads(s: State, t: State) {
    exists states, events :: IsPath(states, events) && states[0] == s && states[|events|] == t
  }

  lemma LeadsToItself(s: State)
    ensures Leads(s, s)
  {
    assert IsPath([s], []);
  }

  lemma Continue(s: State, t: State, e: Event) returns (u: State)
    requires Reachable(t) && Leads(s, t) && Enabled(t, e)
    ensures u == Do(t, e) && Reachable(u) && Leads(s, u)
  {
    u := ReachableStep(t, e);
    var states, events :| IsPath(states, events) && states[0] == s && states[|events|] == t;
    assert IsPath(states + [u], events + [e]);
  }

  /** A ticket is never changed. */
  lemma TicketStays(s: State, e: Event, id: nat)
    requires PhaseOk(s) && Enabled(s, e) && id in s.tickets
    ensures id in Do(s, e).tickets && Do(s, e).tickets[id] == s.tickets[id]
  {
  }

  lemma {:induction false} TicketStaysOn(states: seq<State>, events: seq<Event>, n: nat, id: nat)
    requires IsPath(states, events) && n < |states| && Reachable(states[0]) && id in states[0].tickets
    ensures Reachable(states[n]) && id in states[n].tickets && states[n].tickets[id] == states[0].tickets[id]
  {
    if n > 0 {
      TicketStaysOn(states, events, n - 1, id);
      assert Enabled(states[n - 1], events[n - 1]);
      assert states[n - 1 + 1] == Do(states[n - 1], events[n - 1]);
      assert PhaseOk(states[n - 1]) by {
        ReachableKeeps(states[n - 1]);
      }
      TicketStays(states[n - 1], events[n - 1], id);
      var next := ReachableStep(states[n - 1], events[n - 1]);
    }
  }

  predicate AnsweredByBroker(s: State, id: nat) {
    id in s.sends && s.sends[id].Finished? && ByBroker(s.sends[id].result)
  }

  /** A dead channel that has not delivered the confirm of `tag`. */
  predicate Sealed(s: State, c: nat, tag: nat) {
    c in s.ledgers && c !in s.alive && (c, tag) !in s.acks
  }

  lemma SealedStays(s: State, e: Event, c: nat, tag: nat)
    requires Enabled(s, e) && Sealed(s, c, tag)
    ensures Sealed(Do(s, e), c, tag)
  {
  }

  lemma {:induction false} SealedStaysOn(states: seq<State>, events: seq<Event>, n: nat, c: nat, tag: nat)
    requires IsPath(states, events) && n < |states| && Sealed(states[0], c, tag)
    ensures Sealed(states[n], c, tag)
  {
    if n > 0 {
      SealedStaysOn(states, events, n - 1, c, tag);
      assert Enabled(states[n - 1], events[n - 1]);
      assert states[n - 1 + 1] == Do(states[n - 1], events[n - 1]);
      SealedStays(states[n - 1], events[n - 1], c, tag);
    }
  }

  lemma SealedIsNeverAnswered(s: State, id: nat, t: State)
    requires Reachable(s) && id in s.tickets && Leads(s, t)
    requires s.tickets[id].ch.Some? && Sealed(s, s.tickets[id].ch.value, s.tickets[id].tag)
    ensures !AnsweredByBroker(t, id)
  {
    var states, events :| IsPath(states, events) && states[0] == s && states[|events|] == t;
    TicketStaysOn(states, events, |events|, id);
    SealedStaysOn(states, events, |events|, s.tickets[id].ch.value, s.tickets[id].tag);
    assert AckOk(t) by {
      ReachableKeeps(t);
    }
  }

  lemma StaleIsNeverAnswered(s: State, id: nat, t: State)
    requires Reachable(s) && id in s.tickets && s.tickets[id].stale && Leads(s, t)
    ensures !AnsweredByBroker(t, id)
  {
    var states, events :| IsPath(states, events) && states[0] == s && states[|events|] == t;
    TicketStaysOn(states, events, |events|, id);
    assert AckOk(t) by {
      ReachableKeeps(t);
    }
  }

  /** Waiting with nothing under way to it yet. */
  predicate Unanswered(s: State, id: nat) {
    id in s.sends && s.sends[id].Waiting? && id !in s.core.inbox && !Held(s.watchers, id)
  }

  predicate Answerable(s: State, id: nat) {
    && id in s.tickets && !s.tickets[id].stale && s.tickets[id].ch.Some?
    && (s.tickets[id].ch.value in s.alive || (s.tickets[id].ch.value, s.tickets[id].tag) in s.acks)
  }

  /** All that the confirm of a pending send depends on, watchers aside. */
  predicate SameWait(s: State, t: State) {
    && t.core.pending == s.core.pending && t.core.gen == s.core.gen && t.core.ch == s.core.ch
    && t.sends == s.sends && t.tickets == s.tickets && t.ledgers == s.ledgers && t.history == s.history
    && t.acks == s.acks && t.consumed == s.consumed
    && (s.core.ch.Some? ==> (s.core.ch.value in t.alive <==> s.core.ch.value in s.alive))
  }

  lemma CloseOldIsQuiet(s: State, id: nat)
    requires RebuildOk(s) && s.rebuild.ClosingOld? && Unanswered(s, id)
    ensures SameWait(s, DoCloseOld(s)) && Unanswered(DoCloseOld(s), id)
  {
  }

  lemma SpawnIsQuiet(s: State, id: nat)
    requires GenOk(s) && s.rebuild.Spawning? && Unanswered(s, id)
    ensures SameWait(s, DoSpawn(s)) && Unanswered(DoSpawn(s), id)
  {
  }

  lemma OldChannelCloses(s: State, id: nat) returns (t: State)
    requires Reachable(s) && Unanswered(s, id) && Pending(s, id)
    ensures Reachable(t) && Leads(s, t) && SameWait(s, t) && Unanswered(t, id)
    ensures t.rebuild.Spawning? || (t.core.gen in t.watchers && !t.watchers[t.core.gen].Gone?)
  {
    t := s;
    LeadsToItself(s);
    if s.rebuild.ClosingOld? {
      assert RebuildOk(s) by {
        ReachableKeeps(s);
      }
      CloseOldIsQuiet(s, id);
      t := Continue(s, s, CloseOld);
    }
  }

  lemma WatcherIsSpawned(s: State, id: nat) returns (t: State)
    requires Reachable(s) && Unanswered(s, id) && Pending(s, id)
    ensures Reachable(t) && Leads(s, t) && SameWait(s, t) && Unanswered(t, id)
    ensures t.core.gen in t.watchers && !t.watchers[t.core.gen].Gone?
  {
    t := OldChannelCloses(s, id);
    if t.rebuild.Spawning? {
      assert GenOk(t) by {
        ReachableKeeps(t);
      }
      SpawnIsQuiet(t, id);
      t := Continue(s, t, Spawn);
    }
  }

  lemma WatcherGetsFree(s: State, id: nat) returns (t: State)
    requires Reachable(s) && Unanswered(s, id) && Pending(s, id)
    ensures Reachable(t) && Leads(s, t) && SameWait(s, t) && Unanswered(t, id)
    ensures t.core.gen in t.watchers && t.watchers[t.core.gen].Watching?
  {
    t := WatcherIsSpawned(s, id);
    var g := t.core.gen;
    if t.watchers[g].InHand? {
      AnsweredAtMostOnce(t);
      var u := Continue(s, t, Put(g));
      assert t.watchers[g].rc != id;
      t := u;
    }
  }

  lemma ConfirmIsGiven(s: State, t: State, c: nat, tag: nat) returns (u: State)
    requires Reachable(t) && Leads(s, t) && Unconsumed(t, c, tag) && (c in t.alive || (c, tag) in t.acks)
    ensures Reachable(u) && Leads(s, u) && (c, tag) in u.acks && u == t.(acks := u.acks)
  {
    u := t;
    if (c, tag) !in t.acks {
      u := Continue(s, t, Confirm(c, tag, true));
    }
  }

  lemma ConfirmIsTaken(s: State, t: State, g: nat, tag: nat, id: nat) returns (u: State)
    requires Reachable(t) && Leads(s, t) && CanTake(t, g, tag) && Claimed(t.core, g, tag) == Some(id)
    ensures Reachable(u) && Leads(s, u) && u.core.inbox == t.core.inbox && u.sends == t.sends
    ensures g in u.watchers && u.watchers[g].InHand? && u.watchers[g].rc == id && ByBroker(u.watchers[g].value)
  {
    u := Continue(s, t, Take(g, tag));
  }

  lemma AnswerIsReceived(s: State, t: State, g: nat, id: nat) returns (u: State)
    requires Reachable(t) && Leads(s, t) && id in t.sends && t.sends[id].Waiting? && id !in t.core.inbox
    requires g in t.watchers && t.watchers[g].InHand? && t.watchers[g].rc == id && ByBroker(t.watchers[g].value)
    ensures Leads(s, u) && AnsweredByBroker(u, id)
  {
    u := Continue(s, t, Put(g));
    u := Continue(s, u, Receive(id));
  }

  lemma CurrentChannelIsLast(s: State)
    requires Reachable(s) && s.core.ch.Some?
    ensures 1 <= s.core.gen <= |s.history| && s.history[s.core.gen - 1] == s.core.ch.value
  {
    assert GenOk(s) by {
      ReachableKeeps(s);
    }
  }

  lemma ConfirmArrives(s: State, id: nat, t: State) returns (u: State)
    requires Reachable(t) && Leads(s, t) && Unanswered(t, id)
    requires id in t.tickets && t.tickets[id].ch == t.core.ch && t.core.ch.Some?
    requires Owns(t.core, t.tickets[id].tag, id) && Unconsumed(t, t.core.ch.value, t.tickets[id].tag)
    requires t.core.gen in t.watchers && t.watchers[t.core.gen].Watching? && Answerable(t, id)
    ensures Leads(s, u) && AnsweredByBroker(u, id)
  {
    var c, tag, g := t.core.ch.value, t.tickets[id].tag, t.core.gen;
    CurrentChannelIsLast(t);
    var given := ConfirmIsGiven(s, t, c, tag);
    assert CanTake(given, g, tag) && Claimed(given.core, g, tag) == Some(id);
    var taken := ConfirmIsTaken(s, given, g, tag, id);
    u := AnswerIsReceived(s, taken, g, id);
  }

  /** A send that waits with nothing under way can still be answered by the broker, in some continuation, iff
      the confirm of its tag had not been consumed when it registered, and its channel is alive or has already
      delivered that confirm. */
  lemma StrandedIffUnanswerable(s: State, id: nat)
    requires Reachable(s) && Unanswered(s, id)
    ensures id in s.tickets
    ensures (exists t :: Leads(s, t) && AnsweredByBroker(t, id)) <==> Answerable(s, id)
  {
    NoStrandedWaiter(s, id);
    if Answerable(s, id) {
      var t := WatcherGetsFree(s, id);
      var u := ConfirmArrives(s, id, t);
    } else {
      forall t | Leads(s, t)
        ensures !AnsweredByBroker(t, id)
      {
        if s.tickets[id].stale {
          StaleIsNeverAnswered(s, id, t);
        } else {
          SealedIsNeverAnswered(s, id, t);
        }
      }
    }
  }

  /** No result channel receives two values, so the unguarded send of a confirm dispatch never blocks. */
  lemma AnsweredAtMostOnce(s: State)
    requires Reachable(s)
    ensures !s.twice
    ensures forall g :: g in s.watchers && s.watchers[g].InHand? ==> CanPut(s, g) && s.watchers[g].rc !in s.answered
    ensures forall tag :: tag in s.core.pending ==> s.core.pending[tag] !in s.answered
  {
    ReachableKeeps(s);
  }

  /** Outside a rebuild only the current channel can be open; every generation has its own channel; and a
      rebuild that passed its first check still finds its generation at the second, so the only reason left to
      discard is a closed connection. */
  lemma ChannelAccounting(s: State)
    requires Reachable(s)
    ensures s.rebuild.Idle? ==> forall c :: c in s.alive ==> s.core.ch == Some(c)
    ensures |s.history| == s.core.gen && forall i, j :: 0 <= i < j < |s.history| ==> s.history[i] != s.history[j]
    ensures s.rebuild.Checked? ==> s.core.gen == s.rebuild.expected
    ensures s.rebuild.Checked? && DoInstall(s).rebuild.Discarding? ==> s.rebuild.requireOpen && !s.connOpen
  {
    ReachableKeeps(s);
  }

  // ----- the two ways a success can be about another message -----

  /** The state after a whole `rebuild` that installs channel `c` while nobody waits. */
  function Rebuilt(s: State, c: nat): State {
    var alive := s.alive + {c};
    var left := if s.core.ch.Some? then alive - {s.core.ch.value} else alive;
    s.(core := s.core.(nextTag := 0, ch := Some(c), gen := s.core.gen + 1), ledgers := s.ledgers[c := OPENED],
       alive := left, watchers := s.watchers[s.core.gen + 1 := Watching], history := s.history + [c])
  }

  lemma RebuildOpens(s: State, c: nat, requireOpen: bool) returns (t: State)
    requires Reachable(s) && s.rebuild.Idle? && (requireOpen ==> s.connOpen) && c !in s.ledgers
    ensures Reachable(t)
    ensures t == s.(ledgers := s.ledgers[c := OPENED], alive := s.alive + {c},
                    rebuild := Checked(s.core.gen, requireOpen, c))
  {
    var begun := ReachableStep(s, Begin(s.core.gen, requireOpen));
    var opening := ReachableStep(begun, FirstCheck);
    assert opening == s.(rebuild := Opening(s.core.gen, requireOpen));
    var made := ReachableStep(opening, OpenWorks(c));
    t := ReachableStep(made, LookClosed);
  }

  lemma RebuildInstalls(s: State) returns (t: State)
    requires Reachable(s) && s.rebuild.Checked? && s.core.gen == s.rebuild.expected
    requires (s.rebuild.requireOpen ==> s.connOpen) && s.core.pending == map[]
    ensures Reachable(t)
    ensures t == s.(core := s.core.(nextTag := 0, ch := Some(s.rebuild.made), gen := s.core.gen + 1),
                    history := s.history + [s.rebuild.made], rebuild := ClosingOld(s.core.ch))
  {
    DrainNone(s.core);
    assert s.core.pending.Values == {} && !AnswersTwice(s.core, s.answered);
    t := ReachableStep(s, Install);
    assert t.answered == s.answered;
  }

  lemma RebuildRuns(s: State, c: nat, requireOpen: bool)
    requires Reachable(s) && s.rebuild.Idle? && (requireOpen ==> s.connOpen) && c !in s.ledgers
    requires s.core.pending == map[]
    ensures Reachable(Rebuilt(s, c))
  {
    var ready := RebuildOpens(s, c, requireOpen);
    var installed := RebuildInstalls(ready);
    var closed := ReachableStep(installed, CloseOld);
    var t := ReachableStep(closed, Spawn);
    assert t == Rebuilt(s, c);
  }

  /** Channel `c` is alive, current as generation `g`, and watched. */
  predicate Serving(s: State, g: nat, c: nat) {
    && s.core.gen == g && s.core.ch == Some(c) && c in s.alive && c in s.ledgers
    && 1 <= g == |s.history| && s.history[g - 1] == c && g in s.watchers && s.watchers[g].Watching?
  }

  /** Nothing has been sent yet, and channel `c` is ready. */
  predicate Fresh(s: State, g: nat, c: nat) {
    && Serving(s, g, c) && s.ledgers[c] == OPENED && s.core == Core(0, map[], g, Some(c), map[])
    && s.sends == map[] && s.slot == None && s.acks == map[] && s.consumed == {}
    && forall h :: h in s.watchers ==> !s.watchers[h].InHand?
  }

  /** The state after `NewSender`. */
  lemma NewSenderIsFresh() returns (s: State)
    ensures Reachable(s) && Fresh(s, 1, 7) && s.rebuild.Idle? && s.ledgers.Keys == {7}
  {
    assert IsRun([START], []);
    RebuildRuns(START, 7, false);
    s := Rebuilt(START, 7);
  }

  predicate CanSend(s: State, id: nat) {
    CanRegister(s, id) && Live(s, s.core.ch)
  }

  /** The state after a send has registered, published and released the slot. */
  function AfterSend(s: State, id: nat): State
    requires CanSend(s, id)
  {
    var c := s.core.ch.value;
    var l := s.ledgers[c];
    s.(core := Registered(s.core, id), sends := s.sends[id := Waiting], places := s.places[id := |l.log| + 1],
       tickets := s.tickets[id := NewTicket(s)],
       ledgers := s.ledgers[c := l.(log := l.log + [Send(id)])])
  }

  lemma SendIsPublished(s: State, id: nat) returns (t: State)
    requires Reachable(s) && CanSend(s, id)
    ensures Reachable(t) && t == AfterSend(s, id).(sends := s.sends[id := Published], slot := Some(id))
  {
    var tagged := ReachableStep(s, Register(id));
    assert tagged == DoRegister(s, id);
    t := ReachableStep(tagged, Publish(id));
    assert t == DoPublish(tagged, id);
    assert t.sends == s.sends[id := Published];
  }

  lemma SendGoesOut(s: State, id: nat)
    requires Reachable(s) && CanSend(s, id)
    ensures Reachable(AfterSend(s, id))
  {
    var published := SendIsPublished(s, id);
    var t := ReachableStep(published, Release(id));
    assert t == DoRelease(published, id);
    assert t.sends == s.sends[id := Waiting];
    assert t == AfterSend(s, id);
  }

  /** A send that returned the opposite of what the broker answered for its message. */
  ghost predicate WronglyAnswered(s: State, id: nat, c: nat, ack: bool) {
    && Reachable(s) && id in s.sends && s.sends[id] == Finished(if ack then Acked else Nacked)
    && id in s.tickets && id in s.places && s.tickets[id].ch == Some(c)
    && (c, s.places[id]) in s.acks && s.acks[(c, s.places[id])] == !ack
  }

  /** Send 2 waits at broker position 2 under local tag 1, whose answer is still to be dispatched. */
  ghost predicate Skewed(s: State, g: nat, c: nat, ack: bool) {
    && Serving(s, g, c) && |s.ledgers[c].log| == 2
    && 2 in s.sends && s.sends[2].Waiting? && 2 in s.tickets && s.tickets[2].ch == Some(c)
    && 2 in s.places && s.places[2] == 2 && s.core.pending == map[1 := 2] && 2 !in s.core.inbox
    && s.acks == map[(c, 1) := ack] && s.consumed == {}
  }

  lemma OldAnswerIsTaken(s: State, g: nat, c: nat, ack: bool) returns (t: State)
    requires Reachable(s) && Skewed(s, g, c, ack)
    ensures Reachable(t) && t.sends == s.sends && t.tickets == s.tickets && t.places == s.places
    ensures t.ledgers == s.ledgers && t.core.inbox == s.core.inbox
    ensures (c, 2) in t.acks && t.acks[(c, 2)] == !ack
    ensures g in t.watchers && t.watchers[g] == InHand(2, if ack then Acked else Nacked)
  {
    t := ReachableStep(s, Confirm(c, 2, !ack));
    t := ReachableStep(t, Take(g, 1));
  }

  lemma OldAnswerReleases(s: State, g: nat, c: nat, ack: bool) returns (t: State)
    requires Reachable(s) && Skewed(s, g, c, ack)
    ensures WronglyAnswered(t, 2, c, ack) && t.ledgers == s.ledgers
  {
    t := OldAnswerIsTaken(s, g, c, ack);
    t := ReachableStep(t, Put(g));
    t := ReachableStep(t, Receive(2));
  }

  lemma NotificationIsPublished(s: State, c: nat) returns (t: State)
    requires Reachable(s) && Fresh(s, s.core.gen, c)
    ensures Reachable(t)
    ensures t == s.(sends := map[1 := NoteSent], slot := Some(1),
                    ledgers := s.ledgers[c := Ledger([Notification], 1, 0, 0, 0)])
  {
    var looked := ReachableStep(s, LookNote(1));
    assert looked == s.(sends := map[1 := NoteReady(Some(c))], slot := Some(1));
    assert [] + [Notification] == [Notification];
    t := ReachableStep(looked, PublishNote(1));
    assert t.ledgers[c] == Ledger([Notification], 1, 0, 0, 0);
  }

  lemma NotificationGoesOut() returns (s: State)
    ensures Reachable(s) && Serving(s, 1, 7) && s.ledgers[7] == Ledger([Notification], 1, 0, 0, 0)
    ensures s.core == Core(0, map[], 1, Some(7), map[]) && s.sends.Keys == {1} && s.slot == None
    ensures s.acks == map[] && s.consumed == {} && !Held(s.watchers, 2)
  {
    var ready := NewSenderIsFresh();
    var sent := NotificationIsPublished(ready, 7);
    s := ReachableStep(sent, Release(1));
  }

  /** After one notification the answer to the notification, ack or nack, is taken for the next send's. */
  lemma NotificationSkewsConfirms(ack: bool) returns (s: State)
    ensures WronglyAnswered(s, 2, 7, ack) && 7 in s.ledgers && s.ledgers[7].notes == 1 && s.ledgers[7].cut == 0
  {
    s := NotificationGoesOut();
    SendGoesOut(s, 2);
    s := ReachableStep(AfterSend(s, 2), Confirm(7, 1, ack));
    s := OldAnswerReleases(s, 1, 7, ack);
  }

  // ----- how `Reconnect` comes to drain a live channel -----

  lemma EmptyDrain(s: State)
    requires s.core.pending == map[] && s.core.nextTag == 0
    ensures DoDrain(s) == s
  {
    DrainNone(s.core);
    assert Booked(s.ledgers, s.alive, s.core) == s.ledgers;
    assert s.core.pending.Values == {} && !AnswersTwice(s.core, s.answered);
    assert s.answered + {} == s.answered;
  }

  lemma WatcherLeaves(s: State, g: nat)
    requires CanSeeClose(s, g) && s.core.pending == map[] && s.core.nextTag == 0
    ensures DoSeeClose(s, g) == s.(watchers := s.watchers[g := Gone])
  {
    EmptyDrain(s);
  }

  lemma ChannelDies(s: State, c: nat) returns (t: State)
    requires Reachable(s)
    ensures Reachable(t) && t == s.(alive := s.alive - {c})
  {
    t := ReachableStep(s, Die(c));
  }

  lemma ChannelIsLost(s: State, g: nat, c: nat) returns (t: State)
    requires Reachable(s) && Fresh(s, g, c)
    ensures Reachable(t)
    ensures t == s.(alive := s.alive - {c}, watchers := s.watchers[g := Gone])
  {
    var dead := ChannelDies(s, c);
    WatcherLeaves(dead, g);
    assert Do(dead, SeeClose(g)) == DoSeeClose(dead, g);
    t := ReachableStep(dead, SeeClose(g));
  }

  lemma ConnectionReturns(s: State) returns (t: State)
    requires Reachable(s)
    ensures Reachable(t) && t == s.(connOpen := true)
  {
    var down := ReachableStep(s, SetConn(false));
    t := ReachableStep(down, SetConn(true));
  }

  /** The connection drops and returns, and the background rebuild of the old watcher installs channel 8 on it
      before the reconnect hook has run. */
  lemma BackgroundRebuild() returns (s: State)
    ensures Reachable(s) && Fresh(s, 2, 8)
  {
    var before := NewSenderIsFresh();
    var lost := ChannelIsLost(before, 1, 7);
    var up := ConnectionReturns(lost);
    RebuildRuns(up, 8, true);
    s := Rebuilt(up, 8);
  }

  lemma FirstSendAnswered(s: State, g: nat, c: nat, ack: bool) returns (t: State)
    requires Reachable(s) && Fresh(s, g, c)
    ensures Reachable(t) && t == AfterSend(s, 1).(acks := map[(c, 1) := ack])
  {
    SendGoesOut(s, 1);
    t := ReachableStep(AfterSend(s, 1), Confirm(c, 1, ack));
  }

  /** Now the hook runs: `Reconnect` drains the channel, which is alive. */
  lemma AnsweredThenDrained(ack: bool) returns (s: State)
    ensures Reachable(s) && Serving(s, 2, 8) && s.sends.Keys == {1} && s.slot == None
    ensures s.core == Core(0, map[], 2, Some(8), map[1 := ChannelClosed]) && !Held(s.watchers, 2)
    ensures s.ledgers[8] == Ledger([Send(1)], 0, 1, 0, 0)
    ensures s.acks == map[(8, 1) := ack] && s.consumed == {}
  {
    var rebuilt := BackgroundRebuild();
    var sent := FirstSendAnswered(rebuilt, 2, 8, ack);
    var pending := sent.core.pending;
    assert pending == map[1 := 1] && pending[1] == 1;
    assert pending.Values == {1};
    assert Drained(sent.core).inbox == map[1 := ChannelClosed];
    s := ReachableStep(sent, Drain);
  }

  /** `Reconnect` drains before its rebuild moves the generation: in between, an old answer releases a new
      send. */
  lemma LiveDrainSkewsConfirms(ack: bool) returns (s: State)
    ensures WronglyAnswered(s, 2, 8, ack) && 8 in s.ledgers && s.ledgers[8].notes == 0 && s.ledgers[8].cut == 1
  {
    s := AnsweredThenDrained(ack);
    SendGoesOut(s, 2);
    s := OldAnswerReleases(AfterSend(s, 2), 2, 8, ack);
  }

  // ----- the two ways a send can be stranded -----

  /** On a live channel the broker has acked the message of a waiting send, and nothing but the end of its
      context or of the channel will ever release it. */
  ghost predicate AckedAndStranded(s: State, id: nat, c: nat) {
    && Reachable(s) && Unanswered(s, id) && c in s.alive && s.core.ch == Some(c)
    && id in s.places && (c, s.places[id]) in s.acks && s.acks[(c, s.places[id])]
    && forall t :: Leads(s, t) ==> !AnsweredByBroker(t, id)
  }

  /** Nothing waits on channel `c`, but the confirm of tag 1 has been dispatched. */
  predicate TagOneSpent(s: State, g: nat, c: nat) {
    && Serving(s, g, c) && CanSend(s, 2)
    && s.core.nextTag == 0 && s.core.pending == map[] && 2 !in s.core.inbox && !Held(s.watchers, 2)
    && |s.ledgers[c].log| == 1 && s.acks.Keys == {(c, 1)} && s.consumed == {(c, 1)}
  }

  /** The next send takes tag 1; its own confirm carries tag 2. */
  lemma OwnConfirmArrives(s: State, g: nat, c: nat) returns (t: State)
    requires Reachable(s) && TagOneSpent(s, g, c)
    ensures Reachable(t) && t == AfterSend(s, 2).(acks := s.acks[(c, 2) := true])
  {
    SendGoesOut(s, 2);
    t := ReachableStep(AfterSend(s, 2), Confirm(c, 2, true));
  }

  /** That confirm finds nobody. */
  lemma OwnConfirmFindsNobody(s: State, g: nat, c: nat) returns (t: State)
    requires Reachable(s) && TagOneSpent(s, g, c)
    ensures Reachable(t) && Unanswered(t, 2) && c in t.alive && t.core.ch == Some(c) && c in t.ledgers
    ensures 2 in t.tickets && t.tickets[2].stale && 2 in t.places && t.places[2] == 2
    ensures (c, 2) in t.acks && t.acks[(c, 2)]
    ensures t.ledgers[c].notes == s.ledgers[c].notes && t.ledgers[c].cut == s.ledgers[c].cut
  {
    t := OwnConfirmArrives(s, g, c);
    assert t.watchers[g := Watching] == t.watchers;
    t := ReachableStep(t, Take(g, 2));
  }

  lemma SpentTagStrands(s: State, g: nat, c: nat) returns (t: State)
    requires Reachable(s) && TagOneSpent(s, g, c)
    ensures AckedAndStranded(t, 2, c) && c in t.ledgers
    ensures t.ledgers[c].notes == s.ledgers[c].notes && t.ledgers[c].cut == s.ledgers[c].cut
  {
    t := OwnConfirmFindsNobody(s, g, c);
    StrandedIffUnanswerable(t, 2);
  }

  /** A notification whose confirm has been dispatched strands the next send. */
  lemma NotificationStrandsNextSend() returns (s: State)
    ensures AckedAndStranded(s, 2, 7) && 7 in s.ledgers && s.ledgers[7].notes == 1 && s.ledgers[7].cut == 0
  {
    s := NotificationGoesOut();
    s := ReachableStep(s, Confirm(7, 1, true));
    s := ReachableStep(s, Take(1, 1));
    s := SpentTagStrands(s, 1, 7);
  }

  /** So does a confirmed send before a drain of the live channel. */
  lemma LiveDrainStrandsNextSend() returns (s: State)
    ensures AckedAndStranded(s, 2, 8) && 8 in s.ledgers && s.ledgers[8].notes == 0 && s.ledgers[8].cut == 1
  {
    s := AnsweredThenDrained(true);
    s := ReachableStep(s, Take(2, 1));
    s := SpentTagStrands(s, 2, 8);
  }

  // ----- and a send on a dead channel -----

  /** A channel that dies before it delivers a confirm leaves its send to the drain. */
  lemma DeathBeforeConfirm() returns (s: State)
    ensures Reachable(s) && Unanswered(s, 1) && Pending(s, 1) && !s.tickets[1].stale
    ensures forall t :: Leads(s, t) ==> !AnsweredByBroker(t, 1)
  {
    s := NewSenderIsFresh();
    SendGoesOut(s, 1);
    s := ReachableStep(AfterSend(s, 1), Die(7));
    StrandedIffUnanswerable(s, 1);
  }
}
