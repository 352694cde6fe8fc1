/** Correlation of query replies: internal/replyrouter/replyrouter.go under the call order of `RequestReply` in
    internal/rabbit/gateway.go. Reply channels are numbered as they are created. */
module Replies {
  import opened Options

  /** A correlation identifier: a UUID. */
  type Id = nat

  /** A payload is identified by the routing that delivered it. */
  datatype Router = Router(channels: map<Id, nat>, created: nat, buffers: map<nat, nat>)

  const EMPTY: Router := Router(map[], 0, map[])

  function Registered(r: Router, id: Id): Router {
    r.(channels := r.channels[id := r.created], created := r.created + 1)
  }

  function Found(r: Router, id: Id): Option<nat> {
    if id in r.channels then Some(r.channels[id]) else None
  }

  /** A non-blocking send on a channel with room for one value. */
  function Offered(r: Router, ch: nat, payload: nat): Router {
    if ch in r.buffers then r else r.(buffers := r.buffers[ch := payload])
  }

  function Deregistered(r: Router, id: Id): Router {
    r.(channels := r.channels - {id})
  }

  class ReplyRouter {
    var channels: map<Id, nat>
    var created: nat
    var buffers: map<nat, nat>

    function Snapshot(): Router
      reads this
    {
      Router(channels, created, buffers)
    }

    constructor ()
      ensures Snapshot() == EMPTY
    {
      channels, created, buffers := map[], 0, map[];
    }

    method Register(id: Id) returns (ch: nat)
      modifies this
      ensures Snapshot() == Registered(old(Snapshot()), id) && ch == old(created)
    {
      ch := created;
      created := created + 1;
      channels := channels[id := ch];
    }

    method Load(id: Id) returns (ch: Option<nat>)
      ensures ch == Found(Snapshot(), id)
    {
      if id in channels {
        return Some(channels[id]);
      }
      return None;
    }

    method Offer(ch: nat, payload: nat)
      modifies this
      ensures Snapshot() == Offered(old(Snapshot()), ch, payload)
    {
      if ch !in buffers {
        buffers := buffers[ch := payload];
      }
    }

    method Deregister(id: Id)
      modifies this
      ensures Snapshot() == Deregistered(old(Snapshot()), id)
    {
      channels := channels - {id};
    }
  }

  // ----- every interleaving of calls, routings, timeouts and returns -----

  /** A call registers, waits, gets an outcome, deregisters and is over. */
  datatype Call =
    | Waiting(id: Id, ch: nat)
    | Leaving(id: Id, ch: nat, payload: Option<nat>)
    | Over(id: Id, ch: nat, payload: Option<nat>)

  /** A routing of a payload under `id` that looked the channel up and is about to offer to it; `at` counts the
      calls registered when it looked. */
  datatype Routing = Loaded(id: Id, ch: Option<nat>, at: nat) | Routed(id: Id, ch: Option<nat>, at: nat)

  /** `ids` are the correlation identifiers ever used; a channel was created by call `callOf` under `idOf`, and
      `first` is the first payload offered to it. */
  datatype State = State(router: Router, calls: map<nat, Call>, routings: map<nat, Routing>, ids: set<Id>,
                         callOf: map<nat, nat>, idOf: map<nat, Id>, first: map<nat, nat>)

  const START: State := State(EMPTY, map[], map[], {}, map[], map[], map[])

  datatype Event =
    | Register(c: nat, id: Id)
    | LoadRoute(p: nat, id: Id) | OfferRoute(p: nat)
    | Receive(c: nat) | GiveUp(c: nat) | Deregister(c: nat)

  /** Identifiers are fresh UUIDs: none is used twice. */
  predicate Enabled(s: State, e: Event) {
    match e
    case Register(c, id) => c !in s.calls && id !in s.ids
    case LoadRoute(p, _) => p !in s.routings
    case OfferRoute(p) => p in s.routings && s.routings[p].Loaded?
    case Receive(c) => c in s.calls && s.calls[c].Waiting? && s.calls[c].ch in s.router.buffers
    case GiveUp(c) => c in s.calls && s.calls[c].Waiting?
    case Deregister(c) => c in s.calls && s.calls[c].Leaving?
  }

  function WithFirst(first: map<nat, nat>, ch: nat, p: nat): map<nat, nat> {
    if ch in first then first else first[ch := p]
  }

  function Do(s: State, e: Event): State
    requires Enabled(s, e)
  {
    match e
    case Register(c, id) =>
      var ch := s.router.created;
      State(Registered(s.router, id), s.calls[c := Waiting(id, ch)], s.routings, s.ids + {id},
            s.callOf[ch := c], s.idOf[ch := id], s.first)
    case LoadRoute(p, id) =>
      s.(routings := s.routings[p := Loaded(id, Found(s.router, id), s.router.created)])
    case OfferRoute(p) =>
      var r := s.routings[p];
      var next := s.(routings := s.routings[p := Routed(r.id, r.ch, r.at)]);
      if r.ch.None? then next
      else next.(router := Offered(s.router, r.ch.value, p), first := WithFirst(s.first, r.ch.value, p))
    case Receive(c) =>
      var ch := s.calls[c].ch;
      s.(calls := s.calls[c := Leaving(s.calls[c].id, ch, Some(s.router.buffers[ch]))],
         router := s.router.(buffers := s.router.buffers - {ch}))
    case GiveUp(c) => s.(calls := s.calls[c := Leaving(s.calls[c].id, s.calls[c].ch, None)])
    case Deregister(c) =>
      s.(calls := s.calls[c := Over(s.calls[c].id, s.calls[c].ch, s.calls[c].payload)],
         router := Deregistered(s.router, s.calls[c].id))
  }

  ghost predicate IsPath(states: seq<State>, events: seq<Event>) {
    && |states| == |events| + 1
    && forall i {:trigger events[i]} :: 0 <= i < |events| ==>
         Enabled(states[i], events[i]) && states[i + 1] == Do(states[i], events[i])
  }

  ghost predicate IsRun(states: seq<State>, events: seq<Event>) {
    IsPath(states, events) && states[0] == START
  }

  predicate InFlight(c: Call) {
    !c.Over?
  }

  /** Every call owns the channel it created, under an identifier of its own. */
  ghost predicate CallInv(calls: map<nat, Call>, created: nat, ids: set<Id>, callOf: map<nat, nat>, idOf: map<nat, Id>)
  {
    && callOf.Keys == idOf.Keys
    && (forall ch :: ch in callOf ==> ch < created && callOf[ch] in calls && idOf[ch] in ids)
    && (forall ch, d :: ch in idOf && d in idOf && idOf[ch] == idOf[d] ==> ch == d)
    && (forall c :: c in calls ==>
          calls[c].ch in callOf && callOf[calls[c].ch] == c && idOf[calls[c].ch] == calls[c].id)
  }

  /** The router knows exactly the calls in flight. */
  ghost predicate ChannelInv(channels: map<Id, nat>, calls: map<nat, Call>, callOf: map<nat, nat>, idOf: map<nat, Id>) {
    && (forall c :: c in calls && InFlight(calls[c]) ==>
          calls[c].id in channels && channels[calls[c].id] == calls[c].ch)
    && (forall id :: id in channels ==>
          var ch := channels[id];
          ch in idOf && idOf[ch] == id &&
          ch in callOf && callOf[ch] in calls && InFlight(calls[callOf[ch]]) && calls[callOf[ch]].ch == ch)
  }

  /** A routing found a channel only under that channel's own identifier, after it was created. */
  ghost predicate RouteInv(routings: map<nat, Routing>, idOf: map<nat, Id>) {
    forall p :: p in routings && routings[p].ch.Some? ==>
      var ch := routings[p].ch.value;
      ch < routings[p].at && ch in idOf && idOf[ch] == routings[p].id
  }

  /** Payload `p` was offered to channel `ch`. */
  predicate OfferedTo(routings: map<nat, Routing>, p: nat, ch: nat) {
    p in routings && routings[p].Routed? && routings[p].ch == Some(ch)
  }

  ghost predicate BufferInv(buffers: map<nat, nat>, routings: map<nat, Routing>) {
    forall ch :: ch in buffers ==> OfferedTo(routings, buffers[ch], ch)
  }

  ghost predicate PayloadInv(calls: map<nat, Call>, routings: map<nat, Routing>) {
    forall c :: c in calls && !calls[c].Waiting? && calls[c].payload.Some? ==>
      OfferedTo(routings, calls[c].payload.value, calls[c].ch)
  }

  ghost predicate Inv(s: State) {
    && CallInv(s.calls, s.router.created, s.ids, s.callOf, s.idOf)
    && ChannelInv(s.router.channels, s.calls, s.callOf, s.idOf)
    && RouteInv(s.routings, s.idOf)
    && BufferInv(s.router.buffers, s.routings)
    && PayloadInv(s.calls, s.routings)
  }

  lemma CallAdded(calls: map<nat, Call>, created: nat, ids: set<Id>,
          callOf: map<nat, nat>, idOf: map<nat, Id>, c: nat, id: Id)
    requires CallInv(calls, created, ids, callOf, idOf) && c !in calls && id !in ids
    ensures CallInv(calls[c := Waiting(id, created)], created + 1, ids + {id},
                    callOf[created := c], idOf[created := id])
  {
  }

  lemma ChannelAdded(s: State, c: nat, id: Id)
    requires CallInv(s.calls, s.router.created, s.ids, s.callOf, s.idOf)
    requires ChannelInv(s.router.channels, s.calls, s.callOf, s.idOf) && c !in s.calls && id !in s.ids
    ensures ChannelInv(s.router.channels[id := s.router.created], s.calls[c := Waiting(id, s.router.created)],
                       s.callOf[s.router.created := c], s.idOf[s.router.created := id])
  {
  }

  lemma RegisterKeeps(s: State, c: nat, id: Id)
    requires Inv(s) && Enabled(s, Register(c, id))
    ensures Inv(Do(s, Register(c, id)))
  {
    CallAdded(s.calls, s.router.created, s.ids, s.callOf, s.idOf, c, id);
    ChannelAdded(s, c, id);
    var t := Do(s, Register(c, id));
    assert RouteInv(t.routings, t.idOf);
    assert PayloadInv(t.calls, t.routings);
  }

  lemma RoutingAdded(s: State, p: nat, r: Routing)
    requires Inv(s) && RouteInv(s.routings[p := r], s.idOf)
    requires p !in s.routings || (s.routings[p].Loaded? && r.ch == s.routings[p].ch)
    ensures Inv(s.(routings := s.routings[p := r]))
  {
  }

  lemma LoadKeeps(s: State, p: nat, id: Id)
    requires Inv(s) && Enabled(s, LoadRoute(p, id))
    ensures Inv(Do(s, LoadRoute(p, id)))
  {
    var t := Do(s, LoadRoute(p, id));
    assert RouteInv(t.routings, t.idOf);
    RoutingAdded(s, p, t.routings[p]);
  }

  lemma BufferWithOffer(router: Router, routings: map<nat, Routing>, ch: nat, p: nat)
    requires BufferInv(router.buffers, routings) && OfferedTo(routings, p, ch)
    ensures BufferInv(Offered(router, ch, p).buffers, routings)
  {
  }

  lemma OfferKeeps(s: State, p: nat)
    requires Inv(s) && Enabled(s, OfferRoute(p))
    ensures Inv(Do(s, OfferRoute(p)))
  {
    var r := s.routings[p];
    var next := Routed(r.id, r.ch, r.at);
    RoutingAdded(s, p, next);
    if r.ch.Some? {
      BufferWithOffer(s.router, s.routings[p := next], r.ch.value, p);
    }
  }

  lemma CallMoved(calls: map<nat, Call>, created: nat, ids: set<Id>,
          callOf: map<nat, nat>, idOf: map<nat, Id>, c: nat, next: Call)
    requires CallInv(calls, created, ids, callOf, idOf)
    requires c in calls && next.id == calls[c].id && next.ch == calls[c].ch
    ensures CallInv(calls[c := next], created, ids, callOf, idOf)
  {
  }

  lemma ChannelKept(channels: map<Id, nat>, calls: map<nat, Call>,
          callOf: map<nat, nat>, idOf: map<nat, Id>, c: nat, next: Call)
    requires ChannelInv(channels, calls, callOf, idOf)
    requires c in calls && next.id == calls[c].id && next.ch == calls[c].ch && InFlight(calls[c]) && InFlight(next)
    ensures ChannelInv(channels, calls[c := next], callOf, idOf)
  {
  }

  lemma PayloadMoved(calls: map<nat, Call>, routings: map<nat, Routing>, c: nat, next: Call)
    requires PayloadInv(calls, routings)
    requires !next.Waiting? && next.payload.Some? ==> OfferedTo(routings, next.payload.value, next.ch)
    ensures PayloadInv(calls[c := next], routings)
  {
  }

  lemma OutcomeKeeps(s: State, c: nat, payload: Option<nat>, buffers: map<nat, nat>)
    requires Inv(s) && c in s.calls && s.calls[c].Waiting? && BufferInv(buffers, s.routings)
    requires payload.Some? ==> OfferedTo(s.routings, payload.value, s.calls[c].ch)
    ensures Inv(s.(calls := s.calls[c := Leaving(s.calls[c].id, s.calls[c].ch, payload)],
            router := s.router.(buffers := buffers)))
  {
    var next := Leaving(s.calls[c].id, s.calls[c].ch, payload);
    CallMoved(s.calls, s.router.created, s.ids, s.callOf, s.idOf, c, next);
    ChannelKept(s.router.channels, s.calls, s.callOf, s.idOf, c, next);
    PayloadMoved(s.calls, s.routings, c, next);
  }

  lemma ChannelDropped(s: State, c: nat, next: Call)
    requires CallInv(s.calls, s.router.created, s.ids, s.callOf, s.idOf)
    requires ChannelInv(s.router.channels, s.calls, s.callOf, s.idOf)
    requires c in s.calls && InFlight(s.calls[c]) && next.Over? && next.id == s.calls[c].id && next.ch == s.calls[c].ch
    ensures ChannelInv(s.router.channels - {next.id}, s.calls[c := next], s.callOf, s.idOf)
  {
  }

  lemma DeregisterKeeps(s: State, c: nat)
    requires Inv(s) && Enabled(s, Deregister(c))
    ensures Inv(Do(s, Deregister(c)))
  {
    var next := Over(s.calls[c].id, s.calls[c].ch, s.calls[c].payload);
    CallMoved(s.calls, s.router.created, s.ids, s.callOf, s.idOf, c, next);
    ChannelDropped(s, c, next);
    PayloadMoved(s.calls, s.routings, c, next);
  }

  lemma StepKeeps(s: State, e: Event)
    requires Inv(s) && Enabled(s, e)
    ensures Inv(Do(s, e))
  {
    match e
    case Register(c, id) => RegisterKeeps(s, c, id);
    case LoadRoute(p, id) => LoadKeeps(s, p, id);
    case OfferRoute(p) => OfferKeeps(s, p);
    case Receive(c) =>
      var ch := s.calls[c].ch;
      assert BufferInv(s.router.buffers - {ch}, s.routings);
      OutcomeKeeps(s, c, Some(s.router.buffers[ch]), s.router.buffers - {ch});
    case GiveUp(c) => OutcomeKeeps(s, c, None, s.router.buffers);
    case Deregister(c) => DeregisterKeeps(s, c);
  }

  lemma {:induction false} RunKeeps(states: seq<State>, events: seq<Event>, n: nat)
    requires IsRun(states, events) && n < |states|
    ensures Inv(states[n])
  {
    if n > 0 {
      RunKeeps(states, events, n - 1);
      assert Enabled(states[n - 1], events[n - 1]);
      assert states[n - 1 + 1] == Do(states[n - 1], events[n - 1]);
      StepKeeps(states[n - 1], events[n - 1]);
    }
  }

  // ----- which reply a call gets -----

  ghost predicate OffersRecorded(routings: map<nat, Routing>, first: map<nat, nat>) {
    && (forall ch :: ch in first ==> OfferedTo(routings, first[ch], ch))
    && (forall p, ch :: OfferedTo(routings, p, ch) ==> ch in first)
  }

  /** The buffer of a waiting call holds the first payload offered to it, as soon as there is one; a call that
      took a payload took that one. */
  ghost predicate FirstKept(calls: map<nat, Call>, buffers: map<nat, nat>, first: map<nat, nat>) {
    && (forall c :: c in calls && calls[c].Waiting? ==>
          && (calls[c].ch in first <==> calls[c].ch in buffers)
          && (calls[c].ch in first ==> buffers[calls[c].ch] == first[calls[c].ch]))
    && (forall c :: c in calls && !calls[c].Waiting? && calls[c].payload.Some? ==>
          calls[c].ch in first && calls[c].payload == Some(first[calls[c].ch]))
  }

  ghost predicate FirstInv(s: State) {
    OffersRecorded(s.routings, s.first) && FirstKept(s.calls, s.router.buffers, s.first)
  }

  lemma NewChannelIsFresh(s: State)
    requires CallInv(s.calls, s.router.created, s.ids, s.callOf, s.idOf) && RouteInv(s.routings, s.idOf)
    requires BufferInv(s.router.buffers, s.routings) && OffersRecorded(s.routings, s.first)
    ensures s.router.created !in s.first && s.router.created !in s.router.buffers
  {
    forall ch | ch in s.first
      ensures ch in s.idOf
    {
      assert OfferedTo(s.routings, s.first[ch], ch);
    }
    forall ch | ch in s.router.buffers
      ensures ch in s.idOf
    {
      assert OfferedTo(s.routings, s.router.buffers[ch], ch);
    }
  }

  lemma FirstWithNewCall(calls: map<nat, Call>, buffers: map<nat, nat>, first: map<nat, nat>, c: nat, id: Id, ch: nat)
    requires FirstKept(calls, buffers, first) && ch !in first && ch !in buffers
    ensures FirstKept(calls[c := Waiting(id, ch)], buffers, first)
  {
  }

  lemma OfferIsRecorded(routings: map<nat, Routing>, first: map<nat, nat>, p: nat)
    requires OffersRecorded(routings, first) && p in routings && routings[p].Loaded?
    ensures
      var r := routings[p];
      OffersRecorded(routings[p := Routed(r.id, r.ch, r.at)],
                     if r.ch.Some? then WithFirst(first, r.ch.value, p) else first)
  {
    var r := routings[p];
    var after := routings[p := Routed(r.id, r.ch, r.at)];
    forall q, ch | OfferedTo(after, q, ch)
      ensures q != p ==> OfferedTo(routings, q, ch)
    {
    }
    forall ch | ch in first
      ensures OfferedTo(after, first[ch], ch)
    {
      assert OfferedTo(routings, first[ch], ch);
    }
  }

  lemma LookupIsNoOffer(routings: map<nat, Routing>, first: map<nat, nat>, p: nat, r: Routing)
    requires OffersRecorded(routings, first) && p !in routings && r.Loaded?
    ensures OffersRecorded(routings[p := r], first)
  {
    var after := routings[p := r];
    forall q, ch | OfferedTo(after, q, ch)
      ensures OfferedTo(routings, q, ch)
    {
    }
    forall ch | ch in first
      ensures OfferedTo(after, first[ch], ch)
    {
      assert OfferedTo(routings, first[ch], ch);
    }
  }

  lemma FirstWithOffer(calls: map<nat, Call>, router: Router, first: map<nat, nat>, ch: nat, p: nat)
    requires FirstKept(calls, router.buffers, first) && (ch in router.buffers ==> ch in first)
    ensures FirstKept(calls, Offered(router, ch, p).buffers, WithFirst(first, ch, p))
  {
  }

  ghost predicate OwnChannels(calls: map<nat, Call>) {
    forall c, d :: c in calls && d in calls && calls[c].ch == calls[d].ch ==> c == d
  }

  lemma FirstWithReceive(calls: map<nat, Call>, buffers: map<nat, nat>, first: map<nat, nat>, c: nat)
    requires FirstKept(calls, buffers, first) && OwnChannels(calls)
    requires c in calls && calls[c].Waiting? && calls[c].ch in buffers
    ensures FirstKept(calls[c := Leaving(calls[c].id, calls[c].ch, Some(buffers[calls[c].ch]))],
                      buffers - {calls[c].ch}, first)
  {
  }

  lemma FirstWithCall(calls: map<nat, Call>, buffers: map<nat, nat>, first: map<nat, nat>, c: nat, next: Call)
    requires FirstKept(calls, buffers, first) && c in calls && !next.Waiting? && next.ch == calls[c].ch
    requires next.payload.Some? ==> !calls[c].Waiting? && next.payload == calls[c].payload
    ensures FirstKept(calls[c := next], buffers, first)
  {
  }

  lemma OfferKeepsFirst(s: State, p: nat)
    requires BufferInv(s.router.buffers, s.routings) && FirstInv(s) && Enabled(s, OfferRoute(p))
    ensures FirstInv(Do(s, OfferRoute(p)))
  {
    var r := s.routings[p];
    OfferIsRecorded(s.routings, s.first, p);
    if r.ch.Some? {
      var ch := r.ch.value;
      assert ch in s.router.buffers ==> OfferedTo(s.routings, s.router.buffers[ch], ch);
      FirstWithOffer(s.calls, s.router, s.first, ch, p);
    }
  }

  lemma ReceiveKeepsFirst(s: State, c: nat)
    requires CallInv(s.calls, s.router.created, s.ids, s.callOf, s.idOf) && FirstInv(s) && Enabled(s, Receive(c))
    ensures FirstInv(Do(s, Receive(c)))
  {
    assert OwnChannels(s.calls);
    FirstWithReceive(s.calls, s.router.buffers, s.first, c);
  }

  lemma StepKeepsFirst(s: State, e: Event)
    requires CallInv(s.calls, s.router.created, s.ids, s.callOf, s.idOf) && RouteInv(s.routings, s.idOf)
    requires BufferInv(s.router.buffers, s.routings) && FirstInv(s) && Enabled(s, e)
    ensures FirstInv(Do(s, e))
  {
    match e
    case Register(c, id) =>
      NewChannelIsFresh(s);
      FirstWithNewCall(s.calls, s.router.buffers, s.first, c, id, s.router.created);
    case LoadRoute(p, id) => LookupIsNoOffer(s.routings, s.first, p, Loaded(id, Found(s.router, id), s.router.created));
    case OfferRoute(p) => OfferKeepsFirst(s, p);
    case Receive(c) => ReceiveKeepsFirst(s, c);
    case GiveUp(c) => FirstWithCall(s.calls, s.router.buffers, s.first, c, Leaving(s.calls[c].id, s.calls[c].ch, None));
    case Deregister(c) =>
      var call := s.calls[c];
      FirstWithCall(s.calls, s.router.buffers, s.first, c, Over(call.id, call.ch, call.payload));
  }

  lemma NextKeepsFirst(states: seq<State>, events: seq<Event>, n: nat)
    requires IsRun(states, events) && n < |events| && Enabled(states[n], events[n]) && FirstInv(states[n])
    ensures FirstInv(Do(states[n], events[n]))
  {
    var s := states[n];
    assert CallInv(s.calls, s.router.created, s.ids, s.callOf, s.idOf) && RouteInv(s.routings, s.idOf)
        && BufferInv(s.router.buffers, s.routings) by {
      RunKeeps(states, events, n);
    }
    StepKeepsFirst(s, events[n]);
  }

  lemma NothingOfferedAtStart()
    ensures FirstInv(START)
  {
  }

  lemma {:induction false} RunKeepsFirst(states: seq<State>, events: seq<Event>, n: nat)
    requires IsRun(states, events) && n < |states|
    ensures FirstInv(states[n])
  {
    if n == 0 {
      NothingOfferedAtStart();
    } else {
      var e := events[n - 1];
      assert Enabled(states[n - 1], e) && states[n - 1 + 1] == Do(states[n - 1], e);
      RunKeepsFirst(states, events, n - 1);
      NextKeepsFirst(states, events, n - 1);
    }
  }

  // ----- main results -----

  /** A call returns only a payload routed under its own identifier, looked up after its own registration; no
      payload is returned by two calls. */
  lemma ReplyIsolation(states: seq<State>, events: seq<Event>, n: nat, c: nat)
    requires IsRun(states, events) && n < |states|
    requires c in states[n].calls && states[n].calls[c].Over? && states[n].calls[c].payload.Some?
    ensures
      var s := states[n];
      var p := s.calls[c].payload.value;
      && p in s.routings && s.routings[p].id == s.calls[c].id && s.routings[p].ch == Some(s.calls[c].ch)
      && s.calls[c].ch < s.routings[p].at
      && (forall d :: d in s.calls && s.calls[d].Over? && s.calls[d].payload == Some(p) ==> d == c)
  {
    RunKeeps(states, events, n);
  }

  /** The router's keys are exactly the identifiers of the calls in flight. */
  lemma RouterHoldsCallsInFlight(states: seq<State>, events: seq<Event>, n: nat)
    requires IsRun(states, events) && n < |states|
    ensures
      var s := states[n];
      s.router.channels.Keys == set c | c in s.calls && InFlight(s.calls[c]) :: s.calls[c].id
  {
    RunKeeps(states, events, n);
    var s := states[n];
    forall id | id in s.router.channels
      ensures id in set c | c in s.calls && InFlight(s.calls[c]) :: s.calls[c].id
    {
      var c := s.callOf[s.router.channels[id]];
      assert c in s.calls && InFlight(s.calls[c]) && s.calls[c].id == id;
    }
  }

  /** No reply is lost and duplicates do not count: while a call waits, its buffer is filled as soon as a payload
      has been offered to it, with the first one offered; and a call that returns a payload returns that one. */
  lemma FirstReplyWins(states: seq<State>, events: seq<Event>, n: nat, c: nat)
    requires IsRun(states, events) && n < |states| && c in states[n].calls
    ensures
      var s := states[n];
      var call := s.calls[c];
      && (call.Waiting? ==> (call.ch in s.router.buffers <==> exists p :: OfferedTo(s.routings, p, call.ch)))
      && (call.Waiting? && call.ch in s.router.buffers ==>
            call.ch in s.first && s.router.buffers[call.ch] == s.first[call.ch])
      && (call.Over? && call.payload.Some? ==> call.ch in s.first && call.payload == Some(s.first[call.ch]))
  {
    RunKeepsFirst(states, events, n);
    var s := states[n];
    var ch := s.calls[c].ch;
    if ch in s.first {
      assert OfferedTo(s.routings, s.first[ch], ch);
    }
  }

  /** A routing finds the channel of its call exactly while the call is in flight. */
  lemma RoutingFindsCall(states: seq<State>, events: seq<Event>, n: nat, c: nat)
    requires IsRun(states, events) && n < |states| && c in states[n].calls
    ensures Found(states[n].router, states[n].calls[c].id) ==
            if InFlight(states[n].calls[c]) then Some(states[n].calls[c].ch) else None
  {
    RunKeeps(states, events, n);
    var s := states[n];
    var id := s.calls[c].id;
    if id in s.router.channels {
      var ch := s.router.channels[id];
      assert s.idOf[ch] == s.idOf[s.calls[c].ch] && ch == s.calls[c].ch;
    }
  }

  /** From any state in which a call waits and nothing has been offered to it, a reply can reach it and be
      returned. */
  lemma ReplyReaches(states: seq<State>, events: seq<Event>, c: nat, p: nat)
    returns (onward: seq<State>, more: seq<Event>)
    requires IsRun(states, events) && c in states[|events|].calls && states[|events|].calls[c].Waiting?
    requires states[|events|].calls[c].ch !in states[|events|].first && p !in states[|events|].routings
    ensures IsPath(onward, more) && onward[0] == states[|events|]
    ensures
      var call := states[|events|].calls[c];
      c in onward[|more|].calls && onward[|more|].calls[c] == Over(call.id, call.ch, Some(p))
  {
    var s := states[|events|];
    RunKeepsFirst(states, events, |events|);
    RoutingFindsCall(states, events, |events|, c);
    more := [LoadRoute(p, s.calls[c].id), OfferRoute(p), Receive(c), Deregister(c)];
    var loaded := Do(s, more[0]);
    var offered := Do(loaded, more[1]);
    var received := Do(offered, more[2]);
    onward := [s, loaded, offered, received, Do(received, more[3])];
  }

  /** From any state a new call can be made; it waits, and nothing has been offered to it. */
  lemma CallBegins(states: seq<State>, events: seq<Event>, c: nat, id: Id) returns (t: State)
    requires IsRun(states, events) && c !in states[|events|].calls && id !in states[|events|].ids
    ensures IsRun(states + [t], events + [Register(c, id)])
    ensures c in t.calls && t.calls[c].Waiting? && t.calls[c].id == id && t.calls[c].ch !in t.first
  {
    var s := states[|events|];
    assert s.router.created !in s.first by {
      RunKeeps(states, events, |events|);
      RunKeepsFirst(states, events, |events|);
      NewChannelIsFresh(s);
    }
    t := Do(s, Register(c, id));
  }

  /** A call that waits can give up and return without a payload, whatever was offered. */
  lemma CallCanGiveUp(s: State, c: nat) returns (onward: seq<State>, more: seq<Event>)
    requires c in s.calls && s.calls[c].Waiting?
    ensures IsPath(onward, more) && onward[0] == s && c in onward[|more|].calls
    ensures onward[|more|].calls[c] == Over(s.calls[c].id, s.calls[c].ch, None)
  {
    more := [GiveUp(c), Deregister(c)];
    var gone := Do(s, more[0]);
    onward := [s, gone, Do(gone, more[1])];
  }
}
