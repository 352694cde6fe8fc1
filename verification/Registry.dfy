/** Handler registration and lookup: the cached lookup of internal/rabbit/registry.go against the plain one of
    internal/kafka/registry.go. The event, command and notification lookups of the rabbit registry are the same
    code, modelled once. A nil cache and an empty one behave alike and are both the empty map. */
module Registry {
  import opened Options
  import opened Matcher

  /** `order` lists the keys of `handlers` in some order, as a Go map iteration does. */
  ghost predicate Lists<H>(order: seq<string>, handlers: map<string, H>) {
    && (forall k :: k in order <==> k in handlers)
    && (forall i, j :: 0 <= i < j < |order| ==> order[i] != order[j])
  }

  method KeysOf<H>(handlers: map<string, H>) returns (keys: seq<string>)
    ensures Lists(keys, handlers)
  {
    keys := [];
    var rest := handlers.Keys;
    while rest != {}
      invariant rest <= handlers.Keys
      invariant forall k :: k in keys <==> k in handlers && k !in rest
      invariant forall i, j :: 0 <= i < j < |keys| ==> keys[i] != keys[j]
      decreases |rest|
    {
      var k :| k in rest;
      keys := keys + [k];
      rest := rest - {k};
    }
  }

  function Get<H>(handlers: map<string, H>, pattern: string): Option<H> {
    if pattern != "" && pattern in handlers then Some(handlers[pattern]) else None
  }

  /** Exact match first, then the most specific matching pattern: no cache involved. */
  function Plain<H>(handlers: map<string, H>, order: seq<string>, name: string): Option<H> {
    if name in handlers then Some(handlers[name]) else Get(handlers, ResolveOf(name, order))
  }

  /** The answer of a plain lookup for some key order. */
  ghost predicate Possible<H>(handlers: map<string, H>, name: string, answer: Option<H>) {
    exists order :: Lists(order, handlers) && answer == Plain(handlers, order, name)
  }

  ghost predicate KeysHashLast<H>(handlers: map<string, H>, name: string) {
    forall k :: k in handlers && Matches(name, k) ==> HashLast(Split(k))
  }

  /** With `#` only in last place the answer does not depend on the key order. */
  lemma PossibleIsUnique<H>(handlers: map<string, H>, name: string, answer: Option<H>, order: seq<string>)
    requires Possible(handlers, name, answer) && Lists(order, handlers)
    requires KeysHashLast(handlers, name)
    ensures answer == Plain(handlers, order, name)
  {
    var other :| Lists(other, handlers) && answer == Plain(handlers, other, name);
    ResolutionIsOrderFree(name, order, other);
  }

  lemma ResolvedKey(name: string, order: seq<string>)
    ensures ResolveOf(name, order) == "" <==> forall k :: k in order ==> !Matches(name, k)
    ensures ResolveOf(name, order) != "" ==> ResolveOf(name, order) in order && Matches(name, ResolveOf(name, order))
  {
    var kept := Filter(name, order);
    if kept != [] {
      ChampionIsMember(kept[0], kept[1..]);
      assert ResolveOf(name, order) in kept;
    } else {
      assert forall k :: k in order ==> !(Matches(name, k) && k in kept);
    }
  }

  /** `k` is the handler key a name without an exact key deserves: no other matching key beats it. */
  ghost predicate BestKey<H>(handlers: map<string, H>, name: string, k: string) {
    && k in handlers && Matches(name, k)
    && (KeysHashLast(handlers, name) ==>
          forall j :: j in handlers && Matches(name, j) && j != k ==> Compare(j, k) > 0)
  }

  lemma ResolvedIsBest<H>(handlers: map<string, H>, name: string, order: seq<string>)
    requires Lists(order, handlers) && ResolveOf(name, order) != ""
    ensures BestKey(handlers, name, ResolveOf(name, order))
  {
    ResolvedKey(name, order);
    var kept := Filter(name, order);
    if KeysHashLast(handlers, name) {
      CandidatesHaveDominant(name, kept);
    }
  }

  /** What a possible answer means: the exact handler if there is one; otherwise the handler of a best matching
      key, and nothing exactly when no key matches. */
  lemma PossibleMeans<H>(handlers: map<string, H>, name: string, answer: Option<H>)
    requires Possible(handlers, name, answer)
    ensures name in handlers ==> answer == Some(handlers[name])
    ensures name !in handlers ==> (answer == None <==> forall k :: k in handlers ==> !Matches(name, k))
    ensures name !in handlers && answer.Some? ==> exists k :: BestKey(handlers, name, k) && answer == Some(handlers[k])
  {
    var order :| Lists(order, handlers) && answer == Plain(handlers, order, name);
    ResolvedKey(name, order);
    if ResolveOf(name, order) != "" {
      ResolvedIsBest(handlers, name, order);
    }
  }

  // ----- the rabbit registry -----

  datatype Core<H> = Core(handlers: map<string, H>, cache: map<string, string>)

  function Listened<H>(c: Core<H>, name: string, h: H): Core<H> {
    if name in c.handlers then c else Core(c.handlers[name := h], map[])
  }

  /** The lookup under the read lock; `None` means a cache miss. */
  function Peek<H>(c: Core<H>, name: string): Option<Option<H>> {
    if name in c.handlers then Some(Some(c.handlers[name]))
    else if name in c.cache then Some(Get(c.handlers, c.cache[name]))
    else None
  }

  /** The section under the write lock fills the cache only if the name is still unknown. */
  function Filled<H>(c: Core<H>, name: string, order: seq<string>): Core<H> {
    if Peek(c, name).Some? then c else c.(cache := c.cache[name := ResolveOf(name, order)])
  }

  function AnswerOf<H>(c: Core<H>, name: string, order: seq<string>): Option<H> {
    if Peek(c, name).Some? then Peek(c, name).value else Get(c.handlers, ResolveOf(name, order))
  }

  /** Every cached resolution is one a plain lookup could give on the present handlers. */
  ghost predicate CacheOk<H>(c: Core<H>) {
    forall name :: name in c.cache ==>
      name !in c.handlers && exists order :: Lists(order, c.handlers) && c.cache[name] == ResolveOf(name, order)
  }

  lemma PeekIsPossible<H>(c: Core<H>, name: string, order: seq<string>)
    requires CacheOk(c) && Lists(order, c.handlers) && Peek(c, name).Some?
    ensures Possible(c.handlers, name, Peek(c, name).value)
  {
    if name in c.handlers {
      assert Peek(c, name).value == Plain(c.handlers, order, name);
    } else {
      var other :| Lists(other, c.handlers) && c.cache[name] == ResolveOf(name, other);
      assert Peek(c, name).value == Plain(c.handlers, other, name);
    }
  }

  lemma FillKeeps<H>(c: Core<H>, name: string, order: seq<string>)
    requires CacheOk(c) && Lists(order, c.handlers)
    ensures CacheOk(Filled(c, name, order))
    ensures Possible(c.handlers, name, AnswerOf(c, name, order))
  {
    if Peek(c, name).Some? {
      PeekIsPossible(c, name, order);
    } else {
      assert AnswerOf(c, name, order) == Plain(c.handlers, order, name);
    }
  }

  class RabbitRegistry<H(==)> {
    var handlers: map<string, H>
    var cache: map<string, string>

    ghost function Snapshot(): Core<H>
      reads this
    {
      Core(handlers, cache)
    }

    ghost predicate Valid()
      reads this
    {
      CacheOk(Snapshot())
    }

    constructor ()
      ensures Valid() && Snapshot() == Core(map[], map[])
    {
      handlers, cache := map[], map[];
    }

    method Listen(name: string, h: H) returns (duplicate: bool)
      requires Valid()
      modifies this
      ensures Valid() && Snapshot() == Listened(old(Snapshot()), name, h)
      ensures duplicate <==> name in old(handlers)
    {
      if name in handlers {
        return true;
      }
      handlers := handlers[name := h];
      cache := map[];
      return false;
    }

    /** The part of a lookup under the read lock. */
    method Probe(name: string) returns (hit: bool, answer: Option<H>)
      requires Valid()
      ensures hit == Peek(Snapshot(), name).Some?
      ensures hit ==> answer == Peek(Snapshot(), name).value && Possible(handlers, name, answer)
    {
      ghost var order := SomeOrder(handlers);
      if name in handlers {
        PeekIsPossible(Snapshot(), name, order);
        return true, Some(handlers[name]);
      }
      if name in cache {
        PeekIsPossible(Snapshot(), name, order);
        var pat := cache[name];
        return true, if pat != "" && pat in handlers then Some(handlers[pat]) else None;
      }
      return false, None;
    }

    /** The part of a lookup under the write lock: check again, then resolve and cache. */
    method Resolve(name: string) returns (answer: Option<H>)
      requires Valid()
      modifies this
      ensures Valid() && handlers == old(handlers)
      ensures Possible(handlers, name, answer)
      ensures exists order :: Lists(order, handlers) && Snapshot() == Filled(old(Snapshot()), name, order)
                                && answer == AnswerOf(old(Snapshot()), name, order)
    {
      var hit;
      hit, answer := Probe(name);
      var order := KeysOf(handlers);
      FillKeeps(Snapshot(), name, order);
      if !hit {
        var pat := Matcher.Resolve(name, order);
        cache := cache[name := pat];
        answer := if pat != "" && pat in handlers then Some(handlers[pat]) else None;
      }
      assert Snapshot() == Filled(old(Snapshot()), name, order) && answer == AnswerOf(old(Snapshot()), name, order);
    }
  }

  // ----- the kafka registry -----

  datatype RegistrationError = NoError | RegistrationClosed | DuplicateHandler

  class KafkaRegistry<H(==)> {
    var started: bool
    var handlers: map<string, H>

    constructor ()
      ensures !started && handlers == map[]
    {
      started, handlers := false, map[];
    }

    method MarkStarted()
      modifies this
      ensures started && handlers == old(handlers)
    {
      started := true;
    }

    method ListenCommand(name: string, h: H) returns (err: RegistrationError)
      modifies this
      ensures started == old(started)
      ensures err ==
            if old(started) then RegistrationClosed else if name in old(handlers) then DuplicateHandler else NoError
      ensures handlers == if err == NoError then old(handlers)[name := h] else old(handlers)
    {
      if started {
        return RegistrationClosed;
      }
      if name in handlers {
        return DuplicateHandler;
      }
      handlers := handlers[name := h];
      return NoError;
    }

    method CommandHandler(name: string) returns (answer: Option<H>)
      ensures Possible(handlers, name, answer)
      ensures answer == None <==> name !in handlers && forall k :: k in handlers ==> !Matches(name, k)
    {
      var order := KeysOf(handlers);
      if name in handlers {
        answer := Some(handlers[name]);
      } else {
        var pat := Matcher.Resolve(name, order);
        answer := if pat != "" && pat in handlers then Some(handlers[pat]) else None;
      }
      assert answer == Plain(handlers, order, name);
    }
  }

  // ----- every interleaving of registrations and two-phase lookups -----

  /** A lookup after a miss under the read lock, or answered with the handlers of its last lock. */
  datatype Lookup<H> = Missed(name: string) | Answered(name: string, answer: Option<H>, seen: map<string, H>)

  datatype State<H> = State(core: Core<H>, lookups: map<nat, Lookup<H>>)

  datatype Event<H> = Listen(name: string, h: H) | Probe(id: nat, name: string) | Finish(id: nat, order: seq<string>)

  ghost predicate Enabled<H>(s: State<H>, e: Event<H>) {
    match e
    case Listen(_, _) => true
    case Probe(id, _) => id !in s.lookups
    case Finish(id, order) => id in s.lookups && s.lookups[id].Missed? && Lists(order, s.core.handlers)
  }

  ghost function Do<H>(s: State<H>, e: Event<H>): State<H>
    requires Enabled(s, e)
  {
    match e
    case Listen(name, h) => s.(core := Listened(s.core, name, h))
    case Probe(id, name) =>
      var p := Peek(s.core, name);
      s.(lookups := s.lookups[id := if p.Some? then Answered(name, p.value, s.core.handlers) else Missed(name)])
    case Finish(id, order) =>
      var name := s.lookups[id].name;
      State(Filled(s.core, name, order),
            s.lookups[id := Answered(name, AnswerOf(s.core, name, order), s.core.handlers)])
  }

  ghost predicate IsRun<H(!new)>(states: seq<State<H>>, events: seq<Event<H>>) {
    && |states| == |events| + 1
    && states[0] == State(Core(map[], map[]), map[])
    && forall i {:trigger events[i]} :: 0 <= i < |events| ==>
         Enabled(states[i], events[i]) && states[i + 1] == Do(states[i], events[i])
  }

  ghost predicate Inv<H>(s: State<H>) {
    && CacheOk(s.core)
    && forall id :: id in s.lookups && s.lookups[id].Answered? ==>
         Possible(s.lookups[id].seen, s.lookups[id].name, s.lookups[id].answer)
  }

  lemma {:induction false} RunKeeps<H(!new)>(states: seq<State<H>>, events: seq<Event<H>>, n: nat)
    requires IsRun(states, events) && n < |states|
    ensures Inv(states[n])
  {
    if n > 0 {
      RunKeeps(states, events, n - 1);
      var s, e := states[n - 1], events[n - 1];
      assert Enabled(s, e) && states[n - 1 + 1] == Do(s, e);
      match e
      case Listen(_, _) =>
      case Probe(_, name) =>
        if Peek(s.core, name).Some? {
          var order := SomeOrder(s.core.handlers);
          PeekIsPossible(s.core, name, order);
        }
      case Finish(id, order) => FillKeeps(s.core, s.lookups[id].name, order);
    }
  }

  lemma {:induction false} SomeOrder<H>(handlers: map<string, H>) returns (order: seq<string>)
    ensures Lists(order, handlers)
    decreases |handlers|
  {
    if handlers == map[] {
      order := [];
    } else {
      var k :| k in handlers;
      assert (handlers - {k}).Keys == handlers.Keys - {k};
      var rest := SomeOrder(handlers - {k});
      order := rest + [k];
    }
  }

  /** Whatever registrations and other lookups interleave with it, a cached lookup answers what a plain lookup
      answers on the handlers of its last lock: for some key order always, and for every key order, hence like
      the kafka registry, when the matching keys keep `#` in last place. */
  lemma CacheRefinesPlainLookup<H(!new)>(states: seq<State<H>>, events: seq<Event<H>>, n: nat, id: nat)
    requires IsRun(states, events) && n < |states|
    requires id in states[n].lookups && states[n].lookups[id].Answered?
    ensures
      var l := states[n].lookups[id];
      && Possible(l.seen, l.name, l.answer)
      && (KeysHashLast(l.seen, l.name) ==> forall order :: Lists(order, l.seen) ==>
            l.answer == Plain(l.seen, order, l.name))
  {
    RunKeeps(states, events, n);
    var l := states[n].lookups[id];
    if KeysHashLast(l.seen, l.name) {
      forall order | Lists(order, l.seen)
        ensures l.answer == Plain(l.seen, order, l.name)
      {
        PossibleIsUnique(l.seen, l.name, l.answer, order);
      }
    }
  }

  /** A lookup that saw the present handlers got what the registry would now answer at once, and lookups of one
      name that saw the same handlers agree. */
  ghost predicate Frozen<H(!new)>(s: State<H>) {
    && (forall id :: id in s.lookups && s.lookups[id].Answered? ==> s.lookups[id].seen.Keys <= s.core.handlers.Keys)
    && (forall id :: id in s.lookups && s.lookups[id].Answered? && s.lookups[id].seen == s.core.handlers ==>
          Peek(s.core, s.lookups[id].name) == Some(s.lookups[id].answer))
    && (forall i, j :: i in s.lookups && j in s.lookups ==> Agree(s.lookups[i], s.lookups[j]))
  }

  ghost predicate Agree<H(!new)>(l: Lookup<H>, m: Lookup<H>) {
    l.Answered? && m.Answered? && l.name == m.name && l.seen == m.seen ==> l.answer == m.answer
  }

  lemma StepKeepsFrozen<H(!new)>(s: State<H>, e: Event<H>)
    requires Frozen(s) && Enabled(s, e)
    ensures Frozen(Do(s, e))
  {
    if e.Listen? && e.name !in s.core.handlers {
      assert e.name in Do(s, e).core.handlers;
    }
  }

  /** The cache freezes an answer: whatever the patterns, two lookups of one name whose last locks saw the same
      handlers answer alike, although each alone may give any possible answer. */
  lemma {:induction false} CacheFreezesAnswers<H(!new)>(states: seq<State<H>>, events: seq<Event<H>>, n: nat)
    requires IsRun(states, events) && n < |states|
    ensures Frozen(states[n])
    ensures forall i, j :: i in states[n].lookups && j in states[n].lookups ==>
              Agree(states[n].lookups[i], states[n].lookups[j])
  {
    if n > 0 {
      CacheFreezesAnswers(states, events, n - 1);
      assert Enabled(states[n - 1], events[n - 1]);
      assert states[n - 1 + 1] == Do(states[n - 1], events[n - 1]);
      StepKeepsFrozen(states[n - 1], events[n - 1]);
    }
  }

  /** A lookup is answered in at most two steps, whatever state the registry is in: at once on a hit, and after the
      second lock otherwise; and the next lookup of that name is a hit. */
  lemma LookupIsAnswered<H(!new)>(s: State<H>, id: nat, name: string, order: seq<string>) returns (t: State<H>)
    requires id !in s.lookups && Lists(order, s.core.handlers)
    ensures
      var probed := Do(s, Probe(id, name));
      if Peek(s.core, name).Some? then t == probed
      else Enabled(probed, Finish(id, order)) && t == Do(probed, Finish(id, order))
    ensures id in t.lookups && t.lookups[id].Answered? && t.lookups[id].name == name
    ensures t.lookups[id].seen == s.core.handlers == t.core.handlers
    ensures Peek(t.core, name) == Some(t.lookups[id].answer)
  {
    t := Do(s, Probe(id, name));
    if Peek(s.core, name).None? {
      t := Do(t, Finish(id, order));
    }
  }

  lemma BothPossible(name: string, p: string, q: string)
    requires Matches(name, p) && Matches(name, q) && p != q && name != p && name != q && p != "" && q != ""
    requires MostSpecificOf([q, p]) == p && MostSpecificOf([p, q]) == q
    ensures Possible(map[p := 1, q := 2], name, Some(1)) && Possible(map[p := 1, q := 2], name, Some(2))
  {
    var handlers := map[p := 1, q := 2];
    FilterPair(name, p, q);
    FilterPair(name, q, p);
    assert Lists([q, p], handlers) && Plain(handlers, [q, p], name) == Some(1);
    assert Lists([p, q], handlers) && Plain(handlers, [p, q], name) == Some(2);
  }

  lemma FilterPair(name: string, p: string, q: string)
    requires Matches(name, p) && Matches(name, q)
    ensures Filter(name, [p, q]) == [p, q]
  {
    assert [p, q][1..] == [q] && [q][1..] == [];
    assert Filter(name, [q]) == [q] + Filter(name, []);
  }

  /** Outside that class the first lookup of a name may get either of two handlers. */
  lemma AmbiguousLookup()
    ensures Possible(map["#.a.b" := 1, "#.b" := 2], "a.b", Some(1))
    ensures Possible(map["#.a.b" := 1, "#.b" := 2], "a.b", Some(2))
  {
    ClashingPair();
    assert |"#.a.b"| == 5 && |"#.b"| == 3 && |"a.b"| == 3 && "#.b"[0] == '#' && "a.b"[0] == 'a';
    BothPossible("a.b", "#.a.b", "#.b");
  }
}
