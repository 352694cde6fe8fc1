/** The dead-letter retry cycle with `WithDLQRetry` on: the declarations of internal/rabbit/topology.go and
    internal/rabbit/application.go as data, the settlement of internal/rabbit/dispatch.go, and the broker's
    routing between them. Assumed of the broker: a message that is rejected without requeue or that outlives its
    TTL is published once to the dead-letter exchange of its queue under its old routing key. */
module DeadLetter {
  import opened Options
  import opened Matcher

  // ----- topology -----

  datatype Config = Config(events: string, direct: string)

  /** One application: the event names it listens to, whether it serves commands and queries, its retry delay in
      milliseconds and its queue type. */
  datatype App = App(name: string, listens: set<string>, commands: bool, queries: bool, delay: int, queueType: string)

  /** A queue and the arguments the broker compares when it is declared again. */
  datatype Declaration = Declaration(queue: string, deadLetter: string, ttl: Option<int>, queueType: string)

  /** `topic` tells the kind of the exchange the binding is on. */
  datatype Binding = Binding(exchange: string, topic: bool, key: string, queue: string)

  function EventsQueue(app: App): string {
    app.name + ".subsEvents"
  }

  function QueriesQueue(app: App): string {
    app.name + ".query"
  }

  function Dlq(queue: string): string {
    queue + ".DLQ"
  }

  function RetryExchange(cfg: Config, app: App): string {
    app.name + "." + cfg.events
  }

  function EventsDlqExchange(cfg: Config, app: App): string {
    app.name + "." + cfg.events + ".DLQ"
  }

  function DirectDlqExchange(cfg: Config): string {
    cfg.direct + ".DLQ"
  }

  /** A served queue and its DLQ, which dead-letter to `out` and `back`. */
  function Pair(app: App, queue: string, out: string, back: string): set<Declaration> {
    {Declaration(queue, out, None, app.queueType), Declaration(Dlq(queue), back, Some(app.delay), app.queueType)}
  }

  function EventDeclarations(cfg: Config, app: App): set<Declaration> {
    Pair(app, EventsQueue(app), EventsDlqExchange(cfg, app), RetryExchange(cfg, app))
  }

  function DirectDeclarations(cfg: Config, app: App, queue: string): set<Declaration> {
    Pair(app, queue, DirectDlqExchange(cfg), cfg.direct)
  }

  /** Every queue an application declares. */
  function Declarations(cfg: Config, app: App): set<Declaration> {
    (if app.listens == {} then {} else EventDeclarations(cfg, app))
    + (if app.commands then DirectDeclarations(cfg, app, app.name) else {})
    + (if app.queries then DirectDeclarations(cfg, app, QueriesQueue(app)) else {})
  }

  function DirectBindings(cfg: Config, queue: string): set<Binding> {
    {Binding(DirectDlqExchange(cfg), false, queue, Dlq(queue)), Binding(cfg.direct, false, queue, queue)}
  }

  function EventBindings(cfg: Config, app: App): set<Binding> {
    {Binding(EventsDlqExchange(cfg, app), true, "#", Dlq(EventsQueue(app))),
     Binding(RetryExchange(cfg, app), true, "#", EventsQueue(app))}
    + set n | n in app.listens :: Binding(cfg.events, true, n, EventsQueue(app))
  }

  function Bindings(cfg: Config, app: App): set<Binding> {
    (if app.listens == {} then {} else EventBindings(cfg, app))
    + (if app.commands then DirectBindings(cfg, app.name) else {})
    + (if app.queries then DirectBindings(cfg, QueriesQueue(app)) else {})
  }

  /** The declarations issued step by step on a channel. */
  class Topology {
    const cfg: Config
    var queues: set<Declaration>
    var bindings: set<Binding>

    constructor (cfg: Config, queues: set<Declaration>, bindings: set<Binding>)
      ensures this.cfg == cfg && this.queues == queues && this.bindings == bindings
    {
      this.cfg, this.queues, this.bindings := cfg, queues, bindings;
    }

    method QueueDeclare(d: Declaration)
      modifies this`queues
      ensures queues == old(queues) + {d}
    {
      queues := queues + {d};
    }

    method QueueBind(b: Binding)
      modifies this`bindings
      ensures bindings == old(bindings) + {b}
    {
      bindings := bindings + {b};
    }

    method DeclareEvents(app: App)
      requires app.listens != {}
      modifies this
      ensures queues == old(queues) + EventDeclarations(cfg, app)
      ensures bindings == old(bindings) + EventBindings(cfg, app)
    {
      var queue := EventsQueue(app);
      QueueDeclare(Declaration(queue, EventsDlqExchange(cfg, app), None, app.queueType));
      QueueDeclare(Declaration(Dlq(queue), RetryExchange(cfg, app), Some(app.delay), app.queueType));
      QueueBind(Binding(EventsDlqExchange(cfg, app), true, "#", Dlq(queue)));
      QueueBind(Binding(RetryExchange(cfg, app), true, "#", queue));
      var names := app.listens;
      ghost var declared, before := queues, bindings;
      while names != {}
        invariant names <= app.listens && queues == declared
        invariant bindings == before + set n | n in app.listens && n !in names :: Binding(cfg.events, true, n, queue)
        decreases |names|
      {
        var n :| n in names;
        QueueBind(Binding(cfg.events, true, n, queue));
        names := names - {n};
      }
      assert (set n | n in app.listens && n !in names :: Binding(cfg.events, true, n, queue))
          == set n | n in app.listens :: Binding(cfg.events, true, n, queue);
    }

    /** Commands are bound under the application's name, queries under the name of their queue. */
    method DeclareDirect(app: App, queue: string)
      modifies this
      ensures queues == old(queues) + DirectDeclarations(cfg, app, queue)
      ensures bindings == old(bindings) + DirectBindings(cfg, queue)
    {
      QueueDeclare(Declaration(queue, DirectDlqExchange(cfg), None, app.queueType));
      QueueDeclare(Declaration(Dlq(queue), cfg.direct, Some(app.delay), app.queueType));
      QueueBind(Binding(DirectDlqExchange(cfg), false, queue, Dlq(queue)));
      QueueBind(Binding(cfg.direct, false, queue, queue));
    }

    method DeclareTopology(app: App)
      modifies this
      ensures queues == old(queues) + Declarations(cfg, app)
      ensures bindings == old(bindings) + Bindings(cfg, app)
    {
      if app.listens != {} {
        DeclareEvents(app);
      }
      if app.commands {
        DeclareDirect(app, app.name);
      }
      if app.queries {
        DeclareDirect(app, QueriesQueue(app));
      }
    }
  }

  // ----- routing -----

  datatype Broker = Broker(queues: set<Declaration>, bindings: set<Binding>)

  /** A broker shared by applications with the same exchange names. */
  ghost function Shared(cfg: Config, apps: set<App>): Broker {
    Broker(set a, d | a in apps && d in Declarations(cfg, a) :: d, set a, b | a in apps && b in Bindings(cfg, a) :: b)
  }

  predicate Routes(b: Binding, key: string) {
    if b.topic then SegmentsMatch(Split(b.key), Split(key)) else b.key == key
  }

  ghost function Route(broker: Broker, exchange: string, key: string): set<string> {
    set b | b in broker.bindings && b.exchange == exchange && Routes(b, key) :: b.queue
  }

  /** No queue is declared with two different arguments (the broker refuses the second declaration). */
  ghost predicate Consistent(broker: Broker) {
    forall d, e :: d in broker.queues && e in broker.queues && d.queue == e.queue ==> d == e
  }

  /** Rejected and expired messages of a queue have one way to go, whichever declaration came first. */
  ghost predicate OneWay(broker: Broker) {
    forall d, e :: d in broker.queues && e in broker.queues && d.queue == e.queue ==> SameWay(d, e)
  }

  predicate SameWay(d: Declaration, e: Declaration) {
    d.deadLetter == e.deadLetter && d.ttl.Some? == e.ttl.Some?
  }

  /** No exchange name is built twice. Two applications may share a name, as replicas of one service do. */
  ghost predicate ExchangesDistinct(cfg: Config, apps: set<App>) {
    && (forall a, b :: a in apps && b in apps ==> EventsDlqExchange(cfg, a) != RetryExchange(cfg, b))
    && (forall a :: a in apps ==>
          && RetryExchange(cfg, a) !in {cfg.events, cfg.direct, DirectDlqExchange(cfg)}
          && EventsDlqExchange(cfg, a) !in {cfg.events, cfg.direct, DirectDlqExchange(cfg)})
    && cfg.events != cfg.direct && cfg.events != DirectDlqExchange(cfg)
  }

  /** A queue whose messages take part in the cycle, with a routing key they may carry. */
  ghost predicate Serves(app: App, queue: string, key: string) {
    || (app.listens != {} && queue == EventsQueue(app))
    || (app.commands && queue == app.name && key == queue)
    || (app.queries && queue == QueriesQueue(app) && key == queue)
  }

  /** Rejected messages of `queue` go to its DLQ alone and none expires there; those of the DLQ expire and go
      back to `queue` alone. */
  ghost predicate Closes(broker: Broker, queue: string, key: string) {
    exists d, e :: d in broker.queues && e in broker.queues && Closing(broker, queue, key, d, e)
  }

  ghost predicate Closing(broker: Broker, queue: string, key: string, d: Declaration, e: Declaration) {
    && d.queue == queue && d.ttl.None? && e.queue == Dlq(queue) && e.ttl.Some?
    && Route(broker, d.deadLetter, key) == {Dlq(queue)} && Route(broker, e.deadLetter, key) == {queue}
  }

  /** The two declarations of a cycle and the two routes between them close it. */
  lemma PairCloses(cfg: Config, apps: set<App>, app: App, queue: string, out: string, back: string, key: string)
    requires app in apps && Pair(app, queue, out, back) <= Declarations(cfg, app)
    requires Route(Shared(cfg, apps), out, key) == {Dlq(queue)} && Route(Shared(cfg, apps), back, key) == {queue}
    ensures Closes(Shared(cfg, apps), queue, key)
  {
    var d := Declaration(queue, out, None, app.queueType);
    var e := Declaration(Dlq(queue), back, Some(app.delay), app.queueType);
    assert d in Pair(app, queue, out, back) && e in Pair(app, queue, out, back);
    assert Closing(Shared(cfg, apps), queue, key, d, e);
  }

  lemma SuffixInjective(a: string, b: string, suffix: string)
    requires a + suffix == b + suffix
    ensures a == b
  {
    assert |a| == |b|;
    assert a == (a + suffix)[..|a|] && b == (b + suffix)[..|b|];
  }

  lemma ExchangeNamesInjective(cfg: Config, a: App, b: App)
    ensures RetryExchange(cfg, a) == RetryExchange(cfg, b) ==> a.name == b.name
    ensures EventsDlqExchange(cfg, a) == EventsDlqExchange(cfg, b) ==> a.name == b.name
  {
    var tail := "." + cfg.events;
    assert RetryExchange(cfg, a) == a.name + tail && RetryExchange(cfg, b) == b.name + tail;
    assert EventsDlqExchange(cfg, a) == a.name + (tail + ".DLQ")
           && EventsDlqExchange(cfg, b) == b.name + (tail + ".DLQ");
    if RetryExchange(cfg, a) == RetryExchange(cfg, b) {
      SuffixInjective(a.name, b.name, tail);
    }
    if EventsDlqExchange(cfg, a) == EventsDlqExchange(cfg, b) {
      SuffixInjective(a.name, b.name, tail + ".DLQ");
    }
  }

  lemma HashMatchesAll(key: string)
    ensures SegmentsMatch(Split("#"), Split(key))
  {
    SplitOfDotFree("#");
  }

  /** What an application's bindings look like, by exchange. */
  lemma BindingKinds(cfg: Config, app: App, b: Binding)
    requires b in Bindings(cfg, app)
    ensures || b == Binding(EventsDlqExchange(cfg, app), true, "#", Dlq(EventsQueue(app)))
            || b == Binding(RetryExchange(cfg, app), true, "#", EventsQueue(app))
            || b.exchange == cfg.events
            || b == Binding(DirectDlqExchange(cfg), false, b.key, Dlq(b.key))
            || b == Binding(cfg.direct, false, b.key, b.key)
  {
  }

  /** The only binding on the exchange of an application's event DLQ. */
  lemma EventsDlqBinding(cfg: Config, apps: set<App>, app: App, b: Binding)
    requires ExchangesDistinct(cfg, apps) && app in apps && b in Shared(cfg, apps).bindings
    requires b.exchange == EventsDlqExchange(cfg, app)
    ensures b == Binding(EventsDlqExchange(cfg, app), true, "#", Dlq(EventsQueue(app)))
  {
    var a :| a in apps && b in Bindings(cfg, a);
    BindingKinds(cfg, a, b);
    ExchangeNamesInjective(cfg, a, app);
  }

  /** The only binding on the exchange that takes its events back. */
  lemma RetryBinding(cfg: Config, apps: set<App>, app: App, b: Binding)
    requires ExchangesDistinct(cfg, apps) && app in apps && b in Shared(cfg, apps).bindings
    requires b.exchange == RetryExchange(cfg, app)
    ensures b == Binding(RetryExchange(cfg, app), true, "#", EventsQueue(app))
  {
    var a :| a in apps && b in Bindings(cfg, a);
    BindingKinds(cfg, a, b);
    ExchangeNamesInjective(cfg, a, app);
  }

  /** An exchange with one binding, which matches, routes to one queue. */
  lemma RoutesToOne(broker: Broker, b: Binding, key: string)
    requires b in broker.bindings && Routes(b, key)
    requires forall o :: o in broker.bindings && o.exchange == b.exchange && Routes(o, key) ==> o.queue == b.queue
    ensures Route(broker, b.exchange, key) == {b.queue}
  {
    assert b.queue in Route(broker, b.exchange, key);
  }

  lemma EventsClose(cfg: Config, apps: set<App>, app: App, key: string)
    requires ExchangesDistinct(cfg, apps) && app in apps && app.listens != {}
    ensures Closes(Shared(cfg, apps), EventsQueue(app), key)
  {
    var broker := Shared(cfg, apps);
    var queue, out, back := EventsQueue(app), EventsDlqExchange(cfg, app), RetryExchange(cfg, app);
    var there, home := Binding(out, true, "#", Dlq(queue)), Binding(back, true, "#", queue);
    HashMatchesAll(key);
    forall b | b in broker.bindings
      ensures b.exchange == out ==> b == there
      ensures b.exchange == back ==> b == home
    {
      if b.exchange == out {
        EventsDlqBinding(cfg, apps, app, b);
      } else if b.exchange == back {
        RetryBinding(cfg, apps, app, b);
      }
    }
    assert there in Bindings(cfg, app) && home in Bindings(cfg, app);
    RoutesToOne(broker, there, key);
    RoutesToOne(broker, home, key);
    PairCloses(cfg, apps, app, queue, out, back, key);
  }

  /** The only bindings on the two direct exchanges. */
  lemma DirectExchangeBindings(cfg: Config, apps: set<App>, b: Binding)
    requires ExchangesDistinct(cfg, apps) && b in Shared(cfg, apps).bindings
    ensures b.exchange == DirectDlqExchange(cfg) ==> b == Binding(DirectDlqExchange(cfg), false, b.key, Dlq(b.key))
    ensures b.exchange == cfg.direct ==> b == Binding(cfg.direct, false, b.key, b.key)
  {
    var a :| a in apps && b in Bindings(cfg, a);
    BindingKinds(cfg, a, b);
    assert |DirectDlqExchange(cfg)| != |cfg.direct|;
  }

  lemma DirectCloses(cfg: Config, apps: set<App>, app: App, queue: string)
    requires ExchangesDistinct(cfg, apps) && app in apps
    requires (app.commands && queue == app.name) || (app.queries && queue == QueriesQueue(app))
    ensures Closes(Shared(cfg, apps), queue, queue)
  {
    var broker := Shared(cfg, apps);
    var out, back := DirectDlqExchange(cfg), cfg.direct;
    var there, home := Binding(out, false, queue, Dlq(queue)), Binding(back, false, queue, queue);
    forall b | b in broker.bindings
      ensures b.exchange == out && Routes(b, queue) ==> b == there
      ensures b.exchange == back && Routes(b, queue) ==> b == home
    {
      DirectExchangeBindings(cfg, apps, b);
    }
    assert there in Bindings(cfg, app) && home in Bindings(cfg, app);
    RoutesToOne(broker, there, queue);
    RoutesToOne(broker, home, queue);
    PairCloses(cfg, apps, app, queue, out, back, queue);
  }

  /** Every cycle closes, for any number of applications on one broker. */
  lemma CyclesClose(cfg: Config, apps: set<App>, app: App, queue: string, key: string)
    requires ExchangesDistinct(cfg, apps) && app in apps && Serves(app, queue, key)
    ensures Closes(Shared(cfg, apps), queue, key)
  {
    if app.listens != {} && queue == EventsQueue(app) {
      EventsClose(cfg, apps, app, key);
    } else {
      DirectCloses(cfg, apps, app, queue);
    }
  }

  // ----- where published messages go -----

  /** `app` listens to an event whose name or pattern matches `key`. */
  predicate Hears(app: App, key: string) {
    exists n | n in app.listens :: SegmentsMatch(Split(n), Split(key))
  }

  lemma EventReaches(cfg: Config, apps: set<App>, app: App, key: string)
    requires app in apps && Hears(app, key)
    ensures EventsQueue(app) in Route(Shared(cfg, apps), cfg.events, key)
  {
    var n :| n in app.listens && SegmentsMatch(Split(n), Split(key));
    var b := Binding(cfg.events, true, n, EventsQueue(app));
    assert b in EventBindings(cfg, app);
    assert b in Bindings(cfg, app);
    assert b in Shared(cfg, apps).bindings && Routes(b, key);
  }

  lemma EventBindingHears(cfg: Config, apps: set<App>, app: App, b: Binding, key: string)
    requires ExchangesDistinct(cfg, apps) && app in apps && b in Bindings(cfg, app)
    requires b.exchange == cfg.events && Routes(b, key)
    ensures b.queue == EventsQueue(app) && Hears(app, key)
  {
    assert b in EventBindings(cfg, app);
    var n :| n in app.listens && b == Binding(cfg.events, true, n, EventsQueue(app));
  }

  /** A published event goes to the events queues of the applications that listen to it, and nowhere else. */
  lemma EventsRoute(cfg: Config, apps: set<App>, key: string)
    requires ExchangesDistinct(cfg, apps)
    ensures Route(Shared(cfg, apps), cfg.events, key) == set a | a in apps && Hears(a, key) :: EventsQueue(a)
  {
    var broker := Shared(cfg, apps);
    forall a | a in apps && Hears(a, key)
      ensures EventsQueue(a) in Route(broker, cfg.events, key)
    {
      EventReaches(cfg, apps, a, key);
    }
    forall q | q in Route(broker, cfg.events, key)
      ensures exists a :: a in apps && Hears(a, key) && EventsQueue(a) == q
    {
      var b :| b in broker.bindings && b.exchange == cfg.events && Routes(b, key) && b.queue == q;
      var a :| a in apps && b in Bindings(cfg, a);
      EventBindingHears(cfg, apps, a, b, key);
    }
  }

  /** `app` serves the commands or the queries addressed to `key`. */
  predicate Answers(app: App, key: string) {
    (app.commands && key == app.name) || (app.queries && key == QueriesQueue(app))
  }

  lemma DirectReaches(cfg: Config, apps: set<App>, app: App, key: string)
    requires app in apps && Answers(app, key)
    ensures key in Route(Shared(cfg, apps), cfg.direct, key)
  {
    var b := Binding(cfg.direct, false, key, key);
    assert b in DirectBindings(cfg, key);
    assert b in Bindings(cfg, app);
    assert b in Shared(cfg, apps).bindings && Routes(b, key);
  }

  /** A command or a query goes to the queue it is addressed to, if an application serves it, and nowhere else. */
  lemma DirectRoute(cfg: Config, apps: set<App>, key: string)
    requires ExchangesDistinct(cfg, apps)
    ensures Route(Shared(cfg, apps), cfg.direct, key) == if exists a :: a in apps && Answers(a, key) then {key} else {}
  {
    var broker := Shared(cfg, apps);
    if a :| a in apps && Answers(a, key) {
      DirectReaches(cfg, apps, a, key);
    }
    forall q | q in Route(broker, cfg.direct, key)
      ensures q == key && exists a :: a in apps && Answers(a, key)
    {
      var b :| b in broker.bindings && b.exchange == cfg.direct && Routes(b, key) && b.queue == q;
      DirectExchangeBindings(cfg, apps, b);
      var a :| a in apps && b in Bindings(cfg, a);
      DirectBindingAnswers(cfg, apps, a, b);
    }
  }

  lemma DirectBindingAnswers(cfg: Config, apps: set<App>, app: App, b: Binding)
    requires ExchangesDistinct(cfg, apps) && app in apps && b in Bindings(cfg, app) && b.exchange == cfg.direct
    ensures Answers(app, b.key)
  {
    assert b !in EventBindings(cfg, app) by {
      assert forall o :: o in EventBindings(cfg, app) ==> o.topic;
      DirectBindingKind(cfg, apps, app, b);
    }
  }

  lemma DirectBindingKind(cfg: Config, apps: set<App>, app: App, b: Binding)
    requires ExchangesDistinct(cfg, apps) && app in apps && b in Bindings(cfg, app) && b.exchange == cfg.direct
    ensures !b.topic
  {
    BindingKinds(cfg, app, b);
  }

  // ----- when the declarations agree -----

  /** A served queue and the dead-letter exchanges of itself and of its DLQ. */
  datatype Cycle = Cycle(queue: string, out: string, back: string)

  function Cycles(cfg: Config, app: App): set<Cycle> {
    (if app.listens == {} then {} else {Cycle(EventsQueue(app), EventsDlqExchange(cfg, app), RetryExchange(cfg, app))})
    + (if app.commands then {Cycle(app.name, DirectDlqExchange(cfg), cfg.direct)} else {})
    + (if app.queries then {Cycle(QueriesQueue(app), DirectDlqExchange(cfg), cfg.direct)} else {})
  }

  lemma DeclarationsOfCycles(cfg: Config, app: App, d: Declaration)
    ensures d in Declarations(cfg, app) <==>
            exists x | x in Cycles(cfg, app) :: DeclaredBy(app, x, d)
  {
    if app.listens != {} {
      var x := Cycle(EventsQueue(app), EventsDlqExchange(cfg, app), RetryExchange(cfg, app));
      assert x in Cycles(cfg, app);
    }
    if app.commands {
      var x := Cycle(app.name, DirectDlqExchange(cfg), cfg.direct);
      assert x in Cycles(cfg, app);
    }
    if app.queries {
      var x := Cycle(QueriesQueue(app), DirectDlqExchange(cfg), cfg.direct);
      assert x in Cycles(cfg, app);
    }
  }

  /** `b` serves commands and is named like the events queue, the events DLQ, the commands DLQ or the queries DLQ
      of `a`. Being named like its queries queue is no collision. */
  predicate Collides(a: App, b: App) {
    && b.commands
    && (|| (a.listens != {} && b.name in {EventsQueue(a), Dlq(EventsQueue(a))})
        || (a.commands && b.name == Dlq(a.name))
        || (a.queries && b.name == Dlq(QueriesQueue(a))))
  }

  ghost predicate NamesSeparate(apps: set<App>) {
    forall a, b :: a in apps && b in apps ==> !Collides(a, b)
  }

  /** Queue names are told apart by their last letter. */
  lemma LastLetters(app: App, queue: string)
    ensures EventsQueue(app)[|app.name| + 10] == 's' && |EventsQueue(app)| == |app.name| + 11
    ensures QueriesQueue(app)[|app.name| + 5] == 'y' && |QueriesQueue(app)| == |app.name| + 6
    ensures Dlq(queue)[|queue| + 3] == 'Q' && |Dlq(queue)| == |queue| + 4
  {
  }

  lemma SameQueueSameCycle(cfg: Config, apps: set<App>, a: App, b: App, x: Cycle, y: Cycle)
    requires NamesSeparate(apps) && a in apps && b in apps
    requires x in Cycles(cfg, a) && y in Cycles(cfg, b) && x.queue == y.queue
    ensures x == y
  {
    LastLetters(a, "");
    LastLetters(b, "");
    if x.queue == EventsQueue(a) && y.queue == EventsQueue(b) {
      SuffixInjective(a.name, b.name, ".subsEvents");
    }
  }

  lemma QueueIsNoDlq(cfg: Config, apps: set<App>, a: App, b: App, x: Cycle, y: Cycle)
    requires NamesSeparate(apps) && a in apps && b in apps && x in Cycles(cfg, a) && y in Cycles(cfg, b)
    ensures x.queue != Dlq(y.queue)
  {
    LastLetters(a, y.queue);
  }

  /** Two declarations of one queue are on the same side of cycles with the same queue. */
  lemma SameSide(a: App, b: App, x: Cycle, y: Cycle, d: Declaration, e: Declaration)
    requires d in Pair(a, x.queue, x.out, x.back) && e in Pair(b, y.queue, y.out, y.back) && d.queue == e.queue
    requires x.queue != Dlq(y.queue) && y.queue != Dlq(x.queue)
    ensures x.queue == y.queue && d.ttl.Some? == e.ttl.Some?
  {
    if d.ttl.Some? {
      SuffixInjective(x.queue, y.queue, ".DLQ");
    }
    assert |Dlq(x.queue)| != |x.queue|;
  }

  ghost predicate DeclaredBy(app: App, x: Cycle, d: Declaration) {
    d in Pair(app, x.queue, x.out, x.back)
  }

  /** With separate names two declarations of one queue come from the same cycle and the same side of it. */
  lemma SeparateNamesAgree(cfg: Config, apps: set<App>, a: App, b: App, d: Declaration, e: Declaration)
    returns (x: Cycle)
    requires NamesSeparate(apps) && a in apps && b in apps
    requires d in Declarations(cfg, a) && e in Declarations(cfg, b) && d.queue == e.queue
    ensures x in Cycles(cfg, a) && x in Cycles(cfg, b) && DeclaredBy(a, x, d) && DeclaredBy(b, x, e)
    ensures d.ttl.Some? == e.ttl.Some?
  {
    DeclarationsOfCycles(cfg, a, d);
    DeclarationsOfCycles(cfg, b, e);
    x :| x in Cycles(cfg, a) && DeclaredBy(a, x, d);
    var y :| y in Cycles(cfg, b) && DeclaredBy(b, y, e);
    QueueIsNoDlq(cfg, apps, a, b, x, y);
    QueueIsNoDlq(cfg, apps, b, a, y, x);
    SameSide(a, b, x, y, d, e);
    SameQueueSameCycle(cfg, apps, a, b, x, y);
  }

  /** One queue declared with two ways out. */
  lemma Disagree(cfg: Config, apps: set<App>, a: App, b: App, d: Declaration, e: Declaration)
    requires a in apps && b in apps && d in Declarations(cfg, a) && e in Declarations(cfg, b)
    requires d.queue == e.queue && !SameWay(d, e)
    ensures !OneWay(Shared(cfg, apps))
  {
    assert d in Shared(cfg, apps).queues && e in Shared(cfg, apps).queues;
  }

  lemma CollisionDisagrees(cfg: Config, apps: set<App>, a: App, b: App)
    requires ExchangesDistinct(cfg, apps) && a in apps && b in apps && Collides(a, b)
    ensures !OneWay(Shared(cfg, apps))
  {
    var e := Declaration(b.name, DirectDlqExchange(cfg), None, b.queueType);
    if a.listens != {} && b.name == EventsQueue(a) {
      Disagree(cfg, apps, a, b, Declaration(b.name, EventsDlqExchange(cfg, a), None, a.queueType), e);
    } else if a.listens != {} && b.name == Dlq(EventsQueue(a)) {
      Disagree(cfg, apps, a, b, Declaration(b.name, RetryExchange(cfg, a), Some(a.delay), a.queueType), e);
    } else {
      Disagree(cfg, apps, a, b, Declaration(b.name, cfg.direct, Some(a.delay), a.queueType), e);
    }
  }

  /** Every queue has one way out exactly when the application names are separate. */
  lemma OneWayIffNamesSeparate(cfg: Config, apps: set<App>)
    requires ExchangesDistinct(cfg, apps)
    ensures OneWay(Shared(cfg, apps)) <==> NamesSeparate(apps)
  {
    var broker := Shared(cfg, apps);
    if NamesSeparate(apps) {
      forall d, e | d in broker.queues && e in broker.queues && d.queue == e.queue
        ensures SameWay(d, e)
      {
        var a :| a in apps && d in Declarations(cfg, a);
        var b :| b in apps && e in Declarations(cfg, b);
        var x := SeparateNamesAgree(cfg, apps, a, b, d, e);
        SameSideSameWay(a, b, x, d, e);
      }
    } else {
      var a, b :| a in apps && b in apps && Collides(a, b);
      CollisionDisagrees(cfg, apps, a, b);
    }
  }

  /** Two applications that declare a queue in common: replicas, or one named like the other's queries queue. */
  predicate SharesQueue(a: App, b: App) {
    || (a.name == b.name && a.listens != {} && b.listens != {})
    || (a.name == b.name && a.commands && b.commands)
    || (a.name == b.name && a.queries && b.queries)
    || (a.commands && b.queries && a.name == QueriesQueue(b))
    || (a.queries && b.commands && b.name == QueriesQueue(a))
  }

  ghost predicate SettingsAgree(apps: set<App>) {
    forall a, b :: a in apps && b in apps && SharesQueue(a, b) ==> a.delay == b.delay && a.queueType == b.queueType
  }

  lemma SharedCycle(cfg: Config, apps: set<App>, a: App, b: App, x: Cycle)
    requires NamesSeparate(apps) && a in apps && b in apps && x in Cycles(cfg, a) && x in Cycles(cfg, b)
    ensures SharesQueue(a, b)
  {
    LastLetters(a, "");
    LastLetters(b, "");
    assert !Collides(a, b) && !Collides(b, a);
    if x.queue == EventsQueue(a) == EventsQueue(b) {
      SuffixInjective(a.name, b.name, ".subsEvents");
    }
    if x.queue == QueriesQueue(a) == QueriesQueue(b) {
      SuffixInjective(a.name, b.name, ".query");
    }
  }

  lemma SharersShareCycle(cfg: Config, a: App, b: App) returns (x: Cycle)
    requires SharesQueue(a, b)
    ensures x in Cycles(cfg, a) && x in Cycles(cfg, b)
  {
    if a.name == b.name && a.listens != {} && b.listens != {} {
      x := Cycle(EventsQueue(a), EventsDlqExchange(cfg, a), RetryExchange(cfg, a));
    } else if a.commands && ((a.name == b.name && b.commands) || (b.queries && a.name == QueriesQueue(b))) {
      x := Cycle(a.name, DirectDlqExchange(cfg), cfg.direct);
    } else {
      x := Cycle(QueriesQueue(a), DirectDlqExchange(cfg), cfg.direct);
    }
  }

  lemma ConsistentSettingsAgree(cfg: Config, apps: set<App>, a: App, b: App)
    requires Consistent(Shared(cfg, apps)) && a in apps && b in apps && SharesQueue(a, b)
    ensures a.delay == b.delay && a.queueType == b.queueType
  {
    var x := SharersShareCycle(cfg, a, b);
    var d := Declaration(Dlq(x.queue), x.back, Some(a.delay), a.queueType);
    var e := Declaration(Dlq(x.queue), x.back, Some(b.delay), b.queueType);
    assert d in Pair(a, x.queue, x.out, x.back) && e in Pair(b, x.queue, x.out, x.back);
    DeclarationsOfCycles(cfg, a, d);
    DeclarationsOfCycles(cfg, b, e);
    assert d in Shared(cfg, apps).queues && e in Shared(cfg, apps).queues;
  }

  lemma SameSideSameWay(a: App, b: App, x: Cycle, d: Declaration, e: Declaration)
    requires DeclaredBy(a, x, d) && DeclaredBy(b, x, e) && d.ttl.Some? == e.ttl.Some?
    ensures SameWay(d, e)
    ensures a.delay == b.delay && a.queueType == b.queueType ==> d == e
  {
  }

  lemma AgreeingSettings(cfg: Config, apps: set<App>, a: App, b: App, d: Declaration, e: Declaration)
    requires NamesSeparate(apps) && SettingsAgree(apps) && a in apps && b in apps
    requires d in Declarations(cfg, a) && e in Declarations(cfg, b) && d.queue == e.queue
    ensures d == e
  {
    var x := SeparateNamesAgree(cfg, apps, a, b, d, e);
    SharedCycle(cfg, apps, a, b, x);
    SameSideSameWay(a, b, x, d, e);
  }

  /** The broker accepts the declarations of all applications exactly when their names are separate and those
      that share a queue have the same retry delay and queue type. */
  lemma ConsistentIff(cfg: Config, apps: set<App>)
    requires ExchangesDistinct(cfg, apps)
    ensures Consistent(Shared(cfg, apps)) <==> NamesSeparate(apps) && SettingsAgree(apps)
  {
    var broker := Shared(cfg, apps);
    if Consistent(broker) {
      assert OneWay(broker);
      OneWayIffNamesSeparate(cfg, apps);
      forall a, b | a in apps && b in apps && SharesQueue(a, b)
        ensures a.delay == b.delay && a.queueType == b.queueType
      {
        ConsistentSettingsAgree(cfg, apps, a, b);
      }
    }
    if NamesSeparate(apps) && SettingsAgree(apps) {
      forall d, e | d in broker.queues && e in broker.queues && d.queue == e.queue
        ensures d == e
      {
        var a :| a in apps && d in Declarations(cfg, a);
        var b :| b in apps && e in Declarations(cfg, b);
        AgreeingSettings(cfg, apps, a, b, d, e);
      }
    }
  }

  const DEFAULTS: Config := Config("domainEvents", "directMessages")

  /** The exchange names of an application never coincide with the default shared ones. */
  lemma DefaultExchangesApart(a: App)
    ensures RetryExchange(DEFAULTS, a) !in {"domainEvents", "directMessages", "directMessages.DLQ"}
    ensures EventsDlqExchange(DEFAULTS, a) !in {"domainEvents", "directMessages", "directMessages.DLQ"}
  {
    var n, retry, dlq := |a.name|, RetryExchange(DEFAULTS, a), EventsDlqExchange(DEFAULTS, a);
    assert |retry| == n + 13 && retry[n] == '.' && retry[n + 12] == 's';
    assert |dlq| == n + 17 && dlq[n] == '.' && dlq[n + 16] == 'Q';
  }

  /** The names on the broker, as other implementations of the protocol expect them. */
  lemma NamesOnTheBroker()
    ensures
      var app := App("orders", {"order.created"}, true, true, 1000, "classic");
      && EventsQueue(app) == "orders.subsEvents" && QueriesQueue(app) == "orders.query"
      && Dlq(EventsQueue(app)) == "orders.subsEvents.DLQ"
      && RetryExchange(DEFAULTS, app) == "orders.domainEvents"
      && EventsDlqExchange(DEFAULTS, app) == "orders.domainEvents.DLQ"
      && DirectDlqExchange(DEFAULTS) == "directMessages.DLQ"
  {
  }

  /** With the default exchange names this holds whatever the applications are called. */
  lemma DefaultExchangesDistinct(apps: set<App>)
    ensures ExchangesDistinct(DEFAULTS, apps)
  {
    assert DirectDlqExchange(DEFAULTS) == "directMessages.DLQ";
    forall a, b | a in apps && b in apps
      ensures EventsDlqExchange(DEFAULTS, a) != RetryExchange(DEFAULTS, b)
    {
      var dlq, retry := EventsDlqExchange(DEFAULTS, a), RetryExchange(DEFAULTS, b);
      assert dlq[|dlq| - 1] == 'Q' && retry[|retry| - 1] == 's';
    }
    forall a | a in apps
      ensures RetryExchange(DEFAULTS, a) !in {"domainEvents", "directMessages", "directMessages.DLQ"}
      ensures EventsDlqExchange(DEFAULTS, a) !in {"domainEvents", "directMessages", "directMessages.DLQ"}
    {
      DefaultExchangesApart(a);
    }
  }

  /** An application named like another one's dead-letter queue breaks the declarations. */
  lemma CollidingNames()
    ensures
      var a, b := App("a", {}, true, false, 1000, "classic"), App("a.DLQ", {}, true, false, 1000, "classic");
      !OneWay(Shared(DEFAULTS, {a, b})) && !Consistent(Shared(DEFAULTS, {a, b}))
  {
    var a, b := App("a", {}, true, false, 1000, "classic"), App("a.DLQ", {}, true, false, 1000, "classic");
    assert Dlq("a") == "a.DLQ" && Collides(a, b);
    DefaultExchangesDistinct({a, b});
    OneWayIffNamesSeparate(DEFAULTS, {a, b});
    ConsistentIff(DEFAULTS, {a, b});
  }

  // ----- settlement of one delivery -----

  datatype Outcome = BadEnvelope | NoHandler | Succeeds | Fails | Panics

  datatype Settlement = Ack | Nack(requeue: bool)

  class Delivery {
    var settlements: seq<Settlement>

    constructor ()
      ensures settlements == []
    {
      settlements := [];
    }

    method Settle(s: Settlement)
      modifies this
      ensures settlements == old(settlements) + [s]
    {
      settlements := settlements + [s];
    }

    method RunEnvelopeHandler(outcome: Outcome, requeueOnFailure: bool) returns (panicked: bool)
      requires outcome != BadEnvelope
      modifies this
      ensures panicked <==> outcome == Panics
      ensures settlements == old(settlements) +
            if panicked then [] else [if outcome == Fails then Nack(requeueOnFailure) else Ack]
    {
      if outcome == NoHandler {
        Settle(Ack);
        return false;
      }
      if outcome == Panics {
        return true;
      }
      if outcome == Fails {
        Settle(Nack(requeueOnFailure));
        return false;
      }
      Settle(Ack);
      return false;
    }

    /** Whatever the handler does, the delivery is settled exactly once; only success or the lack of a handler
        acks it, and a broken envelope is never requeued. */
    method Dispatch(outcome: Outcome, withDlqRetry: bool)
      modifies this
      ensures |settlements| == |old(settlements)| + 1 && settlements[..|old(settlements)|] == old(settlements)
      ensures settlements[|old(settlements)|] ==
              match outcome
              case NoHandler => Ack
              case Succeeds => Ack
              case BadEnvelope => Nack(false)
              case _ => Nack(!withDlqRetry)
    {
      var requeueOnFailure := !withDlqRetry;
      if outcome == BadEnvelope {
        Settle(Nack(false));
        return;
      }
      var panicked := RunEnvelopeHandler(outcome, requeueOnFailure);
      if panicked {
        Settle(Nack(requeueOnFailure));
      }
    }
  }

  // ----- messages in the cycle -----

  /** A copy of a message in a queue, possibly handed to a consumer. */
  datatype Copy = Copy(queue: string, unacked: bool)

  /** What the broker keeps for one message that entered `home` with routing key `key`. */
  datatype Message = Message(home: string, key: string, copies: multiset<Copy>, acked: bool)

  datatype Step =
    | Deliver(c: Copy)
    | Settle(c: Copy, s: Settlement)
    | LoseConsumer(c: Copy)
    | Expire(c: Copy)

  predicate HasTtl(broker: Broker, queue: string) {
    exists d | d in broker.queues :: d.queue == queue && d.ttl.Some?
  }

  /** Only the served queue has a consumer. A message expires in any queue declared with a TTL. */
  ghost predicate Enabled(broker: Broker, m: Message, e: Step) {
    && e.c in m.copies
    && match e
       case Deliver(c) => !c.unacked && c.queue == m.home
       case Settle(c, _) => c.unacked && c.queue == m.home
       case LoseConsumer(c) => c.unacked
       case Expire(c) => !c.unacked && HasTtl(broker, c.queue)
  }

  /** Copies published by dead-lettering out of `queue`. */
  ghost function Republished(broker: Broker, queue: string, key: string): multiset<Copy> {
    multiset(set d, q |
               d in broker.queues && d.queue == queue && q in Route(broker, d.deadLetter, key) :: Copy(q, false))
  }

  ghost function Do(broker: Broker, m: Message, e: Step): (next: Message)
    requires Enabled(broker, m, e)
    ensures next.home == m.home && next.key == m.key
  {
    var rest := m.copies - multiset{e.c};
    match e
    case Deliver(c) => m.(copies := rest + multiset{c.(unacked := true)})
    case Settle(c, Ack) => m.(copies := rest, acked := true)
    case Settle(c, Nack(true)) => m.(copies := rest + multiset{c.(unacked := false)})
    case Settle(c, Nack(false)) => m.(copies := rest + Republished(broker, c.queue, m.key))
    case LoseConsumer(c) => m.(copies := rest + multiset{c.(unacked := false)})
    case Expire(c) => m.(copies := rest + Republished(broker, c.queue, m.key))
  }

  ghost predicate IsPath(broker: Broker, states: seq<Message>, steps: seq<Step>) {
    && |states| == |steps| + 1
    && forall i {:trigger steps[i]} :: 0 <= i < |steps| ==>
         Enabled(broker, states[i], steps[i]) && states[i + 1] == Do(broker, states[i], steps[i])
  }

  ghost predicate IsRun(broker: Broker, states: seq<Message>, steps: seq<Step>) {
    && IsPath(broker, states, steps)
    && states[0].copies == multiset{Copy(states[0].home, false)} && !states[0].acked
  }

  /** One copy, at home or in the DLQ of home, until the message is acked; none afterwards. */
  ghost predicate OneCopy(m: Message) {
    if m.acked then m.copies == multiset{}
    else
      || m.copies == multiset{Copy(m.home, false)}
      || m.copies == multiset{Copy(m.home, true)}
      || m.copies == multiset{Copy(Dlq(m.home), false)}
  }

  lemma RepublishedOnce(broker: Broker, d: Declaration, key: string, target: string)
    requires OneWay(broker) && d in broker.queues && Route(broker, d.deadLetter, key) == {target}
    ensures Republished(broker, d.queue, key) == multiset{Copy(target, false)}
  {
    var copies :=
      set o, q | o in broker.queues && o.queue == d.queue && q in Route(broker, o.deadLetter, key) :: Copy(q, false);
    forall c | c in copies
      ensures c == Copy(target, false)
    {
      var o, q :|
        o in broker.queues && o.queue == d.queue && q in Route(broker, o.deadLetter, key) && c == Copy(q, false);
      assert SameWay(o, d);
    }
    assert target in Route(broker, d.deadLetter, key);
    assert Copy(target, false) in copies;
    assert copies == {Copy(target, false)};
  }

  /** What is dead-lettered at home goes to the DLQ, what is dead-lettered there comes home, and nothing expires
      at home. */
  ghost predicate Bounces(broker: Broker, home: string, key: string) {
    && Republished(broker, home, key) == multiset{Copy(Dlq(home), false)}
    && Republished(broker, Dlq(home), key) == multiset{Copy(home, false)}
    && !HasTtl(broker, home) && HasTtl(broker, Dlq(home))
  }

  lemma ClosedCycleBounces(broker: Broker, home: string, key: string)
    requires OneWay(broker) && Closes(broker, home, key)
    ensures Bounces(broker, home, key)
  {
    var d, e :| d in broker.queues && e in broker.queues && Closing(broker, home, key, d, e);
    RepublishedOnce(broker, d, key, Dlq(home));
    RepublishedOnce(broker, e, key, home);
    forall o | o in broker.queues && o.queue == home
      ensures o.ttl.None?
    {
      assert SameWay(o, d);
    }
  }

  lemma OnlyCopy(m: Message, c: Copy)
    requires OneCopy(m) && c in m.copies
    ensures !m.acked && m.copies == multiset{c} && m.copies - multiset{c} == multiset{}
    ensures c.queue == m.home || (c.queue == Dlq(m.home) && !c.unacked)
  {
    assert |Dlq(m.home)| != |m.home|;
  }

  lemma StepKeeps(broker: Broker, m: Message, e: Step)
    requires Bounces(broker, m.home, m.key) && OneCopy(m) && Enabled(broker, m, e)
    ensures OneCopy(Do(broker, m, e))
  {
    OnlyCopy(m, e.c);
  }

  lemma StartsAsOneCopy(m: Message)
    requires m.copies == multiset{Copy(m.home, false)} && !m.acked
    ensures OneCopy(m)
  {
  }

  ghost predicate InCycle(m: Message, home: string, key: string) {
    OneCopy(m) && m.home == home && m.key == key
  }

  /** One step of a path keeps the message in its cycle. */
  lemma StepKeepsCycle(broker: Broker, states: seq<Message>, steps: seq<Step>, i: nat, home: string, key: string)
    requires IsPath(broker, states, steps) && i < |steps|
    requires Bounces(broker, home, key) && InCycle(states[i], home, key)
    ensures InCycle(states[i + 1], home, key)
  {
    var m, e := states[i], steps[i];
    assert Enabled(broker, m, e) && states[i + 1] == Do(broker, m, e);
    StepKeeps(broker, m, e);
  }

  lemma {:induction false} RunBounces(broker: Broker, states: seq<Message>, steps: seq<Step>, n: nat,
                                      home: string, key: string)
    requires IsPath(broker, states, steps) && n < |states|
    requires Bounces(broker, home, key) && InCycle(states[0], home, key)
    ensures InCycle(states[n], home, key)
  {
    if n > 0 {
      RunBounces(broker, states, steps, n - 1, home, key);
      StepKeepsCycle(broker, states, steps, n - 1, home, key);
    }
  }

  lemma {:induction false} RunKeeps(broker: Broker, states: seq<Message>, steps: seq<Step>, n: nat)
    requires OneWay(broker) && IsRun(broker, states, steps) && n < |states|
    requires Closes(broker, states[0].home, states[0].key)
    ensures OneCopy(states[n]) && states[n].home == states[0].home && states[n].key == states[0].key
  {
    var home, key := states[0].home, states[0].key;
    ClosedCycleBounces(broker, home, key);
    StartsAsOneCopy(states[0]);
    RunBounces(broker, states, steps, n, home, key);
  }

  ghost predicate AckedBefore(steps: seq<Step>, n: nat) {
    exists i :: 0 <= i < n && i < |steps| && steps[i].Settle? && steps[i].s == Ack
  }

  lemma {:induction false} AckedOnlyByAck(broker: Broker, states: seq<Message>, steps: seq<Step>, n: nat)
    requires IsRun(broker, states, steps) && n < |states|
    ensures states[n].acked <==> AckedBefore(steps, n)
  {
    if n > 0 {
      AckedOnlyByAck(broker, states, steps, n - 1);
      var m, e := states[n - 1], steps[n - 1];
      assert Enabled(broker, m, e) && states[n - 1 + 1] == Do(broker, m, e);
      assert Do(broker, m, e).acked <==> m.acked || (e.Settle? && e.s == Ack);
    }
  }

  /** A message leaves its cycle only by an ack, and until then exists as one copy, in its own queue or that
      queue's DLQ. */
  lemma Conservation(cfg: Config, apps: set<App>, app: App, states: seq<Message>, steps: seq<Step>, n: nat)
    requires ExchangesDistinct(cfg, apps) && NamesSeparate(apps) && app in apps
    requires IsRun(Shared(cfg, apps), states, steps) && n < |states| && Serves(app, states[0].home, states[0].key)
    ensures OneCopy(states[n]) && states[n].home == states[0].home
    ensures states[n].acked <==> AckedBefore(steps, n)
  {
    OneWayIffNamesSeparate(cfg, apps);
    CyclesClose(cfg, apps, app, states[0].home, states[0].key);
    RunKeeps(Shared(cfg, apps), states, steps, n);
    AckedOnlyByAck(Shared(cfg, apps), states, steps, n);
  }

  /** Where each step takes the one copy of a message in its cycle. */
  lemma StepMovesCopy(broker: Broker, m: Message, e: Step)
    requires Bounces(broker, m.home, m.key) && OneCopy(m) && Enabled(broker, m, e)
    ensures Do(broker, m, e).copies ==
            match e
            case Deliver(_) => multiset{Copy(m.home, true)}
            case Settle(_, Ack) => multiset{}
            case Settle(_, Nack(requeue)) => multiset{Copy(if requeue then m.home else Dlq(m.home), false)}
            case LoseConsumer(_) => multiset{Copy(m.home, false)}
            case Expire(_) => multiset{Copy(m.home, false)}
  {
    OnlyCopy(m, e.c);
  }

  lemma ExpiresHome(broker: Broker, m: Message)
    requires Bounces(broker, m.home, m.key) && m.copies == multiset{Copy(Dlq(m.home), false)}
    ensures
      var e := Expire(Copy(Dlq(m.home), false));
      Enabled(broker, m, e) && Do(broker, m, e).copies == multiset{Copy(m.home, false)}
  {
    var c := Copy(Dlq(m.home), false);
    assert c in m.copies && m.copies - multiset{c} == multiset{};
  }

  lemma IsDelivered(broker: Broker, m: Message)
    requires m.copies == multiset{Copy(m.home, false)}
    ensures
      var e := Deliver(Copy(m.home, false));
      Enabled(broker, m, e) && Do(broker, m, e).copies == multiset{Copy(m.home, true)}
  {
    var c := Copy(m.home, false);
    assert c in m.copies && m.copies - multiset{c} == multiset{};
  }

  lemma WayFromHome(broker: Broker, m: Message) returns (states: seq<Message>, steps: seq<Step>)
    requires m.copies == multiset{Copy(m.home, false)}
    ensures IsPath(broker, states, steps) && |steps| == 1 && states[0] == m
    ensures states[1].copies == multiset{Copy(m.home, true)}
  {
    var e := Deliver(Copy(m.home, false));
    IsDelivered(broker, m);
    states, steps := [m, Do(broker, m, e)], [e];
  }

  lemma WayBackToConsumer(broker: Broker, m: Message) returns (states: seq<Message>, steps: seq<Step>)
    requires Bounces(broker, m.home, m.key) && OneCopy(m) && !m.acked
    ensures IsPath(broker, states, steps) && states[0] == m
    ensures states[|steps|].copies == multiset{Copy(m.home, true)}
  {
    if m.copies == multiset{Copy(Dlq(m.home), false)} {
      var e := Expire(Copy(Dlq(m.home), false));
      ExpiresHome(broker, m);
      states, steps := WayFromHome(broker, Do(broker, m, e));
      states, steps := [m] + states, [e] + steps;
    } else if m.copies == multiset{Copy(m.home, false)} {
      states, steps := WayFromHome(broker, m);
    } else {
      states, steps := [m], [];
    }
  }

  /** A message that is not acked is never lost: at any point of any run, some continuation hands its one copy to
      the consumer of its own queue again. */
  lemma AlwaysRedeliverable(cfg: Config, apps: set<App>, app: App, states: seq<Message>, steps: seq<Step>, n: nat)
    returns (onward: seq<Message>, more: seq<Step>)
    requires ExchangesDistinct(cfg, apps) && NamesSeparate(apps) && app in apps
    requires IsRun(Shared(cfg, apps), states, steps) && n < |states| && Serves(app, states[0].home, states[0].key)
    requires !AckedBefore(steps, n)
    ensures IsPath(Shared(cfg, apps), onward, more) && onward[0] == states[n]
    ensures onward[|more|].copies == multiset{Copy(states[0].home, true)}
  {
    var broker := Shared(cfg, apps);
    Conservation(cfg, apps, app, states, steps, n);
    OneWayIffNamesSeparate(cfg, apps);
    CyclesClose(cfg, apps, app, states[0].home, states[0].key);
    ClosedCycleBounces(broker, states[0].home, states[0].key);
    RunKeeps(broker, states, steps, n);
    onward, more := WayBackToConsumer(broker, states[n]);
  }

  /** With the default exchange names the application names decide alone. */
  lemma DefaultsConserve(apps: set<App>, app: App, states: seq<Message>, steps: seq<Step>, n: nat)
    requires NamesSeparate(apps) && app in apps
    requires IsRun(Shared(DEFAULTS, apps), states, steps) && n < |states|
    requires Serves(app, states[0].home, states[0].key)
    ensures OneCopy(states[n]) && states[n].home == states[0].home
    ensures states[n].acked <==> AckedBefore(steps, n)
  {
    DefaultExchangesDistinct(apps);
    Conservation(DEFAULTS, apps, app, states, steps, n);
  }
}
