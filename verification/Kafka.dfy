/** Retry, dead-lettering and offset commits of the kafka event and command listeners
    (internal/kafka/eventlistener.go, commandlistener.go, loop.go). */
module Kafka {
  import opened Options

  // ----- backoff on 64-bit integers -----

  const MAX: int := 0x7FFF_FFFF_FFFF_FFFF

  predicate Int64(x: int) {
    -MAX - 1 <= x <= MAX
  }

  /** Two's-complement wrap-around of a 64-bit result. */
  function Wrap64(x: int): (r: int)
    ensures Int64(r)
    ensures Int64(x) ==> r == x
  {
    (x + MAX + 1) % (2 * MAX + 2) - MAX - 1
  }

  function Pow2(n: nat): (p: nat)
    ensures p >= 1
  {
    if n == 0 then 1 else 2 * Pow2(n - 1)
  }

  lemma {:induction false} Pow2Grows(m: nat, n: nat)
    requires m <= n
    ensures Pow2(m) <= Pow2(n)
    decreases n - m
  {
    if m < n {
      Pow2Grows(m, n - 1);
    }
  }

  lemma {:induction false} ScaleKeepsOrder(x: int, a: nat, b: nat)
    requires x > 0 && a <= b
    ensures x * a <= x * b
    decreases b - a
  {
    if a < b {
      ScaleKeepsOrder(x, a, b - 1);
      assert x * b == x * (b - 1) + x;
    }
  }

  lemma ScaledPow2Grows(initial: int, m: nat, n: nat)
    requires initial > 0 && m <= n
    ensures initial * Pow2(m) <= initial * Pow2(n)
  {
    Pow2Grows(m, n);
    ScaleKeepsOrder(initial, Pow2(m), Pow2(n));
  }

  lemma DoubleOnce(initial: int, n: nat)
    ensures initial * Pow2(n + 1) == 2 * (initial * Pow2(n))
  {
  }

  /** The delay the documentation promises, over unbounded integers. */
  function Delay(attempt: int, initial: int, maxDelay: int): int {
    if initial <= 0 then 0
    else
      var d := initial * Pow2(if attempt < 0 then 0 else attempt);
      if d > maxDelay then maxDelay else d
  }

  /** What that delay is, without powers: the first is the smaller of `initial` and the cap, each further one twice
      the one before up to the cap, and a negative attempt counts as the first. */
  lemma DelayLaw(attempt: nat, initial: int, maxDelay: int)
    requires initial > 0 && maxDelay >= 0
    ensures Delay(0, initial, maxDelay) == if initial > maxDelay then maxDelay else initial
    ensures
      var d := Delay(attempt, initial, maxDelay);
      Delay(attempt + 1, initial, maxDelay) == if 2 * d > maxDelay then maxDelay else 2 * d
    ensures forall a :: a < 0 ==> Delay(a, initial, maxDelay) == Delay(0, initial, maxDelay)
  {
    DoubleOnce(initial, attempt);
  }

  /** Looped doubling of a wrapping 64-bit value gives exactly the capped exponential. */
  method RetryBackoff(attempt: int, initial: int, maxDelay: int) returns (d: int)
    requires Int64(attempt) && Int64(initial) && Int64(maxDelay)
    ensures d == Delay(attempt, initial, maxDelay)
  {
    var attempt' := if attempt < 0 then 0 else attempt;
    if initial <= 0 {
      return 0;
    }
    d := initial;
    var i := 0;
    while i < attempt'
      invariant 0 <= i <= attempt'
      invariant d == initial * Pow2(i) && 0 < d <= MAX
    {
      DoubleOnce(initial, i);
      ScaledPow2Grows(initial, i + 1, attempt');
      d := Wrap64(d * 2);
      if d <= 0 || d >= maxDelay {
        return maxDelay;
      }
      i := i + 1;
    }
    if d > maxDelay {
      return maxDelay;
    }
  }

  // ----- one message -----

  /** `attempts` as configured, and the backoff bounds. */
  datatype Config = Config(maxRetryAttempts: int, initial: int, maxDelay: int)

  predicate ValidConfig(cfg: Config) {
    Int64(cfg.maxRetryAttempts) && Int64(cfg.initial) && Int64(cfg.maxDelay)
  }

  function Attempts(cfg: Config): (n: nat)
    ensures n >= 1 && n >= cfg.maxRetryAttempts && (n == 1 || n == cfg.maxRetryAttempts)
  {
    if cfg.maxRetryAttempts <= 0 then 1 else cfg.maxRetryAttempts
  }

  /** What the outside world does while one message is processed: does the envelope decode (and, for a command,
      carry a name), is there a handler, how does call `i` of the handler end, does the context end during the
      wait before call `i`, and do the dead-letter publish and the commit work. */
  datatype World = World(decodes: bool, hasHandler: bool, handled: nat -> bool, cancelled: nat -> bool,
                            dlqWorks: bool, commitWorks: bool)

  datatype Settlement =
    | Handled
    | DeadLettered(attempts: nat)
    | NoHandler
    | DlqFailed(attempts: nat)
    | Cancelled

  predicate Settles(s: Settlement) {
    s.Handled? || s.DeadLettered? || s.NoHandler?
  }

  /** `calls` handler invocations and the completed waits between them. */
  datatype Report = Report(settlement: Settlement, calls: nat, waits: seq<int>)

  /** The retry contract: call `i` happens only after all earlier ones failed and every wait before it ran out;
      exhaustion dead-letters with the number of calls made. */
  ghost predicate Retried(cfg: Config, w: World, r: Report) {
    && 1 <= r.calls <= Attempts(cfg)
    && (forall i :: 0 <= i < r.calls - 1 ==> !w.handled(i))
    && (forall i :: 1 <= i < r.calls ==> !w.cancelled(i))
    && r.waits == seq(r.calls - 1, i requires 0 <= i => Delay(i, cfg.initial, cfg.maxDelay))
    && (r.settlement == Handled <==> w.handled(r.calls - 1))
    && (r.settlement == Cancelled <==> !w.handled(r.calls - 1) && r.calls < Attempts(cfg))
    && (r.settlement == Cancelled ==> w.cancelled(r.calls))
    && (!r.settlement.Handled? && !r.settlement.Cancelled? ==>
          r.settlement == if w.dlqWorks then DeadLettered(r.calls) else DlqFailed(r.calls))
  }

  /** How a message must be dealt with. Only commands can lack a handler. */
  ghost predicate Processed(command: bool, cfg: Config, w: World, r: Report) {
    if !w.decodes then r == Report(if w.dlqWorks then DeadLettered(0) else DlqFailed(0), 0, [])
    else if command && !w.hasHandler then r == Report(NoHandler, 0, [])
    else Retried(cfg, w, r)
  }

  lemma ReportIsDetermined(command: bool, cfg: Config, w: World, r: Report, q: Report)
    requires Processed(command, cfg, w, r) && Processed(command, cfg, w, q)
    ensures r == q
  {
    if w.decodes && !(command && !w.hasHandler) {
      var handled, cancelled := w.handled(r.calls - 1), w.cancelled(r.calls);
      var handled', cancelled' := w.handled(q.calls - 1), w.cancelled(q.calls);
      assert r.calls < q.calls ==> !handled && !cancelled;
      assert q.calls < r.calls ==> !handled' && !cancelled';
    }
  }

  /** All attempts were made and failed. */
  ghost predicate Exhausted(cfg: Config, w: World, r: Report) {
    r.calls == Attempts(cfg) && forall i :: 0 <= i < r.calls ==> !w.handled(i)
  }

  /** What a settlement means: a message is settled iff a call handled it, a command had no handler, or it was
      published to the DLQ after a broken envelope or after all attempts; the DLQ is told the number of calls. */
  lemma SettlementMeans(command: bool, cfg: Config, w: World, r: Report)
    requires Processed(command, cfg, w, r)
    ensures Settles(r.settlement) <==>
            || (r.calls > 0 && w.handled(r.calls - 1))
            || (w.decodes && command && !w.hasHandler)
            || (w.dlqWorks && (!w.decodes || (r.calls > 0 && Exhausted(cfg, w, r))))
    ensures r.settlement.DeadLettered? || r.settlement.DlqFailed? ==> r.settlement.attempts == r.calls
    ensures r.settlement.DeadLettered? ==> w.dlqWorks
    ensures !w.decodes || (command && !w.hasHandler) ==> r.calls == 0
    ensures r.settlement == Cancelled ==> r.calls > 0 && w.cancelled(r.calls) && !w.handled(r.calls - 1)
  {
  }

  // ----- offsets of one partition -----

  /** `position` is the next offset to fetch, `committed` the watermark. `settled` are the offsets handled,
      dead-lettered or without a handler, ever; `holes` those left unsettled in the present session. */
  datatype Offsets = Offsets(position: nat, committed: nat, settled: set<nat>, holes: set<nat>)

  const BEGINNING: Offsets := Offsets(0, 0, {}, {})

  function Delivered(p: Offsets, s: Settlement, commitWorks: bool): Offsets {
    if Settles(s) then
      Offsets(p.position + 1, if commitWorks then p.position + 1 else p.committed, p.settled + {p.position}, p.holes)
    else
      p.(position := p.position + 1, holes := p.holes + {p.position})
  }

  /** A rebalance or a restart of the reader goes back to the watermark. */
  function Restarted(p: Offsets): Offsets {
    p.(position := p.committed, holes := {})
  }

  /** One fetch of the consumer loop. */
  datatype Fetch = Message(w: World) | FetchFails(contextEnded: bool)

  class Listener {
    const command: bool
    const cfg: Config
    var position: nat
    var committed: nat
    var settled: set<nat>
    var holes: set<nat>

    ghost function Snapshot(): Offsets
      reads this
    {
      Offsets(position, committed, settled, holes)
    }

    constructor (command: bool, cfg: Config)
      ensures Snapshot() == BEGINNING && this.command == command && this.cfg == cfg
    {
      this.command, this.cfg := command, cfg;
      position, committed, settled, holes := 0, 0, {}, {};
    }

    method Commit(offset: nat, works: bool)
      requires position == offset + 1
      modifies this
      ensures Snapshot() == old(Snapshot()).(settled := old(settled) + {offset},
                    committed := if works then offset + 1 else old(committed))
    {
      settled := settled + {offset};
      if works {
        committed := offset + 1;
      }
    }

    /** The retry loop of `processMessage`, up to the decision to commit. */
    method CallWithRetries(w: World) returns (r: Report)
      requires ValidConfig(cfg)
      ensures Retried(cfg, w, r)
    {
      var attempts := cfg.maxRetryAttempts;
      if attempts <= 0 {
        attempts := 1;
      }
      var waits: seq<int> := [];
      var attempt := 0;
      while attempt < attempts
        invariant 0 <= attempt <= attempts == Attempts(cfg)
        invariant forall i :: 0 <= i < attempt ==> !w.handled(i)
        invariant forall i :: 1 <= i < attempt ==> !w.cancelled(i)
        invariant waits ==
                  seq(if attempt == 0 then 0 else attempt - 1, i requires 0 <= i => Delay(i, cfg.initial, cfg.maxDelay))
      {
        if attempt > 0 {
          if w.cancelled(attempt) {
            return Report(Cancelled, attempt, waits);
          }
          var backoff := RetryBackoff(attempt - 1, cfg.initial, cfg.maxDelay);
          waits := waits + [backoff];
        }
        if w.handled(attempt) {
          return Report(Handled, attempt + 1, waits);
        }
        attempt := attempt + 1;
      }
      return Report(if w.dlqWorks then DeadLettered(attempts) else DlqFailed(attempts), attempts, waits);
    }

    method ProcessMessage(w: World) returns (r: Report)
      requires ValidConfig(cfg)
      modifies this
      ensures Processed(command, cfg, w, r)
      ensures Snapshot() == Delivered(old(Snapshot()), r.settlement, w.commitWorks)
    {
      var offset := position;
      position := position + 1;
      if !w.decodes {
        r := Report(if w.dlqWorks then DeadLettered(0) else DlqFailed(0), 0, []);
      } else if command && !w.hasHandler {
        r := Report(NoHandler, 0, []);
      } else {
        r := CallWithRetries(w);
      }
      if r.settlement.DlqFailed? || r.settlement.Cancelled? {
        holes := holes + {offset};
        return;
      }
      Commit(offset, w.commitWorks);
    }

    /** `consumerLoop.run` on a finite script of fetches: it ends with the script or at the first fetch that
        fails because the context ended. */
    method Run(script: seq<Fetch>) returns (reports: seq<Report>)
      requires ValidConfig(cfg)
      modifies this
      ensures AllProcessed(command, cfg, Worlds(Served(script)), reports)
      ensures Snapshot() == AfterAll(old(Snapshot()), reports, Worlds(Served(script)))
    {
      reports := [];
      ghost var start, worlds := Snapshot(), Worlds(script[..0]);
      for i := 0 to |script|
        invariant forall j :: 0 <= j < i ==> !EndsLoop(script[j])
        invariant worlds == Worlds(script[..i])
        invariant AllProcessed(command, cfg, worlds, reports)
        invariant Snapshot() == AfterAll(start, reports, worlds)
      {
        if EndsLoop(script[i]) {
          ServedUpTo(script, i);
          return;
        }
        WorldsNext(script, i);
        if script[i].Message? {
          var r := ProcessMessage(script[i].w);
          ProcessedSnoc(command, cfg, worlds, reports, script[i].w, r);
          AfterAllSnoc(start, reports, worlds, r, script[i].w);
          reports, worlds := reports + [r], worlds + [script[i].w];
        }
      }
      ServedAll(script);
      assert script[..|script|] == script;
    }
  }

  predicate EndsLoop(f: Fetch) {
    f.FetchFails? && f.contextEnded
  }

  ghost predicate AllProcessed(command: bool, cfg: Config, worlds: seq<World>, reports: seq<Report>) {
    |reports| == |worlds| && forall i :: 0 <= i < |reports| ==> Processed(command, cfg, worlds[i], reports[i])
  }

  lemma ProcessedSnoc(command: bool, cfg: Config, worlds: seq<World>, reports: seq<Report>, w: World, r: Report)
    requires AllProcessed(command, cfg, worlds, reports) && Processed(command, cfg, w, r)
    ensures AllProcessed(command, cfg, worlds + [w], reports + [r])
  {
    forall i | 0 <= i < |reports + [r]|
      ensures Processed(command, cfg, (worlds + [w])[i], (reports + [r])[i])
    {
      if i < |reports| {
        assert (worlds + [w])[i] == worlds[i] && (reports + [r])[i] == reports[i];
      }
    }
  }

  lemma WorldsNext(script: seq<Fetch>, i: nat)
    requires i < |script|
    ensures Worlds(script[..i + 1]) ==
              if script[i].Message? then Worlds(script[..i]) + [script[i].w] else Worlds(script[..i])
  {
    assert script[..i + 1][..i] == script[..i];
  }

  /** The fetches before the one that ends the loop. */
  function Served(script: seq<Fetch>): seq<Fetch> {
    if script == [] || EndsLoop(script[0]) then [] else [script[0]] + Served(script[1..])
  }

  function Worlds(script: seq<Fetch>): seq<World> {
    if script == [] then []
    else
      var last := script[|script| - 1];
      var before := Worlds(script[..|script| - 1]);
      if last.Message? then before + [last.w] else before
  }

  function AfterAll(p: Offsets, reports: seq<Report>, worlds: seq<World>): Offsets
    requires |reports| == |worlds|
  {
    if reports == [] then p
    else
      var n := |reports| - 1;
      Delivered(AfterAll(p, reports[..n], worlds[..n]), reports[n].settlement, worlds[n].commitWorks)
  }

  lemma AfterAllSnoc(p: Offsets, reports: seq<Report>, worlds: seq<World>, r: Report, w: World)
    requires |reports| == |worlds|
    ensures AfterAll(p, reports + [r], worlds + [w]) ==
              Delivered(AfterAll(p, reports, worlds), r.settlement, w.commitWorks)
  {
    assert (reports + [r])[..|reports|] == reports && (worlds + [w])[..|worlds|] == worlds;
  }

  lemma {:induction false} ServedUpTo(script: seq<Fetch>, i: nat)
    requires i < |script| && EndsLoop(script[i])
    requires forall j :: 0 <= j < i ==> !EndsLoop(script[j])
    ensures Served(script) == script[..i]
  {
    if i > 0 {
      ServedUpTo(script[1..], i - 1);
      assert script[..i] == [script[0]] + script[1..][..i - 1];
    }
  }

  lemma {:induction false} ServedAll(script: seq<Fetch>)
    requires forall j :: 0 <= j < |script| ==> !EndsLoop(script[j])
    ensures Served(script) == script
  {
    if script != [] {
      ServedAll(script[1..]);
    }
  }

  // ----- the watermark over every run -----

  datatype Event = Deliver(s: Settlement, commitWorks: bool) | Restart

  function Do(p: Offsets, e: Event): Offsets {
    match e
    case Deliver(s, commitWorks) => Delivered(p, s, commitWorks)
    case Restart => Restarted(p)
  }

  ghost predicate IsRun(states: seq<Offsets>, events: seq<Event>) {
    && |states| == |events| + 1
    && states[0] == BEGINNING
    && forall i {:trigger events[i]} :: 0 <= i < |events| ==> states[i + 1] == Do(states[i], events[i])
  }

  /** Everything below the watermark was handled, dead-lettered or had no handler. */
  ghost predicate Safe(p: Offsets) {
    forall o :: 0 <= o < p.committed ==> o in p.settled
  }

  /** A message of this session was left unsettled and has not been settled before either. */
  ghost predicate OpenHole(p: Offsets) {
    exists h :: h in p.holes && h !in p.settled
  }

  /** A successful commit while an earlier message of the session is unsettled. */
  ghost predicate Overruns(p: Offsets, e: Event) {
    e.Deliver? && Settles(e.s) && e.commitWorks && OpenHole(p)
  }

  ghost predicate Inv(p: Offsets) {
    && p.committed <= p.position
    && (forall o :: p.committed <= o < p.position ==> o in p.settled || o in p.holes)
    && (forall h :: h in p.holes ==> h < p.position)
  }

  lemma StepKeeps(p: Offsets, e: Event)
    requires Inv(p)
    ensures Inv(Do(p, e))
  {
  }

  /** One step loses the watermark's safety exactly when it commits over an open hole. */
  lemma SafeIffNotOverrun(p: Offsets, e: Event)
    requires Inv(p) && Safe(p)
    ensures Safe(Do(p, e)) <==> !Overruns(p, e)
  {
    var q := Do(p, e);
    if Overruns(p, e) {
      var h :| h in p.holes && h !in p.settled;
      assert 0 <= h < q.committed && h !in q.settled;
    } else if e.Deliver? && Settles(e.s) && e.commitWorks {
      forall o | 0 <= o < q.committed
        ensures o in q.settled
      {
        assert o in p.holes ==> o in p.settled;
      }
    }
  }

  lemma {:induction false} RunKeeps(states: seq<Offsets>, events: seq<Event>, n: nat)
    requires IsRun(states, events) && n < |states|
    ensures Inv(states[n])
  {
    if n > 0 {
      RunKeeps(states, events, n - 1);
      assert states[n - 1 + 1] == Do(states[n - 1], events[n - 1]);
      StepKeeps(states[n - 1], events[n - 1]);
    }
  }

  ghost predicate SafeThrough(states: seq<Offsets>, n: nat)
    requires n < |states|
  {
    forall i :: 0 <= i <= n ==> Safe(states[i])
  }

  ghost predicate NoOverrun(states: seq<Offsets>, events: seq<Event>, n: nat)
    requires n <= |events| < |states|
  {
    forall i :: 0 <= i < n ==> !Overruns(states[i], events[i])
  }

  /** A run is safe throughout exactly when no successful commit ever passes an unsettled message. */
  lemma {:induction false} WatermarkSafety(states: seq<Offsets>, events: seq<Event>, n: nat)
    requires IsRun(states, events) && n < |states|
    ensures SafeThrough(states, n) <==> NoOverrun(states, events, n)
  {
    if n > 0 {
      WatermarkSafety(states, events, n - 1);
      RunKeeps(states, events, n - 1);
      var p, e := states[n - 1], events[n - 1];
      assert states[n - 1 + 1] == Do(p, e);
      assert SafeThrough(states, n) <==> SafeThrough(states, n - 1) && Safe(Do(p, e));
      assert NoOverrun(states, events, n) <==> NoOverrun(states, events, n - 1) && !Overruns(p, e);
      if Safe(p) {
        SafeIffNotOverrun(p, e);
      }
    }
  }

  // ----- the watermark after one session of the loop -----

  /** Message `i` of a session that began at `p` was left unsettled and had not been settled before. */
  predicate LeftOpen(p: Offsets, reports: seq<Report>, i: nat)
    requires i < |reports|
  {
    !Settles(reports[i].settlement) && p.position + i !in p.settled
  }

  /** A commit worked after a message that was left open. */
  ghost predicate PassesOpen(p: Offsets, reports: seq<Report>, worlds: seq<World>)
    requires |reports| == |worlds|
  {
    exists i, j :: 0 <= i < j < |reports| && LeftOpen(p, reports, i)
          && Settles(reports[j].settlement) && worlds[j].commitWorks
  }

  lemma {:induction false} SessionOffsets(p: Offsets, reports: seq<Report>, worlds: seq<World>)
    requires |reports| == |worlds| && Inv(p) && p.holes == {}
    ensures
      var q := AfterAll(p, reports, worlds);
      && Inv(q) && q.position == p.position + |reports|
      && (forall o :: o in q.holes <==> p.position <= o < q.position && !Settles(reports[o - p.position].settlement))
      && (forall o :: o in q.settled <==>
            o in p.settled || (p.position <= o < q.position && Settles(reports[o - p.position].settlement)))
  {
    if reports != [] {
      var n := |reports| - 1;
      SessionOffsets(p, reports[..n], worlds[..n]);
    }
  }

  lemma {:induction false} OpenHoleWasLeft(p: Offsets, reports: seq<Report>, worlds: seq<World>) returns (i: nat)
    requires |reports| == |worlds| && Inv(p) && p.holes == {} && OpenHole(AfterAll(p, reports, worlds))
    ensures i < |reports| && LeftOpen(p, reports, i)
  {
    SessionOffsets(p, reports, worlds);
    var q := AfterAll(p, reports, worlds);
    var h :| h in q.holes && h !in q.settled;
    i := h - p.position;
  }

  lemma {:induction false} LeftIsOpenHole(p: Offsets, reports: seq<Report>, worlds: seq<World>, i: nat)
    requires |reports| == |worlds| && Inv(p) && p.holes == {} && i < |reports| && LeftOpen(p, reports, i)
    ensures OpenHole(AfterAll(p, reports, worlds))
  {
    SessionOffsets(p, reports, worlds);
    var q := AfterAll(p, reports, worlds);
    assert p.position + i in q.holes && p.position + i !in q.settled;
  }

  lemma {:induction false} OpenHoleIsLeftOpen(p: Offsets, reports: seq<Report>, worlds: seq<World>)
    requires |reports| == |worlds| && Inv(p) && p.holes == {}
    ensures OpenHole(AfterAll(p, reports, worlds)) <==> exists i :: 0 <= i < |reports| && LeftOpen(p, reports, i)
  {
    if OpenHole(AfterAll(p, reports, worlds)) {
      var i := OpenHoleWasLeft(p, reports, worlds);
    }
    if i :| 0 <= i < |reports| && LeftOpen(p, reports, i) {
      LeftIsOpenHole(p, reports, worlds, i);
    }
  }

  /** Message `i` was settled and its commit worked. */
  predicate Commits(reports: seq<Report>, worlds: seq<World>, i: nat)
    requires |reports| == |worlds| && i < |reports|
  {
    Settles(reports[i].settlement) && worlds[i].commitWorks
  }

  ghost predicate CommitsNothingFrom(reports: seq<Report>, worlds: seq<World>, i: nat)
    requires |reports| == |worlds|
  {
    forall j :: i <= j < |reports| ==> !Commits(reports, worlds, j)
  }

  lemma {:induction false} ShorterCommitsNothing(reports: seq<Report>, worlds: seq<World>, i: nat)
    requires |reports| == |worlds| > 0 && CommitsNothingFrom(reports, worlds, i)
    ensures CommitsNothingFrom(reports[..|reports| - 1], worlds[..|worlds| - 1], i)
  {
    var n := |reports| - 1;
    forall j | i <= j < n
      ensures !Commits(reports[..n], worlds[..n], j)
    {
      assert !Commits(reports, worlds, j);
    }
  }

  /** A session none of whose commits worked leaves the watermark where it was. */
  lemma {:induction false} WatermarkStays(p: Offsets, reports: seq<Report>, worlds: seq<World>)
    requires |reports| == |worlds| && CommitsNothingFrom(reports, worlds, 0)
    ensures AfterAll(p, reports, worlds).committed == p.committed
  {
    if reports != [] {
      var n := |reports| - 1;
      ShorterCommitsNothing(reports, worlds, 0);
      WatermarkStays(p, reports[..n], worlds[..n]);
      assert !Commits(reports, worlds, n);
    }
  }

  lemma {:induction false} PositionAdvances(p: Offsets, reports: seq<Report>, worlds: seq<World>)
    requires |reports| == |worlds|
    ensures AfterAll(p, reports, worlds).position == p.position + |reports|
  {
    if reports != [] {
      var n := |reports| - 1;
      PositionAdvances(p, reports[..n], worlds[..n]);
    }
  }

  /** After any other session the watermark is right behind the last message whose commit worked. */
  lemma {:induction false} WatermarkFollowsCommits(p: Offsets, reports: seq<Report>, worlds: seq<World>, i: nat)
    requires |reports| == |worlds| && i < |reports| && Commits(reports, worlds, i)
    requires CommitsNothingFrom(reports, worlds, i + 1)
    ensures AfterAll(p, reports, worlds).committed == p.position + i + 1
  {
    var n := |reports| - 1;
    PositionAdvances(p, reports[..n], worlds[..n]);
    if i < n {
      assert !Commits(reports, worlds, n);
      assert Commits(reports[..n], worlds[..n], i);
      ShorterCommitsNothing(reports, worlds, i + 1);
      WatermarkFollowsCommits(p, reports[..n], worlds[..n], i);
    }
  }

  /** At least once: in a safe state every offset that was fetched and never settled is at or above the offset a
      restarted reader resumes at, so it is fetched again. */
  lemma NothingIsSkipped(p: Offsets, o: nat)
    requires Inv(p) && Safe(p) && o < p.position && o !in p.settled
    ensures Restarted(p).position <= o && o !in Restarted(p).settled
  {
  }

  lemma {:induction false} UnsafeStays(p: Offsets, s: Settlement, commitWorks: bool)
    requires Inv(p) && !Safe(p)
    ensures !Safe(Delivered(p, s, commitWorks))
  {
    var o :| 0 <= o < p.committed && o !in p.settled;
    assert o !in Delivered(p, s, commitWorks).settled;
  }

  lemma {:induction false} PassesOpenSnoc(p: Offsets, reports: seq<Report>, worlds: seq<World>, n: nat)
    requires |reports| == |worlds| == n + 1
    ensures PassesOpen(p, reports, worlds) <==>
            || PassesOpen(p, reports[..n], worlds[..n])
            || (Settles(reports[n].settlement) && worlds[n].commitWorks
                && exists i :: 0 <= i < n && LeftOpen(p, reports[..n], i))
  {
    assert forall i :: 0 <= i < n ==> (LeftOpen(p, reports[..n], i) <==> LeftOpen(p, reports, i));
  }

  /** A session of the loop that begins at a safe watermark ends safely exactly when no commit worked after a
      message that was left open. */
  lemma {:induction false} SessionSafety(p: Offsets, reports: seq<Report>, worlds: seq<World>)
    requires |reports| == |worlds| && Inv(p) && Safe(p) && p.holes == {}
    ensures Safe(AfterAll(p, reports, worlds)) <==> !PassesOpen(p, reports, worlds)
  {
    if reports != [] {
      var n := |reports| - 1;
      var q := AfterAll(p, reports[..n], worlds[..n]);
      SessionSafety(p, reports[..n], worlds[..n]);
      SessionOffsets(p, reports[..n], worlds[..n]);
      OpenHoleIsLeftOpen(p, reports[..n], worlds[..n]);
      PassesOpenSnoc(p, reports, worlds, n);
      if Safe(q) {
        SafeIffNotOverrun(q, Deliver(reports[n].settlement, worlds[n].commitWorks));
      } else {
        UnsafeStays(q, reports[n].settlement, worlds[n].commitWorks);
      }
    }
  }

  /** The discipline under which the loop is safe: after a failed dead-letter publish or a cancellation nothing
      more is fetched until the reader restarts. */
  ghost predicate Disciplined(states: seq<Offsets>, events: seq<Event>) {
    |states| == |events| + 1 && forall i :: 0 <= i < |events| && events[i].Deliver? ==> states[i].holes == {}
  }

  lemma DisciplinedRunIsSafe(states: seq<Offsets>, events: seq<Event>, n: nat)
    requires IsRun(states, events) && Disciplined(states, events) && n < |states|
    ensures Safe(states[n])
  {
    WatermarkSafety(states, events, n);
  }

  /** Without it: the envelope at offset 0 does not decode and its dead-letter publish fails, the loop fetches
      on, and the commit of offset 1 passes it. So it goes for either listener and every configuration. */
  lemma FetchingOnLosesOffsetZero(command: bool, cfg: Config, reports: seq<Report>) returns (script: seq<Fetch>)
    ensures script == [Message(UNDECODABLE), Message(FINE)] && Served(script) == script
    ensures AllProcessed(command, cfg, Worlds(script), reports) ==> !Safe(AfterAll(BEGINNING, reports, Worlds(script)))
  {
    script := [Message(UNDECODABLE), Message(FINE)];
    ServedAll(script);
    var first := [Message(UNDECODABLE)];
    assert first[..0] == [] && script[..1] == first;
    assert Worlds(first) == [UNDECODABLE];
    var worlds := Worlds(script);
    assert worlds == Worlds(first) + [FINE];
    if AllProcessed(command, cfg, worlds, reports) {
      assert Processed(command, cfg, worlds[0], reports[0]) && Processed(command, cfg, worlds[1], reports[1]);
      assert FINE.handled(reports[1].calls - 1);
      assert LeftOpen(BEGINNING, reports, 0);
      assert PassesOpen(BEGINNING, reports, worlds);
      SessionSafety(BEGINNING, reports, worlds);
    }
  }

  const UNDECODABLE: World := World(false, true, _ => true, _ => false, false, true)

  const FINE: World := World(true, true, _ => true, _ => false, true, true)
}
