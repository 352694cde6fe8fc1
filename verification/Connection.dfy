/** The connection object of internal/rabbit/connection.go and the bodies of its lock-protected sections. */
module ConnectionCore {
  import opened Options

  datatype Health = Idle | Connected | Reconnecting | Stopped

  datatype Core = Core(stopped: bool, conn: Option<nat>, health: Health)

  const FRESH: Core := Core(false, None, Idle)

  /** `setHealth`: stopped is terminal. */
  function WithHealth(c: Core, health: Health): Core {
    if c.health == Stopped then c else c.(health := health)
  }

  /** The section of `Dial` that installs a fresh connection unless the object was stopped meanwhile. */
  function Stored(c: Core, x: nat): Core {
    if c.stopped then c else c.(conn := Some(x))
  }

  class Connection {
    var stopped: bool
    var conn: Option<nat>
    var health: Health

    function Snapshot(): Core
      reads this
    {
      Core(stopped, conn, health)
    }

    constructor ()
      ensures Snapshot() == FRESH
    {
      stopped, conn, health := false, None, Idle;
    }

    method SetHealth(next: Health)
      modifies this
      ensures Snapshot() == WithHealth(old(Snapshot()), next)
      ensures old(health) == Stopped ==> health == Stopped
    {
      if health == Stopped && next != Stopped {
        return;
      }
      if health != next {
        health := next;
      }
    }

    method StoreUnlessStopped(x: nat) returns (stored: bool)
      modifies this
      ensures Snapshot() == Stored(old(Snapshot()), x)
      ensures stored == !old(stopped)
    {
      if stopped {
        return false;
      }
      conn := Some(x);
      return true;
    }

    method Store(x: nat)
      modifies this
      ensures Snapshot() == old(Snapshot()).(conn := Some(x))
    {
      conn := Some(x);
    }

    /** The section of a cancelled `DialContext` that takes whatever connection was stored. */
    method TakeConn() returns (taken: Option<nat>)
      modifies this
      ensures Snapshot() == old(Snapshot()).(conn := None)
      ensures taken == old(conn)
    {
      taken := conn;
      conn := None;
    }

    method Stop()
      modifies this
      ensures Snapshot() == old(Snapshot()).(stopped := true)
    {
      stopped := true;
    }
  }
}

/** Every interleaving of `Dial`, cancelled `DialContext` calls, `Close` calls, close watchers and reconnect loops
    on one connection object. Connections may die at any time; any number of `Close` and cancel calls may run.

    Assumed: a new `Dial` starts only when no goroutine is dialling, watching or redialling (the application
    dials each connection object once), and closing a connection leaves it closed. */
module ConnectionRuns {
  import opened Options
  import opened ConnectionCore

  datatype Pc =
    | Dialing | DialGot(x: nat) | DialStored(x: nat) | DialReady(x: nat)
    | Discarding(x: nat, report: bool) | ReportStopped
    | CancelTake | CancelClosing(c: Option<nat>)
    | CloseReport | CloseRead | Closing(c: Option<nat>)
    | WatchStart(spawnedFor: nat) | Watching(spawnedFor: nat, x: nat) | Lost
    | LoopCheck | LoopSleep | LoopDialing | LoopGot(x: nat)
    | LoopStored(x: nat) | LoopReport(x: nat) | LoopReady(x: nat)
    | Finished

  /** `open` are the connections established and not yet closed; `used` those ever established. */
  datatype State = State(core: Core, open: set<nat>, used: set<nat>, threads: map<nat, Pc>)

  const START: State := State(FRESH, {}, {}, map[])

  datatype Event =
    | BeginDial(t: nat) | DialFails(t: nat) | DialConnects(t: nat, x: nat) | DialStore(t: nat) | DialReport(t: nat)
    | Spawn(t: nat, w: nat)
    | Discard(t: nat) | Report(t: nat)
    | BeginCancel(t: nat) | Take(t: nat) | CancelClose(t: nat)
    | BeginClose(t: nat) | ReportClose(t: nat) | Read(t: nat) | CloseIt(t: nat)
    | WatchRead(t: nat) | SeeClosed(t: nat, err: bool) | ReportLost(t: nat)
    | Check(t: nat) | Wake(t: nat) | LoopFails(t: nat) | LoopConnects(t: nat, x: nat) | LoopStore(t: nat)
    | SecondCheck(t: nat) | ReportLoop(t: nat)
    | Die(x: nat)

  /** Dialling, watching or redialling. */
  predicate Active(p: Pc) {
    || p.Dialing? || p.DialGot? || p.DialStored? || p.DialReady?
    || p.WatchStart? || p.Watching? || p.Lost?
    || p.LoopCheck? || p.LoopSleep? || p.LoopDialing? || p.LoopGot? || p.LoopStored? || p.LoopReport? || p.LoopReady?
  }

  predicate SomeoneActive(threads: map<nat, Pc>) {
    exists t | t in threads :: Active(threads[t])
  }

  predicate Enabled(s: State, e: Event) {
    match e
    case BeginDial(t) => t !in s.threads && !SomeoneActive(s.threads)
    case DialFails(t) => t in s.threads && s.threads[t].Dialing?
    case DialConnects(t, x) => t in s.threads && s.threads[t].Dialing? && x !in s.used
    case DialStore(t) => t in s.threads && s.threads[t].DialGot?
    case DialReport(t) => t in s.threads && s.threads[t].DialStored?
    case Spawn(t, w) => t in s.threads && (s.threads[t].DialReady? || s.threads[t].LoopReady?) && w !in s.threads
    case Discard(t) => t in s.threads && s.threads[t].Discarding?
    case Report(t) => t in s.threads && s.threads[t].ReportStopped?
    case BeginCancel(t) => t !in s.threads
    case Take(t) => t in s.threads && s.threads[t].CancelTake?
    case CancelClose(t) => t in s.threads && s.threads[t].CancelClosing?
    case BeginClose(t) => t !in s.threads
    case ReportClose(t) => t in s.threads && s.threads[t].CloseReport?
    case Read(t) => t in s.threads && s.threads[t].CloseRead?
    case CloseIt(t) => t in s.threads && s.threads[t].Closing?
    case WatchRead(t) => t in s.threads && s.threads[t].WatchStart?
    case SeeClosed(t, _) => t in s.threads && s.threads[t].Watching? && s.threads[t].x !in s.open
    case ReportLost(t) => t in s.threads && s.threads[t].Lost?
    case Check(t) => t in s.threads && s.threads[t].LoopCheck?
    case Wake(t) => t in s.threads && s.threads[t].LoopSleep?
    case LoopFails(t) => t in s.threads && s.threads[t].LoopDialing?
    case LoopConnects(t, x) => t in s.threads && s.threads[t].LoopDialing? && x !in s.used
    case LoopStore(t) => t in s.threads && s.threads[t].LoopGot?
    case SecondCheck(t) => t in s.threads && s.threads[t].LoopStored?
    case ReportLoop(t) => t in s.threads && s.threads[t].LoopReport?
    case Die(_) => true
  }

  function To(s: State, t: nat, p: Pc): State {
    s.(threads := s.threads[t := p])
  }

  function Health(s: State, h: ConnectionCore.Health): State {
    s.(core := WithHealth(s.core, h))
  }

  function Established(s: State, x: nat): State {
    s.(open := s.open + {x}, used := s.used + {x})
  }

  function Shut(s: State, c: Option<nat>): State {
    if c.Some? then s.(open := s.open - {c.value}) else s
  }

  function Do(s: State, e: Event): State
    requires Enabled(s, e)
  {
    match e
    case BeginDial(t) => To(s, t, if s.core.stopped then Finished else Dialing)
    case DialFails(t) => Health(To(s, t, Finished), Idle)
    case DialConnects(t, x) => Established(To(s, t, DialGot(x)), x)
    case DialStore(t) =>
      var x := s.threads[t].x;
      To(s, t, if s.core.stopped then Discarding(x, true) else DialStored(x)).(core := Stored(s.core, x))
    case DialReport(t) => Health(To(s, t, DialReady(s.threads[t].x)), Connected)
    case Spawn(t, w) => To(To(s, t, Finished), w, WatchStart(s.threads[t].x))
    case Discard(t) => Shut(To(s, t, if s.threads[t].report then ReportStopped else Finished), Some(s.threads[t].x))
    case Report(t) => Health(To(s, t, Finished), Stopped)
    case BeginCancel(t) => To(s, t, CancelTake).(core := s.core.(stopped := true))
    case Take(t) => To(s, t, CancelClosing(s.core.conn)).(core := s.core.(conn := None))
    case CancelClose(t) => Shut(To(s, t, ReportStopped), s.threads[t].c)
    case BeginClose(t) => To(s, t, CloseReport).(core := s.core.(stopped := true))
    case ReportClose(t) => Health(To(s, t, CloseRead), Stopped)
    case Read(t) => To(s, t, Closing(s.core.conn))
    case CloseIt(t) => Shut(To(s, t, Finished), s.threads[t].c)
    case WatchRead(t) =>
      To(s, t, if s.core.conn.Some? then Watching(s.threads[t].spawnedFor, s.core.conn.value) else Finished)
    case SeeClosed(t, err) => To(s, t, if !err && s.core.stopped then Finished else Lost)
    case ReportLost(t) => Health(To(s, t, LoopCheck), Reconnecting)
    case Check(t) => To(s, t, if s.core.stopped then Finished else LoopSleep)
    case Wake(t) => To(s, t, if s.core.stopped then Finished else LoopDialing)
    case LoopFails(t) => Health(To(s, t, LoopCheck), Reconnecting)
    case LoopConnects(t, x) => Established(To(s, t, LoopGot(x)), x)
    case LoopStore(t) => To(s, t, LoopStored(s.threads[t].x)).(core := s.core.(conn := Some(s.threads[t].x)))
    case SecondCheck(t) =>
      To(s, t, if s.core.stopped then Discarding(s.threads[t].x, false) else LoopReport(s.threads[t].x))
    case ReportLoop(t) => Health(To(s, t, LoopReady(s.threads[t].x)), Connected)
    case Die(x) => s.(open := s.open - {x})
  }

  ghost predicate IsPath(states: seq<State>, events: seq<Event>) {
    && |states| == |events| + 1
    && forall i {:trigger events[i]} :: 0 <= i < |events| ==>
         Enabled(states[i], events[i]) && states[i + 1] == Do(states[i], events[i])
  }

  ghost predicate IsRun(states: seq<State>, events: seq<Event>) {
    IsPath(states, events) && states[0] == START
  }

  /** `s` is the last state of some run. */
  ghost predicate Reachable(s: State) {
    exists states, events :: IsRun(states, events) && states[|events|] == s
  }

  // ----- the invariant -----

  ghost predicate OneActive(threads: map<nat, Pc>) {
    forall t, u :: t in threads && u in threads && Active(threads[t]) && Active(threads[u]) ==> t == u
  }

  /** The connection a goroutine is about to store, has just stored or has to close. */
  predicate Holds(p: Pc, x: nat) {
    || ((p.DialGot? || p.LoopGot? || p.LoopStored? || p.Discarding?) && p.x == x)
    || ((p.CancelClosing? || p.Closing?) && p.c == Some(x))
  }

  /** Will still look at the stored connection in order to close it. */
  predicate WillLook(p: Pc) {
    p.CancelTake? || p.CloseReport? || p.CloseRead?
  }

  predicate Held(threads: map<nat, Pc>, x: nat) {
    exists t | t in threads :: Holds(threads[t], x)
  }

  predicate Looked(threads: map<nat, Pc>) {
    exists t | t in threads :: WillLook(threads[t])
  }

  /** An open connection is in some goroutine's hands, or it is the stored one; after stop, somebody will still
      come and close the stored one. */
  ghost predicate AccountInv(core: Core, open: set<nat>, threads: map<nat, Pc>) {
    forall x :: x in open ==> Held(threads, x) || (core.conn == Some(x) && (core.stopped ==> Looked(threads)))
  }

  /** Established its connection, so the stored one is that or was taken by a cancelled dial. */
  predicate Installed(p: Pc, x: nat) {
    || ((p.DialStored? || p.DialReady? || p.LoopStored? || p.LoopReport? || p.LoopReady?) && p.x == x)
    || ((p.WatchStart? || p.Watching?) && p.spawnedFor == x)
  }

  /** Has seen its connection closed and not stored another. */
  predicate Redialling(p: Pc) {
    p.Lost? || p.LoopCheck? || p.LoopSleep? || p.LoopDialing? || p.LoopGot?
  }

  predicate StoredClosed(core: Core, open: set<nat>) {
    core.conn.Some? ==> core.conn.value !in open
  }

  ghost predicate StoredInv(core: Core, open: set<nat>, threads: map<nat, Pc>) {
    && (forall t, x: nat :: t in threads && Installed(threads[t], x) ==>
          core.conn == Some(x) || (core.conn == None && core.stopped))
    && (forall t :: t in threads && threads[t].Watching? ==> threads[t].x == threads[t].spawnedFor)
    && (forall t :: t in threads && Redialling(threads[t]) ==> StoredClosed(core, open))
    && (forall t :: t in threads && (threads[t].Dialing? || threads[t].DialGot?) && !core.stopped ==>
          StoredClosed(core, open))
    && (!SomeoneActive(threads) && !core.stopped ==> StoredClosed(core, open))
  }

  predicate WillReport(p: Pc) {
    p.CancelTake? || p.CancelClosing? || p.ReportStopped? || p.CloseReport?
  }

  predicate Reported(threads: map<nat, Pc>) {
    exists t | t in threads :: WillReport(threads[t])
  }

  /** Reached only once the stop flag is set. */
  predicate AfterStop(p: Pc) {
    WillReport(p) || WillLook(p) || p.Discarding? || p.Closing?
  }

  ghost predicate HealthInv(core: Core, threads: map<nat, Pc>) {
    && (core.stopped ==> core.health == Stopped || Reported(threads))
    && (core.health == Stopped ==> core.stopped)
    && (forall t :: t in threads && AfterStop(threads[t]) ==> core.stopped)
  }

  ghost predicate UsedInv(s: State) {
    && s.open <= s.used
    && (s.core.conn.Some? ==> s.core.conn.value in s.used)
    && (forall t :: t in s.threads && (s.threads[t].DialGot? || s.threads[t].LoopGot?) ==> s.threads[t].x in s.used)
  }

  ghost predicate Inv(s: State) {
    && OneActive(s.threads)
    && AccountInv(s.core, s.open, s.threads)
    && StoredInv(s.core, s.open, s.threads)
    && HealthInv(s.core, s.threads)
    && UsedInv(s)
  }

  // ----- every event keeps it -----

  /** What survives when one goroutine `t` moves to `q`. */
  lemma Frame(threads: map<nat, Pc>, t: nat, q: Pc)
    ensures
      var after := threads[t := q];
      && (forall x: nat :: Held(threads, x) ==> Held(after, x) || (t in threads && Holds(threads[t], x)))
      && (forall x: nat :: Holds(q, x) ==> Held(after, x))
      && (Looked(threads) ==> Looked(after) || (t in threads && WillLook(threads[t])))
      && (WillLook(q) ==> Looked(after))
      && (Reported(threads) ==> Reported(after) || (t in threads && WillReport(threads[t])))
      && (WillReport(q) ==> Reported(after))
      && (SomeoneActive(threads) ==> SomeoneActive(after) || (t in threads && Active(threads[t])))
      && (Active(q) ==> SomeoneActive(after))
  {
    var after := threads[t := q];
    assert after[t] == q;
    forall x: nat | Held(threads, x)
      ensures Held(after, x) || (t in threads && Holds(threads[t], x))
    {
      var u :| u in threads && Holds(threads[u], x);
      assert u != t ==> Holds(after[u], x);
    }
    if Looked(threads) {
      var u :| u in threads && WillLook(threads[u]);
      assert u != t ==> WillLook(after[u]);
    }
    if Reported(threads) {
      var u :| u in threads && WillReport(threads[u]);
      assert u != t ==> WillReport(after[u]);
    }
    if SomeoneActive(threads) {
      var u :| u in threads && Active(threads[u]);
      assert u != t ==> Active(after[u]);
    }
  }

  function PcOf(s: State, t: nat): Pc {
    if t in s.threads then s.threads[t] else Finished
  }

  /** A step of one goroutine that leaves the stop flag and the stored connection alone. */
  function Moved(s: State, t: nat, q: Pc, health: Option<ConnectionCore.Health>, open: set<nat>, used: set<nat>): State
  {
    State(if health.Some? then WithHealth(s.core, health.value) else s.core, open, used, s.threads[t := q])
  }

  ghost predicate MayMove(s: State, t: nat, q: Pc, health: Option<ConnectionCore.Health>, open: set<nat>,
                          used: set<nat>)
  {
    && MayAccount(s, t, q, open)
    && MayStore(s, t, q, open)
    && MayReport(s, t, q, health)
    && s.used <= used && open <= used
    && (q.DialGot? || q.LoopGot? ==> q.x in used)
  }

  /** Whatever `t` held or was to look after, it still does, or somebody else does. */
  ghost predicate MayAccount(s: State, t: nat, q: Pc, open: set<nat>) {
    var p := PcOf(s, t);
    && (forall x :: x in open && x !in s.open ==> x !in s.used && Holds(q, x))
    && (forall x: nat :: x in open && Holds(p, x) ==> Holds(q, x) || (s.core.conn == Some(x) && !s.core.stopped))
    && (WillLook(p) ==> WillLook(q) || q == Closing(s.core.conn))
  }

  ghost predicate MayStore(s: State, t: nat, q: Pc, open: set<nat>) {
    var p := PcOf(s, t);
    && (Active(q) ==> Active(p) || (q.Dialing? && !SomeoneActive(s.threads)))
    && (Active(p) && !Active(q) ==> s.core.stopped || StoredClosed(s.core, open))
    && (forall x: nat :: Installed(q, x) ==> s.core.conn == Some(x) || (s.core.conn == None && s.core.stopped))
    && (q.Watching? ==> q.x == q.spawnedFor)
    && (Redialling(q) ==> StoredClosed(s.core, open))
    && ((q.Dialing? || q.DialGot?) && !s.core.stopped ==> StoredClosed(s.core, open))
  }

  predicate MayReport(s: State, t: nat, q: Pc, health: Option<ConnectionCore.Health>) {
    && (AfterStop(q) ==> s.core.stopped)
    && (WillReport(PcOf(s, t)) ==> WillReport(q) || health == Some(Stopped))
    && (health == Some(Stopped) ==> s.core.stopped)
  }

  lemma MoveAccounts(s: State, t: nat, q: Pc, open: set<nat>)
    requires AccountInv(s.core, s.open, s.threads) && MayAccount(s, t, q, open)
    ensures AccountInv(s.core, open, s.threads[t := q])
  {
    Frame(s.threads, t, q);
  }

  lemma MoveStores(s: State, t: nat, q: Pc, open: set<nat>)
    requires OneActive(s.threads) && StoredInv(s.core, s.open, s.threads) && UsedInv(s) && MayStore(s, t, q, open)
    requires forall x :: x in open && x !in s.open ==> x !in s.used
    ensures OneActive(s.threads[t := q]) && StoredInv(s.core, open, s.threads[t := q])
  {
    Frame(s.threads, t, q);
  }

  lemma MoveReports(s: State, t: nat, q: Pc, health: Option<ConnectionCore.Health>)
    requires HealthInv(s.core, s.threads) && MayReport(s, t, q, health)
    ensures HealthInv(if health.Some? then WithHealth(s.core, health.value) else s.core, s.threads[t := q])
  {
    Frame(s.threads, t, q);
  }

  /** Health plays no part in what is open and what is stored. */
  lemma HealthIsApart(core: Core, health: ConnectionCore.Health, open: set<nat>, threads: map<nat, Pc>)
    ensures AccountInv(core, open, threads) ==> AccountInv(WithHealth(core, health), open, threads)
    ensures StoredInv(core, open, threads) ==> StoredInv(WithHealth(core, health), open, threads)
  {
  }

  lemma MoveKeeps(s: State, t: nat, q: Pc, health: Option<ConnectionCore.Health>, open: set<nat>, used: set<nat>)
    requires Inv(s) && MayMove(s, t, q, health, open, used)
    ensures Inv(Moved(s, t, q, health, open, used))
  {
    MoveAccounts(s, t, q, open);
    MoveStores(s, t, q, open);
    MoveReports(s, t, q, health);
    if health.Some? {
      HealthIsApart(s.core, health.value, open, s.threads[t := q]);
    }
  }

  /** A step of the reconnect loop with no connection in hand. */
  lemma LoopMoveKeeps(s: State, t: nat, q: Pc, health: Option<ConnectionCore.Health>)
    requires Inv(s) && t in s.threads && Redialling(s.threads[t]) && !s.threads[t].LoopGot?
    requires (Redialling(q) && !q.LoopGot?) || (q.Finished? && s.core.stopped)
    requires health.None? || health == Some(Reconnecting)
    ensures Inv(Moved(s, t, q, health, s.open, s.used))
  {
    MoveKeeps(s, t, q, health, s.open, s.used);
  }

  lemma StoreKeeps(s: State, t: nat, x: nat, q: Pc)
    requires Inv(s) && t in s.threads && x in s.used
    requires (s.threads[t] == DialGot(x) && q == DialStored(x) && !s.core.stopped)
             || (s.threads[t] == LoopGot(x) && q == LoopStored(x))
    ensures Inv(To(s, t, q).(core := s.core.(conn := Some(x))))
  {
    var n := To(s, t, q).(core := s.core.(conn := Some(x)));
    Frame(s.threads, t, q);
    assert StoredClosed(s.core, s.open);
    assert AccountInv(n.core, n.open, n.threads);
    assert StoredInv(n.core, n.open, n.threads);
  }

  lemma StopKeeps(s: State, t: nat, q: Pc)
    requires Inv(s) && t !in s.threads && (q == CancelTake || q == CloseReport)
    ensures Inv(To(s, t, q).(core := s.core.(stopped := true)))
  {
    Frame(s.threads, t, q);
  }

  lemma TakeKeeps(s: State, t: nat)
    requires Inv(s) && t in s.threads && s.threads[t].CancelTake?
    ensures Inv(To(s, t, CancelClosing(s.core.conn)).(core := s.core.(conn := None)))
  {
    Frame(s.threads, t, CancelClosing(s.core.conn));
  }

  /** The stored connection is the one the goroutine established, or a cancelled dial has taken it. */
  lemma StoredIsOwn(s: State, t: nat, x: nat)
    requires StoredInv(s.core, s.open, s.threads) && t in s.threads && Installed(s.threads[t], x)
    ensures s.core.conn == Some(x) || (s.core.conn == None && s.core.stopped)
  {
  }

  lemma SpawnAccounts(s: State, t: nat, w: nat, x: nat)
    requires AccountInv(s.core, s.open, s.threads) && HealthInv(s.core, s.threads) && t in s.threads && w !in s.threads
    requires s.threads[t] == DialReady(x) || s.threads[t] == LoopReady(x)
    ensures
      var threads := s.threads[t := Finished][w := WatchStart(x)];
      AccountInv(s.core, s.open, threads) && HealthInv(s.core, threads)
  {
    Frame(s.threads, t, Finished);
    Frame(s.threads[t := Finished], w, WatchStart(x));
  }

  lemma SpawnStores(s: State, t: nat, w: nat, x: nat)
    requires OneActive(s.threads) && StoredInv(s.core, s.open, s.threads) && t in s.threads && w !in s.threads
    requires s.threads[t] == DialReady(x) || s.threads[t] == LoopReady(x)
    ensures
      var threads := s.threads[t := Finished][w := WatchStart(x)];
      OneActive(threads) && StoredInv(s.core, s.open, threads)
  {
    StoredIsOwn(s, t, x);
    Frame(s.threads[t := Finished], w, WatchStart(x));
  }

  lemma SpawnKeeps(s: State, t: nat, w: nat)
    requires Inv(s) && Enabled(s, Spawn(t, w))
    ensures Inv(Do(s, Spawn(t, w)))
  {
    SpawnAccounts(s, t, w, s.threads[t].x);
    SpawnStores(s, t, w, s.threads[t].x);
  }

  lemma DieKeeps(s: State, x: nat)
    requires Inv(s)
    ensures Inv(s.(open := s.open - {x}))
  {
  }

  lemma DialStepKeeps(s: State, e: Event)
    requires Inv(s) && Enabled(s, e) && (e.BeginDial? || e.DialFails? || e.DialConnects?)
    ensures Inv(Do(s, e))
  {
    match e
    case BeginDial(t) => MoveKeeps(s, t, if s.core.stopped then Finished else Dialing, None, s.open, s.used);
    case DialFails(t) => MoveKeeps(s, t, Finished, Some(Idle), s.open, s.used);
    case DialConnects(t, x) => MoveKeeps(s, t, DialGot(x), None, s.open + {x}, s.used + {x});
  }

  lemma DialStoreStepKeeps(s: State, e: Event)
    requires Inv(s) && Enabled(s, e) && (e.DialStore? || e.DialReport?)
    ensures Inv(Do(s, e))
  {
    var x := s.threads[e.t].x;
    match e
    case DialStore(t) =>
      if s.core.stopped {
        MoveKeeps(s, t, Discarding(x, true), None, s.open, s.used);
      } else {
        StoreKeeps(s, t, x, DialStored(x));
      }
    case DialReport(t) =>
      StoredIsOwn(s, t, x);
      MoveKeeps(s, t, DialReady(x), Some(Connected), s.open, s.used);
  }

  lemma CloseStepKeeps(s: State, e: Event)
    requires Inv(s) && Enabled(s, e) && (e.Discard? || e.CancelClose? || e.CloseIt?)
    ensures Inv(Do(s, e))
  {
    match e
    case Discard(t) =>
      MoveKeeps(s, t, if s.threads[t].report then ReportStopped else Finished, None, s.open - {s.threads[t].x}, s.used);
    case CancelClose(t) => MoveKeeps(s, t, ReportStopped, None, Shut(s, s.threads[t].c).open, s.used);
    case CloseIt(t) => MoveKeeps(s, t, Finished, None, Shut(s, s.threads[t].c).open, s.used);
  }

  predicate ByStop(e: Event) {
    e.Report? || e.BeginCancel? || e.Take? || e.BeginClose? || e.ReportClose? || e.Read?
  }

  lemma StopStepKeeps(s: State, e: Event)
    requires Inv(s) && Enabled(s, e) && ByStop(e)
    ensures Inv(Do(s, e))
  {
    match e
    case Report(t) => MoveKeeps(s, t, Finished, Some(Stopped), s.open, s.used);
    case BeginCancel(t) => StopKeeps(s, t, CancelTake);
    case Take(t) => TakeKeeps(s, t);
    case BeginClose(t) => StopKeeps(s, t, CloseReport);
    case ReportClose(t) => MoveKeeps(s, t, CloseRead, Some(Stopped), s.open, s.used);
    case Read(t) => MoveKeeps(s, t, Closing(s.core.conn), None, s.open, s.used);
  }

  lemma WatchReadKeeps(s: State, t: nat)
    requires Inv(s) && Enabled(s, WatchRead(t))
    ensures Inv(Do(s, WatchRead(t)))
  {
    var x := s.threads[t].spawnedFor;
    StoredIsOwn(s, t, x);
    MoveKeeps(s, t, if s.core.conn.Some? then Watching(x, x) else Finished, None, s.open, s.used);
  }

  lemma SeeClosedKeeps(s: State, t: nat, err: bool)
    requires Inv(s) && Enabled(s, SeeClosed(t, err))
    ensures Inv(Do(s, SeeClosed(t, err)))
  {
    StoredIsOwn(s, t, s.threads[t].spawnedFor);
    MoveKeeps(s, t, if !err && s.core.stopped then Finished else Lost, None, s.open, s.used);
  }

  lemma RetryStepKeeps(s: State, e: Event)
    requires Inv(s) && Enabled(s, e) && (e.ReportLost? || e.Check? || e.Wake? || e.LoopFails?)
    ensures Inv(Do(s, e))
  {
    match e
    case ReportLost(t) => LoopMoveKeeps(s, t, LoopCheck, Some(Reconnecting));
    case Check(t) => LoopMoveKeeps(s, t, if s.core.stopped then Finished else LoopSleep, None);
    case Wake(t) => LoopMoveKeeps(s, t, if s.core.stopped then Finished else LoopDialing, None);
    case LoopFails(t) => LoopMoveKeeps(s, t, LoopCheck, Some(Reconnecting));
  }

  lemma RedialStepKeeps(s: State, e: Event)
    requires Inv(s) && Enabled(s, e) && (e.LoopConnects? || e.LoopStore?)
    ensures Inv(Do(s, e))
  {
    match e
    case LoopConnects(t, x) => MoveKeeps(s, t, LoopGot(x), None, s.open + {x}, s.used + {x});
    case LoopStore(t) => StoreKeeps(s, t, s.threads[t].x, LoopStored(s.threads[t].x));
  }

  lemma SecondCheckKeeps(s: State, t: nat)
    requires Inv(s) && Enabled(s, SecondCheck(t))
    ensures Inv(Do(s, SecondCheck(t)))
  {
    var x := s.threads[t].x;
    StoredIsOwn(s, t, x);
    MoveKeeps(s, t, if s.core.stopped then Discarding(x, false) else LoopReport(x), None, s.open, s.used);
  }

  lemma ReportLoopKeeps(s: State, t: nat)
    requires Inv(s) && Enabled(s, ReportLoop(t))
    ensures Inv(Do(s, ReportLoop(t)))
  {
    var x := s.threads[t].x;
    StoredIsOwn(s, t, x);
    MoveKeeps(s, t, LoopReady(x), Some(Connected), s.open, s.used);
  }

  lemma StepKeeps(s: State, e: Event)
    requires Inv(s) && Enabled(s, e)
    ensures Inv(Do(s, e))
  {
    if e.BeginDial? || e.DialFails? || e.DialConnects? {
      DialStepKeeps(s, e);
    } else if e.DialStore? || e.DialReport? {
      DialStoreStepKeeps(s, e);
    } else if e.Discard? || e.CancelClose? || e.CloseIt? {
      CloseStepKeeps(s, e);
    } else if ByStop(e) {
      StopStepKeeps(s, e);
    } else if e.ReportLost? || e.Check? || e.Wake? || e.LoopFails? {
      RetryStepKeeps(s, e);
    } else if e.LoopConnects? || e.LoopStore? {
      RedialStepKeeps(s, e);
    } else {
      match e
      case Spawn(t, w) => SpawnKeeps(s, t, w);
      case WatchRead(t) => WatchReadKeeps(s, t);
      case SeeClosed(t, err) => SeeClosedKeeps(s, t, err);
      case SecondCheck(t) => SecondCheckKeeps(s, t);
      case ReportLoop(t) => ReportLoopKeeps(s, t);
      case Die(x) => DieKeeps(s, x);
    }
  }

  lemma {:induction false} RunKeeps(states: seq<State>, events: seq<Event>, n: nat)
    requires IsRun(states, events) && n < |states|
    ensures Inv(states[n])
  {
    if n > 0 {
      RunKeeps(states, events, n - 1);
      assert Enabled(states[n - 1], events[n - 1]);
      assert states[n - 1 + 1] == Do(states[n - 1], events[n - 1]);
      StepKeeps(states[n - 1], events[n - 1]);
    } else {
      assert Inv(START);
    }
  }

  lemma ReachableKeeps(s: State)
    requires Reachable(s)
    ensures Inv(s)
  {
    var states, events :| IsRun(states, events) && states[|events|] == s;
    RunKeeps(states, events, |events|);
  }

  // ----- while the object is not stopped -----

  /** The health reported while the one active goroutine is at `p`. */
  function HealthOf(p: Pc): ConnectionCore.Health {
    if p.Dialing? || p.DialGot? || p.DialStored? then Idle
    else if p.DialReady? || p.LoopReady? || p.WatchStart? || p.Watching? || p.Lost? then Connected
    else Reconnecting
  }

  ghost predicate Live(core: Core, threads: map<nat, Pc>) {
    && (forall t :: t in threads && Active(threads[t]) ==> core.health == HealthOf(threads[t]))
    && (forall t :: t in threads && (threads[t].Dialing? || threads[t].DialGot?) ==> core.conn == None)
    && (!SomeoneActive(threads) ==> core.health == Idle && core.conn == None)
  }

  ghost predicate LiveInv(s: State) {
    s.core.stopped || Live(s.core, s.threads)
  }

  lemma ActiveMoves(threads: map<nat, Pc>, t: nat, q: Pc, core: Core)
    requires OneActive(threads) && t in threads && Active(threads[t]) && Active(q)
    requires core.health == HealthOf(q) && (q.Dialing? || q.DialGot? ==> core.conn == None)
    ensures Live(core, threads[t := q])
  {
    var after := threads[t := q];
    assert t in after && Active(after[t]);
  }

  lemma ActiveStarts(threads: map<nat, Pc>, t: nat, core: Core)
    requires Live(core, threads) && !SomeoneActive(threads)
    ensures Live(core, threads[t := Dialing])
  {
    var after := threads[t := Dialing];
    assert t in after && Active(after[t]);
    assert forall u :: u in after && Active(after[u]) ==> u == t;
  }

  lemma ActiveGivesUp(threads: map<nat, Pc>, t: nat, core: Core)
    requires OneActive(threads) && t in threads && Active(threads[t]) && core.health == Idle && core.conn == None
    ensures Live(core, threads[t := Finished])
  {
  }

  lemma ActiveHandsOver(threads: map<nat, Pc>, t: nat, w: nat, x: nat, core: Core)
    requires OneActive(threads) && t in threads && Active(threads[t]) && w !in threads && core.health == Connected
    ensures Live(core, threads[t := Finished][w := WatchStart(x)])
  {
    var after := threads[t := Finished][w := WatchStart(x)];
    assert w in after && Active(after[w]);
    assert forall u :: u in after && Active(after[u]) ==> u == w;
  }

  lemma LiveDialStep(s: State, e: Event)
    requires OneActive(s.threads) && !s.core.stopped && Live(s.core, s.threads) && Enabled(s, e)
    requires e.BeginDial? || e.DialFails? || e.DialConnects? || e.DialStore? || e.DialReport? || e.Spawn?
    ensures LiveInv(Do(s, e))
  {
    match e
    case BeginDial(t) => ActiveStarts(s.threads, t, s.core);
    case DialFails(t) => ActiveGivesUp(s.threads, t, WithHealth(s.core, Idle));
    case DialConnects(t, x) => ActiveMoves(s.threads, t, DialGot(x), s.core);
    case DialStore(t) => ActiveMoves(s.threads, t, DialStored(s.threads[t].x), Stored(s.core, s.threads[t].x));
    case DialReport(t) => ActiveMoves(s.threads, t, DialReady(s.threads[t].x), WithHealth(s.core, Connected));
    case Spawn(t, w) => ActiveHandsOver(s.threads, t, w, s.threads[t].x, s.core);
  }

  lemma LiveWatchStep(s: State, e: Event)
    requires OneActive(s.threads) && !s.core.stopped && Live(s.core, s.threads) && Enabled(s, e)
    requires e.WatchRead? || e.SeeClosed? || e.ReportLost? || e.Check? || e.Wake? || e.LoopFails?
    requires e.WatchRead? ==> s.core.conn.Some?
    ensures LiveInv(Do(s, e))
  {
    match e
    case WatchRead(t) => ActiveMoves(s.threads, t, Watching(s.threads[t].spawnedFor, s.core.conn.value), s.core);
    case SeeClosed(t, _) => ActiveMoves(s.threads, t, Lost, s.core);
    case ReportLost(t) => ActiveMoves(s.threads, t, LoopCheck, WithHealth(s.core, Reconnecting));
    case Check(t) => ActiveMoves(s.threads, t, LoopSleep, s.core);
    case Wake(t) => ActiveMoves(s.threads, t, LoopDialing, s.core);
    case LoopFails(t) => ActiveMoves(s.threads, t, LoopCheck, WithHealth(s.core, Reconnecting));
  }

  lemma LiveLoopStep(s: State, e: Event)
    requires OneActive(s.threads) && !s.core.stopped && Live(s.core, s.threads) && Enabled(s, e)
    requires e.LoopConnects? || e.LoopStore? || e.SecondCheck? || e.ReportLoop?
    ensures LiveInv(Do(s, e))
  {
    match e
    case LoopConnects(t, x) => ActiveMoves(s.threads, t, LoopGot(x), s.core);
    case LoopStore(t) =>
      ActiveMoves(s.threads, t, LoopStored(s.threads[t].x), s.core.(conn := Some(s.threads[t].x)));
    case SecondCheck(t) => ActiveMoves(s.threads, t, LoopReport(s.threads[t].x), s.core);
    case ReportLoop(t) => ActiveMoves(s.threads, t, LoopReady(s.threads[t].x), WithHealth(s.core, Connected));
  }

  /** Every other event happens after stop, sets the flag, or moves no goroutine. */
  lemma LiveOtherStep(s: State, e: Event)
    requires HealthInv(s.core, s.threads) && LiveInv(s) && Enabled(s, e)
    requires e.Discard? || e.Report? || e.BeginCancel? || e.Take? || e.CancelClose? || e.BeginClose? || e.ReportClose?
             || e.Read? || e.CloseIt? || e.Die?
    ensures LiveInv(Do(s, e))
  {
  }

  lemma LiveStep(s: State, e: Event)
    requires Reachable(s) && LiveInv(s) && Enabled(s, e)
    ensures LiveInv(Do(s, e))
  {
    assert OneActive(s.threads) && StoredInv(s.core, s.open, s.threads) && HealthInv(s.core, s.threads) by {
      ReachableKeeps(s);
    }
    if e.Discard? || e.Report? || e.BeginCancel? || e.Take? || e.CancelClose? || e.BeginClose? || e.ReportClose?
       || e.Read? || e.CloseIt? || e.Die? {
      LiveOtherStep(s, e);
    } else if s.core.stopped {
      StopStays(s, e);
    } else if e.LoopConnects? || e.LoopStore? || e.SecondCheck? || e.ReportLoop? {
      LiveLoopStep(s, e);
    } else if e.BeginDial? || e.DialFails? || e.DialConnects? || e.DialStore? || e.DialReport? || e.Spawn? {
      LiveDialStep(s, e);
    } else {
      if e.WatchRead? {
        StoredIsOwn(s, e.t, s.threads[e.t].spawnedFor);
      }
      LiveWatchStep(s, e);
    }
  }

  lemma StopStays(s: State, e: Event)
    requires Enabled(s, e) && s.core.stopped
    ensures Do(s, e).core.stopped
  {
  }

  lemma ReachableStep(s: State, e: Event) returns (t: State)
    requires Reachable(s) && Enabled(s, e)
    ensures t == Do(s, e) && Reachable(t)
  {
    t := Do(s, e);
    var states, events :| IsRun(states, events) && states[|events|] == s;
    assert IsRun(states + [t], events + [e]);
  }

  lemma {:induction false} RunLives(states: seq<State>, events: seq<Event>, n: nat)
    requires IsRun(states, events) && n < |states|
    ensures LiveInv(states[n]) && Reachable(states[n])
  {
    if n == 0 {
      assert IsRun([START], []);
    } else {
      RunLives(states, events, n - 1);
      assert Enabled(states[n - 1], events[n - 1]);
      assert states[n - 1 + 1] == Do(states[n - 1], events[n - 1]);
      LiveStep(states[n - 1], events[n - 1]);
      var next := ReachableStep(states[n - 1], events[n - 1]);
    }
  }

  lemma ReachableLives(s: State)
    requires Reachable(s)
    ensures LiveInv(s)
  {
    var states, events :| IsRun(states, events) && states[|events|] == s;
    RunLives(states, events, |events|);
  }

  // ----- main results -----

  /** Neither holding a connection nor on the way to close one or to report the stop. */
  predicate Settled(p: Pc) {
    && !p.DialGot? && !p.LoopGot? && !p.LoopStored? && !p.Discarding? && !p.CancelClosing? && !p.Closing?
    && !WillLook(p) && !WillReport(p)
  }

  lemma SettledHoldNothing(threads: map<nat, Pc>)
    requires forall t :: t in threads ==> Settled(threads[t])
    ensures forall x: nat :: !Held(threads, x)
    ensures !Looked(threads) && !Reported(threads)
  {
  }

  /** Once the object is stopped and the dial and close steps in flight have finished, every connection ever
      established is closed and health is stopped. Until then, each open one is in the hands of a goroutine or
      is the stored one that a goroutine will still read and close. */
  lemma NoConnectionOutlivesStop(s: State)
    requires Reachable(s) && s.core.stopped
    ensures forall x :: x in s.open ==> Held(s.threads, x) || (s.core.conn == Some(x) && Looked(s.threads))
    ensures (forall t :: t in s.threads ==> Settled(s.threads[t])) ==> s.open == {} && s.core.health == Stopped
  {
    ReachableKeeps(s);
    if forall t :: t in s.threads ==> Settled(s.threads[t]) {
      SettledHoldNothing(s.threads);
    }
  }

  /** Stopped health is final, and it is never reported for an object that was not stopped. */
  lemma StoppedIsFinal(s: State, e: Event)
    requires Reachable(s) && Enabled(s, e)
    ensures s.core.health == Stopped ==> s.core.stopped && Do(s, e).core.health == Stopped
    ensures s.core.stopped ==> Do(s, e).core.stopped
  {
    ReachableKeeps(s);
  }

  /** At most one goroutine dials, watches or redials, and a watcher watches the connection it was spawned for;
      a watcher that has not read the field yet will find that connection there, or none. */
  lemma SingleWatcher(s: State, t: nat, u: nat)
    requires Reachable(s) && t in s.threads && u in s.threads && Active(s.threads[t])
    ensures Active(s.threads[u]) ==> t == u
    ensures s.threads[t].Watching? ==> s.threads[t].x == s.threads[t].spawnedFor
    ensures s.threads[t].WatchStart? ==> s.core.conn == None || s.core.conn == Some(s.threads[t].spawnedFor)
  {
    ReachableKeeps(s);
    if s.threads[t].WatchStart? {
      StoredIsOwn(s, t, s.threads[t].spawnedFor);
    }
  }

  /** A connection that is replaced or found missing by a reconnect loop was already closed. */
  lemma RedialOnlyAfterLoss(s: State, t: nat)
    requires Reachable(s) && t in s.threads && Redialling(s.threads[t])
    ensures s.core.conn.Some? ==> s.core.conn.value !in s.open
  {
    ReachableKeeps(s);
  }

  /** While the object is not stopped, health is what the one active goroutine has reported, and idle with nothing
      stored if there is none. So once a connection has been established somebody watches it or redials. */
  lemma HealthIsAccurate(s: State)
    requires Reachable(s) && !s.core.stopped
    ensures forall t :: t in s.threads && Active(s.threads[t]) ==> s.core.health == HealthOf(s.threads[t])
    ensures !SomeoneActive(s.threads) ==> s.core.health == Idle && s.core.conn == None
    ensures s.core.conn.Some? ==> SomeoneActive(s.threads)
  {
    ReachableLives(s);
  }

  /** After stop no dial begins: a goroutine is dialling only if it was before. */
  lemma NoDialAfterStop(s: State, e: Event, t: nat)
    requires Enabled(s, e) && s.core.stopped && t in Do(s, e).threads
    requires Do(s, e).threads[t].Dialing? || Do(s, e).threads[t].LoopDialing?
    ensures t in s.threads && s.threads[t] == Do(s, e).threads[t]
  {
  }

  // ----- a lost connection can always be replaced -----

  /** Some continuation of `s` arrives at `t`. */
  ghost predicate Leads(s: State, t: State) {
    exists states, events :: IsPath(states, events) && states[0] == s && states[|events|] == t
  }

  lemma LeadsToItself(s: State)
    ensures Leads(s, s)
  {
    assert IsPath([s], []);
  }

  lemma Continue(s: State, t: State, e: Event) returns (u: State)
    requires Reachable(t) && Leads(s, t) && Enabled(t, e)
    ensures u == Do(t, e) && Reachable(u) && Leads(s, u)
  {
    u := ReachableStep(t, e);
    var states, events :| IsPath(states, events) && states[0] == s && states[|events|] == t;
    assert IsPath(states + [u], events + [e]);
  }

  lemma {:induction false} FreshNat(used: set<nat>) returns (x: nat)
    ensures x !in used && forall y :: y in used ==> y < x
    decreases |used|
  {
    if used == {} {
      x := 0;
    } else {
      var y :| y in used;
      x := FreshNat(used - {y});
      assert forall z :: z in used ==> z == y || z in used - {y};
      x := if y < x then x else y + 1;
    }
  }

  /** Steps left until an open connection is watched, if the connection in hand stays open. */
  function Base(p: Pc): nat {
    match p
    case Watching(_, _) => 0
    case WatchStart(_) => 1
    case DialReady(_) => 2
    case LoopReady(_) => 2
    case DialStored(_) => 3
    case LoopReport(_) => 3
    case DialGot(_) => 4
    case LoopStored(_) => 4
    case LoopGot(_) => 5
    case Dialing => 5
    case LoopDialing => 6
    case LoopSleep => 7
    case LoopCheck => 8
    case _ => 9
  }

  /** The connection in hand, if any, has died. */
  predicate HandDead(p: Pc, open: set<nat>) {
    || ((p.DialGot? || p.DialStored? || p.DialReady? || p.Watching?) && p.x !in open)
    || ((p.LoopGot? || p.LoopStored? || p.LoopReport? || p.LoopReady?) && p.x !in open)
    || (p.WatchStart? && p.spawnedFor !in open)
  }

  function Distance(p: Pc, open: set<nat>): nat {
    if HandDead(p, open) then Base(p) + 10 else Base(p)
  }

  /** Watching an open connection, which is the stored one. */
  predicate Restored(s: State, t: nat) {
    && t in s.threads && s.threads[t].Watching? && s.threads[t].x in s.open
    && s.core.conn == Some(s.threads[t].x) && s.core.health == Connected && !s.core.stopped
  }

  ghost predicate Closer(s: State, t: nat, e: Event, u: nat)
    requires t in s.threads
  {
    && Enabled(s, e) && !Do(s, e).core.stopped && u in Do(s, e).threads && Active(Do(s, e).threads[u])
    && Distance(Do(s, e).threads[u], Do(s, e).open) < Distance(s.threads[t], s.open)
  }

  lemma DialCloser(s: State, t: nat) returns (e: Event, u: nat)
    requires t in s.threads && !s.core.stopped && s.open <= s.used
    requires s.threads[t].Dialing? || s.threads[t].DialGot? || s.threads[t].DialStored?
    ensures Closer(s, t, e, u)
  {
    u := t;
    var x := FreshNat(s.used);
    match s.threads[t]
    case Dialing => e := DialConnects(t, x);
    case DialGot(_) => e := DialStore(t);
    case DialStored(_) => e := DialReport(t);
  }

  lemma SpawnCloser(s: State, t: nat) returns (e: Event, u: nat)
    requires t in s.threads && !s.core.stopped && (s.threads[t].DialReady? || s.threads[t].LoopReady?)
    ensures Closer(s, t, e, u)
  {
    u := FreshNat(s.threads.Keys);
    e := Spawn(t, u);
  }

  lemma WatchCloser(s: State, t: nat) returns (e: Event, u: nat)
    requires t in s.threads && !s.core.stopped && StoredInv(s.core, s.open, s.threads)
    requires s.threads[t].WatchStart? || (s.threads[t].Watching? && s.threads[t].x !in s.open)
    ensures Closer(s, t, e, u)
  {
    u := t;
    if s.threads[t].WatchStart? {
      e := WatchRead(t);
      StoredIsOwn(s, t, s.threads[t].spawnedFor);
    } else {
      e := SeeClosed(t, true);
    }
  }

  lemma RedialCloser(s: State, t: nat) returns (e: Event, u: nat)
    requires t in s.threads && !s.core.stopped
    requires s.threads[t].Lost? || s.threads[t].LoopCheck? || s.threads[t].LoopSleep?
    ensures Closer(s, t, e, u)
  {
    u := t;
    match s.threads[t]
    case Lost => e := ReportLost(t);
    case LoopCheck => e := Check(t);
    case LoopSleep => e := Wake(t);
  }

  lemma LoopCloser(s: State, t: nat) returns (e: Event, u: nat)
    requires t in s.threads && !s.core.stopped && s.open <= s.used
    requires s.threads[t].LoopDialing? || s.threads[t].LoopGot? || s.threads[t].LoopStored? || s.threads[t].LoopReport?
    ensures Closer(s, t, e, u)
  {
    u := t;
    var x := FreshNat(s.used);
    match s.threads[t]
    case LoopDialing => e := LoopConnects(t, x);
    case LoopGot(_) => e := LoopStore(t);
    case LoopStored(_) => e := SecondCheck(t);
    case LoopReport(_) => e := ReportLoop(t);
  }

  lemma ComesCloser(s: State, t: nat) returns (e: Event, u: nat)
    requires Reachable(s) && t in s.threads && Active(s.threads[t]) && !s.core.stopped
    requires Distance(s.threads[t], s.open) > 0
    ensures Closer(s, t, e, u)
  {
    assert StoredInv(s.core, s.open, s.threads) && s.open <= s.used by {
      ReachableKeeps(s);
    }
    var p := s.threads[t];
    if p.Dialing? || p.DialGot? || p.DialStored? {
      e, u := DialCloser(s, t);
    } else if p.DialReady? || p.LoopReady? {
      e, u := SpawnCloser(s, t);
    } else if p.WatchStart? || p.Watching? {
      e, u := WatchCloser(s, t);
    } else if p.Lost? || p.LoopCheck? || p.LoopSleep? {
      e, u := RedialCloser(s, t);
    } else {
      e, u := LoopCloser(s, t);
    }
  }

  lemma WatchedIsRestored(s: State, t: nat)
    requires Reachable(s) && t in s.threads && Active(s.threads[t]) && !s.core.stopped
    requires Distance(s.threads[t], s.open) == 0
    ensures Restored(s, t)
  {
    assert StoredInv(s.core, s.open, s.threads) by {
      ReachableKeeps(s);
    }
    HealthIsAccurate(s);
    StoredIsOwn(s, t, s.threads[t].spawnedFor);
  }

  lemma {:induction false} CanRestore(s: State, now: State, t: nat) returns (end: State, u: nat)
    requires Reachable(now) && Leads(s, now) && t in now.threads && Active(now.threads[t]) && !now.core.stopped
    ensures Leads(s, end) && Restored(end, u)
    decreases Distance(now.threads[t], now.open)
  {
    if Distance(now.threads[t], now.open) == 0 {
      WatchedIsRestored(now, t);
      end, u := now, t;
    } else {
      var e, v := ComesCloser(now, t);
      var next := Continue(s, now, e);
      end, u := CanRestore(s, next, v);
    }
  }

  /** As long as the object is not stopped, a connection that was ever established, lost or not, can be replaced:
      some continuation ends with an open stored connection, watched, and health connected. */
  lemma LostConnectionIsReplaceable(s: State)
    requires Reachable(s) && !s.core.stopped && s.core.conn.Some?
    ensures exists t, u :: Leads(s, t) && Restored(t, u)
  {
    HealthIsAccurate(s);
    var t :| t in s.threads && Active(s.threads[t]);
    LeadsToItself(s);
    var end, u := CanRestore(s, s, t);
  }

  /** And an object that is neither stopped nor dialled can be connected. */
  lemma CanConnect(s: State)
    requires Reachable(s) && !s.core.stopped && !SomeoneActive(s.threads)
    ensures exists t, u :: Leads(s, t) && Restored(t, u)
  {
    LeadsToItself(s);
    var t := FreshNat(s.threads.Keys);
    var dialling := Continue(s, s, BeginDial(t));
    var end, u := CanRestore(s, dialling, t);
  }

  // ----- a stop can always be completed -----

  /** The next step of a goroutine that holds a connection, will close one or will report the stop. */
  function Settling(p: Pc, t: nat): Event {
    match p
    case DialGot(_) => DialStore(t)
    case LoopGot(_) => LoopStore(t)
    case LoopStored(_) => SecondCheck(t)
    case Discarding(_, _) => Discard(t)
    case CancelTake => Take(t)
    case CancelClosing(_) => CancelClose(t)
    case CloseReport => ReportClose(t)
    case CloseRead => Read(t)
    case Closing(_) => CloseIt(t)
    case _ => Report(t)
  }

  function Unsettled(p: Pc): nat {
    match p
    case DialGot(_) => 5
    case LoopGot(_) => 5
    case LoopStored(_) => 4
    case Discarding(_, _) => 3
    case CancelTake => 4
    case CancelClosing(_) => 3
    case CloseReport => 4
    case CloseRead => 3
    case Closing(_) => 2
    case ReportStopped => 1
    case _ => 0
  }

  ghost predicate OnlyMoves(s: State, u: State, t: nat) {
    && u.core.stopped && u.threads.Keys == s.threads.Keys
    && forall o :: o in s.threads && o != t ==> u.threads[o] == s.threads[o]
  }

  ghost predicate SettlesBy(s: State, t: nat, e: Event)
    requires t in s.threads
  {
    && Enabled(s, e) && OnlyMoves(s, Do(s, e), t)
    && Unsettled(Do(s, e).threads[t]) < Unsettled(s.threads[t])
  }

  lemma HolderSettles(s: State, t: nat)
    requires t in s.threads && s.core.stopped
    requires s.threads[t].DialGot? || s.threads[t].LoopGot? || s.threads[t].LoopStored? || s.threads[t].Discarding?
    ensures SettlesBy(s, t, Settling(s.threads[t], t))
  {
  }

  lemma CloserSettles(s: State, t: nat)
    requires t in s.threads && s.core.stopped
    requires s.threads[t].CloseReport? || s.threads[t].CloseRead? || s.threads[t].Closing?
    ensures SettlesBy(s, t, Settling(s.threads[t], t))
  {
  }

  lemma CancelSettles(s: State, t: nat)
    requires t in s.threads && s.core.stopped
    requires s.threads[t].CancelTake? || s.threads[t].CancelClosing? || s.threads[t].ReportStopped?
    ensures SettlesBy(s, t, Settling(s.threads[t], t))
  {
  }

  lemma SettlingMoves(s: State, t: nat)
    requires t in s.threads && !Settled(s.threads[t]) && s.core.stopped
    ensures SettlesBy(s, t, Settling(s.threads[t], t))
  {
    var p := s.threads[t];
    if p.CloseReport? || p.CloseRead? || p.Closing? {
      CloserSettles(s, t);
    } else if p.CancelTake? || p.CancelClosing? || p.ReportStopped? {
      CancelSettles(s, t);
    } else {
      HolderSettles(s, t);
    }
  }

  lemma {:induction false} SettleOne(s: State, now: State, t: nat) returns (end: State)
    requires Reachable(now) && Leads(s, now) && t in now.threads && now.core.stopped
    ensures Reachable(end) && Leads(s, end) && OnlyMoves(now, end, t) && Settled(end.threads[t])
    decreases Unsettled(now.threads[t])
  {
    end := now;
    if !Settled(now.threads[t]) {
      SettlingMoves(now, t);
      var next := Continue(s, now, Settling(now.threads[t], t));
      end := SettleOne(s, next, t);
    }
  }

  lemma {:induction false} SettleAll(s: State, now: State, todo: set<nat>) returns (end: State)
    requires Reachable(now) && Leads(s, now) && now.core.stopped
    requires forall t :: t in now.threads && t !in todo ==> Settled(now.threads[t])
    ensures Reachable(end) && Leads(s, end) && end.core.stopped
    ensures forall t :: t in end.threads ==> Settled(end.threads[t])
    decreases |todo|
  {
    end := now;
    if todo != {} {
      var t :| t in todo;
      var next := now;
      if t in now.threads {
        next := SettleOne(s, now, t);
      }
      end := SettleAll(s, next, todo - {t});
    }
  }

  ghost predicate AllShut(s: State) {
    s.core.stopped && s.open == {} && s.core.health == Stopped
  }

  lemma StoppedCanSettle(s: State, now: State) returns (end: State)
    requires Reachable(now) && Leads(s, now) && now.core.stopped
    ensures Leads(s, end) && AllShut(end)
  {
    end := SettleAll(s, now, now.threads.Keys);
    NoConnectionOutlivesStop(end);
  }

  /** From any state a call of `Close`, and a cancelled dial alike, can be carried through to the point where every
      connection is closed and health is stopped. */
  lemma CanAlwaysStop(s: State, t: nat, cancel: bool) returns (end: State)
    requires Reachable(s) && t !in s.threads
    ensures
      var e := if cancel then BeginCancel(t) else BeginClose(t);
      Enabled(s, e) && Leads(Do(s, e), end) && AllShut(end)
  {
    var begun := ReachableStep(s, if cancel then BeginCancel(t) else BeginClose(t));
    LeadsToItself(begun);
    end := StoppedCanSettle(begun, begun);
  }

  /** A cancelled dial leaves nothing stored; a dial that failed leaves the object free for the next one; a failed
      redial goes round again. */
  lemma FailuresLeaveClean(s: State, t: nat)
    requires Reachable(s)
    ensures Enabled(s, Take(t)) ==> Do(s, Take(t)).core.conn == None
    ensures Enabled(s, DialFails(t)) ==> !SomeoneActive(Do(s, DialFails(t)).threads)
    ensures Enabled(s, LoopFails(t)) ==> Do(s, LoopFails(t)).threads == s.threads[t := LoopCheck]
  {
    assert OneActive(s.threads) by {
      ReachableKeeps(s);
    }
  }

  /** A connection that is watched and dies is noticed: health can become reconnecting. */
  lemma LossIsNoticed(s: State, t: nat) returns (end: State)
    requires Reachable(s) && Restored(s, t)
    ensures Leads(s, end) && end.core.health == Reconnecting && !end.core.stopped
  {
    LeadsToItself(s);
    end := Continue(s, s, Die(s.threads[t].x));
    end := Continue(s, end, SeeClosed(t, true));
    end := Continue(s, end, ReportLost(t));
  }
}
