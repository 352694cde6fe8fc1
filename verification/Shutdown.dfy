/** The two-WaitGroup shutdown of internal/rabbit/application.go, together with the `Add` and `Done` calls of
    the supervised consumers (internal/rabbit/consumer.go) that it waits for. */
module Shutdown {

  datatype MainPhase = BringingUp | StartFailed | Serving | Draining

  /** Where the goroutine that waits on both groups stands. */
  datatype WaitPhase = NotBegun | OnRestores | OnSupervisors | Returned

  datatype Core = Core(shuttingDown: bool, restoreGen: nat, restoreWg: int, shutdownWg: int)

  /** The reconnect hook: a restore is admitted only before shutdown. */
  function Admitted(c: Core): Core {
    if c.shuttingDown then c.(restoreGen := c.restoreGen + 1)
    else c.(restoreGen := c.restoreGen + 1, restoreWg := c.restoreWg + 1)
  }

  class RabbitApp {
    var shuttingDown: bool
    var restoreGen: nat
    var restoreWg: int
    var shutdownWg: int

    function Snapshot(): Core
      reads this
    {
      Core(shuttingDown, restoreGen, restoreWg, shutdownWg)
    }

    constructor ()
      ensures Snapshot() == Core(false, 0, 0, 0)
    {
      shuttingDown, restoreGen, restoreWg, shutdownWg := false, 0, 0, 0;
    }

    method ReconnectHook() returns (admitted: bool, gen: nat)
      modifies this
      ensures Snapshot() == Admitted(old(Snapshot()))
      ensures admitted == !old(shuttingDown) && gen == old(restoreGen) + 1
    {
      restoreGen := restoreGen + 1;
      gen := restoreGen;
      if shuttingDown {
        return false, gen;
      }
      restoreWg := restoreWg + 1;
      return true, gen;
    }

    method BeginShutdown()
      modifies this
      ensures Snapshot() == old(Snapshot()).(shuttingDown := true)
    {
      shuttingDown := true;
    }
  }

  /** A restore goroutine: about to look at the generation, attempting, or waiting out its backoff. */
  datatype Restore = Looking(gen: nat) | Attempting(gen: nat) | Sleeping(gen: nat)

  /** `restoring` are the restore goroutines, `added` the supervisors counted and not yet launched, `running`
      those launched, `leaving` those that released the group and have yet to report their health and close
      `done`, `gone` those that have done so. `lateRestore` and `lateSupervisor` record an `Add`
      after the `Wait` on that group had begun. */
  datatype State = State(core: Core, main: MainPhase, wait: WaitPhase, restoring: map<nat, Restore>, added: set<nat>,
                         running: set<nat>, leaving: set<nat>, gone: set<nat>, lateRestore: bool, lateSupervisor: bool)

  const START: State := State(Core(false, 0, 0, 0), BringingUp, NotBegun, map[], {}, {}, {}, {}, false, false)

  /** `r` is a restore goroutine; the first start of a listener is done by `Start` itself. */
  datatype Event =
    | FirstAdd(s: nat) | BringUpFails | Serve
    | Hook(r: nat)
    | Look(r: nat) | RestoreAdd(r: nat, s: nat) | AttemptFails(r: nat) | Wake(r: nat) | RestoreEnds(r: nat)
    | Launch(s: nat) | Exit(s: nat) | CloseDone(s: nat)
    | BeginShutdown | BeginWait | RestoresGone | SupervisorsGone

  predicate Unknown(st: State, s: nat) {
    s !in st.added && s !in st.running && s !in st.leaving && s !in st.gone
  }

  predicate Enabled(st: State, e: Event) {
    match e
    case FirstAdd(s) => st.main.BringingUp? && Unknown(st, s)
    case BringUpFails => st.main.BringingUp?
    case Serve => st.main.BringingUp?
    case Hook(r) => (st.main.Serving? || st.main.Draining?) && r !in st.restoring
    case Look(r) => r in st.restoring && st.restoring[r].Looking?
    case RestoreAdd(r, s) => r in st.restoring && st.restoring[r].Attempting? && Unknown(st, s)
    case AttemptFails(r) => r in st.restoring && st.restoring[r].Attempting?
    case Wake(r) => r in st.restoring && st.restoring[r].Sleeping?
    case RestoreEnds(r) => r in st.restoring && !st.restoring[r].Looking?
    case Launch(s) => s in st.added
    case Exit(s) => s in st.running
    case CloseDone(s) => s in st.leaving
    case BeginShutdown => st.main.Serving?
    case BeginWait => st.main.Draining? && st.wait.NotBegun?
    case RestoresGone => st.wait.OnRestores? && st.core.restoreWg == 0
    case SupervisorsGone => st.wait.OnSupervisors? && st.core.shutdownWg == 0
  }

  function Add(st: State, s: nat): State {
    st.(core := st.core.(shutdownWg := st.core.shutdownWg + 1), added := st.added + {s},
        lateSupervisor := st.lateSupervisor || st.wait.OnSupervisors? || st.wait.Returned?)
  }

  function Ended(st: State, r: nat): State {
    st.(core := st.core.(restoreWg := st.core.restoreWg - 1), restoring := st.restoring - {r})
  }

  function Do(st: State, e: Event): State
    requires Enabled(st, e)
  {
    match e
    case FirstAdd(s) => Add(st, s)
    case BringUpFails => st.(main := StartFailed)
    case Serve => st.(main := Serving)
    case Hook(r) =>
      if st.core.shuttingDown then st.(core := Admitted(st.core))
      else st.(core := Admitted(st.core), restoring := st.restoring[r := Looking(st.core.restoreGen + 1)],
               lateRestore := st.lateRestore || !st.wait.NotBegun?)
    case Look(r) =>
      var gen := st.restoring[r].gen;
      if gen != st.core.restoreGen then Ended(st, r) else st.(restoring := st.restoring[r := Attempting(gen)])
    case RestoreAdd(_, s) => Add(st, s)
    case AttemptFails(r) => st.(restoring := st.restoring[r := Sleeping(st.restoring[r].gen)])
    case Wake(r) => st.(restoring := st.restoring[r := Looking(st.restoring[r].gen)])
    case RestoreEnds(r) => Ended(st, r)
    case Launch(s) => st.(added := st.added - {s}, running := st.running + {s})
    case Exit(s) => st.(core := st.core.(shutdownWg := st.core.shutdownWg - 1), running := st.running - {s},
          leaving := st.leaving + {s})
    case CloseDone(s) => st.(leaving := st.leaving - {s}, gone := st.gone + {s})
    case BeginShutdown => st.(core := st.core.(shuttingDown := true), main := Draining)
    case BeginWait => st.(wait := OnRestores)
    case RestoresGone => st.(wait := OnSupervisors)
    case SupervisorsGone => st.(wait := Returned)
  }

  ghost predicate IsPath(states: seq<State>, events: seq<Event>) {
    && |states| == |events| + 1
    && forall i {:trigger events[i]} :: 0 <= i < |events| ==>
         Enabled(states[i], events[i]) && states[i + 1] == Do(states[i], events[i])
  }

  ghost predicate IsRun(states: seq<State>, events: seq<Event>) {
    IsPath(states, events) && states[0] == START
  }

  predicate RestoresCounted(st: State) {
    st.core.restoreWg == |st.restoring|
  }

  predicate SupervisorsCounted(st: State) {
    st.core.shutdownWg == |st.added| + |st.running|
  }

  predicate Staged(st: State) {
    && st.added !! st.running && st.added !! st.leaving && st.added !! st.gone
    && st.running !! st.leaving && st.running !! st.gone && st.leaving !! st.gone
  }

  predicate Ordered(st: State) {
    && (st.core.shuttingDown <==> st.main.Draining?)
    && (!st.wait.NotBegun? ==> st.main.Draining?)
    && (st.main.BringingUp? || st.main.StartFailed? ==> st.restoring == map[])
    && (st.wait.OnSupervisors? || st.wait.Returned? ==> st.restoring == map[])
    && (st.wait.Returned? ==> st.added == {} && st.running == {})
    && !st.lateRestore && !st.lateSupervisor
  }

  /** Every restore has a generation of its own, none newer than the counter. */
  ghost predicate Numbered(restoring: map<nat, Restore>, gen: nat) {
    && (forall r :: r in restoring ==> restoring[r].gen <= gen)
    && (forall r, q :: r in restoring && q in restoring && restoring[r].gen == restoring[q].gen ==> r == q)
  }

  ghost predicate Inv(st: State) {
    && RestoresCounted(st) && SupervisorsCounted(st) && Staged(st) && Ordered(st)
    && Numbered(st.restoring, st.core.restoreGen)
  }

  lemma RestoreCountKept(st: State, e: Event)
    requires RestoresCounted(st) && Enabled(st, e)
    ensures RestoresCounted(Do(st, e))
  {
    if e.RestoreEnds? || e.Look? {
      assert (st.restoring - {e.r}).Keys == st.restoring.Keys - {e.r};
      assert |st.restoring - {e.r}| == |st.restoring| - 1;
    }
  }

  lemma LaunchCounts(added: set<nat>, running: set<nat>, s: nat)
    requires added !! running && s in added
    ensures |added - {s}| + |running + {s}| == |added| + |running|
  {
    assert |added - {s}| == |added| - 1 && |running + {s}| == |running| + 1;
  }

  lemma AddCounts(st: State, s: nat)
    requires SupervisorsCounted(st) && Unknown(st, s)
    ensures SupervisorsCounted(Add(st, s))
  {
    assert |st.added + {s}| == |st.added| + 1;
  }

  lemma ExitCounts(running: set<nat>, s: nat)
    requires s in running
    ensures |running - {s}| == |running| - 1
  {
  }

  lemma OthersKeepSupervisors(st: State, e: Event)
    requires Enabled(st, e) && !e.FirstAdd? && !e.RestoreAdd? && !e.Launch? && !e.Exit?
    ensures Do(st, e).added == st.added && Do(st, e).running == st.running
    ensures Do(st, e).core.shutdownWg == st.core.shutdownWg
  {
  }

  lemma SupervisorCountKept(st: State, e: Event)
    requires SupervisorsCounted(st) && st.added !! st.running && Enabled(st, e)
    ensures SupervisorsCounted(Do(st, e))
  {
    if e.FirstAdd? || e.RestoreAdd? {
      AddCounts(st, e.s);
    } else if e.Launch? {
      LaunchCounts(st.added, st.running, e.s);
    } else if e.Exit? {
      ExitCounts(st.running, e.s);
    } else {
      OthersKeepSupervisors(st, e);
    }
  }

  lemma StagesKept(st: State, e: Event)
    requires Staged(st) && Enabled(st, e)
    ensures Staged(Do(st, e))
  {
  }

  lemma OrderKept(st: State, e: Event)
    requires RestoresCounted(st) && SupervisorsCounted(st) && Ordered(st) && Enabled(st, e)
    ensures Ordered(Do(st, e))
  {
  }

  lemma NumberedWithNew(restoring: map<nat, Restore>, gen: nat, r: nat)
    requires Numbered(restoring, gen) && r !in restoring
    ensures Numbered(restoring[r := Looking(gen + 1)], gen + 1) && Numbered(restoring, gen + 1)
  {
  }

  lemma NumberedMoved(restoring: map<nat, Restore>, gen: nat, r: nat, next: Restore)
    requires Numbered(restoring, gen) && r in restoring && next.gen == restoring[r].gen
    ensures Numbered(restoring[r := next], gen) && Numbered(restoring - {r}, gen)
  {
  }

  lemma NumbersKept(st: State, e: Event)
    requires Numbered(st.restoring, st.core.restoreGen) && Enabled(st, e)
    ensures Numbered(Do(st, e).restoring, Do(st, e).core.restoreGen)
  {
    match e
    case Hook(r) => NumberedWithNew(st.restoring, st.core.restoreGen, r);
    case Look(r) => NumberedMoved(st.restoring, st.core.restoreGen, r, Attempting(st.restoring[r].gen));
    case AttemptFails(r) => NumberedMoved(st.restoring, st.core.restoreGen, r, Sleeping(st.restoring[r].gen));
    case Wake(r) => NumberedMoved(st.restoring, st.core.restoreGen, r, Looking(st.restoring[r].gen));
    case RestoreEnds(r) => NumberedMoved(st.restoring, st.core.restoreGen, r, st.restoring[r]);
    case _ =>
  }

  lemma StepKeeps(st: State, e: Event)
    requires Inv(st) && Enabled(st, e)
    ensures Inv(Do(st, e))
  {
    RestoreCountKept(st, e);
    SupervisorCountKept(st, e);
    StagesKept(st, e);
    OrderKept(st, e);
    NumbersKept(st, e);
  }

  lemma {:induction false} RunKeeps(states: seq<State>, events: seq<Event>, n: nat)
    requires IsRun(states, events) && n < |states|
    ensures Inv(states[n])
  {
    if n > 0 {
      RunKeeps(states, events, n - 1);
      assert Enabled(states[n - 1], events[n - 1]);
      assert states[n - 1 + 1] == Do(states[n - 1], events[n - 1]);
      StepKeeps(states[n - 1], events[n - 1]);
    }
  }

  /** Neither group grows after the `Wait` on it has begun, neither counter goes negative, and the counters are
      the numbers of restores and of supervisors that have not released the group. */
  lemma WaitGroupDiscipline(states: seq<State>, events: seq<Event>, n: nat)
    requires IsRun(states, events) && n < |states|
    ensures !states[n].lateRestore && !states[n].lateSupervisor
    ensures states[n].core.restoreWg == |states[n].restoring|
    ensures states[n].core.shutdownWg == |states[n].added| + |states[n].running|
  {
    RunKeeps(states, events, n);
  }

  /** No restore and no supervisor that counts, and the supervisors that ever ran are those of `before`. */
  predicate Quiet(st: State, before: State) {
    && st.wait.Returned? && st.restoring == map[] && st.added == {} && st.running == {}
    && st.leaving <= before.leaving && st.leaving + st.gone == before.leaving + before.gone
  }

  lemma QuietStep(st: State, e: Event, before: State)
    requires Inv(st) && Enabled(st, e) && Quiet(st, before)
    ensures Quiet(Do(st, e), before)
  {
  }

  /** When the shutdown wait has returned no supervisor consumes, and none is counted or launched later. What
      may still happen is that those which have just released the group report their health and close `done`. */
  lemma {:induction false} QuietAfterShutdown(states: seq<State>, events: seq<Event>, m: nat, n: nat)
    requires IsRun(states, events) && m <= n < |states| && states[m].wait.Returned?
    ensures Quiet(states[n], states[m])
    decreases n - m
  {
    RunKeeps(states, events, m);
    if m < n {
      QuietAfterShutdown(states, events, m, n - 1);
      RunKeeps(states, events, n - 1);
      assert Enabled(states[n - 1], events[n - 1]);
      assert states[n - 1 + 1] == Do(states[n - 1], events[n - 1]);
      QuietStep(states[n - 1], events[n - 1], states[m]);
    }
  }

  /** `st` is the last state of some run. */
  ghost predicate Reachable(st: State) {
    exists states, events :: IsRun(states, events) && states[|events|] == st
  }

  lemma ReachableStep(st: State, e: Event) returns (next: State)
    requires Reachable(st) && Enabled(st, e)
    ensures next == Do(st, e) && Reachable(next)
  {
    next := Do(st, e);
    var states, events :| IsRun(states, events) && states[|events|] == st;
    assert IsRun(states + [next], events + [e]);
  }

  lemma SupervisorLeaves() returns (st: State)
    ensures Reachable(st) && st == START.(leaving := {0})
  {
    assert IsRun([START], []);
    st := ReachableStep(START, FirstAdd(0));
    st := ReachableStep(st, Launch(0));
    st := ReachableStep(st, Exit(0));
  }

  /** The wait can return before the last supervisor has closed its `done`. */
  lemma WaitReturnsBeforeDone() returns (st: State)
    ensures Reachable(st) && st.wait.Returned? && st.leaving == {0}
  {
    st := SupervisorLeaves();
    st := ReachableStep(st, Serve);
    st := ReachableStep(st, BeginShutdown);
    st := ReachableStep(st, BeginWait);
    st := ReachableStep(st, RestoresGone);
    st := ReachableStep(st, SupervisorsGone);
  }

  // ----- restores -----

  lemma ReachableKeeps(st: State)
    requires Reachable(st)
    ensures Inv(st)
  {
    var states, events :| IsRun(states, events) && states[|events|] == st;
    RunKeeps(states, events, |events|);
  }

  /** A hook starts a restore exactly before shutdown, with the newest generation; and an attempt is begun by the
      restore of the newest generation alone, so that no two restores can begin one without a new hook between
      them. */
  lemma OnlyNewestRestores(st: State, r: nat, q: nat)
    requires Reachable(st)
    ensures Enabled(st, Hook(r)) ==>
              var next := Do(st, Hook(r));
              if st.core.shuttingDown then next.restoring == st.restoring
              else r in next.restoring && next.restoring[r] == Looking(next.core.restoreGen)
    ensures Begins(st, r) && Begins(st, q) ==> r == q
    ensures Begins(st, r) <==> Enabled(st, Look(r)) && st.restoring[r].gen == st.core.restoreGen
  {
    ReachableKeeps(st);
  }

  /** Looking at the generation lets restore `r` begin an attempt. */
  predicate Begins(st: State, r: nat) {
    Enabled(st, Look(r)) && r in Do(st, Look(r)).restoring
  }

  /** Some continuation of `st` arrives at `end`. */
  ghost predicate Leads(st: State, end: State) {
    exists states, events :: IsPath(states, events) && states[0] == st && states[|events|] == end
  }

  lemma LeadsToItself(st: State)
    ensures Leads(st, st)
  {
    assert IsPath([st], []);
  }

  lemma Continue(st: State, now: State, e: Event) returns (next: State)
    requires Reachable(now) && Leads(st, now) && Enabled(now, e)
    ensures next == Do(now, e) && Reachable(next) && Leads(st, next)
  {
    next := ReachableStep(now, e);
    var states, events :| IsPath(states, events) && states[0] == st && states[|events|] == now;
    assert IsPath(states + [next], events + [e]);
  }

  /** A reconnect while the application serves can bring a new supervisor up. */
  lemma ReconnectRestores(st: State, r: nat, s: nat) returns (end: State)
    requires Reachable(st) && st.main.Serving? && r !in st.restoring && Unknown(st, s)
    ensures Leads(st, end) && s in end.running
  {
    assert !st.core.shuttingDown by {
      ReachableKeeps(st);
    }
    LeadsToItself(st);
    end := Continue(st, st, Hook(r));
    end := Continue(st, end, Look(r));
    end := Continue(st, end, RestoreAdd(r, s));
    end := Continue(st, end, Launch(s));
  }

  // ----- shutdown can always complete -----

  lemma RestoreStops(st: State, now: State, r: nat) returns (end: State)
    requires Reachable(now) && Leads(st, now) && r in now.restoring
    ensures Reachable(end) && Leads(st, end) && end.restoring == now.restoring - {r}
    ensures end.main == now.main && end.wait == now.wait && end.added == now.added && end.running == now.running
  {
    end := now;
    if now.restoring[r].Looking? {
      end := Continue(st, now, Look(r));
    }
    if r in end.restoring {
      end := Continue(st, end, RestoreEnds(r));
    }
  }

  lemma {:induction false} AllRestoresStop(st: State, now: State) returns (end: State)
    requires Reachable(now) && Leads(st, now)
    ensures Reachable(end) && Leads(st, end) && end.restoring == map[] && end.main == now.main && end.wait == now.wait
    decreases |now.restoring|
  {
    end := now;
    if now.restoring != map[] {
      var r :| r in now.restoring;
      var next := RestoreStops(st, now, r);
      assert next.restoring.Keys == now.restoring.Keys - {r};
      end := AllRestoresStop(st, next);
    }
  }

  lemma {:induction false} AllLaunch(st: State, now: State) returns (end: State)
    requires Reachable(now) && Leads(st, now) && now.restoring == map[]
    ensures Reachable(end) && Leads(st, end) && end.restoring == map[] && end.added == {}
    ensures end.main == now.main && end.wait == now.wait
    decreases |now.added|
  {
    end := now;
    if now.added != {} {
      var s :| s in now.added;
      var next := Continue(st, now, Launch(s));
      end := AllLaunch(st, next);
    }
  }

  lemma {:induction false} AllExit(st: State, now: State) returns (end: State)
    requires Reachable(now) && Leads(st, now) && now.restoring == map[] && now.added == {}
    ensures Reachable(end) && Leads(st, end) && end.restoring == map[] && end.added == {} && end.running == {}
    ensures end.main == now.main && end.wait == now.wait
    decreases |now.running|
  {
    end := now;
    if now.running != {} {
      var s :| s in now.running;
      var next := Continue(st, now, Exit(s));
      end := AllExit(st, next);
    }
  }

  lemma WaitReturns(st: State, now: State) returns (end: State)
    requires Reachable(now) && Leads(st, now) && now.main.Draining?
    requires now.restoring == map[] && now.added == {} && now.running == {}
    ensures Leads(st, end) && end.wait.Returned?
  {
    assert now.core.restoreWg == 0 && now.core.shutdownWg == 0 by {
      ReachableKeeps(now);
    }
    end := now;
    if end.wait.NotBegun? {
      end := Continue(st, end, BeginWait);
    }
    if end.wait.OnRestores? {
      end := Continue(st, end, RestoresGone);
    }
    if end.wait.OnSupervisors? {
      end := Continue(st, end, SupervisorsGone);
    }
  }

  /** Once shutdown has begun, its wait can return from wherever the restores and supervisors stand. */
  lemma ShutdownCanComplete(st: State) returns (end: State)
    requires Reachable(st) && st.main.Draining?
    ensures Leads(st, end) && end.wait.Returned?
  {
    LeadsToItself(st);
    var stopped := AllRestoresStop(st, st);
    var launched := AllLaunch(st, stopped);
    var idle := AllExit(st, launched);
    end := WaitReturns(st, idle);
  }

  /** An attempt of the newest restore that fails is made again. */
  lemma FailedAttemptIsRetried(st: State, r: nat) returns (end: State)
    requires Reachable(st) && r in st.restoring && st.restoring[r] == Attempting(st.core.restoreGen)
    ensures
      var failed := Do(st, AttemptFails(r));
      failed.restoring[r].Sleeping? && Leads(failed, end) && r in end.restoring && end.restoring[r] == st.restoring[r]
  {
    var failed := ReachableStep(st, AttemptFails(r));
    LeadsToItself(failed);
    end := Continue(failed, failed, Wake(r));
    end := Continue(failed, end, Look(r));
  }

  /** A bring-up that fails is the end: no restore is ever admitted afterwards. */
  lemma FailedStartIsFinal(st: State, e: Event)
    requires Reachable(st) && Enabled(st, e)
    ensures e.BringUpFails? ==> Do(st, e).main.StartFailed?
    ensures st.main.StartFailed? ==> Do(st, e).main.StartFailed? && Do(st, e).restoring == map[]
  {
    ReachableKeeps(st);
  }

  /** Every supervisor that has released the group can close its `done`. */
  lemma {:induction false} AllCanGo(st: State, now: State) returns (end: State)
    requires Reachable(now) && Leads(st, now)
    ensures Leads(st, end) && end.leaving == {} && end.gone == now.gone + now.leaving
    decreases |now.leaving|
  {
    end := now;
    if now.leaving != {} {
      var s :| s in now.leaving;
      var next := Continue(st, now, CloseDone(s));
      end := AllCanGo(st, next);
    }
  }
}
