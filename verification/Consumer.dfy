/** The supervised consumer of internal/rabbit/consumer.go: the object and its two lock-protected sections.

    The stop and done channels of the supervisor with generation `g` are both named `g`. */
module ConsumerCore {
  import opened Options

  datatype Health = Stopped | Rebuilding | Running

  /** `stop` and `done` are the channel fields of the object; `stopped` holds the stop channels closed so far. */
  datatype Core = Core(stop: Option<nat>, done: Option<nat>, runGen: nat, state: Health, stopped: set<nat>)

  const FRESH: Core := Core(None, None, 0, Stopped, {})

  /** The opening section of `start`: stop the previous supervisor, swap in new channels, take a generation. */
  function Superseded(c: Core): Core {
    var g := c.runGen + 1;
    Core(Some(g), Some(g), g, Rebuilding, if c.stop.Some? then c.stopped + {c.stop.value} else c.stopped)
  }

  function WithHealth(c: Core, gen: nat, state: Health): Core {
    if c.runGen == gen then c.(state := state) else c
  }

  class SupervisedConsumer {
    var stop: Option<nat>
    var done: Option<nat>
    var runGen: nat
    var state: Health
    var stopped: set<nat>

    function Snapshot(): Core
      reads this
    {
      Core(stop, done, runGen, state, stopped)
    }

    constructor ()
      ensures Snapshot() == FRESH
    {
      stop, done, runGen, state, stopped := None, None, 0, Stopped, {};
    }

    method Supersede() returns (gen: nat, prevDone: Option<nat>)
      modifies this
      ensures Snapshot() == Superseded(old(Snapshot()))
      ensures gen == old(runGen) + 1
      ensures prevDone == if old(stop).Some? then old(done) else None
    {
      prevDone := None;
      if stop.Some? {
        stopped := stopped + {stop.value};
        prevDone := done;
      }
      gen := runGen + 1;
      stop, done := Some(gen), Some(gen);
      runGen := gen;
      state := Rebuilding;
    }

    method SetHealthForGen(gen: nat, health: Health)
      modifies this
      ensures Snapshot() == WithHealth(old(Snapshot()), gen, health)
    {
      if runGen != gen {
        return;
      }
      state := health;
    }

    method MarkStopped()
      modifies this
      ensures Snapshot() == old(Snapshot()).(state := Stopped)
    {
      state := Stopped;
    }
  }
}

/** Every interleaving of starts, supersede waits, aborts, heals, channel deaths and exits of one listener.

    Each start is the goroutine of its generation: it waits for the previous `done`, opens a channel and turns
    into the supervisor. A context that ends is an abort that may happen whenever the code looks for it. A start
    that fails after swapping in its `done` never closes it, as in the code. */
module ConsumerRuns {
  import opened Options
  import opened ConsumerCore

  /** A consumer channel: the generation that opened it and a serial number. */
  type Channel = (nat, nat)

  datatype Phase =
    | Waiting(prev: Option<nat>)
    | Opening
    | Checking(ch: Channel)
    | Failed
    | Starting(ch: Channel)
    | Launched(ch: Channel)
    | Consuming(ch: Channel)
    | Dying
    | Healing
    | HealOpening
    | HealChecking(ch: Channel)
    | Exiting(last: Option<Channel>)
    | Released
    | Quiet
    | Done

  datatype Writer = Nobody | Generation(g: nat) | Shutdown

  /** `passed` are the generations whose supersede wait is over, `timedOut` those whose wait ended by the timer.
      `twice` records the second close of a stop or done channel. */
  datatype State = State(core: Core, phases: map<nat, Phase>, open: set<Channel>, doneClosed: set<nat>,
                         passed: set<nat>, timedOut: set<nat>, writer: Writer, twice: bool)

  const START: State := State(FRESH, map[], {}, {}, {}, {}, Nobody, false)

  datatype Event =
    | Start | SeeDone(g: nat) | TimeOut(g: nat) | AbortWait(g: nat)
    | OpenFails(g: nat) | OpenWorks(g: nat, k: nat) | AbortStart(g: nat)
    | Launch(g: nat) | MarkRunning(g: nat) | Reaffirm(g: nat)
    | SeeStop(g: nat) | LoseChannel(g: nat) | AfterLoss(g: nat, report: bool, connOpen: bool)
    | GiveUpHeal(g: nat) | TryHeal(g: nat) | HealFails(g: nat) | HealOpens(g: nat, k: nat)
    | HealSuperseded(g: nat) | HealWorks(g: nat)
    | Release(g: nat) | MarkExit(g: nat) | CloseDone(g: nat)
    | BrokerCloses(c: Channel) | MarkStopped

  predicate Stop(s: State, g: nat) {
    g in s.core.stopped
  }

  predicate Enabled(s: State, e: Event) {
    match e
    case Start => true
    case SeeDone(g) => g in s.phases && s.phases[g].Waiting?
      && (s.phases[g].prev.Some? ==> s.phases[g].prev.value in s.doneClosed)
    case TimeOut(g) => g in s.phases && s.phases[g].Waiting? && s.phases[g].prev.Some?
    case AbortWait(g) => g in s.phases && s.phases[g].Waiting? && s.phases[g].prev.Some?
    case OpenFails(g) => g in s.phases && s.phases[g].Opening?
    case OpenWorks(g, _) => g in s.phases && s.phases[g].Opening?
    case AbortStart(g) => g in s.phases && s.phases[g].Checking?
    case Launch(g) => g in s.phases && s.phases[g].Checking? && !Stop(s, g)
    case MarkRunning(g) => g in s.phases && s.phases[g].Starting?
    case Reaffirm(g) => g in s.phases && s.phases[g].Launched?
    case SeeStop(g) => g in s.phases && s.phases[g].Consuming?
    case LoseChannel(g) => g in s.phases && s.phases[g].Consuming?
    case AfterLoss(g, _, _) => g in s.phases && s.phases[g].Dying?
    case GiveUpHeal(g) => g in s.phases && s.phases[g].Healing?
    case TryHeal(g) => g in s.phases && s.phases[g].Healing? && !Stop(s, g)
    case HealFails(g) => g in s.phases && s.phases[g].HealOpening?
    case HealOpens(g, _) => g in s.phases && s.phases[g].HealOpening?
    case HealSuperseded(g) => g in s.phases && s.phases[g].HealChecking? && Stop(s, g)
    case HealWorks(g) => g in s.phases && s.phases[g].HealChecking? && !Stop(s, g)
    case Release(g) => g in s.phases && s.phases[g].Exiting?
    case MarkExit(g) => g in s.phases && s.phases[g].Released?
    case CloseDone(g) => g in s.phases && s.phases[g].Quiet?
    case BrokerCloses(_) => true
    case MarkStopped => true
  }

  function To(s: State, g: nat, p: Phase): State {
    s.(phases := s.phases[g := p])
  }

  function Report(s: State, g: nat, health: Health): State {
    s.(core := WithHealth(s.core, g, health), writer := if s.core.runGen == g then Generation(g) else s.writer)
  }

  function Pass(s: State, g: nat): State {
    To(s, g, Opening).(passed := s.passed + {g})
  }

  function DoStart(s: State): State {
    var g := s.core.runGen + 1;
    To(s, g, Waiting(if s.core.stop.Some? then s.core.done else None)).(
      core := Superseded(s.core), writer := Generation(g),
      twice := s.twice || (s.core.stop.Some? && s.core.stop.value in s.core.stopped))
  }

  function ChannelOf(p: Phase): Option<Channel> {
    match p
    case Checking(ch) => Some(ch)
    case Starting(ch) => Some(ch)
    case Launched(ch) => Some(ch)
    case Consuming(ch) => Some(ch)
    case HealChecking(ch) => Some(ch)
    case Exiting(last) => last
    case _ => None
  }

  /** Close the channel that goes with the current phase of `g`, if any. */
  function CloseOwn(s: State, g: nat): State
    requires g in s.phases
  {
    var ch := ChannelOf(s.phases[g]);
    if ch.Some? then s.(open := s.open - {ch.value}) else s
  }

  function Do(s: State, e: Event): State
    requires Enabled(s, e)
  {
    match e
    case Start => DoStart(s)
    case SeeDone(g) => Pass(s, g)
    case TimeOut(g) => Pass(s, g).(timedOut := s.timedOut + {g})
    case AbortWait(g) => Report(To(s, g, Failed), g, Stopped)
    case OpenFails(g) => Report(To(s, g, Failed), g, Stopped)
    case OpenWorks(g, k) => To(s, g, Checking((g, k))).(open := s.open + {(g, k)})
    case AbortStart(g) => Report(To(CloseOwn(s, g), g, Failed), g, Stopped)
    case Launch(g) => To(s, g, Starting(s.phases[g].ch))
    case MarkRunning(g) => Report(To(s, g, Launched(s.phases[g].ch)), g, Running)
    case Reaffirm(g) => Report(To(s, g, Consuming(s.phases[g].ch)), g, Running)
    case SeeStop(g) => To(s, g, Exiting(Some(s.phases[g].ch)))
    case LoseChannel(g) => To(CloseOwn(s, g), g, Dying)
    case AfterLoss(g, report, connOpen) =>
      To(if report then Report(s, g, Rebuilding) else s, g, if connOpen then Healing else Exiting(None))
    case GiveUpHeal(g) => To(s, g, Exiting(None))
    case TryHeal(g) => To(s, g, HealOpening)
    case HealFails(g) => Report(To(s, g, Healing), g, Rebuilding)
    case HealOpens(g, k) => To(s, g, HealChecking((g, k))).(open := s.open + {(g, k)})
    case HealSuperseded(g) => To(CloseOwn(s, g), g, Exiting(None))
    case HealWorks(g) => Report(To(s, g, Consuming(s.phases[g].ch)), g, Running)
    case Release(g) => To(CloseOwn(s, g), g, Released)
    case MarkExit(g) => Report(To(s, g, Quiet), g, Stopped)
    case CloseDone(g) => To(s, g, Done).(doneClosed := s.doneClosed + {g}, twice := s.twice || g in s.doneClosed)
    case BrokerCloses(c) => s.(open := s.open - {c})
    case MarkStopped => s.(core := s.core.(state := Stopped), writer := Shutdown)
  }

  ghost predicate IsPath(states: seq<State>, events: seq<Event>) {
    && |states| == |events| + 1
    && forall i {:trigger events[i]} :: 0 <= i < |events| ==>
         Enabled(states[i], events[i]) && states[i + 1] == Do(states[i], events[i])
  }

  ghost predicate IsRun(states: seq<State>, events: seq<Event>) {
    IsPath(states, events) && states[0] == START
  }

  /** `s` is the last state of some run. */
  ghost predicate Reachable(s: State) {
    exists states, events :: IsRun(states, events) && states[|events|] == s
  }

  // ----- the invariant -----

  /** Launched and not past its last health report. */
  predicate Supervising(p: Phase) {
    || p.Starting? || p.Launched? || p.Consuming? || p.Dying? || p.Healing? || p.HealOpening? || p.HealChecking?
    || p.Exiting? || p.Released?
  }

  predicate HasPassed(p: Phase) {
    !p.Waiting? && !p.Failed?
  }

  /** Generations are numbered without gaps; all but the newest have been told to stop, each once. */
  ghost predicate GenInv(core: Core, phases: map<nat, Phase>, twice: bool) {
    && (forall g :: g in phases <==> 1 <= g <= core.runGen)
    && core.stop == (if core.runGen == 0 then None else Some(core.runGen)) && core.done == core.stop
    && (forall g :: g in core.stopped <==> 1 <= g < core.runGen)
    && (forall g :: g in phases && phases[g].Waiting? ==> phases[g].prev == if g == 1 then None else Some(g - 1))
    && !twice
  }

  /** A closed `done` belongs to a finished supervisor, and only generations past their wait go on. */
  ghost predicate DoneInv(phases: map<nat, Phase>, doneClosed: set<nat>, passed: set<nat>) {
    && (forall g :: g in doneClosed <==> g in phases && phases[g].Done?)
    && (forall g :: g in phases && HasPassed(phases[g]) ==> g in passed)
    && (forall g :: g in passed ==> g in phases && !phases[g].Waiting?)
  }

  predicate TimedOutBetween(timedOut: set<nat>, h: nat, g: nat) {
    exists t | t in timedOut :: h < t <= g
  }

  /** Between a generation past its wait and an older one that is not done there was a timeout. */
  ghost predicate OrderInv(passed: set<nat>, doneClosed: set<nat>, timedOut: set<nat>) {
    forall g, h :: g in passed && 1 <= h < g && h !in doneClosed ==> TimedOutBetween(timedOut, h, g)
  }

  ghost predicate OpenInv(open: set<Channel>, phases: map<nat, Phase>) {
    && (forall c :: c in open ==> c.0 in phases && ChannelOf(phases[c.0]) == Some(c))
    && (forall g :: g in phases && ChannelOf(phases[g]).Some? ==> ChannelOf(phases[g]).value.0 == g)
  }

  /** The health a generation in phase `p` has reported last. */
  predicate Fits(h: Health, p: Phase) {
    match p
    case Waiting(_) => h == Rebuilding
    case Opening => h == Rebuilding
    case Checking(_) => h == Rebuilding
    case Starting(_) => h == Rebuilding
    case Failed => h == Stopped
    case Launched(_) => h == Running
    case Consuming(_) => h == Running
    case Dying => h == Running
    case Quiet => h == Stopped
    case Done => h == Stopped
    case _ => h != Stopped
  }

  ghost predicate FitInv(core: Core, phases: map<nat, Phase>, writer: Writer) {
    writer == Generation(core.runGen) && core.runGen in phases ==> Fits(core.state, phases[core.runGen])
  }

  ghost predicate HealthInv(core: Core, phases: map<nat, Phase>, writer: Writer) {
    && FitInv(core, phases, writer)
    && (writer.Generation? ==> writer.g == core.runGen && core.runGen >= 1)
    && (writer.Nobody? ==> core.runGen == 0)
    && (writer.Shutdown? || writer.Nobody? ==> core.state == Stopped)
    && (core.state == Running ==> core.runGen in phases && Supervising(phases[core.runGen]))
  }

  ghost predicate Inv(s: State) {
    && GenInv(s.core, s.phases, s.twice)
    && DoneInv(s.phases, s.doneClosed, s.passed)
    && OrderInv(s.passed, s.doneClosed, s.timedOut)
    && OpenInv(s.open, s.phases)
    && HealthInv(s.core, s.phases, s.writer)
  }

  // ----- every event keeps it -----

  lemma StartKeeps(s: State)
    requires Inv(s)
    ensures Inv(DoStart(s))
  {
  }

  lemma PassOrders(s: State, g: nat, byTimer: bool)
    requires GenInv(s.core, s.phases, s.twice) && DoneInv(s.phases, s.doneClosed, s.passed)
    requires OrderInv(s.passed, s.doneClosed, s.timedOut)
    requires Enabled(s, if byTimer then TimeOut(g) else SeeDone(g))
    ensures OrderInv(s.passed + {g}, s.doneClosed, if byTimer then s.timedOut + {g} else s.timedOut)
  {
    var timedOut := if byTimer then s.timedOut + {g} else s.timedOut;
    forall f, h | f in s.passed + {g} && 1 <= h < f && h !in s.doneClosed
      ensures TimedOutBetween(timedOut, h, f)
    {
      if f != g {
        assert TimedOutBetween(s.timedOut, h, f);
      } else if !byTimer {
        assert g - 1 in s.passed;
        assert h != g - 1 && TimedOutBetween(s.timedOut, h, g - 1);
      } else {
        assert g in timedOut;
      }
    }
  }

  lemma PassKeeps(s: State, g: nat, byTimer: bool)
    requires Inv(s) && Enabled(s, if byTimer then TimeOut(g) else SeeDone(g))
    ensures Inv(if byTimer then Do(s, TimeOut(g)) else Do(s, SeeDone(g)))
  {
    PassOrders(s, g, byTimer);
    assert OpenInv(s.open, s.phases[g := Opening]) && DoneInv(s.phases[g := Opening], s.doneClosed, s.passed + {g});
  }

  /** The step every other event of generation `g` takes: a new phase, perhaps a health report, and no open
      channel of `g` but the one the new phase holds. */
  function Moved(s: State, g: nat, p: Phase, health: Option<Health>, open: set<Channel>): State {
    var t := To(s, g, p).(open := open);
    if health.Some? then Report(t, g, health.value) else t
  }

  lemma PhaseMoves(core: Core, phases: map<nat, Phase>, twice: bool, doneClosed: set<nat>, passed: set<nat>, g: nat,
                   p: Phase)
    requires GenInv(core, phases, twice) && DoneInv(phases, doneClosed, passed)
    requires g in phases && !phases[g].Done? && !p.Done? && !p.Waiting?
    requires (phases[g].Waiting? ==> p.Failed?) && (HasPassed(p) ==> HasPassed(phases[g]))
    ensures GenInv(core, phases[g := p], twice) && DoneInv(phases[g := p], doneClosed, passed)
  {
  }

  lemma ChannelsMove(open: set<Channel>, after: set<Channel>, phases: map<nat, Phase>, g: nat, p: Phase)
    requires OpenInv(open, phases) && g in phases && (ChannelOf(p).Some? ==> ChannelOf(p).value.0 == g)
    requires forall c :: c in after ==> (c in open && c.0 != g) || ChannelOf(p) == Some(c)
    ensures OpenInv(after, phases[g := p])
  {
  }

  lemma HealthMoves(s: State, g: nat, p: Phase, health: Option<Health>)
    requires HealthInv(s.core, s.phases, s.writer) && g in s.phases
    requires if health.Some? then Fits(health.value, p) else forall h :: Fits(h, s.phases[g]) ==> Fits(h, p)
    requires if health.None? then Supervising(s.phases[g]) ==> Supervising(p)
             else health.value == Running ==> Supervising(p)
    requires s.core.runGen == g ==> g >= 1
    ensures
      var t := Moved(s, g, p, health, s.open);
      HealthInv(t.core, t.phases, t.writer)
  {
  }

  lemma MoveKeeps(s: State, g: nat, p: Phase, health: Option<Health>, open: set<Channel>)
    requires Inv(s) && g in s.phases && !s.phases[g].Done? && !p.Done? && !p.Waiting?
    requires s.phases[g].Waiting? ==> p.Failed?
    requires HasPassed(p) ==> HasPassed(s.phases[g])
    requires ChannelOf(p).Some? ==> ChannelOf(p).value.0 == g
    requires forall c :: c in open ==> (c in s.open && c.0 != g) || ChannelOf(p) == Some(c)
    requires if health.Some? then Fits(health.value, p) else forall h :: Fits(h, s.phases[g]) ==> Fits(h, p)
    requires if health.None? then Supervising(s.phases[g]) ==> Supervising(p)
             else health.value == Running ==> Supervising(p)
    ensures Inv(Moved(s, g, p, health, open))
  {
    PhaseMoves(s.core, s.phases, s.twice, s.doneClosed, s.passed, g, p);
    ChannelsMove(s.open, open, s.phases, g, p);
    HealthMoves(s, g, p, health);
    HealthApart(s.core, s.phases[g := p], s.twice, g, if health.Some? then health.value else s.core.state);
  }

  lemma HealthApart(core: Core, phases: map<nat, Phase>, twice: bool, g: nat, health: Health)
    ensures GenInv(core, phases, twice) ==> GenInv(WithHealth(core, g, health), phases, twice)
  {
  }

  lemma DoneMoves(phases: map<nat, Phase>, doneClosed: set<nat>, passed: set<nat>, timedOut: set<nat>, g: nat)
    requires DoneInv(phases, doneClosed, passed) && OrderInv(passed, doneClosed, timedOut)
    requires g in phases && phases[g].Quiet?
    ensures DoneInv(phases[g := Done], doneClosed + {g}, passed) && OrderInv(passed, doneClosed + {g}, timedOut)
  {
  }

  lemma CloseDoneKeeps(s: State, g: nat)
    requires Inv(s) && Enabled(s, CloseDone(g))
    ensures Inv(Do(s, CloseDone(g)))
  {
    DoneMoves(s.phases, s.doneClosed, s.passed, s.timedOut, g);
    ChannelsMove(s.open, s.open, s.phases, g, Done);
    HealthMoves(s, g, Done, None);
    assert GenInv(s.core, s.phases[g := Done], s.twice);
  }

  lemma OutsideKeeps(s: State, e: Event)
    requires Inv(s) && (e.BrokerCloses? || e.MarkStopped?)
    ensures Inv(Do(s, e))
  {
  }

  predicate OfStart(e: Event) {
    e.AbortWait? || e.OpenFails? || e.OpenWorks? || e.AbortStart? || e.Launch? || e.MarkRunning? || e.Reaffirm?
  }

  lemma StartStepKeeps(s: State, e: Event)
    requires Inv(s) && Enabled(s, e) && OfStart(e)
    ensures Inv(Do(s, e))
  {
    match e
    case AbortWait(g) => MoveKeeps(s, g, Failed, Some(Stopped), s.open);
    case OpenFails(g) => MoveKeeps(s, g, Failed, Some(Stopped), s.open);
    case OpenWorks(g, k) => MoveKeeps(s, g, Checking((g, k)), None, s.open + {(g, k)});
    case AbortStart(g) => MoveKeeps(s, g, Failed, Some(Stopped), s.open - {s.phases[g].ch});
    case Launch(g) => MoveKeeps(s, g, Starting(s.phases[g].ch), None, s.open);
    case MarkRunning(g) => MoveKeeps(s, g, Launched(s.phases[g].ch), Some(Running), s.open);
    case Reaffirm(g) => MoveKeeps(s, g, Consuming(s.phases[g].ch), Some(Running), s.open);
  }

  predicate OfLoop(e: Event) {
    e.SeeStop? || e.LoseChannel? || e.AfterLoss?
  }

  lemma LoopStepKeeps(s: State, e: Event)
    requires Inv(s) && Enabled(s, e) && OfLoop(e)
    ensures Inv(Do(s, e))
  {
    match e
    case SeeStop(g) => MoveKeeps(s, g, Exiting(Some(s.phases[g].ch)), None, s.open);
    case LoseChannel(g) => MoveKeeps(s, g, Dying, None, s.open - {s.phases[g].ch});
    case AfterLoss(g, report, connOpen) =>
      MoveKeeps(s, g, if connOpen then Healing else Exiting(None), if report then Some(Rebuilding) else None, s.open);
  }

  predicate OfExit(e: Event) {
    e.Release? || e.MarkExit? || e.CloseDone?
  }

  lemma ExitStepKeeps(s: State, e: Event)
    requires Inv(s) && Enabled(s, e) && OfExit(e)
    ensures Inv(Do(s, e))
  {
    match e
    case Release(g) =>
      MoveKeeps(s, g, Released, None, if s.phases[g].last.Some? then s.open - {s.phases[g].last.value} else s.open);
    case MarkExit(g) => MoveKeeps(s, g, Quiet, Some(Stopped), s.open);
    case CloseDone(g) => CloseDoneKeeps(s, g);
  }

  predicate OfHeal(e: Event) {
    e.GiveUpHeal? || e.TryHeal? || e.HealFails? || e.HealOpens? || e.HealSuperseded? || e.HealWorks?
  }

  lemma HealStepKeeps(s: State, e: Event)
    requires Inv(s) && Enabled(s, e) && OfHeal(e)
    ensures Inv(Do(s, e))
  {
    match e
    case GiveUpHeal(g) => MoveKeeps(s, g, Exiting(None), None, s.open);
    case TryHeal(g) => MoveKeeps(s, g, HealOpening, None, s.open);
    case HealFails(g) => MoveKeeps(s, g, Healing, Some(Rebuilding), s.open);
    case HealOpens(g, k) => MoveKeeps(s, g, HealChecking((g, k)), None, s.open + {(g, k)});
    case HealSuperseded(g) => MoveKeeps(s, g, Exiting(None), None, s.open - {s.phases[g].ch});
    case HealWorks(g) => MoveKeeps(s, g, Consuming(s.phases[g].ch), Some(Running), s.open);
  }

  lemma StepKeeps(s: State, e: Event)
    requires Inv(s) && Enabled(s, e)
    ensures Inv(Do(s, e))
  {
    if OfStart(e) {
      StartStepKeeps(s, e);
    } else if OfLoop(e) {
      LoopStepKeeps(s, e);
    } else if OfExit(e) {
      ExitStepKeeps(s, e);
    } else if OfHeal(e) {
      HealStepKeeps(s, e);
    } else {
      match e
      case Start => StartKeeps(s);
      case SeeDone(g) => PassKeeps(s, g, false);
      case TimeOut(g) => PassKeeps(s, g, true);
      case BrokerCloses(_) => OutsideKeeps(s, e);
      case MarkStopped => OutsideKeeps(s, e);
    }
  }

  lemma {:induction false} RunKeeps(states: seq<State>, events: seq<Event>, n: nat)
    requires IsRun(states, events) && n < |states|
    ensures Inv(states[n])
  {
    if n > 0 {
      RunKeeps(states, events, n - 1);
      assert Enabled(states[n - 1], events[n - 1]);
      assert states[n - 1 + 1] == Do(states[n - 1], events[n - 1]);
      StepKeeps(states[n - 1], events[n - 1]);
    }
  }

  lemma ReachableKeeps(s: State)
    requires Reachable(s)
    ensures Inv(s)
  {
    var states, events :| IsRun(states, events) && states[|events|] == s;
    RunKeeps(states, events, |events|);
  }

  // ----- continuations -----

  lemma ReachableStep(s: State, e: Event) returns (t: State)
    requires Reachable(s) && Enabled(s, e)
    ensures t == Do(s, e) && Reachable(t)
  {
    t := Do(s, e);
    var states, events :| IsRun(states, events) && states[|events|] == s;
    assert IsRun(states + [t], events + [e]);
  }

  /** Some continuation of `s` arrives at `t`. */
  ghost predicate Leads(s: State, t: State) {
    exists states, events :: IsPath(states, events) && states[0] == s && states[|events|] == t
  }

  lemma LeadsToItself(s: State)
    ensures Leads(s, s)
  {
    assert IsPath([s], []);
  }

  lemma Continue(s: State, t: State, e: Event) returns (u: State)
    requires Reachable(t) && Leads(s, t) && Enabled(t, e)
    ensures u == Do(t, e) && Reachable(u) && Leads(s, u)
  {
    u := ReachableStep(t, e);
    var states, events :| IsPath(states, events) && states[0] == s && states[|events|] == t;
    assert IsPath(states + [u], events + [e]);
  }

  predicate BeforeLaunch(p: Phase) {
    p.Waiting? || p.Opening? || p.Checking?
  }

  predicate Mending(p: Phase) {
    p.Dying? || p.Healing? || p.HealOpening? || p.HealChecking?
  }

  predicate Leaving(p: Phase) {
    p.Exiting? || p.Released? || p.Quiet? || p.Done?
  }

  /** A start that failed, or was told to stop before it launched its supervisor. */
  predicate Lost(s: State, g: nat) {
    g in s.phases && (s.phases[g].Failed? || (Stop(s, g) && BeforeLaunch(s.phases[g])))
  }

  /** A generation that will not consume again. */
  predicate Out(s: State, g: nat) {
    Lost(s, g) || (g in s.phases && (Leaving(s.phases[g]) || (Stop(s, g) && Mending(s.phases[g]))))
  }

  /** An event of another generation, or of none, leaves the phase of `g` and its stop signal alone. */
  lemma OthersLeaveAlone(s: State, e: Event, g: nat)
    requires GenInv(s.core, s.phases, s.twice) && Enabled(s, e) && g in s.phases
    requires e.Start? || e.BrokerCloses? || e.MarkStopped? || e.g != g
    ensures g in Do(s, e).phases && Do(s, e).phases[g] == s.phases[g]
    ensures Stop(s, g) ==> Stop(Do(s, e), g)
  {
  }

  lemma OwnStepStaysOut(s: State, e: Event, g: nat)
    requires Enabled(s, e) && Out(s, g) && !e.Start? && !e.BrokerCloses? && !e.MarkStopped? && e.g == g
    ensures Out(Do(s, e), g) && (Lost(s, g) ==> Lost(Do(s, e), g))
  {
  }

  lemma OutStays(s: State, e: Event, g: nat)
    requires Reachable(s) && Enabled(s, e) && Out(s, g)
    ensures Out(Do(s, e), g) && (Lost(s, g) ==> Lost(Do(s, e), g))
  {
    if e.Start? || e.BrokerCloses? || e.MarkStopped? || e.g != g {
      assert GenInv(s.core, s.phases, s.twice) by {
        ReachableKeeps(s);
      }
      OthersLeaveAlone(s, e, g);
    } else {
      OwnStepStaysOut(s, e, g);
    }
  }

  lemma {:induction false} OutStaysOn(states: seq<State>, events: seq<Event>, n: nat, g: nat)
    requires IsPath(states, events) && n < |states| && Reachable(states[0]) && Out(states[0], g)
    ensures Reachable(states[n]) && Out(states[n], g) && (Lost(states[0], g) ==> Lost(states[n], g))
  {
    if n > 0 {
      OutStaysOn(states, events, n - 1, g);
      assert Enabled(states[n - 1], events[n - 1]);
      assert states[n - 1 + 1] == Do(states[n - 1], events[n - 1]);
      OutStays(states[n - 1], events[n - 1], g);
      var next := ReachableStep(states[n - 1], events[n - 1]);
    }
  }

  /** A generation that was superseded before it launched, or while it was mending its channel, or that is
      leaving, consumes in no continuation. */
  lemma OutNeverConsumes(s: State, g: nat, t: State)
    requires Reachable(s) && Out(s, g) && Leads(s, t)
    ensures g in t.phases && !t.phases[g].Consuming?
  {
    var states, events :| IsPath(states, events) && states[0] == s && states[|events|] == t;
    OutStaysOn(states, events, |events|, g);
  }

  /** An event that brings generation `g` closer to consuming on channel `k`. */
  function Onward(s: State, g: nat, k: nat): Event
    requires g in s.phases
  {
    match s.phases[g]
    case Waiting(prev) => if prev.Some? then TimeOut(g) else SeeDone(g)
    case Opening => OpenWorks(g, k)
    case Checking(_) => Launch(g)
    case Starting(_) => MarkRunning(g)
    case Launched(_) => Reaffirm(g)
    case Dying => AfterLoss(g, true, true)
    case Healing => TryHeal(g)
    case HealOpening => HealOpens(g, k)
    case _ => HealWorks(g)
  }

  function ToGo(p: Phase): nat {
    match p
    case Waiting(_) => 5
    case Opening => 4
    case Checking(_) => 3
    case Starting(_) => 2
    case Launched(_) => 1
    case Dying => 4
    case Healing => 3
    case HealOpening => 2
    case HealChecking(_) => 1
    case _ => 0
  }

  predicate Nearer(s: State, g: nat, e: Event)
    requires g in s.phases && Enabled(s, e)
  {
    var t := Do(s, e);
    && g in t.phases && ToGo(t.phases[g]) < ToGo(s.phases[g]) && !Out(t, g)
    && t.core.runGen == s.core.runGen && t.core.stopped == s.core.stopped
  }

  lemma StartNearer(s: State, g: nat, k: nat)
    requires g in s.phases && !Out(s, g)
    requires BeforeLaunch(s.phases[g]) || s.phases[g].Starting? || s.phases[g].Launched?
    ensures Enabled(s, Onward(s, g, k)) && Nearer(s, g, Onward(s, g, k))
  {
  }

  lemma HealNearer(s: State, g: nat, k: nat)
    requires g in s.phases && Mending(s.phases[g]) && !Out(s, g)
    ensures Enabled(s, Onward(s, g, k)) && Nearer(s, g, Onward(s, g, k))
  {
  }

  lemma {:induction false} CanConsume(s: State, now: State, g: nat, k: nat) returns (t: State)
    requires Reachable(now) && Leads(s, now) && g in now.phases && !Out(now, g)
    ensures Reachable(t) && Leads(s, t) && g in t.phases && t.phases[g].Consuming? && t.core.runGen == now.core.runGen
    decreases ToGo(now.phases[g])
  {
    if now.phases[g].Consuming? {
      t := now;
    } else {
      if Mending(now.phases[g]) {
        HealNearer(now, g, k);
      } else {
        StartNearer(now, g, k);
      }
      var next := Continue(s, now, Onward(now, g, k));
      t := CanConsume(s, next, g, k);
    }
  }

  /** A generation can consume, now or later and with no new start, exactly if it is not out: it has not failed, is
      not leaving, and was not superseded before it launched or while it was mending its channel. */
  lemma ConsumesIff(s: State, g: nat)
    requires Reachable(s) && g in s.phases
    ensures (exists t :: Leads(s, t) && g in t.phases && t.phases[g].Consuming?) <==> !Out(s, g)
    ensures !Out(s, g) ==>
              exists t :: && Leads(s, t) && g in t.phases && t.phases[g].Consuming? && t.core.runGen == s.core.runGen
  {
    if Out(s, g) {
      forall t | Leads(s, t)
        ensures g in t.phases && !t.phases[g].Consuming?
      {
        OutNeverConsumes(s, g, t);
      }
    } else {
      LeadsToItself(s);
      var t := CanConsume(s, s, g, 0);
    }
  }

  /** What puts a generation out: its own failed or aborted start, its own decision to leave, the loss of its channel
      while the connection is down or after it was superseded, or a newer start. The loss of its channel alone or a
      failed attempt to mend it does not. */
  lemma OnlyTheseGiveUp(s: State, e: Event, g: nat)
    requires Reachable(s) && Enabled(s, e) && g in s.phases && !Out(s, g) && Out(Do(s, e), g)
    ensures || e.Start? || e == AbortWait(g) || e == OpenFails(g) || e == AbortStart(g) || e == SeeStop(g)
            || e == GiveUpHeal(g) || (e.AfterLoss? && e.g == g && !e.connOpen) || (e == LoseChannel(g) && Stop(s, g))
  {
    if !e.Start? && (e.BrokerCloses? || e.MarkStopped? || e.g != g) {
      assert GenInv(s.core, s.phases, s.twice) by {
        ReachableKeeps(s);
      }
      OthersLeaveAlone(s, e, g);
      StopsOnlyByStart(s, e);
    } else if !e.Start? {
      OwnGivesUp(s, e, g);
    }
  }

  lemma StopsOnlyByStart(s: State, e: Event)
    requires Enabled(s, e) && !e.Start?
    ensures Do(s, e).core.stopped == s.core.stopped
  {
  }

  lemma OwnGivesUp(s: State, e: Event, g: nat)
    requires Enabled(s, e) && g in s.phases && !Out(s, g) && Out(Do(s, e), g)
    requires !e.Start? && !e.BrokerCloses? && !e.MarkStopped? && e.g == g
    ensures || e == AbortWait(g) || e == OpenFails(g) || e == AbortStart(g) || e == SeeStop(g)
            || e == GiveUpHeal(g) || (e.AfterLoss? && !e.connOpen) || (e == LoseChannel(g) && Stop(s, g))
  {
  }

  /** In particular a supervisor that lost its channel can consume again, with no new start, exactly if the
      connection is open and it has not been superseded. */
  lemma HealsIffConnectionOpen(s: State, g: nat, report: bool, connOpen: bool)
    requires Reachable(s) && Enabled(s, AfterLoss(g, report, connOpen))
    ensures
      var t := Do(s, AfterLoss(g, report, connOpen));
      (exists u :: Leads(t, u) && g in u.phases && u.phases[g].Consuming?) <==> connOpen && !Stop(s, g)
  {
    var t := ReachableStep(s, AfterLoss(g, report, connOpen));
    ConsumesIff(t, g);
  }

  /** An event that brings generation `g` closer to closing its `done`. */
  function Toward(s: State, g: nat): Event
    requires g in s.phases
  {
    match s.phases[g]
    case Waiting(prev) => if prev.Some? then TimeOut(g) else SeeDone(g)
    case Opening => OpenWorks(g, 0)
    case Checking(_) => Launch(g)
    case Starting(_) => MarkRunning(g)
    case Launched(_) => Reaffirm(g)
    case Consuming(_) => SeeStop(g)
    case Dying => AfterLoss(g, false, false)
    case Healing => GiveUpHeal(g)
    case HealOpening => HealFails(g)
    case HealChecking(_) => if Stop(s, g) then HealSuperseded(g) else HealWorks(g)
    case Exiting(_) => Release(g)
    case Released => MarkExit(g)
    case _ => CloseDone(g)
  }

  function Distance(p: Phase): nat {
    match p
    case Waiting(_) => 12
    case Opening => 11
    case Checking(_) => 10
    case Starting(_) => 9
    case Launched(_) => 8
    case HealChecking(_) => 7
    case HealOpening => 6
    case Consuming(_) => 5
    case Dying => 5
    case Healing => 5
    case Exiting(_) => 3
    case Released => 2
    case Quiet => 1
    case _ => 0
  }

  predicate Advances(s: State, g: nat, e: Event)
    requires g in s.phases && Enabled(s, e)
  {
    var t := Do(s, e);
    g in t.phases && Distance(t.phases[g]) < Distance(s.phases[g]) && !Lost(t, g)
  }

  lemma StartAdvances(s: State, g: nat)
    requires g in s.phases && Distance(s.phases[g]) >= 8 && !Lost(s, g)
    ensures Enabled(s, Toward(s, g)) && Advances(s, g, Toward(s, g))
  {
  }

  lemma SupervisorAdvances(s: State, g: nat)
    requires g in s.phases && 3 < Distance(s.phases[g]) < 8
    ensures Enabled(s, Toward(s, g)) && Advances(s, g, Toward(s, g))
  {
  }

  lemma ExitAdvances(s: State, g: nat)
    requires g in s.phases && 0 < Distance(s.phases[g]) <= 3
    ensures Enabled(s, Toward(s, g)) && Advances(s, g, Toward(s, g))
  {
  }

  lemma TowardAdvances(s: State, g: nat)
    requires g in s.phases && !s.phases[g].Done? && !Lost(s, g)
    ensures Enabled(s, Toward(s, g)) && Advances(s, g, Toward(s, g))
  {
    var d := Distance(s.phases[g]);
    if d >= 8 {
      StartAdvances(s, g);
    } else if d > 3 {
      SupervisorAdvances(s, g);
    } else {
      ExitAdvances(s, g);
    }
  }

  lemma {:induction false} CanFinish(s: State, t: State, g: nat) returns (u: State)
    requires Reachable(t) && Leads(s, t) && g in t.phases && !Lost(t, g)
    ensures Leads(s, u) && g in u.doneClosed
    decreases Distance(t.phases[g])
  {
    if t.phases[g].Done? {
      u := t;
      assert DoneInv(t.phases, t.doneClosed, t.passed) by {
        ReachableKeeps(t);
      }
    } else {
      TowardAdvances(t, g);
      var next := Continue(s, t, Toward(t, g));
      u := CanFinish(s, next, g);
    }
  }

  /** The `done` of a generation can still be closed, so that its successor need not time out, exactly if its start
      has not failed and was not superseded before it launched. */
  lemma DoneClosesIff(s: State, g: nat)
    requires Reachable(s) && g in s.phases
    ensures (exists t :: Leads(s, t) && g in t.doneClosed) <==> !Lost(s, g)
  {
    if Lost(s, g) {
      forall t | Leads(s, t)
        ensures g !in t.doneClosed
      {
        LostNeverCloses(s, g, t);
      }
    } else {
      LeadsToItself(s);
      var t := CanFinish(s, s, g);
    }
  }

  lemma LostNeverCloses(s: State, g: nat, t: State)
    requires Reachable(s) && Lost(s, g) && Leads(s, t)
    ensures g !in t.doneClosed
  {
    var states, events :| IsPath(states, events) && states[0] == s && states[|events|] == t;
    OutStaysOn(states, events, |events|, g);
    assert DoneInv(t.phases, t.doneClosed, t.passed) by {
      ReachableKeeps(t);
    }
  }

  // ----- counting -----

  ghost predicate Separated(holders: set<nat>, timeouts: set<nat>) {
    forall g, h :: g in holders && h in holders && h < g ==> TimedOutBetween(timeouts, h, g)
  }

  lemma {:induction false} Largest(xs: set<nat>) returns (m: nat)
    requires xs != {}
    ensures m in xs && forall x :: x in xs ==> x <= m
    decreases |xs|
  {
    var x :| x in xs;
    m := x;
    if xs != {x} {
      assert xs - {x} != {};
      var rest := Largest(xs - {x});
      m := if rest > x then rest else x;
      assert forall y :: y in xs ==> y == x || y in xs - {x};
    }
  }

  lemma {:induction false} SeparatedBound(holders: set<nat>, timeouts: set<nat>)
    requires Separated(holders, timeouts)
    ensures |holders| <= 1 + |timeouts|
    decreases |holders|
  {
    if holders != {} {
      var g := Largest(holders);
      var rest := holders - {g};
      if rest != {} {
        var h := Largest(rest);
        assert TimedOutBetween(timeouts, h, g);
        var t :| t in timeouts && h < t <= g;
        var below := set x | x in timeouts && x <= h;
        forall a, b | a in rest && b in rest && b < a
          ensures TimedOutBetween(below, b, a)
        {
          assert TimedOutBetween(timeouts, b, a);
          var u :| u in timeouts && b < u <= a;
          assert u in below;
        }
        SeparatedBound(rest, below);
        assert below <= timeouts - {t};
        Subset(below, timeouts - {t});
      } else {
        assert holders == {g};
      }
    }
  }

  lemma {:induction false} Subset(a: set<nat>, b: set<nat>)
    requires a <= b
    ensures |a| <= |b|
    decreases |a|
  {
    if a != {} {
      var x :| x in a;
      Subset(a - {x}, b - {x});
    }
  }

  lemma {:induction false} OwnersCount(open: set<Channel>) returns (owners: set<nat>)
    requires forall c, d :: c in open && d in open && c.0 == d.0 ==> c == d
    ensures owners == (set c | c in open :: c.0)
    ensures |owners| == |open|
    decreases |open|
  {
    owners := set c | c in open :: c.0;
    if open != {} {
      var c :| c in open;
      var rest := OwnersCount(open - {c});
      assert owners == rest + {c.0};
      assert c.0 !in rest;
    }
  }

  // ----- main results -----

  /** The open consumer channels of one listener number at most one plus the supersede waits that timed out. */
  lemma BoundedOverlap(s: State)
    requires Reachable(s)
    ensures |s.open| <= 1 + |s.timedOut|
    ensures s.timedOut == {} ==> forall c, d :: c in s.open && d in s.open ==> c == d
  {
    ReachableKeeps(s);
    var owners := OwnersCount(s.open);
    forall g, h | g in owners && h in owners && h < g
      ensures TimedOutBetween(s.timedOut, h, g)
    {
      assert g in s.passed;
      assert h !in s.doneClosed;
    }
    SeparatedBound(owners, s.timedOut);
    forall c, d | s.timedOut == {} && c in s.open && d in s.open
      ensures c == d
    {
      assert c.0 in owners && d.0 in owners;
      assert !TimedOutBetween(s.timedOut, c.0, d.0) && !TimedOutBetween(s.timedOut, d.0, c.0);
    }
  }

  /** What matters of a listener whose starts never saw their predecessor leave. */
  ghost predicate Crowded(s: State, n: nat) {
    && s.core.runGen == n + 1 && s.core.stop == Some(n + 1) && s.core.done == Some(n + 1)
    && |s.timedOut| == n && |s.open| == n + 1
    && (forall g :: g in s.timedOut ==> g <= n + 1)
    && (forall c :: c in s.open ==> c.0 <= n + 1)
  }

  lemma FirstConsumer() returns (s: State)
    ensures Reachable(s) && Crowded(s, 0)
  {
    assert IsRun([START], []);
    s := ReachableStep(START, Start);
    s := ReachableStep(s, SeeDone(1));
    s := ReachableStep(s, OpenWorks(1, 0));
    assert s.open == {(1, 0)};
  }

  lemma NextStartTimesOut(s: State, n: nat) returns (t: State)
    requires Reachable(s) && Crowded(s, n)
    ensures Reachable(t) && t.core == Superseded(s.core) && t.open == s.open && t.timedOut == s.timedOut + {n + 2}
    ensures Enabled(t, OpenWorks(n + 2, 0))
  {
    t := ReachableStep(s, Start);
    t := ReachableStep(t, TimeOut(n + 2));
  }

  /** The bound is exact: any number of timeouts can leave that many consumers beside the newest one. */
  lemma {:induction false} OverlapBoundIsTight(n: nat) returns (s: State)
    ensures Reachable(s) && |s.timedOut| == n && |s.open| == 1 + n
    ensures Crowded(s, n)
  {
    if n == 0 {
      s := FirstConsumer();
    } else {
      var before := OverlapBoundIsTight(n - 1);
      var waited := NextStartTimesOut(before, n - 1);
      s := ReachableStep(waited, OpenWorks(n + 1, 0));
      assert n + 1 !in before.timedOut && (n + 1, 0) !in before.open;
    }
  }

  /** A start that failed after taking over leaves its `done` open for ever: its successor can only get past it
      by timing out. */
  lemma FailedStartForcesTimeout(s: State, g: nat)
    requires Reachable(s) && g in s.phases && s.phases[g].Failed?
    ensures g !in s.doneClosed
    ensures g + 1 in s.passed ==> g + 1 in s.timedOut
    ensures g + 1 in s.phases ==> !Enabled(s, SeeDone(g + 1))
  {
    ReachableKeeps(s);
    if g + 1 in s.passed {
      assert TimedOutBetween(s.timedOut, g, g + 1);
    }
  }

  /** Older generations have been told to stop and the newest has not; no channel is closed twice; health was
      last written by the newest generation or by the shutdown; and "running" means that the newest
      generation is supervising and has not closed its `done`. */
  lemma GenerationOwnership(s: State)
    requires Reachable(s)
    ensures forall g :: 1 <= g < s.core.runGen ==> g in s.core.stopped
    ensures s.core.runGen !in s.core.stopped && !s.twice
    ensures s.writer == Shutdown || s.writer == (if s.core.runGen == 0 then Nobody else Generation(s.core.runGen))
    ensures s.core.state == Running ==>
              && s.writer == Generation(s.core.runGen) && s.core.runGen in s.phases
              && Supervising(s.phases[s.core.runGen]) && s.core.runGen !in s.doneClosed
  {
    ReachableKeeps(s);
  }

  /** Health tells the phase of the newest generation: what `Fits` says, unless the shutdown wrote last. A report
      of a loss or of a failed rebuild shows as rebuilding. */
  lemma HealthIsAccurate(s: State)
    requires Reachable(s)
    ensures if s.writer == Generation(s.core.runGen)
            then s.core.runGen in s.phases && Fits(s.core.state, s.phases[s.core.runGen])
            else s.core.state == Stopped
    ensures forall g, connOpen :: Enabled(s, AfterLoss(g, true, connOpen)) && g == s.core.runGen ==>
              Do(s, AfterLoss(g, true, connOpen)).core.state == Rebuilding
    ensures forall g :: Enabled(s, HealFails(g)) && g == s.core.runGen ==> Do(s, HealFails(g)).core.state == Rebuilding
  {
    ReachableKeeps(s);
  }

  /** An open channel belongs to exactly one generation that is past its wait and not done. */
  lemma ChannelOwnership(s: State, c: Channel)
    requires Reachable(s) && c in s.open
    ensures c.0 in s.phases && ChannelOf(s.phases[c.0]) == Some(c) && c.0 in s.passed && c.0 !in s.doneClosed
    ensures forall d :: d in s.open && d.0 == c.0 ==> d == c
  {
    ReachableKeeps(s);
  }

  /** A start that fails or is aborted leaves no channel behind and, if it is the newest, shows as stopped; a lost
      channel is closed before anything else; and the shutdown forces stopped. */
  lemma FailuresLeaveClean(s: State, e: Event)
    requires Reachable(s) && Enabled(s, e)
    ensures e.AbortWait? || e.OpenFails? || e.AbortStart? ==>
              && e.g in Do(s, e).phases && Do(s, e).phases[e.g].Failed? && (forall k :: (e.g, k) !in Do(s, e).open)
              && (e.g == s.core.runGen ==> Do(s, e).core.state == Stopped)
    ensures e.LoseChannel? ==>
              e.g in Do(s, e).phases && Do(s, e).phases[e.g].Dying? && forall k :: (e.g, k) !in Do(s, e).open
    ensures e.MarkStopped? ==> Do(s, e).core.state == Stopped && Do(s, e).writer == Shutdown
    ensures e.BrokerCloses? ==> Do(s, e).open == s.open - {e.c}
  {
    assert OpenInv(s.open, s.phases) by {
      ReachableKeeps(s);
    }
    if e.AbortWait? || e.OpenFails? || e.AbortStart? || e.LoseChannel? {
      OnlyOwnChannel(s, e.g);
    }
  }

  /** The open channels of `g` are at most the one of its phase. */
  lemma OnlyOwnChannel(s: State, g: nat)
    requires OpenInv(s.open, s.phases) && g in s.phases
    ensures forall k :: (g, k) in s.open ==> ChannelOf(s.phases[g]) == Some((g, k))
  {
    forall k | (g, k) in s.open
      ensures ChannelOf(s.phases[g]) == Some((g, k))
    {
      var c := (g, k);
      assert c in s.open && c.0 == g;
    }
  }
}
