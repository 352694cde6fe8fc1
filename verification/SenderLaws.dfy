/** What each step around the sender may and may not do, over every reachable state of `SenderRuns`: who can move a
    channel out of step, who can take a waiter off the books, and what an outcome tells about the message. */
module SenderLaws {
  import opened Options
  import opened SenderCore
  import opened SenderRuns

  // ----- who moves a channel out of step -----

  /** From `s` to `t` no live drain and no notification is booked on a channel known in `s`, unless allowed. */
  ghost predicate CountersKept(s: State, t: State, drains: bool, notifies: bool) {
    forall c :: c in s.ledgers ==>
      && c in t.ledgers
      && (!drains ==> t.ledgers[c].cut == s.ledgers[c].cut)
      && (!notifies ==> t.ledgers[c].notes == s.ledgers[c].notes)
  }

  lemma SlotCounters(s: State, e: Event)
    requires UnderSlot(e) && SlotEnabled(s, e)
    ensures CountersKept(s, DoSlot(s, e), false, false) && DoSlot(s, e).ledgers.Keys == s.ledgers.Keys
  {
  }

  lemma WaiterCounters(s: State, e: Event)
    requires ByWaiter(e) && WaiterEnabled(s, e)
    ensures CountersKept(s, DoWaiter(s, e), false, e.PublishNote?) && DoWaiter(s, e).ledgers.Keys == s.ledgers.Keys
  {
  }

  lemma OpeningCounters(s: State, e: Event)
    requires ByOpening(e) && OpeningEnabled(s, e)
    ensures CountersKept(s, DoOpening(s, e), false, false)
    ensures forall c :: c in DoOpening(s, e).ledgers && c !in s.ledgers ==> DoOpening(s, e).ledgers[c] == OPENED
  {
  }

  /** The drain of a dead channel is no live drain. */
  lemma DeadDrain(s: State)
    requires !Live(s, s.core.ch)
    ensures CountersKept(s, DoDrain(s), false, false)
  {
  }

  lemma DrainCounters(s: State)
    ensures CountersKept(s, DoDrain(s), true, false) && DoDrain(s).ledgers.Keys == s.ledgers.Keys
  {
  }

  /** A watcher drains only its own generation, whose channel is dead by then. */
  lemma SeeCloseCounters(s: State, g: nat)
    requires GenOk(s) && CanSeeClose(s, g)
    ensures CountersKept(s, DoSeeClose(s, g), false, false) && DoSeeClose(s, g).ledgers.Keys == s.ledgers.Keys
  {
    if s.core.gen == g {
      DeadDrain(s);
      DrainCounters(s);
    }
  }

  lemma OtherCounters(s: State, e: Event)
    requires GenOk(s) && !UnderSlot(e) && !ByWaiter(e) && !ByOpening(e) && !BySwap(e) && OtherEnabled(s, e)
    ensures CountersKept(s, DoOther(s, e), e.Drain?, false) && DoOther(s, e).ledgers.Keys == s.ledgers.Keys
  {
    if e.SeeClose? {
      SeeCloseCounters(s, e.gen);
    } else if e.Drain? {
      DrainCounters(s);
    }
  }

  /** Only `Reconnect` drains a live channel and only a notification is published without a tag: no other step of
      any goroutine, superseded watchers included, moves the counter of a live channel away from the broker's. A
      new channel begins in step. */
  lemma OnlyTwoCausesOfSkew(s: State, e: Event)
    requires Reachable(s) && Enabled(s, e)
    ensures CountersKept(s, Do(s, e), e.Drain?, e.PublishNote?)
    ensures forall c :: c in Do(s, e).ledgers && c !in s.ledgers ==> Do(s, e).ledgers[c] == OPENED
  {
    assert GenOk(s) by {
      ReachableKeeps(s);
    }
    if UnderSlot(e) {
      SlotCounters(s, e);
    } else if ByWaiter(e) {
      WaiterCounters(s, e);
    } else if ByOpening(e) {
      OpeningCounters(s, e);
    } else if BySwap(e) {
      assert DoSwap(s, e).ledgers == s.ledgers;
    } else {
      OtherCounters(s, e);
    }
  }

  ghost predicate AllClean(s: State) {
    forall c :: c in s.ledgers ==> Clean(s.ledgers[c])
  }

  ghost predicate NoSkewBefore(events: seq<Event>, n: nat) {
    n <= |events| && forall i :: 0 <= i < n ==> !events[i].Drain? && !events[i].PublishNote?
  }

  lemma {:induction false} StaysClean(states: seq<State>, events: seq<Event>, n: nat)
    requires IsRun(states, events) && n < |states| && NoSkewBefore(events, n)
    ensures Reachable(states[n]) && AllClean(states[n])
  {
    if n == 0 {
      assert IsRun([START], []);
    } else {
      StaysClean(states, events, n - 1);
      var s, e := states[n - 1], events[n - 1];
      assert Enabled(s, e) && states[n - 1 + 1] == Do(s, e);
      var t := ReachableStep(s, e);
      OnlyTwoCausesOfSkew(s, e);
      forall c | c in t.ledgers
        ensures Clean(t.ledgers[c])
      {
        assert c in s.ledgers ==> Clean(s.ledgers[c]);
      }
    }
  }

  /** In every run without notifications and without a `Reconnect` of a live channel, a send that got the broker's
      answer got the answer to its own message, and no waiting send is stranded while its channel lives. */
  lemma CleanRunsAreSound(states: seq<State>, events: seq<Event>, n: nat, id: nat)
    requires IsRun(states, events) && n < |states| && NoSkewBefore(events, n) && id in states[n].sends
    ensures AnsweredByBroker(states[n], id) ==>
              && id in states[n].tickets && id in states[n].places && states[n].tickets[id].ch.Some?
              && var place := (states[n].tickets[id].ch.value, states[n].places[id]);
                 place in states[n].acks && states[n].acks[place] == states[n].sends[id].result.Acked?
    ensures Unanswered(states[n], id) ==>
              && id in states[n].tickets && states[n].tickets[id].ch.Some?
              && (states[n].tickets[id].ch.value in states[n].alive ==>
                    exists t :: Leads(states[n], t) && AnsweredByBroker(t, id))
  {
    StaysClean(states, events, n);
    var s := states[n];
    if AnsweredByBroker(s, id) {
      ConfirmSoundness(s, id);
    }
    if Unanswered(s, id) {
      NoStrandedWaiter(s, id);
      StrandedIffUnanswerable(s, id);
    }
  }

  // ----- who takes a waiter off the books -----

  /** A pending entry on a live channel leaves the map only when its own send gives up, when the current watcher
      dispatches its tag, or when everybody is failed by `Reconnect` or by the installation of the next channel. */
  lemma PendingLeavesOnlyBy(s: State, e: Event, tag: nat)
    requires Reachable(s) && Enabled(s, e) && tag in s.core.pending && Live(s, s.core.ch)
    requires !Owns(Do(s, e).core, tag, s.core.pending[tag])
    ensures || e == Rollback(s.core.pending[tag]) || e == Expire(s.core.pending[tag])
            || e == Take(s.core.gen, tag) || e.Drain? || e.Install?
  {
    assert PendingOk(s) && PhaseOk(s) && GenOk(s) by {
      ReachableKeeps(s);
    }
    if UnderSlot(e) {
      SlotLeaves(s, e, tag);
    } else if ByWaiter(e) {
      WaiterLeaves(s, e, tag);
    } else if !ByOpening(e) && !BySwap(e) {
      OtherLeaves(s, e, tag);
    }
  }

  lemma SlotLeaves(s: State, e: Event, tag: nat)
    requires PendingOk(s) && UnderSlot(e) && SlotEnabled(s, e) && tag in s.core.pending
    ensures Owns(DoSlot(s, e).core, tag, s.core.pending[tag]) || e == Rollback(s.core.pending[tag])
  {
  }

  lemma WaiterLeaves(s: State, e: Event, tag: nat)
    requires PendingOk(s) && ByWaiter(e) && WaiterEnabled(s, e) && tag in s.core.pending
    ensures Owns(DoWaiter(s, e).core, tag, s.core.pending[tag]) || e == Expire(s.core.pending[tag])
  {
  }

  lemma OtherLeaves(s: State, e: Event, tag: nat)
    requires GenOk(s) && Live(s, s.core.ch) && tag in s.core.pending
    requires !UnderSlot(e) && !ByWaiter(e) && !ByOpening(e) && !BySwap(e) && OtherEnabled(s, e)
    ensures Owns(DoOther(s, e).core, tag, s.core.pending[tag]) || e == Take(s.core.gen, tag) || e.Drain?
  {
  }

  // ----- what is on the books -----

  ghost predicate BooksInv(sends: map<nat, Phase>, pending: map<nat, nat>, inbox: map<nat, Result>,
                           watchers: map<nat, Watcher>)
  {
    && (forall tag :: tag in pending ==> pending[tag] in sends && Open(sends[pending[tag]]))
    && (forall id :: id in inbox ==> inbox[id] != ContextDone)
    && (forall g :: g in watchers && watchers[g].InHand? ==> ByBroker(watchers[g].value))
  }

  ghost predicate BooksOk(s: State) {
    BooksInv(s.sends, s.core.pending, s.core.inbox, s.watchers)
  }

  lemma SlotBooks(s: State, e: Event)
    requires BooksOk(s) && PendingOk(s) && PhaseOk(s) && UnderSlot(e) && SlotEnabled(s, e)
    ensures BooksOk(DoSlot(s, e))
  {
  }

  lemma WaiterBooks(s: State, e: Event)
    requires BooksOk(s) && PendingOk(s) && PhaseOk(s) && InboxOk(s) && ByWaiter(e) && WaiterEnabled(s, e)
    ensures BooksOk(DoWaiter(s, e))
  {
  }

  lemma DrainedBooks(c: Core)
    requires forall id :: id in c.inbox ==> c.inbox[id] != ContextDone
    ensures forall id :: id in Drained(c).inbox ==> Drained(c).inbox[id] != ContextDone
  {
    forall id | id in Drained(c).inbox
      ensures Drained(c).inbox[id] != ContextDone
    {
      DrainedAt(c, id);
    }
  }

  lemma SwappedBooks(s: State, made: nat)
    requires BooksOk(s)
    ensures BooksOk(Swapped(s, made))
  {
    DrainedBooks(s.core);
    var t := Swapped(s, made);
    assert t.core.inbox == Drained(s.core).inbox && t.core.pending == map[] && t.watchers == s.watchers;
  }

  lemma InstallBooks(s: State)
    requires BooksOk(s) && s.rebuild.Checked?
    ensures BooksOk(DoInstall(s))
  {
    if DoInstall(s).rebuild.Discarding? {
      assert DoInstall(s) == s.(rebuild := Discarding(s.rebuild.made));
    } else {
      SwappedBooks(s, s.rebuild.made);
      assert DoInstall(s) == Swapped(s, s.rebuild.made);
    }
  }

  lemma SwapBooks(s: State, e: Event)
    requires BooksOk(s) && BySwap(e) && SwapEnabled(s, e)
    ensures BooksOk(DoSwap(s, e))
  {
    match e
    case Install => InstallBooks(s);
    case Spawn => assert BooksOk(DoSpawn(s));
    case _ =>
  }

  lemma OtherBooks(s: State, e: Event)
    requires BooksOk(s) && !UnderSlot(e) && !ByWaiter(e) && !ByOpening(e) && !BySwap(e) && OtherEnabled(s, e)
    ensures BooksOk(DoOther(s, e))
  {
  }

  lemma StepKeepsBooks(s: State, e: Event)
    requires Reachable(s) && BooksOk(s) && Enabled(s, e)
    ensures BooksOk(Do(s, e))
  {
    assert PendingOk(s) && PhaseOk(s) && InboxOk(s) by {
      ReachableKeeps(s);
    }
    if UnderSlot(e) {
      SlotBooks(s, e);
    } else if ByWaiter(e) {
      WaiterBooks(s, e);
    } else if BySwap(e) {
      SwapBooks(s, e);
    } else if !ByOpening(e) {
      OtherBooks(s, e);
    }
  }

  lemma {:induction false} RunKeepsBooks(states: seq<State>, events: seq<Event>, n: nat)
    requires IsRun(states, events) && n < |states|
    ensures Reachable(states[n]) && BooksOk(states[n])
  {
    if n == 0 {
      assert IsRun([START], []);
    } else {
      RunKeepsBooks(states, events, n - 1);
      assert Enabled(states[n - 1], events[n - 1]);
      assert states[n - 1 + 1] == Do(states[n - 1], events[n - 1]);
      StepKeepsBooks(states[n - 1], events[n - 1]);
      var t := ReachableStep(states[n - 1], events[n - 1]);
    }
  }

  /** The pending map holds exactly the open sends that have no answer in their channel and none in a watcher's
      hand, each under its own tag: nothing leaks and nobody is forgotten. */
  lemma PendingIsExact(s: State, id: nat)
    requires Reachable(s) && id in s.tickets
    ensures Owns(s.core, s.tickets[id].tag, id) <==>
            id in s.sends && Open(s.sends[id]) && id !in s.core.inbox && !Held(s.watchers, id)
    ensures forall tag :: Owns(s.core, tag, id) ==> tag == s.tickets[id].tag
  {
    var states, events :| IsRun(states, events) && states[|events|] == s;
    RunKeepsBooks(states, events, |events|);
    assert PhaseOk(s) && PendingOk(s) && HandOk(s) && InboxOk(s) && OwedOk(s) by {
      ReachableKeeps(s);
    }
  }

  /** What an outcome tells: a refused send was never published, any other outcome means it was; and the context
      error is returned only by a send whose own context ended. */
  lemma OutcomeTells(s: State, e: Event, id: nat)
    requires Reachable(s) && Enabled(s, e) && id in Do(s, e).sends
    ensures Do(s, e).sends[id].Refused? ==> id !in Do(s, e).places
    ensures Do(s, e).sends[id].Finished? ==> id in Do(s, e).places
    ensures Do(s, e).sends[id] == Finished(ContextDone) <==>
            e == Expire(id) || (id in s.sends && s.sends[id] == Finished(ContextDone))
    ensures e == Receive(id) ==> Do(s, e).sends[id] == Finished(s.core.inbox[id])
  {
    var t := ReachableStep(s, e);
    assert PhaseOk(t) by {
      ReachableKeeps(t);
    }
    var states, events :| IsRun(states, events) && states[|events|] == s;
    RunKeepsBooks(states, events, |events|);
    if UnderSlot(e) || ByWaiter(e) {
      SendsMove(s, e, id);
    } else if ByOpening(e) {
      OpeningSends(s, e);
    } else if BySwap(e) {
      assert DoSwap(s, e).sends == s.sends;
    } else {
      OtherSends(s, e);
    }
  }

  lemma SendsMove(s: State, e: Event, id: nat)
    requires BooksOk(s) && ((UnderSlot(e) && SlotEnabled(s, e)) || (ByWaiter(e) && WaiterEnabled(s, e)))
    ensures
      var t := if UnderSlot(e) then DoSlot(s, e) else DoWaiter(s, e);
      && ((id in t.sends && t.sends[id] == Finished(ContextDone)) <==>
            e == Expire(id) || (id in s.sends && s.sends[id] == Finished(ContextDone)))
      && (e == Receive(id) ==> id in t.sends && t.sends[id] == Finished(s.core.inbox[id]))
  {
  }

  lemma OpeningSends(s: State, e: Event)
    requires ByOpening(e) && OpeningEnabled(s, e)
    ensures DoOpening(s, e).sends == s.sends
  {
  }

  lemma OtherSends(s: State, e: Event)
    requires !UnderSlot(e) && !ByWaiter(e) && !ByOpening(e) && !BySwap(e) && OtherEnabled(s, e)
    ensures DoOther(s, e).sends == s.sends
  {
  }

  // ----- how a rebuild decides -----

  predicate MayRebuild(s: State, requireOpen: bool) {
    requireOpen ==> s.connOpen
  }

  lemma OpensIff(s: State)
    requires s.rebuild.Begun?
    ensures DoFirstCheck(s).rebuild.Opening? <==>
            s.core.gen == s.rebuild.expected && MayRebuild(s, s.rebuild.requireOpen)
  {
  }

  lemma GoesOnIff(s: State)
    requires s.rebuild.Opened?
    ensures DoLookClosed(s).rebuild == if s.rebuild.made in s.alive
                                       then Checked(s.rebuild.expected, s.rebuild.requireOpen, s.rebuild.made)
                                       else Discarding(s.rebuild.made)
  {
  }

  lemma InstallsIff(s: State)
    requires GenOk(s) && RebuildOk(s) && s.rebuild.Checked?
    ensures if MayRebuild(s, s.rebuild.requireOpen)
            then DoInstall(s).core.ch == Some(s.rebuild.made) && DoInstall(s).core.gen == s.core.gen + 1
            else DoInstall(s).core == s.core && DoInstall(s).rebuild == Discarding(s.rebuild.made)
  {
  }

  /** A rebuild opens a channel iff its generation is current and the connection, if required, is up; it goes on
      with the fresh channel iff that is alive; and it installs it, as the next generation, iff the connection, if
      required, is still up. */
  lemma RebuildDecides(s: State)
    requires Reachable(s)
    ensures s.rebuild.Begun? ==>
              (DoFirstCheck(s).rebuild.Opening? <==>
                 s.core.gen == s.rebuild.expected && MayRebuild(s, s.rebuild.requireOpen))
    ensures s.rebuild.Opened? ==> (DoLookClosed(s).rebuild.Checked? <==> s.rebuild.made in s.alive)
    ensures s.rebuild.Checked? ==>
              if MayRebuild(s, s.rebuild.requireOpen)
              then DoInstall(s).core.ch == Some(s.rebuild.made) && DoInstall(s).core.gen == s.core.gen + 1
              else DoInstall(s).core == s.core && DoInstall(s).rebuild == Discarding(s.rebuild.made)
  {
    if s.rebuild.Begun? {
      OpensIff(s);
    } else if s.rebuild.Opened? {
      GoesOnIff(s);
    } else if s.rebuild.Checked? {
      assert GenOk(s) && RebuildOk(s) by {
        ReachableKeeps(s);
      }
      InstallsIff(s);
    }
  }

  // ----- everything under way can end -----

  predicate Returned(p: Phase) {
    p.Finished? || p.Refused? || p.NoteDone?
  }

  /** The next step of a send or notification that waits for nobody. */
  function Returning(p: Phase, id: nat): Event {
    if p.Tagged? then Rollback(id) else if p.Waiting? then Expire(id) else Release(id)
  }

  function StepsLeft(p: Phase): nat {
    match p
    case Tagged => 2
    case Undone => 1
    case Published => 2
    case Waiting => 1
    case NoteReady(_) => 1
    case NoteSent => 1
    case _ => 0
  }

  lemma RollbackReturns(s: State, id: nat)
    requires PhaseOk(s) && id in s.sends && s.sends[id].Tagged?
    ensures SlotEnabled(s, Rollback(id)) && DoSlot(s, Rollback(id)).sends == s.sends[id := Undone]
  {
  }

  lemma ReleaseReturns(s: State, id: nat)
    requires id in s.sends && HasSlot(s.sends[id]) && !s.sends[id].Tagged?
    ensures SlotEnabled(s, Release(id)) && id in DoSlot(s, Release(id)).sends
    ensures StepsLeft(DoSlot(s, Release(id)).sends[id]) < StepsLeft(s.sends[id])
  {
    ReleaseOutcome(s, id);
    assert DoSlot(s, Release(id)) == DoRelease(s, id);
  }

  lemma ReleaseOutcome(s: State, id: nat)
    requires id in s.sends && HasSlot(s.sends[id]) && !s.sends[id].Tagged?
    ensures CanRelease(s, id) && id in DoRelease(s, id).sends
    ensures s.sends[id].Published? ==> DoRelease(s, id).sends[id] == Waiting
    ensures s.sends[id].Undone? ==> DoRelease(s, id).sends[id] == Refused
    ensures s.sends[id].NoteReady? || s.sends[id].NoteSent? ==> DoRelease(s, id).sends[id] == NoteDone
  {
  }

  lemma WaiterReturns(s: State, id: nat)
    requires PhaseOk(s) && id in s.sends && s.sends[id].Waiting?
    ensures WaiterEnabled(s, Expire(id)) && id in DoWaiter(s, Expire(id)).sends
    ensures DoWaiter(s, Expire(id)).sends[id].Finished?
  {
  }

  lemma ReturningMoves(s: State, id: nat)
    requires PhaseOk(s) && id in s.sends && !Returned(s.sends[id])
    ensures Enabled(s, Returning(s.sends[id], id))
    ensures
      var t := Do(s, Returning(s.sends[id], id));
      id in t.sends && StepsLeft(t.sends[id]) < StepsLeft(s.sends[id])
  {
    if s.sends[id].Waiting? {
      WaiterReturns(s, id);
    } else if s.sends[id].Tagged? {
      RollbackReturns(s, id);
    } else {
      ReleaseReturns(s, id);
    }
  }

  lemma {:induction false} CanReturn(s: State, now: State, id: nat) returns (t: State)
    requires Reachable(now) && Leads(s, now) && id in now.sends
    ensures Leads(s, t) && id in t.sends && Returned(t.sends[id])
    decreases StepsLeft(now.sends[id])
  {
    t := now;
    if !Returned(now.sends[id]) {
      assert PhaseOk(now) by {
        ReachableKeeps(now);
      }
      ReturningMoves(now, id);
      var next := Continue(s, now, Returning(now.sends[id], id));
      t := CanReturn(s, next, id);
    }
  }

  /** Every send and every notification can return, from wherever it stands and with no help from the broker. */
  lemma EverySendCanReturn(s: State, id: nat) returns (t: State)
    requires Reachable(s) && id in s.sends
    ensures Leads(s, t) && id in t.sends && Returned(t.sends[id])
  {
    LeadsToItself(s);
    t := CanReturn(s, s, id);
  }

  function Ending(r: Rebuild): Event {
    match r
    case Begun(_, _) => FirstCheck
    case Opening(_, _) => OpenFails
    case Opened(_, _, _) => LookClosed
    case Checked(_, _, _) => Install
    case Discarding(_) => Discard
    case ClosingOld(_) => CloseOld
    case _ => Spawn
  }

  function RebuildLeft(r: Rebuild): nat {
    match r
    case Idle => 0
    case Begun(_, _) => 2
    case Opening(_, _) => 1
    case Opened(_, _, _) => 4
    case Checked(_, _, _) => 3
    case Discarding(_) => 1
    case ClosingOld(_) => 2
    case Spawning => 1
  }

  lemma OpeningEnds(s: State)
    requires s.rebuild.Begun? || s.rebuild.Opening? || s.rebuild.Opened?
    ensures ByOpening(Ending(s.rebuild)) && OpeningEnabled(s, Ending(s.rebuild))
    ensures RebuildLeft(DoOpening(s, Ending(s.rebuild)).rebuild) < RebuildLeft(s.rebuild)
  {
  }

  lemma InstallEnds(s: State)
    requires s.rebuild.Checked?
    ensures RebuildLeft(DoInstall(s).rebuild) < RebuildLeft(s.rebuild)
  {
    assert DoInstall(s).rebuild == Discarding(s.rebuild.made) || DoInstall(s) == Swapped(s, s.rebuild.made);
  }

  lemma SwapEnds(s: State)
    requires s.rebuild.Discarding? || s.rebuild.ClosingOld? || s.rebuild.Spawning?
    ensures BySwap(Ending(s.rebuild)) && SwapEnabled(s, Ending(s.rebuild))
    ensures RebuildLeft(DoSwap(s, Ending(s.rebuild)).rebuild) < RebuildLeft(s.rebuild)
  {
  }

  lemma EndingMoves(s: State)
    requires !s.rebuild.Idle?
    ensures Enabled(s, Ending(s.rebuild)) && RebuildLeft(Do(s, Ending(s.rebuild)).rebuild) < RebuildLeft(s.rebuild)
  {
    if s.rebuild.Begun? || s.rebuild.Opening? || s.rebuild.Opened? {
      OpeningEnds(s);
    } else if s.rebuild.Checked? {
      InstallEnds(s);
      assert DoSwap(s, Install) == DoInstall(s);
    } else {
      SwapEnds(s);
    }
  }

  lemma {:induction false} RebuildEnds(s: State, now: State) returns (t: State)
    requires Reachable(now) && Leads(s, now)
    ensures Leads(s, t) && t.rebuild.Idle?
    decreases RebuildLeft(now.rebuild)
  {
    t := now;
    if !now.rebuild.Idle? {
      EndingMoves(now);
      var next := Continue(s, now, Ending(now.rebuild));
      t := RebuildEnds(s, next);
    }
  }

  /** Every rebuild can end, so that the next one can begin. */
  lemma EveryRebuildCanEnd(s: State) returns (t: State)
    requires Reachable(s)
    ensures Leads(s, t) && t.rebuild.Idle?
  {
    LeadsToItself(s);
    t := RebuildEnds(s, s);
  }
}
