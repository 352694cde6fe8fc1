/** The publisher-confirm sender of internal/rabbit/sender.go.

    `Core` holds the fields guarded by the sender's mutex together with the buffered result channels; each
    function on it is one lock-protected section. The class `Sender` is the object itself, proved against
    those functions. */
module SenderCore {
  import opened Options

  datatype Result = Acked | Nacked | ChannelClosed | ContextDone

  /** `pending` maps a delivery tag to the result channel of the waiting send (channels are named by their
      send); `inbox` holds the one buffered value of each result channel. */
  datatype Core = Core(nextTag: nat, pending: map<nat, nat>, gen: nat, ch: Option<nat>, inbox: map<nat, Result>)

  const FRESH: Core := Core(0, map[], 0, None, map[])

  function Registered(c: Core, rc: nat): Core {
    c.(nextTag := c.nextTag + 1, pending := c.pending[c.nextTag + 1 := rc])
  }

  predicate Owns(c: Core, tag: nat, rc: nat) {
    tag in c.pending && c.pending[tag] == rc
  }

  function RolledBack(c: Core, tag: nat, rc: nat): Core {
    if !Owns(c, tag, rc) then c
    else c.(pending := c.pending - {tag}, nextTag := if c.nextTag == tag && tag > 0 then tag - 1 else c.nextTag)
  }

  function Forgotten(c: Core, tag: nat, rc: nat): Core {
    if Owns(c, tag, rc) then c.(pending := c.pending - {tag}) else c
  }

  /** The confirm lookup of `dispatchConfirm`: a superseded generation or an unknown tag takes nobody. */
  function Claimed(c: Core, gen: nat, tag: nat): Option<nat> {
    if c.gen == gen && tag in c.pending then Some(c.pending[tag]) else None
  }

  function Taken(c: Core, gen: nat, tag: nat): Core {
    if c.gen == gen then c.(pending := c.pending - {tag}) else c
  }

  function Drained(c: Core): Core {
    c.(nextTag := 0, pending := map[],
       inbox := c.inbox + map rc | rc in c.pending.Values && rc !in c.inbox :: ChannelClosed)
  }

  lemma {:induction false} DrainedAt(c: Core, x: nat)
    ensures
      var inbox := Drained(c).inbox;
      && (x in inbox <==> x in c.inbox || x in c.pending.Values)
      && (x in inbox ==> inbox[x] == if x in c.inbox then c.inbox[x] else ChannelClosed)
  {
  }

  lemma {:induction false} ValuesWithout(m: map<nat, nat>, tag: nat, x: nat)
    requires tag in m
    ensures x in m.Values <==> x in (m - {tag}).Values || x == m[tag]
  {
    var rest := m - {tag};
    if x in m.Values && x != m[tag] {
      var t :| t in m && m[t] == x;
      assert t in rest && rest[t] == x;
    }
  }

  /** One waiter answered, if its channel has room, and removed. */
  function DrainedOf(c: Core, tag: nat): Core
    requires tag in c.pending
  {
    var rc := c.pending[tag];
    c.(pending := c.pending - {tag}, inbox := if rc in c.inbox then c.inbox else c.inbox[rc := ChannelClosed])
  }

  /** Answering one waiter leaves the outcome of the whole drain unchanged. */
  lemma {:induction false} DrainOne(c: Core, tag: nat)
    requires tag in c.pending
    ensures Drained(DrainedOf(c, tag)) == Drained(c) && |DrainedOf(c, tag).pending| < |c.pending|
  {
    var next := DrainedOf(c, tag);
    var all, rest := Drained(c).inbox, Drained(next).inbox;
    forall x: nat
      ensures (x in all <==> x in rest) && (x in all ==> all[x] == rest[x])
    {
      ValuesWithout(c.pending, tag, x);
      DrainedAt(c, x);
      DrainedAt(next, x);
    }
    assert all == rest;
    assert next.pending.Keys == c.pending.Keys - {tag};
  }

  lemma DrainNone(c: Core)
    requires c.pending == map[]
    ensures Drained(c) == c.(nextTag := 0)
  {
    assert Drained(c).inbox == c.inbox;
  }

  function Installed(c: Core, channel: nat): Core {
    Drained(c).(ch := Some(channel), gen := c.gen + 1)
  }

  /** The sender object: each method is the body of one lock-protected section. */
  class Sender {
    var nextTag: nat
    var pending: map<nat, nat>
    var gen: nat
    var ch: Option<nat>
    var inbox: map<nat, Result>

    function Snapshot(): Core
      reads this
    {
      Core(nextTag, pending, gen, ch, inbox)
    }

    constructor ()
      ensures Snapshot() == FRESH
    {
      nextTag, pending, gen, ch, inbox := 0, map[], 0, None, map[];
    }

    method Register(rc: nat) returns (tag: nat, channel: Option<nat>)
      modifies this
      ensures Snapshot() == Registered(old(Snapshot()), rc)
      ensures tag == old(nextTag) + 1 && Owns(Snapshot(), tag, rc) && channel == old(ch)
    {
      nextTag := nextTag + 1;
      tag := nextTag;
      pending := pending[tag := rc];
      channel := ch;
    }

    method RollbackTag(tag: nat, rc: nat)
      requires tag > 0
      modifies this
      ensures Snapshot() == RolledBack(old(Snapshot()), tag, rc)
      ensures !Owns(Snapshot(), tag, rc)
    {
      if tag in pending && pending[tag] == rc {
        pending := pending - {tag};
        if nextTag == tag {
          nextTag := nextTag - 1;
        }
      }
    }

    method Forget(tag: nat, rc: nat)
      modifies this
      ensures Snapshot() == Forgotten(old(Snapshot()), tag, rc)
      ensures !Owns(Snapshot(), tag, rc)
    {
      if tag in pending && pending[tag] == rc {
        pending := pending - {tag};
      }
    }

    method DispatchConfirm(generation: nat, tag: nat) returns (waiter: Option<nat>)
      modifies this
      ensures Snapshot() == Taken(old(Snapshot()), generation, tag)
      ensures waiter == Claimed(old(Snapshot()), generation, tag)
    {
      if gen != generation {
        return None;
      }
      if tag in pending {
        waiter := Some(pending[tag]);
        pending := pending - {tag};
      } else {
        waiter := None;
        assert pending - {tag} == pending;
      }
    }

    /** Answers every waiter whose channel has room, in whatever order the map yields them. */
    method FailPending()
      modifies this
      ensures Snapshot() == Drained(old(Snapshot()))
    {
      while pending != map[]
        invariant Drained(Snapshot()) == Drained(old(Snapshot()))
        decreases |pending|
      {
        var tag :| tag in pending;
        var rc := pending[tag];
        ghost var before := Snapshot();
        DrainOne(before, tag);
        if rc !in inbox {
          inbox := inbox[rc := ChannelClosed];
        }
        pending := pending - {tag};
        assert Snapshot() == DrainedOf(before, tag);
      }
      DrainNone(Snapshot());
      nextTag := 0;
    }

    method Install(expected: nat, requireOpen: bool, connOpen: bool, channel: nat) returns (installed: bool)
      modifies this
      ensures installed <==> old(gen) == expected && (requireOpen ==> connOpen)
      ensures Snapshot() == if installed then Installed(old(Snapshot()), channel) else old(Snapshot())
    {
      if gen != expected || (requireOpen && !connOpen) {
        return false;
      }
      FailPending();
      ch := Some(channel);
      gen := gen + 1;
      return true;
    }
  }
}
