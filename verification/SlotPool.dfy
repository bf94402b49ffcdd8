/** The CONNECT slot pool (egress/reverse/main.go): a bounded set of proxied sessions, per
    client and overall, from which the longest-idle one may be taken away. */
module SlotPool {
  class ProxySlot {
    const peer: string
    var attached: bool      // piping has started, so the slot may be preempted
    var released: bool

    constructor (peer: string)
      ensures this.peer == peer && !attached && !released
    {
      this.peer := peer;
      attached, released := false, false;
    }
  }

  /** One preemption scan: the idle cutoff and the last-activity time each load returns,
      while the sessions themselves go on updating it. */
  datatype Scan = Scan(cutoff: int, load: ProxySlot -> int)

  function OfPeer(slots: set<ProxySlot>, peer: string): set<ProxySlot> {
    set s | s in slots && s.peer == peer
  }

  ghost function Without(slots: set<ProxySlot>, s: ProxySlot?): set<ProxySlot> {
    if s == null then slots else slots - {s}
  }

  /** Why acquireProxySlot refused. */
  datatype Answer = Granted | Busy | BusyForClient

  lemma OfPeerAdds(slots: set<ProxySlot>, s: ProxySlot, peer: string)
    requires s !in slots
    ensures |OfPeer(slots + {s}, peer)| == |OfPeer(slots, peer)| + if s.peer == peer then 1 else 0
  {
    if s.peer == peer {
      assert OfPeer(slots + {s}, peer) == OfPeer(slots, peer) + {s};
    } else {
      assert OfPeer(slots + {s}, peer) == OfPeer(slots, peer);
    }
  }

  lemma OfPeerRemoves(slots: set<ProxySlot>, s: ProxySlot, peer: string)
    requires s in slots
    ensures |OfPeer(slots - {s}, peer)| == |OfPeer(slots, peer)| - if s.peer == peer then 1 else 0
  {
    assert slots - {s} + {s} == slots;
    OfPeerAdds(slots - {s}, s, peer);
  }

  /** Eligible, among the attached slots, for preemption on behalf of `peer` (anybody's slot
      if it is empty). */
  predicate Eligible(s: ProxySlot, peer: string, scan: Scan) {
    (peer == "" || s.peer == peer) && scan.load(s) <= scan.cutoff
  }

  predicate Preemptible(attached: set<ProxySlot>, peer: string, scan: Scan) {
    exists s :: s in attached && Eligible(s, peer, scan)
  }

  predicate LongestIdle(victim: ProxySlot, attached: set<ProxySlot>, peer: string, scan: Scan) {
    && victim in attached && Eligible(victim, peer, scan)
    && forall s | s in attached && Eligible(s, peer, scan) :: scan.load(victim) <= scan.load(s)
  }

  /** What a grant adds to the client's slots, given the slot taken away for its limit. */
  ghost function Gain(w: ProxySlot?, peer: string): nat {
    if w != null && w.peer == peer then 0 else 1
  }

  /** The longest-idle slots all belong to a client with a name, or all to one without. */
  ghost predicate AllIdlest(attached: set<ProxySlot>, scan: Scan, named: bool) {
    forall s | s in attached && LongestIdle(s, attached, "", scan) :: (s.peer != "") == named
  }

  ghost predicate NoTie(attached: set<ProxySlot>, scan: Scan) {
    forall s, t | s in attached && t in attached && scan.load(s) == scan.load(t) :: s == t
  }

  lemma OneLongestIdle(x: ProxySlot, y: ProxySlot, attached: set<ProxySlot>, scan: Scan)
    requires NoTie(attached, scan) && LongestIdle(x, attached, "", scan) && LongestIdle(y, attached, "", scan)
    ensures x == y
  {
  }

  /** What the per-client table says of one client. */
  predicate PeerCounts(slots: set<ProxySlot>, byPeer: map<string, int>, limit: int, peer: string) {
    var n := |OfPeer(slots, peer)|;
    && (peer in byPeer <==> n > 0) && (peer in byPeer ==> byPeer[peer] == n)
    && (limit > 0 && peer != "" ==> n <= limit)
  }

  function Count(byPeer: map<string, int>, peer: string): int {
    if peer in byPeer then byPeer[peer] else 0
  }

  lemma AdmitCounts(slots: set<ProxySlot>, byPeer: map<string, int>, limit: int, slot: ProxySlot, peer: string)
    requires slot !in slots && PeerCounts(slots, byPeer, limit, peer)
    requires limit > 0 && slot.peer != "" ==> |OfPeer(slots, slot.peer)| < limit
    ensures PeerCounts(slots + {slot}, byPeer[slot.peer := Count(byPeer, slot.peer) + 1], limit, peer)
  {
    OfPeerAdds(slots, slot, peer);
    hide OfPeer;
  }

  lemma ReleaseCounts(slots: set<ProxySlot>, byPeer: map<string, int>, limit: int, slot: ProxySlot, peer: string)
    requires slot in slots && PeerCounts(slots, byPeer, limit, peer)
    ensures var less := if Count(byPeer, slot.peer) <= 1 then byPeer - {slot.peer}
            else byPeer[slot.peer := Count(byPeer, slot.peer) - 1];
            PeerCounts(slots - {slot}, less, limit, peer)
  {
    OfPeerRemoves(slots, slot, peer);
    hide OfPeer;
  }

  ghost predicate AllCounts(slots: set<ProxySlot>, byPeer: map<string, int>, limit: int) {
    forall peer :: PeerCounts(slots, byPeer, limit, peer)
  }

  lemma AdmitAll(slots: set<ProxySlot>, byPeer: map<string, int>, limit: int, slot: ProxySlot)
    requires slot !in slots && AllCounts(slots, byPeer, limit)
    requires limit > 0 && slot.peer != "" ==> |OfPeer(slots, slot.peer)| < limit
    ensures AllCounts(slots + {slot}, byPeer[slot.peer := Count(byPeer, slot.peer) + 1], limit)
  {
    var more, table := slots + {slot}, byPeer[slot.peer := Count(byPeer, slot.peer) + 1];
    forall peer ensures PeerCounts(more, table, limit, peer) { AdmitCounts(slots, byPeer, limit, slot, peer); }
  }

  lemma ReleaseAll(slots: set<ProxySlot>, byPeer: map<string, int>, limit: int, slot: ProxySlot)
    requires slot in slots && AllCounts(slots, byPeer, limit)
    ensures Count(byPeer, slot.peer) <= 1 ==> AllCounts(slots - {slot}, byPeer - {slot.peer}, limit)
    ensures Count(byPeer, slot.peer) > 1 ==>
              AllCounts(slots - {slot}, byPeer[slot.peer := Count(byPeer, slot.peer) - 1], limit)
  {
    var less := if Count(byPeer, slot.peer) <= 1 then byPeer - {slot.peer}
      else byPeer[slot.peer := Count(byPeer, slot.peer) - 1];
    var fewer := slots - {slot};
    forall peer ensures PeerCounts(fewer, less, limit, peer) { ReleaseCounts(slots, byPeer, limit, slot, peer); }
  }

  class SessionManager {
    const maxConns: int
    const maxConnsPeer: int
    const preemptIdle: int
    var conns: int
    var byPeer: map<string, int>
    var slots: set<ProxySlot>
    ghost var issued: set<ProxySlot>

    /** The counters are the slots' sizes, the limits hold, and a slot is out exactly when it
        was released. */
    ghost predicate Valid()
      reads this, issued
    {
      && conns == |slots| && (maxConns > 0 ==> conns <= maxConns)
      && AllCounts(slots, byPeer, maxConnsPeer)
      && slots <= issued && (forall s | s in issued :: s.released <==> s !in slots)
    }

    constructor (maxConns: int, maxConnsPeer: int, preemptIdle: int)
      ensures Valid() && issued == slots == {}
      ensures this.maxConns == maxConns && this.maxConnsPeer == maxConnsPeer && this.preemptIdle == preemptIdle
    {
      this.maxConns, this.maxConnsPeer, this.preemptIdle := maxConns, maxConnsPeer, preemptIdle;
      conns, byPeer, slots, issued := 0, map[], {}, {};
      new;
      forall peer ensures PeerCounts({}, map[], maxConnsPeer, peer) { assert OfPeer({}, peer) == {}; }
    }

    /** releaseProxySlotLocked, for a slot of this pool, released before or not. */
    method ReleaseLocked(slot: ProxySlot)
      requires Valid() && slot in issued
      modifies this, slot`released
      ensures Valid() && slot.released && slots == old(slots) - {slot} && issued == old(issued)
    {
      if slot.released { return; }
      slot.released := true;
      ReleaseAll(slots, byPeer, maxConnsPeer, slot);
      hide AllCounts;
      slots := slots - {slot};
      if conns > 0 { conns := conns - 1; }
      if Count(byPeer, slot.peer) <= 1 {
        byPeer := byPeer - {slot.peer};
      } else {
        byPeer := byPeer[slot.peer := byPeer[slot.peer] - 1];
      }
    }

    method Release(slot: ProxySlot)
      requires Valid() && slot in issued
      modifies this, slot`released
      ensures Valid() && slot.released && slots == old(slots) - {slot} && issued == old(issued)
    {
      ReleaseLocked(slot);
    }

    method Attach(slot: ProxySlot)
      requires Valid() && slot in issued
      modifies slot`attached
      ensures Valid() && slot.attached
    {
      slot.attached := true;
    }

    ghost function Attached(): set<ProxySlot>
      reads this, slots
    {
      set s | s in slots && s.attached
    }

    /** The scan for a victim, over the slots in whatever order the map yields them. */
    method FindVictim(peer: string, scan: Scan) returns (victim: ProxySlot?)
      ensures victim == null <==> !Preemptible(Attached(), peer, scan)
      ensures victim != null ==> victim in slots && LongestIdle(victim, Attached(), peer, scan)
    {
      victim := null;
      var victimLast := 0;
      var rest := slots;
      while rest != {}
        invariant rest <= slots
        invariant victim == null ==> forall s | s in Attached() - rest :: !Eligible(s, peer, scan)
        invariant victim != null ==> LongestIdle(victim, Attached() - rest, peer, scan)
                                     && victimLast == scan.load(victim)
        decreases |rest|
      {
        var slot :| slot in rest;
        rest := rest - {slot};
        if !slot.attached || (peer != "" && slot.peer != peer) { continue; }
        var last := scan.load(slot);
        if last > scan.cutoff { continue; }
        if victim == null || last < victimLast { victim, victimLast := slot, last; }
      }
      assert Attached() - rest == Attached();
    }

    /** preemptIdleProxySlotLocked: a longest-idle eligible slot is released, if preemption
        is enabled and there is one. */
    method Preempt(peer: string, scan: Scan) returns (done: bool, ghost victim: ProxySlot?)
      requires Valid()
      modifies this, slots`released
      ensures Valid() && issued == old(issued) && done == (victim != null)
      ensures done <==> preemptIdle > 0 && Preemptible(old(Attached()), peer, scan)
      ensures done ==> victim in old(slots) && LongestIdle(victim, old(Attached()), peer, scan)
      ensures slots == Without(old(slots), victim) && Attached() == Without(old(Attached()), victim)
    {
      if preemptIdle <= 0 { return false, null; }
      var found := FindVictim(peer, scan);
      if found == null { return false, null; }
      ReleaseLocked(found);
      return true, found;
    }

    /** The overall limit: `victim` is the slot taken away for it, if any. */
    method RoomOverall(scan: Scan) returns (ok: bool, ghost victim: ProxySlot?)
      requires Valid()
      modifies this, slots`released
      ensures Valid() && issued == old(issued)
      ensures slots == Without(old(slots), victim) && Attached() == Without(old(Attached()), victim)
      ensures ok <==> maxConns <= 0 || |old(slots)| < maxConns
                      || (preemptIdle > 0 && Preemptible(old(Attached()), "", scan))
      ensures ok && maxConns > 0 ==> conns < maxConns
      ensures victim != null <==> ok && maxConns > 0 && |old(slots)| >= maxConns
      ensures victim != null ==> LongestIdle(victim, old(Attached()), "", scan)
    {
      ok, victim := true, null;
      if maxConns > 0 && conns >= maxConns { ok, victim := Preempt("", scan); }
    }

    /** The client's limit; a client without a name is served from anybody's slots. */
    method RoomFor(peer: string, scan: Scan) returns (ok: bool, ghost victim: ProxySlot?)
      requires Valid()
      modifies this, slots`released
      ensures Valid() && issued == old(issued) && (maxConns > 0 ==> conns <= old(conns))
      ensures slots == Without(old(slots), victim)
      ensures ok <==> maxConnsPeer <= 0 || |OfPeer(old(slots), peer)| < maxConnsPeer
                      || (preemptIdle > 0 && Preemptible(old(Attached()), peer, scan))
      ensures victim != null <==> ok && maxConnsPeer > 0 && |OfPeer(old(slots), peer)| >= maxConnsPeer
      ensures victim != null ==> LongestIdle(victim, old(Attached()), peer, scan)
      ensures ok ==> |OfPeer(slots, peer)| == |OfPeer(old(slots), peer)| - if victim != null && victim.peer == peer
              then 1 else 0
    {
      ok, victim := true, null;
      assert PeerCounts(slots, byPeer, maxConnsPeer, peer);
      if maxConnsPeer > 0 && Count(byPeer, peer) >= maxConnsPeer {
        ok, victim := Preempt(peer, scan);
        if ok { OfPeerRemoves(old(slots), victim, peer); }
      }
    }

    /** The slot, if any, that the overall limit may take away first. */
    ghost predicate FirstVictim(taken: set<ProxySlot>, attached: set<ProxySlot>, first: Scan, older v: ProxySlot?) {
      if OverLimit(maxConns, taken) then v != null && LongestIdle(v, attached, "", first) else v == null
    }

    /** Another slot for the client without a name stays within its limit: there is room, or
        there is none and only its own slots are longest idle. */
    ghost predicate LimitKept(taken: set<ProxySlot>, attached: set<ProxySlot>, first: Scan, second: Scan) {
      forall v: ProxySlot? | FirstVictim(taken, attached, first, v) ::
        var n := |OfPeer(Without(taken, v), "")|;
        n < maxConnsPeer || (n == maxConnsPeer && AllIdlest(Without(attached, v), second, false))
    }

    /** Another slot for it exceeds its limit: it is beyond already, or at it while only other
        clients' slots are longest idle. */
    ghost predicate LimitPassed(taken: set<ProxySlot>, attached: set<ProxySlot>, first: Scan, second: Scan) {
      forall v: ProxySlot? | FirstVictim(taken, attached, first, v) ::
        var n := |OfPeer(Without(taken, v), "")|;
        n > maxConnsPeer || (n == maxConnsPeer && AllIdlest(Without(attached, v), second, true))
    }

    /** What the slots as they were say of the client without a name: with no two of them
        equally idle, exactly when it ends beyond its limit. */
    lemma NamelessDecided(taken: set<ProxySlot>, attached: set<ProxySlot>, first: Scan, second: Scan,
                          v: ProxySlot?, w: ProxySlot?)
      requires maxConnsPeer > 0 && FirstVictim(taken, attached, first, v)
      requires if OverLimit(maxConnsPeer, OfPeer(Without(taken, v), ""))
               then w != null && LongestIdle(w, Without(attached, v), "", second) else w == null
      ensures var n, m := |OfPeer(Without(taken, v), "")|, |OfPeer(Without(taken, v), "")| + Gain(w, "");
              && (n >= maxConnsPeer && AllIdlest(Without(attached, v), second, true) ==> m == n + 1)
              && (n >= maxConnsPeer && AllIdlest(Without(attached, v), second, false) ==> m == n)
              && (LimitKept(taken, attached, first, second) ==> m <= maxConnsPeer)
              && (LimitPassed(taken, attached, first, second) ==> m > maxConnsPeer)
              && (NoTie(attached, first) && NoTie(attached, second) && m > maxConnsPeer ==>
                    LimitPassed(taken, attached, first, second))
    {
      hide OfPeer;
      if NoTie(attached, first) && NoTie(attached, second) {
        forall x: ProxySlot? | FirstVictim(taken, attached, first, x) ensures x == v {
          if v != null { OneLongestIdle(x, v, attached, first); }
        }
        forall y | y in Without(attached, v) && w != null && LongestIdle(y, Without(attached, v), "", second)
          ensures y == w
        {
          OneLongestIdle(y, w, Without(attached, v), second);
        }
      }
    }

    /** acquireProxySlot; `v` and `w` are the slots taken away for the two limits. A success
        keeps both limits, except that a client without a name can pass its own: whether it
        does is decided by the slots as they were, unless two of them are equally idle. */
    method Acquire(peer: string, first: Scan, second: Scan)
      returns (slot: ProxySlot?, reason: Answer, ghost v: ProxySlot?, ghost w: ProxySlot?)
      requires Valid()
      modifies this, slots`released
      ensures Valid()
      ensures slot == null ==> slots == Without(old(slots), v) && issued == old(issued) && w == null
      ensures slot != null ==> fresh(slot) && slot.peer == peer && !slot.attached && issued == old(issued) + {slot}
                               && slots == Without(Without(old(slots), v), w) + {slot}
      ensures slot != null <==> reason == Granted
      ensures reason == Busy <==> OverLimit(maxConns, old(slots)) && !CanPreempt(old(Attached()), "", first)
      ensures reason == BusyForClient <==>
                reason != Busy && OverLimit(maxConnsPeer, OfPeer(Without(old(slots), v), peer))
                && !CanPreempt(Without(old(Attached()), v), peer, second)
      ensures v != null <==> OverLimit(maxConns, old(slots)) && reason != Busy
      ensures w != null <==> slot != null && OverLimit(maxConnsPeer, OfPeer(Without(old(slots), v), peer))
      ensures v != null ==> LongestIdle(v, old(Attached()), "", first)
      ensures w != null ==> LongestIdle(w, Without(old(Attached()), v), peer, second)
      ensures slot != null ==> |OfPeer(slots, peer)| == |OfPeer(Without(old(slots), v), peer)| + Gain(w, peer)
      ensures slot != null && maxConnsPeer > 0 && peer != "" ==> |OfPeer(slots, peer)| <= maxConnsPeer
      ensures slot != null && peer == "" && OverLimit(maxConnsPeer, OfPeer(Without(old(slots), v), "")) ==>
                && (AllIdlest(Without(old(Attached()), v), second, true) ==>
                      |OfPeer(slots, "")| == |OfPeer(Without(old(slots), v), "")| + 1)
                && (AllIdlest(Without(old(Attached()), v), second, false) ==>
                      |OfPeer(slots, "")| == |OfPeer(Without(old(slots), v), "")|)
      ensures slot != null && peer == "" && maxConnsPeer > 0 ==>
                && (LimitKept(old(slots), old(Attached()), first, second) ==> |OfPeer(slots, "")| <= maxConnsPeer)
                && (LimitPassed(old(slots), old(Attached()), first, second) ==> |OfPeer(slots, "")| > maxConnsPeer)
      ensures slot != null && peer == "" && maxConnsPeer > 0 && NoTie(old(Attached()), first)
              && NoTie(old(Attached()), second) ==>
                (|OfPeer(slots, "")| > maxConnsPeer <==> LimitPassed(old(slots), old(Attached()), first, second))
    {
      var ok;
      slot, reason, w := null, Busy, null;
      ok, v := RoomOverall(first);
      if !ok { return; }
      assert PeerCounts(slots, byPeer, maxConnsPeer, peer);
      reason := BusyForClient;
      ok, w := RoomFor(peer, second);
      if !ok { return; }
      slot := Admit(peer);
      reason := Granted;
      if peer == "" && maxConnsPeer > 0 {
        hide OfPeer, LimitKept, LimitPassed, AllIdlest, NoTie, Preemptible, LongestIdle;
        NamelessDecided(old(slots), old(Attached()), first, second, v, w);
      }
    }

    ghost predicate OverLimit(limit: int, taken: set<ProxySlot>) {
      limit > 0 && |taken| >= limit
    }

    ghost predicate CanPreempt(attached: set<ProxySlot>, peer: string, scan: Scan) {
      preemptIdle > 0 && Preemptible(attached, peer, scan)
    }

    method Admit(peer: string) returns (slot: ProxySlot)
      requires Valid() && (maxConns > 0 ==> conns < maxConns)
      requires maxConnsPeer > 0 && peer != "" ==> |OfPeer(slots, peer)| < maxConnsPeer
      modifies this
      ensures Valid() && fresh(slot) && slot.peer == peer && !slot.attached && slots == old(slots) + {slot}
              && issued == old(issued) + {slot}
      ensures |OfPeer(slots, peer)| == |OfPeer(old(slots), peer)| + 1
    {
      slot := new ProxySlot(peer);
      OfPeerAdds(slots, slot, peer);
      AdmitAll(slots, byPeer, maxConnsPeer, slot);
      hide AllCounts, OfPeer;
      slots, issued, conns := slots + {slot}, issued + {slot}, conns + 1;
      byPeer := byPeer[peer := Count(byPeer, peer) + 1];
    }
  }

  /** A full pool, with a limit of one: one slot of a client without a name, and one of
      another that is idle. */
  method NamelessAndIdle(scan: Scan) returns (pool: SessionManager, a: ProxySlot, b: ProxySlot)
    ensures fresh(pool) && fresh(a) && fresh(b) && pool.Valid()
    ensures pool.maxConns == 0 && pool.maxConnsPeer == 1 && pool.preemptIdle == 1
    ensures pool.slots == {a, b} && pool.Attached() == {b} && a != b && a.peer == "" && b.peer != ""
  {
    pool := new SessionManager(0, 1, 1);
    assert OfPeer({}, "") == {};
    var first, r1, v1, w1 := pool.Acquire("", scan, scan);
    assert OfPeer({first}, "b") == {};
    var second, r2, v2, w2 := pool.Acquire("b", scan, scan);
    a, b := first, second;
    pool.Attach(b);
    assert pool.Attached() == {b};
  }

  /** Such a run: its limit is one, and it holds two. */
  method NamelessClientExceedsLimit() returns (pool: SessionManager)
    ensures pool.Valid() && pool.maxConnsPeer == 1 && |OfPeer(pool.slots, "")| == 2
  {
    var scan := Scan(0, (s: ProxySlot) => 0);
    var a, b;
    pool, a, b := NamelessAndIdle(scan);
    assert OfPeer({a, b}, "") == {a};
    assert Eligible(b, "", scan);
    var c, reason, v, w := pool.Acquire("", scan, scan);
    assert w == b;
  }
}
