/** Token leases of the hub's auth server: optimistic claims that are committed or rolled
    back in any order, over a history of heap-linked claim nodes. */
module TokenLeases {
  import opened Prelude

  // ---------------------------------------------------------------- specification

  datatype Verdict = Pending | Failed | Committed

  /** Claim number v (counting from 1) is log[v - 1]. */
  datatype Entry = Entry(token: string, source: string, seenAt: int, verdict: Verdict)

  /** The highest claim on the token, up to number n, that has not failed; 0 if none. */
  function Winner(log: seq<Entry>, token: string, n: nat): (r: nat)
    requires n <= |log|
    ensures r <= n && (r > 0 ==> log[r - 1].token == token && log[r - 1].verdict != Failed)
  {
    if n == 0 then 0
    else if log[n - 1].token == token && log[n - 1].verdict != Failed then n
    else Winner(log, token, n - 1)
  }

  lemma {:induction false} WinnerIsHighest(log: seq<Entry>, token: string, n: nat, v: nat)
    requires v < n <= |log| && log[v].token == token && log[v].verdict != Failed
    ensures Winner(log, token, n) > v
  {
    if !(log[n - 1].token == token && log[n - 1].verdict != Failed) { WinnerIsHighest(log, token, n - 1, v); }
  }

  lemma {:induction false} WinnerBetween(log: seq<Entry>, token: string, lo: nat, n: nat)
    requires lo <= n <= |log| && forall v: nat | lo <= v < n :: log[v].token != token || log[v].verdict == Failed
    ensures Winner(log, token, n) == Winner(log, token, lo)
  {
    if lo < n { WinnerBetween(log, token, lo, n - 1); }
  }

  lemma {:induction false} WinnerGrows(log: seq<Entry>, e: Entry, token: string, n: nat)
    requires n <= |log|
    ensures Winner(log + [e], token, n) == Winner(log, token, n)
  {
    if n > 0 { WinnerGrows(log, e, token, n - 1); }
  }

  function Settle(log: seq<Entry>, v: nat, verdict: Verdict): seq<Entry>
    requires 1 <= v <= |log|
  {
    log[v - 1 := log[v - 1].(verdict := verdict)]
  }

  /** A settled claim changes only lookups it wins. */
  lemma {:induction false} SettleElsewhere(log: seq<Entry>, v: nat, verdict: Verdict, token: string, n: nat)
    requires 1 <= v <= |log| && n <= |log| && log[v - 1].verdict == Pending
    requires verdict == Committed || n < v || token != log[v - 1].token || Winner(log, token, n) != v
    ensures Winner(Settle(log, v, verdict), token, n) == Winner(log, token, n)
  {
    if n > 0 && !(log[n - 1].token == token && log[n - 1].verdict != Failed) {
      SettleElsewhere(log, v, verdict, token, n - 1);
    }
  }

  /** A failed claim uncovers the one below. */
  lemma SettleWinner(log: seq<Entry>, v: nat)
    requires 1 <= v <= |log| && log[v - 1].verdict == Pending && Winner(log, log[v - 1].token, |log|) == v
    ensures var t := log[v - 1].token;
            var next := Settle(log, v, Failed);
            Winner(next, t, |log|) == Winner(next, t, v - 1) == Winner(log, t, v - 1)
  {
    var t, next := log[v - 1].token, Settle(log, v, Failed);
    forall w: nat | v <= w < |log| ensures log[w].token != t || log[w].verdict == Failed {
      if log[w].token == t && log[w].verdict != Failed { WinnerIsHighest(log, t, |log|, w); }
    }
    WinnerBetween(next, t, v - 1, |log|);
    SettleElsewhere(log, v, Failed, t, v - 1);
  }

  /** The claims only grow, and a verdict is final. */
  predicate Extends(log: seq<Entry>, later: seq<Entry>) {
    |log| <= |later| && forall v | 0 <= v < |log| ::
      log[v].(verdict := Pending) == later[v].(verdict := Pending)
      && (log[v].verdict != Pending ==> later[v].verdict == log[v].verdict)
  }

  /** Whatever happens afterwards, a committed claim can only be superseded by a newer one,
      and a failed claim never holds the token again. */
  lemma VerdictsLast(log: seq<Entry>, later: seq<Entry>, v: nat)
    requires Extends(log, later) && 1 <= v <= |log|
    ensures log[v - 1].verdict == Committed ==> Winner(later, log[v - 1].token, |later|) >= v
    ensures log[v - 1].verdict == Failed ==> Winner(later, log[v - 1].token, |later|) != v
  {
    if log[v - 1].verdict == Committed { WinnerIsHighest(later, log[v - 1].token, |later|, v - 1); }
  }

  // ---------------------------------------------------------------- strings.TrimSpace

  predicate IsSpace(c: char) {
    || '\t' <= c <= '\r' || c == ' ' || c == '\U{0085}' || c == '\U{00A0}' || c == '\U{1680}'
    || '\U{2000}' <= c <= '\U{200A}' || c == '\U{2028}' || c == '\U{2029}' || c == '\U{202F}' || c == '\U{205F}'
    || c == '\U{3000}'
  }

  function Trim(s: string): string {
    if s != [] && IsSpace(s[0]) then Trim(s[1..])
    else if s != [] && IsSpace(s[|s| - 1]) then Trim(s[..|s| - 1])
    else s
  }

  // ---------------------------------------------------------------- the linked history

  class LeaseClaimNode {
    var previous: Lease
    var existed: bool
    var failed: bool
    var committed: bool

    constructor (previous: Lease, existed: bool)
      ensures View() == NodeView(previous, existed, false, false)
    {
      this.previous, this.existed, this.failed, this.committed := previous, existed, false, false;
    }

    ghost function View(): NodeView
      reads this
    {
      NodeView(previous, existed, failed, committed)
    }
  }

  datatype Lease = Lease(source: string, seenAt: int, version: nat, node: LeaseClaimNode?)

  const NO_LEASE := Lease("", 0, 0, null)

  datatype NodeView = NodeView(previous: Lease, existed: bool, failed: bool, committed: bool)

  /** The server's fields, the nodes in claim order and what they hold. */
  datatype State = State(log: seq<Entry>, nodes: seq<LeaseClaimNode>, views: seq<NodeView>, leases: map<string, Lease>)

  /** The lease is claim number `lease.version`, with its node unless it was committed. */
  ghost predicate LeaseOk(s: State, lease: Lease, token: string) {
    && |s.nodes| == |s.log| && 1 <= lease.version <= |s.log|
    && (var e := s.log[lease.version - 1];
        && e.token == token && e.source == lease.source && e.seenAt == lease.seenAt
        && (lease.node == s.nodes[lease.version - 1] || (lease.node == null && e.verdict == Committed)))
  }

  /** Node v: its flags are the verdict; unless committed, everything between its
      predecessor and itself has failed. */
  ghost predicate NodeOk(s: State, v: nat)
    requires v < |s.log| == |s.views|
  {
    var n, e := s.views[v], s.log[v];
    && n.failed == (e.verdict == Failed) && n.committed == (e.verdict == Committed)
    && (!n.committed ==>
          if n.existed
          then LeaseOk(s, n.previous, e.token) && n.previous.version <= v
               && Winner(s.log, e.token, v) == Winner(s.log, e.token, n.previous.version)
          else Winner(s.log, e.token, v) == 0)
  }

  /** The map is exactly the specification's lookup. */
  ghost predicate LookupOk(s: State, token: string) {
    var w := Winner(s.log, token, |s.log|);
    && (token in s.leases <==> w > 0)
    && (token in s.leases ==> LeaseOk(s, s.leases[token], token) && s.leases[token].version == w)
  }

  ghost predicate Distinct(nodes: seq<LeaseClaimNode>) {
    forall i, j | 0 <= i < j < |nodes| :: nodes[i] != nodes[j]
  }

  ghost predicate NodesOk(s: State) {
    && |s.nodes| == |s.log| == |s.views|
    && Distinct(s.nodes)
    && (forall v: nat | v < |s.log| :: NodeOk(s, v))
  }

  ghost predicate LookupsOk(s: State) {
    forall token :: LookupOk(s, token)
  }

  lemma ClaimKeeps(s: State, e: Entry, node: LeaseClaimNode, view: NodeView, lease: Lease)
    requires NodesOk(s) && LookupsOk(s) && node !in s.nodes && e.verdict == Pending
    requires view.existed == (e.token in s.leases) && (view.existed ==> view.previous == s.leases[e.token])
    requires !view.failed && !view.committed && lease == Lease(e.source, e.seenAt, |s.log| + 1, node)
    ensures var t := State(s.log + [e], s.nodes + [node], s.views + [view], s.leases[e.token := lease]);
            NodesOk(t) && LookupsOk(t)
  {
    var t := State(s.log + [e], s.nodes + [node], s.views + [view], s.leases[e.token := lease]);
    forall v: nat | v < |t.log| ensures NodeOk(t, v) {
      hide Winner;
      if v < |s.log| {
        assert NodeOk(s, v);
        OldNode(s, t, e, v);
      } else {
        assert LookupOk(s, e.token);
        NewNode(s, t, e);
      }
    }
    forall token ensures LookupOk(t, token) {
      assert LookupOk(s, token);
      WinnerGrows(s.log, e, token, |s.log|);
    }
  }

  lemma OldNode(s: State, t: State, e: Entry, v: nat)
    requires |s.nodes| == |s.log| == |s.views| && v < |s.log| && NodeOk(s, v)
    requires t.log == s.log + [e] && s.nodes <= t.nodes && s.views <= t.views && |t.nodes| == |t.views| == |t.log|
    ensures NodeOk(t, v)
  {
    var n, token := s.views[v], s.log[v].token;
    WinnerGrows(s.log, e, token, v);
    if !n.committed && n.existed { WinnerGrows(s.log, e, token, n.previous.version); }
    hide Winner;
  }

  lemma NewNode(s: State, t: State, e: Entry)
    requires |s.nodes| == |s.log| == |s.views| && LookupOk(s, e.token) && e.verdict == Pending
    requires t.log == s.log + [e] && s.nodes <= t.nodes && |t.nodes| == |t.views| == |t.log|
    requires var n := t.views[|s.log|];
             !n.failed && !n.committed && n.existed == (e.token in s.leases)
               && (n.existed ==> n.previous == s.leases[e.token])
    ensures NodeOk(t, |s.log|)
  {
    WinnerGrows(s.log, e, e.token, |s.log|);
    var n := t.views[|s.log|];
    if n.existed {
      WinnerGrows(s.log, e, e.token, n.previous.version);
      WinnerFixed(s.log, e.token, |s.log|);
    }
    hide Winner;
  }

  lemma {:induction false} WinnerFixed(log: seq<Entry>, token: string, n: nat)
    requires n <= |log|
    ensures Winner(log, token, Winner(log, token, n)) == Winner(log, token, n)
  {
    if n > 0 && !(log[n - 1].token == token && log[n - 1].verdict != Failed) { WinnerFixed(log, token, n - 1); }
  }

  /** Marking claim v failed keeps every node in order; only its own lookup may be stale. */
  lemma FailKeeps(s: State, v: nat)
    requires NodesOk(s) && LookupsOk(s) && 1 <= v <= |s.log| && s.log[v - 1].verdict == Pending
    ensures var t := s.(log := Settle(s.log, v, Failed), views := s.views[v - 1 := s.views[v - 1].(failed := true)]);
            && NodesOk(t)
            && forall token | Winner(s.log, token, |s.log|) != v :: LookupOk(t, token)
  {
    var t := s.(log := Settle(s.log, v, Failed), views := s.views[v - 1 := s.views[v - 1].(failed := true)]);
    forall u: nat | u < |t.log| ensures NodeOk(t, u) {
      assert NodeOk(s, u);
      FailWinner(s, v, u);
    }
    forall token | Winner(s.log, token, |s.log|) != v ensures LookupOk(t, token) {
      assert LookupOk(s, token);
      SettleElsewhere(s.log, v, Failed, token, |s.log|);
    }
  }

  lemma {:induction false} SettleBelow(log: seq<Entry>, v: nat, token: string, n: nat)
    requires 1 <= v <= |log| && n <= |log| && log[v - 1].verdict == Pending && log[v - 1].token == token
    ensures Winner(Settle(log, v, Failed), token, n)
         == if Winner(log, token, n) == v then Winner(log, token, v - 1) else Winner(log, token, n)
  {
    if n > 0 && n != v { SettleBelow(log, v, token, n - 1); }
    if n == v { SettleElsewhere(log, v, Failed, token, v - 1); }
  }

  lemma FailWinner(s: State, v: nat, u: nat)
    requires |s.log| == |s.views| && u < |s.log| && NodeOk(s, u) && 1 <= v <= |s.log| && s.log[v - 1].verdict == Pending
    ensures var t := Settle(s.log, v, Failed);
            var n, token := s.views[u], s.log[u].token;
            !n.committed ==> if n.existed then Winner(t, token, u) == Winner(t, token, n.previous.version)
              else Winner(t, token, u) == 0
  {
    var n, token := s.views[u], s.log[u].token;
    if s.log[v - 1].token == token {
      SettleBelow(s.log, v, token, u);
      if !n.committed && n.existed { SettleBelow(s.log, v, token, n.previous.version); }
    } else {
      SettleElsewhere(s.log, v, Failed, token, u);
      if !n.committed && n.existed { SettleElsewhere(s.log, v, Failed, token, n.previous.version); }
    }
  }

  lemma CommitKeeps(s: State, v: nat)
    requires NodesOk(s) && LookupsOk(s) && 1 <= v <= |s.log| && s.log[v - 1].verdict == Pending
    ensures var t := s.(log := Settle(s.log, v, Committed),
                        views := s.views[v - 1 := NodeView(NO_LEASE, false, false, true)]);
            NodesOk(t) && LookupsOk(t)
  {
    var t := s.(log := Settle(s.log, v, Committed), views := s.views[v - 1 := NodeView(NO_LEASE, false, false, true)]);
    forall token, n: nat | n <= |s.log| ensures Winner(t.log, token, n) == Winner(s.log, token, n) {
      SettleElsewhere(s.log, v, Committed, token, n);
    }
    forall u: nat | u < |t.log| ensures NodeOk(t, u) { assert NodeOk(s, u); }
    forall token ensures LookupOk(t, token) { assert LookupOk(s, token); }
  }

  lemma CommitSameWinners(log: seq<Entry>, v: nat)
    requires 1 <= v <= |log| && log[v - 1].verdict == Pending
    ensures forall token :: Winner(Settle(log, v, Committed), token, |log|) == Winner(log, token, |log|)
  {
    forall token ensures Winner(Settle(log, v, Committed), token, |log|) == Winner(log, token, |log|) {
      SettleElsewhere(log, v, Committed, token, |log|);
    }
  }

  /** The two maps answer alike: holder, time and claim number. */
  predicate SameLookup(was: map<string, Lease>, leases: map<string, Lease>, token: string) {
    && (token in was <==> token in leases)
    && (token in was ==> was[token].(node := null) == leases[token].(node := null))
  }

  ghost predicate SameAnswers(was: map<string, Lease>, leases: map<string, Lease>) {
    forall token :: SameLookup(was, leases, token)
  }

  lemma SameLookups(leases: map<string, Lease>, t: string)
    ensures SameAnswers(leases, leases)
    ensures t in leases ==> SameAnswers(leases, leases[t := leases[t].(node := null)])
  {
  }

  lemma LeaseSet(s: State, token: string, lease: Lease)
    requires NodesOk(s) && LeaseOk(s, lease, token) && lease.version == Winner(s.log, token, |s.log|)
    requires forall other | other != token :: LookupOk(s, other)
    ensures var t := s.(leases := s.leases[token := lease]);
            NodesOk(t) && LookupsOk(t)
  {
    var t := s.(leases := s.leases[token := lease]);
    forall v: nat | v < |s.log| ensures NodeOk(t, v) { assert NodeOk(s, v); }
    forall other ensures LookupOk(t, other) { if other != token { assert LookupOk(s, other); } }
  }

  lemma LeaseCleared(s: State, token: string)
    requires NodesOk(s) && Winner(s.log, token, |s.log|) == 0 && forall other | other != token :: LookupOk(s, other)
    ensures var t := s.(leases := s.leases - {token});
            NodesOk(t) && LookupsOk(t)
  {
    var t := s.(leases := s.leases - {token});
    forall v: nat | v < |s.log| ensures NodeOk(t, v) { assert NodeOk(s, v); }
    forall other ensures LookupOk(t, other) { if other != token { assert LookupOk(s, other); } }
  }

  lemma NodeFacts(s: State, token: string, v: nat)
    requires NodesOk(s) && LookupsOk(s) && 1 <= v <= |s.log| && s.log[v - 1].token == token
    ensures |s.nodes| == |s.log| == |s.views| && Distinct(s.nodes)
    ensures s.views[v - 1].failed == (s.log[v - 1].verdict == Failed)
    ensures s.views[v - 1].committed == (s.log[v - 1].verdict == Committed)
    ensures (token in s.leases && s.leases[token].version == v) <==> Winner(s.log, token, |s.log|) == v
  {
    assert NodeOk(s, v - 1) && LookupOk(s, token);
  }

  lemma CommittedLease(s: State, lease: Lease, token: string)
    requires NodesOk(s) && LeaseOk(s, lease, token) && s.views[lease.version - 1].committed
    ensures LeaseOk(s, lease.(node := null), token)
  {
    assert NodeOk(s, lease.version - 1);
  }

  lemma CommittedCurrent(s: State, token: string, v: nat)
    requires NodesOk(s) && LookupsOk(s) && token in s.leases && s.leases[token].version == v
    requires 1 <= v <= |s.log| && s.log[v - 1].verdict == Committed
    ensures LeaseOk(s, s.leases[token].(node := null), token) && v == Winner(s.log, token, |s.log|)
    ensures forall other :: LookupOk(s, other)
  {
    assert LookupOk(s, token);
  }

  lemma StillOk(s: State, t: State, v: nat, token: string)
    requires 1 <= v <= |s.log| && s.log[v - 1].token == token && Winner(s.log, token, |s.log|) != v
    requires forall other | Winner(s.log, other, |s.log|) != v :: LookupOk(t, other)
    ensures LookupsOk(t)
  {
    forall other ensures LookupOk(t, other) { assert Winner(s.log, other, |s.log|) != v; }
  }

  lemma OthersOk(s: State, t: State, v: nat, token: string)
    requires 1 <= v <= |s.log| && s.log[v - 1].token == token
    requires forall other | Winner(s.log, other, |s.log|) != v :: LookupOk(t, other)
    ensures forall other | other != token :: LookupOk(t, other)
  {
    forall other | other != token ensures LookupOk(t, other) { assert Winner(s.log, other, |s.log|) != v; }
  }

  // ---------------------------------------------------------------- the server

  datatype Claim = NoClaim | Claim(token: string, current: Lease)

  ghost function ViewsOf(nodes: seq<LeaseClaimNode>): (r: seq<NodeView>)
    reads nodes
    ensures |r| == |nodes| && forall i | 0 <= i < |r| :: r[i] == nodes[i].View()
  {
    if nodes == [] then [] else ViewsOf(nodes[..|nodes| - 1]) + [nodes[|nodes| - 1].View()]
  }

  class Server {
    const ttl: int
    var leases: map<string, Lease>
    var version: nat
    ghost var log: seq<Entry>
    ghost var nodes: seq<LeaseClaimNode>

    ghost function Views(): seq<NodeView>
      reads this, nodes
    {
      ViewsOf(nodes)
    }

    ghost function Now(): State
      reads this, nodes
    {
      State(log, nodes, Views(), leases)
    }

    ghost predicate Valid()
      reads this, nodes
    {
      version == |log| && NodesOk(Now()) && LookupsOk(Now())
    }

    /** A claim this server handed out. */
    ghost predicate Issued(claim: Claim)
      reads this
    {
      claim.Claim? ==>
        && |nodes| == |log| && 1 <= claim.current.version <= |log|
        && claim.current.node == nodes[claim.current.version - 1]
        && log[claim.current.version - 1].token == claim.token
    }

    constructor (ttl: int)
      ensures Valid() && log == [] && this.ttl == ttl
    {
      this.ttl := ttl;
      leases, version, log, nodes := map[], 0, [], [];
    }

    /** claimTokenReceipt. */
    method ClaimReceipt(token: string, source: string, now: int) returns (ok: bool, claim: Claim)
      requires Valid()
      modifies this
      ensures Valid() && Issued(claim)
      ensures var t, s := Trim(token), Trim(source);
              var w := Winner(old(log), t, |old(log)|);
              if t == "" || s == "" || ttl <= 0 then ok && claim.NoClaim? && log == old(log)
              else if w > 0 && old(log)[w - 1].source != s && now - old(log)[w - 1].seenAt < ttl
              then !ok && claim.NoClaim? && log == old(log)
              else ok && log == old(log) + [Entry(t, s, now, Pending)] && claim.Claim? && claim.current.version == |log|
      ensures old(nodes) <= nodes && forall i | |old(nodes)| <= i < |nodes| :: fresh(nodes[i])
    {
      var t, s := Trim(token), Trim(source);
      if t == "" || s == "" || ttl <= 0 { return true, NoClaim; }
      assert LookupOk(Now(), t);
      if t in leases && leases[t].source != s && now - leases[t].seenAt < ttl { return false, NoClaim; }
      claim := Record(t, s, now);
      return true, claim;
    }

    /** The optimistic claim itself, linked to whatever it displaces. */
    method Record(token: string, source: string, now: int) returns (claim: Claim)
      requires Valid()
      modifies this
      ensures Valid() && Issued(claim)
      ensures log == old(log) + [Entry(token, source, now, Pending)] && claim.Claim? && claim.current.version == |log|
      ensures |nodes| == |old(nodes)| + 1 && old(nodes) <= nodes && fresh(nodes[|old(nodes)|])
    {
      ghost var s := Now();
      version := version + 1;
      var node := new LeaseClaimNode(if token in leases then leases[token] else NO_LEASE, token in leases);
      var current := Lease(source, now, version, node);
      ghost var e := Entry(token, source, now, Pending);
      ClaimKeeps(s, e, node, node.View(), current);
      hide NodesOk, LookupsOk;
      leases := leases[token := current];
      log, nodes := log + [e], nodes + [node];
      assert nodes[..|nodes| - 1] == s.nodes;
      return Claim(token, current);
    }

    /** Writes or deletes the token's map entry. */
    method Store(token: string, lease: Option<Lease>)
      requires NodesOk(Now()) && version == |log| && forall other | other != token :: LookupOk(Now(), other)
      requires if lease.Some? then LeaseOk(Now(), lease.value, token)
               && lease.value.version == Winner(log, token, |log|)
               else Winner(log, token, |log|) == 0
      modifies this`leases
      ensures Valid() && leases == if lease.Some? then old(leases)[token := lease.value] else old(leases) - {token}
    {
      ghost var s := Now();
      if lease.Some? {
        LeaseSet(Now(), token, lease.value);
        leases := leases[token := lease.value];
      } else {
        LeaseCleared(Now(), token);
        leases := leases - {token};
      }
      hide NodesOk, LookupsOk, LookupOk, LeaseOk, Winner;
      assert Views() == s.views;
      assert Now() == s.(leases := leases);
    }

    /** The rollback's walk to the nearest predecessor that has not failed; it ends because
        versions fall along `previous`. */
    method Predecessor(node: LeaseClaimNode, v: nat, token: string) returns (previous: Lease, existed: bool)
      requires NodesOk(Now()) && 1 <= v <= |log| && node == nodes[v - 1] && log[v - 1].token == token
      requires log[v - 1].verdict != Committed
      ensures if existed then LeaseOk(Now(), previous, token) && previous.version == Winner(log, token, v - 1)
              else Winner(log, token, v - 1) == 0
    {
      assert NodeOk(Now(), v - 1);
      previous, existed := node.previous, node.existed;
      while existed && previous.node != null && previous.node.failed
        invariant existed ==> LeaseOk(Now(), previous, token) && previous.version < v
        invariant Winner(log, token, v - 1) == if existed then Winner(log, token, previous.version) else 0
        decreases if existed then previous.version else 0
      {
        assert NodeOk(Now(), previous.version - 1);
        previous, existed := previous.node.previous, previous.node.existed;
      }
      if existed { assert NodeOk(Now(), previous.version - 1); }
    }

    method MarkFailed(node: LeaseClaimNode, v: nat)
      requires 1 <= v <= |nodes| == |log| && node == nodes[v - 1] && Distinct(nodes)
      modifies this`log, node
      ensures Now() == old(Now()).(log := Settle(old(log), v, Failed),
                                   views := old(Views())[v - 1 := old(Views())[v - 1].(failed := true)])
    {
      ghost var views := Views();
      node.failed := true;
      log := Settle(log, v, Failed);
      assert Views() == views[v - 1 := views[v - 1].(failed := true)];
    }

    /** rollbackTokenClaim: the walk skips predecessors that failed meanwhile. */
    method Rollback(claim: Claim)
      requires Valid() && Issued(claim)
      modifies this, nodes
      ensures Valid() && nodes == old(nodes)
      ensures log == if claim.Claim? && old(log)[claim.current.version - 1].verdict == Pending
                     then Settle(old(log), claim.current.version, Failed) else old(log)
    {
      if claim.NoClaim? { return; }
      var node, v, t := claim.current.node, claim.current.version, claim.token;
      NodeFacts(Now(), t, v);
      hide NodesOk, LookupsOk, Winner, LookupOk, LeaseOk;
      if node.committed || node.failed { return; }
      FailKeeps(Now(), v);
      ghost var s := Now();
      MarkFailed(node, v);
      if t in leases && leases[t].version == v {
        SettleWinner(s.log, v);
        var previous, existed := Predecessor(node, v, t);
        OthersOk(s, Now(), v, t);
        if existed && previous.node != null && previous.node.committed {
          CommittedLease(Now(), previous, t);
          previous := previous.(node := null);
        }
        Store(t, if existed then Some(previous) else None);
      } else {
        StillOk(s, Now(), v, t);
      }
    }

    /** commitTokenClaim: a committed node discards its history. */
    method Commit(claim: Claim)
      requires Valid() && Issued(claim)
      modifies this, nodes
      ensures Valid() && nodes == old(nodes)
      ensures log == if claim.Claim? && old(log)[claim.current.version - 1].verdict == Pending
                     then Settle(old(log), claim.current.version, Committed) else old(log)
      ensures SameAnswers(old(leases), leases)
      ensures forall token :: Winner(log, token, |log|) == Winner(old(log), token, |old(log)|)
    {
      hide SameAnswers, NodesOk, LookupsOk, Winner, LookupOk, LeaseOk;
      SameLookups(leases, if claim.Claim? then claim.token else "");
      if claim.NoClaim? { return; }
      var node, v, t := claim.current.node, claim.current.version, claim.token;
      NodeFacts(Now(), t, v);
      if node.failed || node.committed { return; }
      CommitKeeps(Now(), v);
      CommitSameWinners(log, v);
      ghost var s := Now();
      node.committed, node.previous, node.existed := true, NO_LEASE, false;
      log := Settle(log, v, Committed);
      assert Views() == s.views[v - 1 := NodeView(NO_LEASE, false, false, true)];
      assert Now() == s.(log := log, views := Views());
      if t in leases && leases[t].version == v {
        CommittedCurrent(Now(), t, v);
        Store(t, Some(leases[t].(node := null)));
      }
    }
  }
}
