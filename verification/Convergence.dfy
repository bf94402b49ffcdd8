/** The whole-fleet proof that precedes a proxy grant
    (hub/internal/deviceauth/proxy_convergence.go, hub/internal/deviceapi/proxy_gate.go).
    Tables, credentials and interface are those seen under the fence. */
module Convergence {
  import opened Prelude
  import opened Prefixes
  import opened PeerPlan
  import opened AuthorityModel
  import opened AuthorityInvariants

  const MAX_SCOPES: nat := 64
  const MAX_DEVICES: nat := 10000
  const MAX_HISTORY: nat := 16384
  const MIN_LEASE: int := 100_000_000        // nanoseconds
  const LEASE: int := 2_000_000_000

  datatype Credential = Credential(device: DeviceId, validUntil: int, revoked: bool, replaced: bool)

  /** What the proof reads. */
  datatype Fleet = Fleet(policy: Policy, db: Db, credentials: map<string, Credential>, runtime: Peers)

  datatype Proof = Proof(verifiedAt: int, earliest: Option<int>, active: nat)

  // ---------------------------------------------------------------- one device

  predicate RevokedOk(f: Fleet, dev: Device, k: Key)
    requires k in f.db.bindings
  {
    var b := f.db.bindings[k];
    && k !in f.runtime && b.removed >= b.revoked && b.removed == dev.generation
    && forall t | t in f.db.tombstones && t.0 == k :: f.db.tombstones[t].verifiedAt.Some? && t.1 <= dev.generation
  }

  predicate CurrentOk(f: Fleet, d: DeviceId, dev: Device, k: Key)
    requires k in f.db.bindings
  {
    var b := f.db.bindings[k];
    && dev.standing == Active && dev.current == Some(Assignment(k, b.address)) && b.applied
    && b.created == dev.generation && b.removed == 0
    && b.address in f.db.addresses && f.db.addresses[b.address] == d
    && forall t | t in f.db.tombstones :: t.0 != k
  }

  predicate BindingConverged(f: Fleet, d: DeviceId, dev: Device, k: Key)
    requires k in f.db.bindings
  {
    && Permitted(f.policy, k, f.db.bindings[k].address)
    && if f.db.bindings[k].revoked > 0 then RevokedOk(f, dev, k) else CurrentOk(f, d, dev, k)
  }

  function KeysOf(db: Db, d: DeviceId): set<Key> {
    set k | k in db.bindings && db.bindings[k].device == d
  }

  function DoneOperations(db: Db, d: DeviceId, dev: Device): set<OpId> {
    set o | o in db.operations && o in db.outbox && db.operations[o].device == d
      && db.operations[o].generation == dev.generation
            && db.outbox[o].state == Finished && db.outbox[o].verifiedAt.Some? && db.outbox[o].fence > 0
            && (dev.standing == Active <==> db.operations[o].command.verb == ApplyKey)
  }

  predicate Unresolved(db: Db, d: DeviceId, dev: Device, i: IntentKey) {
    && i in db.intents && db.intents[i].generation == dev.generation && !db.intents[i].verified
    && i.op in db.operations && db.operations[i.op].device == d && db.operations[i.op].generation == dev.generation
  }

  predicate Settled(f: Fleet, d: DeviceId, dev: Device, now: int) {
    && dev.generation == dev.applied && (dev.standing == Active ==> now < dev.validUntil)
    && (dev.generation > 0 ==> |DoneOperations(f.db, d, dev)| == 1)
    && (forall i | i in f.db.intents :: !Unresolved(f.db, d, dev, i))
    && |KeysOf(f.db, d)| <= MAX_HISTORY
  }

  function Live(f: Fleet, d: DeviceId): set<string> {
    set c | c in f.credentials && f.credentials[c].device == d && !f.credentials[c].revoked
      && !f.credentials[c].replaced
  }

  predicate Unexpired(f: Fleet, c: string, now: int) { c in f.credentials && now < f.credentials[c].validUntil }

  predicate CredentialsOk(f: Fleet, d: DeviceId, now: int) {
    |Live(f, d)| <= 1 && forall c | c in Live(f, d) :: Unexpired(f, c, now)
  }

  /** The peers the authority expects on the interface. */
  function Expected(db: Db, devices: set<DeviceId>): map<Key, Prefix> {
    map k | k in db.bindings && db.bindings[k].device in devices && db.bindings[k].revoked == 0 ::
        db.bindings[k].address
  }

  predicate CurrentBound(f: Fleet, a: Assignment) {
    a.key in f.db.bindings && f.db.bindings[a.key].revoked == 0 && f.db.bindings[a.key].address == a.address
  }

  predicate DeviceConverged(f: Fleet, d: DeviceId, now: int) {
    && d in f.db.devices
    && (var dev := f.db.devices[d];
        && Settled(f, d, dev, now)
        && (forall k | k in KeysOf(f.db, d) :: BindingConverged(f, d, dev, k))
        && CurrentConverged(f, d, now))
  }

  predicate CurrentConverged(f: Fleet, d: DeviceId, now: int)
    requires d in f.db.devices
  {
    var dev := f.db.devices[d];
    if dev.current.Some? then CurrentBound(f, dev.current.value) && CredentialsOk(f, d, now)
    else KeysOf(f.db, d) == {} && dev.standing == Active ==> dev.generation == 0
  }

  // ---------------------------------------------------------------- the interface

  predicate PeerExact(f: Fleet, scopes: seq<Prefix>, expected: map<Key, Prefix>, k: Key, p: Prefix)
    requires k in f.runtime
  {
    forall i | 0 <= i < |scopes| && Overlaps(p, scopes[i]) ::
      k in expected && expected[k] == p && f.runtime[k] == {p} && !Protected(f.policy, k, p)
  }

  predicate RuntimeExact(f: Fleet, scopes: seq<Prefix>, expected: map<Key, Prefix>) {
    && (forall k | k in expected :: k in f.runtime && f.runtime[k] == {expected[k]})
    && (forall k, p | k in f.runtime && p in f.runtime[k] :: PeerExact(f, scopes, expected, k, p))
  }

  predicate ScopesOk(policy: Policy, scopes: seq<Prefix>) {
    && 0 < |scopes| <= MAX_SCOPES && multiset(scopes) == multiset(policy.pools)
    && (forall i, j | 0 <= i < j < |scopes| :: !Overlaps(scopes[j], scopes[i]))
    && (forall i, j | 0 <= i < |policy.protectedPrefixes| && 0 <= j < |scopes| ::
          !Overlaps(policy.protectedPrefixes[i], scopes[j]))
  }

  // ---------------------------------------------------------------- the deadlines

  function Deadlines(f: Fleet, devices: set<DeviceId>): set<int> {
    (set d | d in devices && d in f.db.devices && f.db.devices[d].standing == Active :: f.db.devices[d].validUntil)
    + (set c | c in f.credentials && f.credentials[c].device in devices && f.credentials[c].device in f.db.devices
               && f.db.devices[f.credentials[c].device].current.Some? && !f.credentials[c].revoked
               && !f.credentials[c].replaced
             :: f.credentials[c].validUntil)
  }

  predicate IsEarliest(e: Option<int>, times: set<int>) {
    && (e.None? <==> times == {})
    && (e.Some? ==> e.value in times && forall t | t in times :: e.value <= t)
  }

  function Earlier(e: Option<int>, t: int): Option<int> {
    if e.None? || t < e.value then Some(t) else e
  }

  lemma EarlierAdds(e: Option<int>, times: set<int>, t: int)
    requires IsEarliest(e, times)
    ensures IsEarliest(Earlier(e, t), times + {t})
  {
  }

  predicate Converged(f: Fleet, scopes: seq<Prefix>, now: int) {
    && ScopesOk(f.policy, scopes) && |f.db.devices| <= MAX_DEVICES
    && (forall d | d in f.db.devices :: DeviceConverged(f, d, now))
    && RuntimeExact(f, scopes, Expected(f.db, f.db.devices.Keys))
  }

  // ---------------------------------------------------------------- what it means

  /** The device that a source address stands for. */
  predicate Stands(f: Fleet, d: DeviceId, k: Key, p: Prefix, now: int) {
    && d in f.db.devices && f.db.devices[d].standing == Active && now < f.db.devices[d].validUntil
    && f.db.devices[d].current == Some(Assignment(k, p)) && f.db.devices[d].applied == f.db.devices[d].generation
    && k in f.db.bindings && f.db.bindings[k].device == d && f.db.bindings[k].applied && f.db.bindings[k].revoked == 0
    && (forall t | t in f.db.tombstones :: t.0 != k)
    && p in f.db.addresses && f.db.addresses[p] == d
  }

  predicate InScope(scopes: seq<Prefix>, p: Prefix) {
    exists i | 0 <= i < |scopes| :: Overlaps(p, scopes[i])
  }

  /** Every interface prefix that touches the managed scope is exactly the current, applied,
      untombstoned address of one active unexpired device. */
  lemma ScopeIsExact(f: Fleet, scopes: seq<Prefix>, now: int, k: Key, p: Prefix)
    requires Converged(f, scopes, now) && k in f.runtime && p in f.runtime[k] && InScope(scopes, p)
    ensures f.runtime[k] == {p} && k in f.db.bindings && Stands(f, f.db.bindings[k].device, k, p, now) && IsHost(p)
  {
    assert PeerExact(f, scopes, Expected(f.db, f.db.devices.Keys), k, p);
    var d := f.db.bindings[k].device;
    assert DeviceConverged(f, d, now) && k in KeysOf(f.db, d);
    assert BindingConverged(f, d, f.db.devices[d], k);
  }

  /** Different peers there belong to different devices and their addresses do not overlap. */
  lemma SourcesIdentify(f: Fleet, scopes: seq<Prefix>, now: int, j: Key, k: Key, p: Prefix, q: Prefix)
    requires Converged(f, scopes, now) && j != k
    requires j in f.runtime && p in f.runtime[j] && InScope(scopes, p) && k in f.runtime && q in f.runtime[k]
             && InScope(scopes, q)
    ensures f.db.bindings[j].device != f.db.bindings[k].device && !Overlaps(p, q)
  {
    ScopeIsExact(f, scopes, now, j, p);
    ScopeIsExact(f, scopes, now, k, q);
    HostsOverlap(p, q);
  }

  // ---------------------------------------------------------------- the checks as they run

  function Addresses(db: Db, keys: set<Key>): map<Key, Prefix> {
    map k | k in db.bindings && k in keys && db.bindings[k].revoked == 0 :: db.bindings[k].address
  }

  lemma AddressesAdd(db: Db, before: map<Key, Prefix>, keys: set<Key>, k: Key)
    requires k in db.bindings
    ensures before + Addresses(db, keys + {k})
         == if db.bindings[k].revoked == 0 then (before + Addresses(db, keys))[k := db.bindings[k].address]
            else before + Addresses(db, keys)
  {
  }

  lemma AddressesAll(db: Db, before: map<Key, Prefix>, d: DeviceId)
    ensures before + Addresses(db, KeysOf(db, d)) == before + Expected(db, {d}) && before + Addresses(db, {}) == before
  {
  }

  /** The loop over one device's bindings. */
  method CheckBindings(f: Fleet, d: DeviceId, dev: Device, before: map<Key, Prefix>)
    returns (ok: bool, expected: map<Key, Prefix>)
    ensures ok <==> forall k | k in KeysOf(f.db, d) :: BindingConverged(f, d, dev, k)
    ensures ok ==> expected == before + Expected(f.db, {d})
  {
    expected := before;
    var all := KeysOf(f.db, d);
    var rest := all;
    ghost var seen: set<Key> := {};
    AddressesAll(f.db, before, d);
    hide BindingConverged, Addresses, Expected;
    while rest != {}
      invariant rest <= all && seen == all - rest
      invariant forall k | k in seen :: BindingConverged(f, d, dev, k)
      invariant expected == before + Addresses(f.db, seen)
      decreases |rest|
    {
      var k :| k in rest;
      rest := rest - {k};
      if !BindingConverged(f, d, dev, k) { return false, expected; }
      AddressesAdd(f.db, before, seen, k);
      seen := seen + {k};
      if f.db.bindings[k].revoked == 0 { expected := expected[k := f.db.bindings[k].address]; }
    }
    assert seen == all;
    ok := true;
  }

  function Untils(f: Fleet, credentials: set<string>): set<int> {
    set c | c in credentials && c in f.credentials :: f.credentials[c].validUntil
  }

  lemma UntilsAdd(f: Fleet, e: Option<int>, times: set<int>, credentials: set<string>, c: string)
    requires c in f.credentials && IsEarliest(e, times + Untils(f, credentials))
    ensures IsEarliest(Earlier(e, f.credentials[c].validUntil), times + Untils(f, credentials + {c}))
  {
    EarlierAdds(e, times + Untils(f, credentials), f.credentials[c].validUntil);
    assert times + Untils(f, credentials + {c}) == times + Untils(f, credentials) + {f.credentials[c].validUntil};
  }

  /** The loop over a device's live credentials, of which there may be one at most. */
  method CheckCredentials(f: Fleet, d: DeviceId, now: int, before: Option<int>, ghost times: set<int>)
    returns (ok: bool, earliest: Option<int>)
    requires IsEarliest(before, times)
    ensures ok <==> CredentialsOk(f, d, now)
    ensures ok ==> IsEarliest(earliest, times + Untils(f, Live(f, d)))
  {
    earliest := before;
    var all := Live(f, d);
    var rest := all;
    ghost var seen: set<string> := {};
    assert times + Untils(f, {}) == times;
    assert forall c | c in all :: c in f.credentials;
    hide IsEarliest, Untils, Live, Earlier;
    while rest != {}
      invariant rest <= all && seen == all - rest
      invariant forall c | c in seen :: Unexpired(f, c, now)
      invariant IsEarliest(earliest, times + Untils(f, seen))
      decreases |rest|
    {
      var c :| c in rest;
      rest := rest - {c};
      if !Unexpired(f, c, now) { return false, earliest; }
      UntilsAdd(f, earliest, times, seen, c);
      seen := seen + {c};
      earliest := Earlier(earliest, f.credentials[c].validUntil);
      hide Unexpired;
    }
    assert seen == all;
    ok := |all| <= 1;
  }

  lemma DeadlinesAdd(f: Fleet, devices: set<DeviceId>, d: DeviceId)
    requires d in f.db.devices
    ensures Deadlines(f, devices + {d}) == OwnDeadlines(f, devices, d)
                                           + if f.db.devices[d].current.Some? then Untils(f, Live(f, d)) else {}
  {
  }

  /** The deadlines so far and the device's own, before its credentials. */
  function OwnDeadlines(f: Fleet, devices: set<DeviceId>, d: DeviceId): set<int>
    requires d in f.db.devices
  {
    Deadlines(f, devices) + if f.db.devices[d].standing == Active then {f.db.devices[d].validUntil} else {}
  }

  lemma ExpectedAdds(db: Db, done: set<DeviceId>, d: DeviceId)
    ensures Expected(db, done) + Expected(db, {d}) == Expected(db, done + {d})
  {
  }

  /** A current key found among the expected peers is bound and unrevoked at its address; in
      ordered tables it is always found. */
  lemma CurrentFound(f: Fleet, d: DeviceId, done: set<DeviceId>)
    requires d in f.db.devices && f.db.devices[d].current.Some?
    ensures var a := f.db.devices[d].current.value;
            var expected := Expected(f.db, done + {d});
            && (a.key in expected && expected[a.key] == a.address ==> CurrentBound(f, a))
            && (DevicesOk(f.db) ==> a.key in expected && expected[a.key] == a.address)
  {
  }

  /** One device of the fleet; `done` are the devices already checked. */
  method CheckDevice(f: Fleet, d: DeviceId, now: int, ghost done: set<DeviceId>, before: map<Key, Prefix>,
                     until: Option<int>)
    returns (ok: bool, expected: map<Key, Prefix>, earliest: Option<int>)
    requires d in f.db.devices && before == Expected(f.db, done) && IsEarliest(until, Deadlines(f, done))
    ensures ok ==> DeviceConverged(f, d, now)
    ensures DeviceConverged(f, d, now) && DevicesOk(f.db) ==> ok
    ensures ok ==> expected == Expected(f.db, done + {d}) && IsEarliest(earliest, Deadlines(f, done + {d}))
  {
    var dev := f.db.devices[d];
    expected, earliest := before, until;
    EarlierAdds(until, Deadlines(f, done), dev.validUntil);
    ExpectedAdds(f.db, done, d);
    hide Settled, Deadlines, BindingConverged, Expected, IsEarliest, CurrentConverged, DevicesOk, Earlier;
    if !Settled(f, d, dev, now) { return false, expected, earliest; }
    if dev.standing == Active { earliest := Earlier(earliest, dev.validUntil); }
    assert IsEarliest(earliest, OwnDeadlines(f, done, d));
    ok, expected := CheckBindings(f, d, dev, before);
    if !ok { return; }
    ok, earliest := CheckCurrent(f, d, now, done, expected, earliest);
  }

  /** The device's current key and its credentials. */
  method CheckCurrent(f: Fleet, d: DeviceId, now: int, ghost done: set<DeviceId>, expected: map<Key, Prefix>,
                      until: Option<int>)
    returns (ok: bool, earliest: Option<int>)
    requires d in f.db.devices && expected == Expected(f.db, done + {d}) && IsEarliest(until, OwnDeadlines(f, done, d))
    ensures ok ==> CurrentConverged(f, d, now) && IsEarliest(earliest, Deadlines(f, done + {d}))
    ensures CurrentConverged(f, d, now) && DevicesOk(f.db) ==> ok
  {
    var dev := f.db.devices[d];
    earliest := until;
    DeadlinesAdd(f, done, d);
    hide Deadlines, Expected, IsEarliest, CredentialsOk, CurrentBound, DevicesOk, Untils, OwnDeadlines;
    if dev.current.Some? {
      CurrentFound(f, d, done);
      if dev.current.value.key !in expected || expected[dev.current.value.key] != dev.current.value.address {
        return false, earliest;
      }
      ok, earliest := CheckCredentials(f, d, now, earliest, OwnDeadlines(f, done, d));
    } else {
      ok := !(KeysOf(f.db, d) == {} && dev.generation > 0 && dev.standing == Active);
      assert OwnDeadlines(f, done, d) + {} == OwnDeadlines(f, done, d);
    }
  }

  /** One interface prefix against every scope it overlaps. */
  method CheckPrefix(f: Fleet, scopes: seq<Prefix>, expected: map<Key, Prefix>, k: Key, p: Prefix) returns (ok: bool)
    requires k in f.runtime
    ensures ok <==> PeerExact(f, scopes, expected, k, p)
  {
    for i := 0 to |scopes|
      invariant forall j | 0 <= j < i && Overlaps(p, scopes[j]) ::
                  k in expected && expected[k] == p && f.runtime[k] == {p} && !Protected(f.policy, k, p)
    {
      if !Overlaps(p, scopes[i]) { continue; }
      if k !in expected || expected[k] != p || f.runtime[k] != {p} || Protected(f.policy, k, p) { return false; }
    }
    return true;
  }

  /** One peer of the interface. */
  method CheckPeer(f: Fleet, scopes: seq<Prefix>, expected: map<Key, Prefix>, k: Key) returns (ok: bool)
    requires k in f.runtime
    ensures ok <==> forall p | p in f.runtime[k] :: PeerExact(f, scopes, expected, k, p)
  {
    hide PeerExact;
    var ips := f.runtime[k];
    while ips != {}
      invariant ips <= f.runtime[k]
      invariant forall p | p in f.runtime[k] - ips :: PeerExact(f, scopes, expected, k, p)
      decreases |ips|
    {
      var p :| p in ips;
      ips := ips - {p};
      var exact := CheckPrefix(f, scopes, expected, k, p);
      if !exact { return false; }
    }
    return true;
  }

  /** The interface against the expected peers: both loops at the end. */
  method CheckRuntime(f: Fleet, scopes: seq<Prefix>, expected: map<Key, Prefix>) returns (ok: bool)
    ensures ok <==> RuntimeExact(f, scopes, expected)
  {
    hide PeerExact;
    var rest := expected.Keys;
    while rest != {}
      invariant rest <= expected.Keys
      invariant forall k | k in expected.Keys - rest :: k in f.runtime && f.runtime[k] == {expected[k]}
      decreases |rest|
    {
      var k :| k in rest;
      rest := rest - {k};
      if k !in f.runtime || f.runtime[k] != {expected[k]} { return false; }
    }
    var peers := f.runtime.Keys;
    while peers != {}
      invariant peers <= f.runtime.Keys
      invariant forall k, p | k in f.runtime.Keys - peers && p in f.runtime[k] :: PeerExact(f, scopes, expected, k, p)
      decreases |peers|
    {
      var k :| k in peers;
      peers := peers - {k};
      var exact := CheckPeer(f, scopes, expected, k);
      if !exact { return false; }
    }
    return true;
  }

  /** WithProxyConvergence up to the grant: the callback runs only for a converged fleet, and
      always for one whose tables are in order; the deadline it is given is the earliest
      expiry among active devices and live credentials of devices with a key. */
  method Prove(f: Fleet, scopes: seq<Prefix>, now: int, verifiedAt: int) returns (r: Option<Proof>)
    ensures r.Some? ==> Converged(f, scopes, now)
    ensures r.Some? ==> IsEarliest(r.value.earliest, Deadlines(f, f.db.devices.Keys))
                        && (r.value.earliest.Some? ==> verifiedAt < r.value.earliest.value)
    ensures Converged(f, scopes, now) && DevicesOk(f.db)
            && (forall t | t in Deadlines(f, f.db.devices.Keys) :: verifiedAt < t)
            ==> r.Some?
  {
    hide DevicesOk, DeviceConverged, Deadlines, Expected;
    if !ScopesOk(f.policy, scopes) || |f.db.devices| > MAX_DEVICES { return None; }
    var rest := f.db.devices.Keys;
    var expected: map<Key, Prefix> := map[];
    var earliest: Option<int> := None;
    var active := 0;
    NoDeadlines(f);
    assert f.db.devices.Keys - rest == {};
    while rest != {}
      invariant rest <= f.db.devices.Keys
      invariant forall d | d in f.db.devices.Keys - rest :: DeviceConverged(f, d, now)
      invariant expected == Expected(f.db, f.db.devices.Keys - rest)
      invariant IsEarliest(earliest, Deadlines(f, f.db.devices.Keys - rest))
      decreases |rest|
    {
      var d :| d in rest;
      ghost var done := f.db.devices.Keys - rest;
      var ok;
      ok, expected, earliest := CheckDevice(f, d, now, done, expected, earliest);
      if !ok { return None; }
      rest := rest - {d};
      assert f.db.devices.Keys - rest == done + {d};
      if f.db.devices[d].current.Some? { active := active + 1; }
    }
    assert f.db.devices.Keys - rest == f.db.devices.Keys;
    var exact := CheckRuntime(f, scopes, expected);
    if !exact { return None; }
    if earliest.Some? && verifiedAt >= earliest.value { return None; }
    return Some(Proof(verifiedAt, earliest, active));
  }

  lemma NoDeadlines(f: Fleet)
    ensures Deadlines(f, {}) == {} && Expected(f.db, {}) == map[]
  {
  }

  /** grantProxy's callback: the earlier of two seconds ahead and the proof's deadline, if a
      tenth of a second of it is left. */
  method GrantUntil(proof: Proof, now: int, later: int) returns (until: Option<int>)
    ensures until.Some? ==> until.value <= now + LEASE && until.value - later >= MIN_LEASE
                            && (proof.earliest.Some? ==> until.value <= proof.earliest.value)
    ensures until.Some? ==> until.value == now + 2_000_000_000 || Some(until.value) == proof.earliest
    ensures until.Some? <==> later + 100_000_000 <= now + 2_000_000_000
                             && (proof.earliest.Some? ==> later + 100_000_000 <= proof.earliest.value)
    ensures until.None? <==> now + LEASE - later < MIN_LEASE
                             || (proof.earliest.Some? && proof.earliest.value - later < MIN_LEASE)
  {
    var u := now + LEASE;
    if proof.earliest.Some? && proof.earliest.value < u { u := proof.earliest.value; }
    if u - later < MIN_LEASE { return None; }
    return Some(u);
  }

  /** The grant deadline is no later than any active device's expiry, or the expiry of any
      live credential of a device with a current key. */
  lemma GrantWithinValidity(f: Fleet, proof: Proof, until: int, d: DeviceId, c: string)
    requires IsEarliest(proof.earliest, Deadlines(f, f.db.devices.Keys))
             && (proof.earliest.Some? ==> until <= proof.earliest.value)
    requires d in f.db.devices
    ensures f.db.devices[d].standing == Active ==> until <= f.db.devices[d].validUntil
    ensures f.db.devices[d].current.Some? && c in Live(f, d) ==> until <= f.credentials[c].validUntil
  {
    if f.db.devices[d].standing == Active { assert f.db.devices[d].validUntil in Deadlines(f, f.db.devices.Keys); }
    if f.db.devices[d].current.Some? && c in Live(f, d) {
      assert f.credentials[c].validUntil in Deadlines(f, f.db.devices.Keys);
    }
  }
}
