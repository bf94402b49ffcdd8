/** Planning and verifying WireGuard peer changes for one device
    (hub/internal/deviceauth/executor.go). */
module PeerPlan {
  import opened Prelude
  import opened Prefixes

  type Key = string

  /** A WireGuard interface: each peer's allowed addresses. */
  type Peers = map<Key, set<Prefix>>

  datatype Action = Remove(key: Key) | Apply(key: Key, address: Prefix)

  /** Applying an address replaces the peer's list and takes the address from everybody else. */
  function Effect(rt: Peers, a: Action): Peers {
    match a
    case Remove(key) => rt - {key}
    case Apply(key, address) => (map k | k in rt :: rt[k] - {address})[key := {address}]
  }

  function Exec(rt: Peers, actions: seq<Action>): Peers {
    if actions == [] then rt else Effect(Exec(rt, actions[..|actions| - 1]), actions[|actions| - 1])
  }

  // ---------------------------------------------------------------- policy

  datatype Policy = Policy(pools: seq<Prefix>, protectedKeys: set<Key>, protectedPrefixes: seq<Prefix>)

  predicate Unroutable(p: Prefix) {
    || p.base == 0
    || (!p.v6 && (p.base / 0x1000_0000 == 14 || p.base / 0x100_0000 == 127))
    || (p.v6 && (p.base == 1 || p.base / 0x1_0000_0000_0000_0000_0000_0000_0000_00 == 255
                || p.base / 0x1_0000_0000 == 0xffff))
  }

  predicate Routable(p: Prefix) { IsHost(p) && !Unroutable(p) }

  /** Store.protected */
  predicate Protected(policy: Policy, key: Key, p: Prefix) {
    key in policy.protectedKeys || exists i | 0 <= i < |policy.protectedPrefixes| ::
        Overlaps(policy.protectedPrefixes[i], p)
  }

  /** Store.address: a single routable host, inside a pool, not protected. */
  predicate Permitted(policy: Policy, key: Key, p: Prefix) {
    && Routable(p)
    && (exists i | 0 <= i < |policy.pools| :: Contains(policy.pools[i], p.v6, p.base))
    && !Protected(policy, key, p)
  }

  // ---------------------------------------------------------------- plan

  /** One row of a device's binding history; `managed` says that device, manager and role match. */
  datatype Row = Row(key: Key, address: Prefix, managed: bool, revoked: bool, applied: bool, intent: bool)

  datatype Target = NoPeer | Peer(key: Key, address: Prefix)

  datatype Error = ErrProtected | ErrVerification

  /** A row the executor must not act on: foreign, outside policy, or present in the
      runtime without being provably its own. */
  predicate Foreign(policy: Policy, row: Row, rt: Peers) {
    || !row.managed
    || !Permitted(policy, row.key, row.address)
    || (row.key in rt && ((!row.applied && !row.intent) || rt[row.key] != {row.address}))
  }

  predicate Retired(rows: seq<Row>, key: Key) {
    exists i | 0 <= i < |rows| :: rows[i].key == key && rows[i].revoked
  }

  /** A peer that is not an old peer of this device sits on the wanted address. */
  predicate Occupied(rows: seq<Row>, rt: Peers, key: Key, address: Prefix) {
    exists k | k in rt && k != key && !Retired(rows, k) :: exists p | p in rt[k] :: Overlaps(p, address)
  }

  predicate Authorised(rows: seq<Row>, key: Key, address: Prefix) {
    exists i | 0 <= i < |rows| :: rows[i].key == key && !rows[i].revoked && rows[i].address == address
  }

  predicate Refused(policy: Policy, target: Target, rows: seq<Row>, rt: Peers) {
    || (exists i | 0 <= i < |rows| :: Foreign(policy, rows[i], rt))
    || (target.Peer? && (!Authorised(rows, target.key, target.address)
                || Occupied(rows, rt, target.key, target.address)))
  }

  function Removals(rows: seq<Row>, rt: Peers): seq<Action> {
    if rows == [] then []
    else
      var last := rows[|rows| - 1];
      var before := Removals(rows[..|rows| - 1], rt);
      if last.revoked && last.key in rt then before + [Remove(last.key)] else before
  }

  function Additions(target: Target, rt: Peers): seq<Action> {
    if target.Peer? && target.key !in rt then [Apply(target.key, target.address)] else []
  }

  function Plan(policy: Policy, target: Target, rows: seq<Row>, rt: Peers): Result<seq<Action>, Error> {
    if Refused(policy, target, rows, rt) then Err(ErrProtected)
    else Ok(Removals(rows, rt) + Additions(target, rt))
  }

  /** Keys are the primary key of the bindings table. */
  predicate Distinct(rows: seq<Row>) {
    forall i, j | 0 <= i < j < |rows| :: rows[i].key != rows[j].key
  }

  predicate InHistory(rows: seq<Row>, key: Key) {
    exists i | 0 <= i < |rows| :: rows[i].key == key
  }

  // ---------------------------------------------------------------- verification

  predicate SameAt(before: Peers, after: Peers, k: Key) {
    (k in before <==> k in after) && (k in before ==> before[k] == after[k])
  }

  /** What verify accepts: old keys gone, the current key exactly on its address, and
      everything outside the device's history as it was. */
  predicate Verified(target: Target, rows: seq<Row>, before: Peers, after: Peers) {
    && (forall i | 0 <= i < |rows| && rows[i].revoked :: rows[i].key !in after)
    && (target.Peer? ==> target.key in after && after[target.key] == {target.address})
    && (forall k | k in before && !InHistory(rows, k) :: SameAt(before, after, k))
    && (forall k | k in after && !InHistory(rows, k) :: k in before)
  }

  // ---------------------------------------------------------------- executing a plan

  /** After the removals, the retired keys are gone and everybody else is untouched. */
  lemma {:induction false} RemovalsRun(rows: seq<Row>, rt: Peers)
    ensures forall k :: k in Exec(rt, Removals(rows, rt)) <==> k in rt && !Retired(rows, k)
    ensures forall k | k in Exec(rt, Removals(rows, rt)) :: Exec(rt, Removals(rows, rt))[k] == rt[k]
  {
    if rows != [] {
      var init := rows[..|rows| - 1];
      var last := rows[|rows| - 1];
      RemovalsRun(init, rt);
      forall k ensures Retired(rows, k) <==> Retired(init, k) || (last.revoked && last.key == k) {
        if Retired(init, k) {
          var i :| 0 <= i < |init| && init[i].key == k && init[i].revoked;
          assert rows[i] == init[i];
        }
      }
      var removed := Removals(init, rt);
      if last.revoked && last.key in rt {
        assert (removed + [Remove(last.key)])[..|removed|] == removed;
      } else {
        assert removed + [] == removed;
      }
    }
  }

  lemma ExecSnoc(rt: Peers, actions: seq<Action>, a: Action)
    ensures Exec(rt, actions + [a]) == Effect(Exec(rt, actions), a)
  {
    assert (actions + [a])[..|actions|] == actions;
  }

  /** What the whole plan leaves behind: retired keys gone, the current key on its address,
      and every other peer exactly as it was. */
  lemma PlanRuns(policy: Policy, target: Target, rows: seq<Row>, rt: Peers)
    requires Plan(policy, target, rows, rt).Ok?
    ensures var after := Exec(rt, Plan(policy, target, rows, rt).value);
            && (target.Peer? && !Retired(rows, target.key) ==>
                  target.key in after && after[target.key] == {target.address})
            && (forall k | !(target.Peer? && k == target.key) :: k in after <==> k in rt && !Retired(rows, k))
            && (forall k | k in after && !(target.Peer? && k == target.key) :: after[k] == rt[k])
  {
    var mid := Exec(rt, Removals(rows, rt));
    RemovalsRun(rows, rt);
    if target.Peer? && target.key !in rt {
      ExecSnoc(rt, Removals(rows, rt), Apply(target.key, target.address));
      forall k | k in mid && k != target.key ensures target.address !in mid[k] {
        OverlapsSelf(target.address);
      }
    } else {
      assert Removals(rows, rt) + [] == Removals(rows, rt);
      if target.Peer? {
        var i :| 0 <= i < |rows| && rows[i].key == target.key && !rows[i].revoked && rows[i].address == target.address;
        assert !Foreign(policy, rows[i], rt);
      }
    }
  }

  lemma AuthorisedNotRetired(rows: seq<Row>, key: Key, address: Prefix)
    requires Distinct(rows) && Authorised(rows, key, address)
    ensures !Retired(rows, key) && InHistory(rows, key)
  {
  }

  /** Executing an accepted plan always satisfies verify, and leaves every peer outside the
      device's own binding history exactly as it was. */
  lemma PlanVerifies(policy: Policy, target: Target, rows: seq<Row>, rt: Peers)
    requires Distinct(rows) && Plan(policy, target, rows, rt).Ok?
    ensures var after := Exec(rt, Plan(policy, target, rows, rt).value);
            && Verified(target, rows, rt, after)
            && forall k | !InHistory(rows, k) :: SameAt(rt, after, k)
  {
    PlanRuns(policy, target, rows, rt);
    if target.Peer? { AuthorisedNotRetired(rows, target.key, target.address); }
    var after := Exec(rt, Plan(policy, target, rows, rt).value);
    forall k | !InHistory(rows, k) ensures SameAt(rt, after, k) {
      assert !Retired(rows, k);
    }
    forall i | 0 <= i < |rows| && rows[i].revoked ensures rows[i].key !in after {
      assert Retired(rows, rows[i].key);
    }
  }

  // ---------------------------------------------------------------- resuming after a crash

  /** The history as a retry reads it: the apply intents were durable before any action. */
  function WithIntents(rows: seq<Row>, actions: seq<Action>): seq<Row> {
    seq(|rows|, i requires 0 <= i < |rows| =>
      rows[i].(intent := rows[i].intent || exists j | 0 <= j < |actions| ::
                 actions[j].Apply? && actions[j].key == rows[i].key))
  }

  lemma {:induction false} RemovalsMembers(rows: seq<Row>, rt: Peers, j: nat)
    requires j < |Removals(rows, rt)|
    ensures Removals(rows, rt)[j].Remove? && Retired(rows, Removals(rows, rt)[j].key) && Removals(rows, rt)[j].key in rt
  {
    var init := rows[..|rows| - 1];
    if j < |Removals(init, rt)| {
      RemovalsMembers(init, rt, j);
      var i :| 0 <= i < |init| && init[i].key == Removals(init, rt)[j].key && init[i].revoked;
      assert rows[i] == init[i];
    }
  }

  /** `now` is the runtime after the first i planned removals. */
  predicate Resumes(rows: seq<Row>, rt: Peers, i: nat, now: Peers)
    requires i <= |Removals(rows, rt)|
  {
    && Removals(rows, now) == Removals(rows, rt)[i..]
    && (forall k | k in now :: k in rt && now[k] == rt[k])
    && (forall k | k in rt && k !in now :: Retired(rows, k))
  }

  lemma RetiredGrows(rows: seq<Row>, k: Key)
    requires rows != [] && Retired(rows[..|rows| - 1], k)
    ensures Retired(rows, k)
  {
    var init := rows[..|rows| - 1];
    var x :| 0 <= x < |init| && init[x].key == k && init[x].revoked;
    assert rows[x] == init[x];
  }

  lemma ResumesEarly(rows: seq<Row>, rt: Peers, i: nat, now: Peers)
    requires Distinct(rows) && rows != [] && i <= |Removals(rows[..|rows| - 1], rt)|
             && Resumes(rows[..|rows| - 1], rt, i, now)
    ensures i <= |Removals(rows, rt)| && Resumes(rows, rt, i, now)
  {
    var init, last := rows[..|rows| - 1], rows[|rows| - 1];
    assert !Retired(init, last.key);
    forall k | k in rt && k !in now ensures Retired(rows, k) { RetiredGrows(rows, k); }
    hide Retired;
    assert last.key in rt <==> last.key in now;
  }

  lemma ResumesLate(rows: seq<Row>, rt: Peers, now: Peers)
    requires Distinct(rows) && rows != [] && rows[|rows| - 1].revoked && rows[|rows| - 1].key in rt
    requires Resumes(rows[..|rows| - 1], rt, |Removals(rows[..|rows| - 1], rt)|, now)
    ensures Resumes(rows, rt, |Removals(rows, rt)|, now - {rows[|rows| - 1].key})
  {
    var init, last := rows[..|rows| - 1], rows[|rows| - 1];
    var after := now - {last.key};
    RemovalsSame(init, init, now, after);
    forall k | k in rt && k !in after ensures Retired(rows, k) {
      if k == last.key { assert rows[|rows| - 1].key == k; } else { RetiredGrows(rows, k); }
    }
  }

  /** Removing from a runtime that has already lost the first few keys plans exactly the rest. */
  lemma {:induction false} RemovalsResume(rows: seq<Row>, rt: Peers, i: nat)
    requires Distinct(rows) && i <= |Removals(rows, rt)|
    ensures Resumes(rows, rt, i, Exec(rt, Removals(rows, rt)[..i]))
    decreases |rows|
  {
    if rows != [] {
      var init, last := rows[..|rows| - 1], rows[|rows| - 1];
      var all, head := Removals(rows, rt), Removals(init, rt);
      if i <= |head| {
        RemovalsResume(init, rt, i);
        assert all[..i] == head[..i];
        hide Resumes, Exec;
        ResumesEarly(rows, rt, i, Exec(rt, head[..i]));
      } else {
        RemovalsResume(init, rt, |head|);
        assert head[..|head|] == head && all[..i] == all == head + [Remove(last.key)];
        ExecSnoc(rt, head, Remove(last.key));
        hide Resumes, Exec;
        ResumesLate(rows, rt, Exec(rt, head));
      }
    }
  }

  /** Removals look only at which retired keys are present. */
  lemma {:induction false} RemovalsSame(rows: seq<Row>, other: seq<Row>, rt: Peers, now: Peers)
    requires |rows| == |other|
    requires forall i | 0 <= i < |rows| :: rows[i].key == other[i].key && rows[i].revoked == other[i].revoked
    requires forall i | 0 <= i < |rows| && rows[i].revoked :: rows[i].key in rt <==> rows[i].key in now
    ensures Removals(rows, rt) == Removals(other, now)
  {
    if rows != [] {
      RemovalsSame(rows[..|rows| - 1], other[..|rows| - 1], rt, now);
    }
  }

  /** What a crash after `i` of the planned actions leaves behind. */
  predicate Interrupted(target: Target, rt: Peers, now: Peers) {
    && (forall k | k in now && !(target.Peer? && k == target.key) :: k in rt && now[k] == rt[k])
    && (target.Peer? && target.key in now && target.key !in rt ==> now[target.key] == {target.address})
    && (target.Peer? && target.key in rt ==> target.key in now && now[target.key] == rt[target.key])
  }

  lemma InterruptedRemoving(target: Target, rows: seq<Row>, rt: Peers, i: nat)
    requires Distinct(rows) && (target.Peer? ==> Authorised(rows, target.key, target.address))
    requires i <= |Removals(rows, rt)|
    ensures var actions := Removals(rows, rt) + Additions(target, rt);
            var now := Exec(rt, actions[..i]);
            && Removals(rows, now) + Additions(target, now) == actions[i..]
            && Interrupted(target, rt, now)
  {
    var removals := Removals(rows, rt);
    var actions := removals + Additions(target, rt);
    if target.Peer? { AuthorisedNotRetired(rows, target.key, target.address); }
    RemovalsResume(rows, rt, i);
    assert actions[..i] == removals[..i];
    assert actions[i..] == removals[i..] + Additions(target, rt);
    hide Removals, Exec, Distinct, Authorised;
  }

  lemma InterruptedApplied(policy: Policy, target: Target, rows: seq<Row>, rt: Peers)
    requires Distinct(rows) && Plan(policy, target, rows, rt).Ok? && target.Peer? && target.key !in rt
    ensures var now := Exec(rt, Plan(policy, target, rows, rt).value);
            && Removals(rows, now) == [] && target.key in now && Interrupted(target, rt, now)
  {
    var removals := Removals(rows, rt);
    var actions := Plan(policy, target, rows, rt).value;
    AuthorisedNotRetired(rows, target.key, target.address);
    RemovalsResume(rows, rt, |removals|);
    assert removals[..|removals|] == removals && removals[|removals|..] == [];
    RemovalsRun(rows, rt);
    PlanRuns(policy, target, rows, rt);
    hide Exec, Refused;
    forall i | 0 <= i < |rows| && rows[i].revoked
      ensures rows[i].key in Exec(rt, removals) <==> rows[i].key in Exec(rt, actions)
    {
      assert Retired(rows, rows[i].key);
    }
    RemovalsSame(rows, rows, Exec(rt, removals), Exec(rt, actions));
  }

  lemma InterruptedAt(policy: Policy, target: Target, rows: seq<Row>, rt: Peers, i: nat)
    requires Distinct(rows) && Plan(policy, target, rows, rt).Ok?
    requires var actions := Plan(policy, target, rows, rt).value; i <= |actions|
    ensures var actions := Plan(policy, target, rows, rt).value;
            var now := Exec(rt, actions[..i]);
            Removals(rows, now) + Additions(target, now) == actions[i..] && Interrupted(target, rt, now)
  {
    var actions := Plan(policy, target, rows, rt).value;
    if i <= |Removals(rows, rt)| {
      InterruptedRemoving(target, rows, rt, i);
    } else {
      InterruptedApplied(policy, target, rows, rt);
      assert actions[..i] == actions && actions[i..] == [];
    }
  }

  lemma AgainNotForeign(policy: Policy, target: Target, rows: seq<Row>, rt: Peers, now: Peers, j: nat)
    requires Distinct(rows) && j < |rows| && Interrupted(target, rt, now)
    requires !Foreign(policy, rows[j], rt) && (target.Peer? ==> Authorised(rows, target.key, target.address))
    ensures var a := Additions(target, rt);
            !Foreign(policy, WithIntents(rows, Removals(rows, rt) + a)[j], now)
  {
    var actions := Removals(rows, rt) + Additions(target, rt);
    if rows[j].key in now && rows[j].key !in rt {
      assert actions[|actions| - 1] == Apply(target.key, target.address);
      assert rows[j].address == target.address;
    }
    hide Permitted;
  }

  lemma AgainNotOccupied(target: Target, rows: seq<Row>, actions: seq<Action>, rt: Peers, now: Peers)
    requires target.Peer? && Interrupted(target, rt, now)
    requires Authorised(rows, target.key, target.address) && !Occupied(rows, rt, target.key, target.address)
    ensures var again := WithIntents(rows, actions);
            Authorised(again, target.key, target.address) && !Occupied(again, now, target.key, target.address)
  {
    var again := WithIntents(rows, actions);
    var x :| 0 <= x < |rows| && rows[x].key == target.key && !rows[x].revoked && rows[x].address == target.address;
    assert again[x].key == target.key;
    hide Overlaps;
    forall k | Retired(rows, k) ensures Retired(again, k) {
      var y :| 0 <= y < |rows| && rows[y].key == k && rows[y].revoked;
      assert again[y].key == k;
    }
  }

  /** After a crash at any point, the retried plan is exactly the rest of the interrupted
      one: the durable intents let it recognise its own leftovers, nothing is refused, done
      twice or left out. */
  lemma PlanResumes(policy: Policy, target: Target, rows: seq<Row>, rt: Peers, i: nat)
    requires Distinct(rows) && Plan(policy, target, rows, rt).Ok?
    requires var actions := Plan(policy, target, rows, rt).value; i <= |actions|
    ensures var actions := Plan(policy, target, rows, rt).value;
            Plan(policy, target, WithIntents(rows, actions), Exec(rt, actions[..i])) == Ok(actions[i..])
  {
    var actions := Plan(policy, target, rows, rt).value;
    var now := Exec(rt, actions[..i]);
    var again := WithIntents(rows, actions);
    InterruptedAt(policy, target, rows, rt, i);
    assert forall j | 0 <= j < |rows| :: again[j].key == rows[j].key && again[j].revoked == rows[j].revoked;
    RemovalsSame(rows, again, now, now);
    forall j | 0 <= j < |again| ensures !Foreign(policy, again[j], now) {
      AgainNotForeign(policy, target, rows, rt, now, j);
    }
    if target.Peer? { AgainNotOccupied(target, rows, actions, rt, now); }
    hide Foreign, Occupied, Authorised, Removals, Additions, Exec, WithIntents, Interrupted;
  }

  /** The plan acts on nothing it cannot prove to be the device's own: every key it removes
      was present on exactly the address of its revoked binding and had been applied or
      durably intended; the key it applies was absent. */
  lemma PlanTouchesOwnPeers(policy: Policy, target: Target, rows: seq<Row>, rt: Peers, j: nat)
    requires Plan(policy, target, rows, rt).Ok? && j < |Plan(policy, target, rows, rt).value|
    ensures var a := Plan(policy, target, rows, rt).value[j];
            match a
            case Remove(key) => (exists i :: 0 <= i < |rows| && rows[i].key == key && rows[i].revoked
                                   && key in rt && rt[key] == {rows[i].address} && (rows[i].applied || rows[i].intent))
            case Apply(key, address) => target == Peer(key, address) && key !in rt
  {
    var removals := Removals(rows, rt);
    if j < |removals| {
      RemovalsMembers(rows, rt, j);
      var key := removals[j].key;
      var i :| 0 <= i < |rows| && rows[i].key == key && rows[i].revoked;
      assert !Foreign(policy, rows[i], rt);
    }
  }

  // ---------------------------------------------------------------- the loops of the source

  datatype ListedPeer = ListedPeer(key: Key, valid: bool, allowed: seq<Option<Prefix>>)

  /** A listing runtimeMap accepts: few enough, well-formed and without repetition. */
  predicate Listable(peers: seq<ListedPeer>) {
    && |peers| <= 16384
    && (forall i | 0 <= i < |peers| :: peers[i].valid && |peers[i].allowed| <= 64)
    && (forall i, x | 0 <= i < |peers| && 0 <= x < |peers[i].allowed| :: peers[i].allowed[x].Some?)
    && (forall i, x, y | 0 <= i < |peers| && 0 <= x < y < |peers[i].allowed| ::
          peers[i].allowed[x] != peers[i].allowed[y])
    && (forall i, j | 0 <= i < j < |peers| :: peers[i].key != peers[j].key)
  }

  ghost predicate Listed(peer: ListedPeer, ips: set<Prefix>) {
    forall p :: p in ips <==> Some(p) in peer.allowed
  }

  method AllowedAddresses(allowed: seq<Option<Prefix>>) returns (r: Option<set<Prefix>>)
    ensures r.Some? <==> (forall x | 0 <= x < |allowed| :: allowed[x].Some?)
                         && (forall x, y | 0 <= x < y < |allowed| :: allowed[x] != allowed[y])
    ensures r.Some? ==> forall p :: p in r.value <==> Some(p) in allowed
  {
    var ips: set<Prefix> := {};
    for i := 0 to |allowed|
      invariant forall x | 0 <= x < i :: allowed[x].Some?
      invariant forall x, y | 0 <= x < y < i :: allowed[x] != allowed[y]
      invariant forall p :: p in ips <==> Some(p) in allowed[..i]
    {
      if allowed[i].None? { return None; }
      if allowed[i].value in ips {
        assert exists x | 0 <= x < i :: allowed[x] == allowed[i];
        return None;
      }
      ips := ips + {allowed[i].value};
    }
    assert allowed[..|allowed|] == allowed;
    r := Some(ips);
  }

  /** runtimeMap */
  method RuntimeMap(peers: seq<ListedPeer>) returns (r: Result<Peers, Error>)
    ensures r.Ok? <==> Listable(peers)
    ensures r.Ok? ==> forall k :: k in r.value <==> exists i | 0 <= i < |peers| :: peers[i].key == k
    ensures r.Ok? ==> forall i | 0 <= i < |peers| :: peers[i].key in r.value && Listed(peers[i], r.value[peers[i].key])
    ensures r.Err? ==> r.error == ErrProtected
  {
    if |peers| > 16384 { return Err(ErrProtected); }
    var result: Peers := map[];
    for i := 0 to |peers|
      invariant Listable(peers[..i])
      invariant forall k :: k in result <==> exists x | 0 <= x < i :: peers[x].key == k
      invariant forall x | 0 <= x < i :: peers[x].key in result && Listed(peers[x], result[peers[x].key])
    {
      var peer := peers[i];
      if !peer.valid || |peer.allowed| > 64 { return Err(ErrProtected); }
      if peer.key in result { return Err(ErrProtected); }
      var ips := AllowedAddresses(peer.allowed);
      if ips.None? { return Err(ErrProtected); }
      result := result[peer.key := ips.value];
    }
    assert peers[..|peers|] == peers;
    r := Ok(result);
  }

  /** The overlap scan of plan. */
  method FindOccupied(rows: seq<Row>, rt: Peers, key: Key, address: Prefix) returns (found: bool)
    ensures found == Occupied(rows, rt, key, address)
  {
    var todo := rt.Keys;
    while todo != {}
      invariant todo <= rt.Keys
      invariant forall k | k in rt && k !in todo && k != key && !Retired(rows, k) ::
                  forall p | p in rt[k] :: !Overlaps(p, address)
    {
      var k :| k in todo;
      todo := todo - {k};
      if k != key && !Retired(rows, k) {
        var ips := rt[k];
        while ips != {}
          invariant ips <= rt[k]
          invariant forall p | p in rt[k] - ips :: !Overlaps(p, address)
        {
          var p :| p in ips;
          ips := ips - {p};
          if Overlaps(p, address) { return true; }
        }
      }
    }
    return false;
  }

  /** plan: the checks and the two passes over the history. */
  method PlanPeers(policy: Policy, target: Target, rows: seq<Row>, rt: Peers) returns (r: Result<seq<Action>, Error>)
    ensures r == Plan(policy, target, rows, rt)
  {
    hide Foreign, Occupied, Authorised;
    for i := 0 to |rows|
      invariant forall j | 0 <= j < i :: !Foreign(policy, rows[j], rt)
    {
      if Foreign(policy, rows[i], rt) { return Err(ErrProtected); }
    }
    var actions: seq<Action> := [];
    for i := 0 to |rows|
      invariant actions == Removals(rows[..i], rt)
    {
      assert rows[..i + 1][..i] == rows[..i];
      if rows[i].revoked && rows[i].key in rt {
        actions := actions + [Remove(rows[i].key)];
      }
    }
    assert rows[..|rows|] == rows;
    if target.Peer? {
      if !Authorised(rows, target.key, target.address) { return Err(ErrProtected); }
      var occupied := FindOccupied(rows, rt, target.key, target.address);
      if occupied { return Err(ErrProtected); }
      if target.key !in rt {
        actions := actions + [Apply(target.key, target.address)];
      }
    }
    assert Removals(rows, rt) + [] == Removals(rows, rt);
    r := Ok(actions);
  }

  /** verify: three loops over the history and the two snapshots. */
  method VerifyPeers(target: Target, rows: seq<Row>, before: Peers, after: Peers) returns (ok: bool)
    ensures ok == Verified(target, rows, before, after)
  {
    for i := 0 to |rows|
      invariant forall j | 0 <= j < i && rows[j].revoked :: rows[j].key !in after
    {
      if rows[i].revoked && rows[i].key in after { return false; }
    }
    if target.Peer? && !(target.key in after && after[target.key] == {target.address}) { return false; }
    var todo := before.Keys;
    while todo != {}
      invariant todo <= before.Keys
      invariant forall k | k in before && k !in todo && !InHistory(rows, k) :: SameAt(before, after, k)
    {
      var k :| k in todo;
      todo := todo - {k};
      if !InHistory(rows, k) && !(k in after && before[k] == after[k]) { return false; }
    }
    todo := after.Keys;
    while todo != {}
      invariant todo <= after.Keys
      invariant forall k | k in after && k !in todo && !InHistory(rows, k) :: k in before
    {
      var k :| k in todo;
      todo := todo - {k};
      if !InHistory(rows, k) && k !in before { return false; }
    }
    ok := true;
  }
}
