/** The authority's tables as one mutable object: each method is one transaction of
    hub/internal/deviceauth/store.go or executor.go, statement by statement, and leaves the
    tables exactly as the transition it implements says. */
module StoreObject {
  import opened Prelude
  import opened Prefixes
  import opened PeerPlan
  import opened AuthorityModel

  class Store {
    var devices: map<DeviceId, Device>
    var addresses: map<Prefix, DeviceId>
    var bindings: map<Key, Binding>
    var tombstones: map<(Key, nat), Tombstone>
    var operations: map<OpId, Operation>
    var requests: map<RequestKey, OpId>
    var outbox: map<OpId, Job>
    var intents: map<IntentKey, Intent>
    var fence: nat

    ghost function View(): Db
      reads this
    {
      Db(devices, addresses, bindings, tombstones, operations, requests, outbox, intents, fence)
    }

    constructor ()
      ensures View() == EMPTY
    {
      devices, addresses, bindings, tombstones := map[], map[], map[], map[];
      operations, requests, outbox, intents, fence := map[], map[], map[], map[], 0;
    }

    method Snapshot() returns (db: Db)
      ensures db == View()
    {
      return Db(devices, addresses, bindings, tombstones, operations, requests, outbox, intents, fence);
    }

    /** Every current binding of the device gets its tombstone and its revocation. */
    method Retire(d: DeviceId, g: nat, now: int)
      modifies this`tombstones, this`bindings
      ensures tombstones == old(tombstones) + Stones(old(bindings), d, g, now)
              && bindings == Withdrawn(old(bindings), d, g)
    {
      var stones := map k | k in bindings && bindings[k].device == d && bindings[k].revoked == 0 ::
          (k, g) := Tombstone(now, None);
      assert stones == Stones(bindings, d, g, now);
      tombstones := tombstones + stones;
      bindings := map k | k in bindings ::
        if bindings[k].device == d && bindings[k].revoked == 0 then bindings[k].(revoked := g) else bindings[k];
    }

    /** Older jobs of the device are superseded. */
    method Supersede(d: DeviceId, g: nat)
      modifies this`outbox
      ensures outbox == Overtaken(old(outbox), operations, d, g)
    {
      outbox := map o | o in outbox ::
        if Open(outbox[o].state) && o in operations && operations[o].device == d && operations[o].generation < g
        then outbox[o].(state := Superseded) else outbox[o];
    }

    /** The desired state of an accepted command: address, tombstones, bindings, device row. */
    method Desire(cmd: Command, now: int)
      requires cmd.device in devices && (cmd.verb == ApplyKey ==> cmd.target.Some?)
      modifies this`addresses, this`tombstones, this`bindings, this`devices
      ensures var dev := old(devices)[cmd.device];
              var g := dev.generation + 1;
              && devices == old(devices)[cmd.device := NewDevice(dev, cmd)]
              && addresses == NewAddresses(old(addresses), cmd)
              && bindings == NewBindings(Withdrawn(old(bindings), cmd.device, g), cmd, g)
              && tombstones == old(tombstones) + Stones(old(bindings), cmd.device, g, now)
    {
      hide Stones, Withdrawn;
      var d := cmd.device;
      var dev := devices[d];
      var g := dev.generation + 1;
      if cmd.verb == ApplyKey && cmd.target.value.address !in addresses {
        addresses := addresses[cmd.target.value.address := d];
      }
      Retire(d, g, now);
      if cmd.verb == ApplyKey {
        bindings := bindings[cmd.target.value.key := Binding(d, cmd.target.value.address, g, 0, 0, false)];
        devices := devices[d := dev.(standing := NextStanding(dev.standing, ApplyKey), generation := g,
                                     current := cmd.target)];
      } else {
        devices := devices[d := dev.(standing := NextStanding(dev.standing, cmd.verb), generation := g,
                                     current := None)];
      }
    }

    /** The writes of an accepted command, in the order the transaction makes them. */
    method Apply(cmd: Command, now: int, budget: nat, id: OpId)
      requires cmd.device in devices && (cmd.verb == ApplyKey ==> cmd.target.Some?) && id !in operations
      modifies this
      ensures View() == Commit(old(View()), cmd, now, budget, id)
    {
      ghost var db := View();
      CommitBindingRows(db, cmd, now, budget, id);
      CommitTombstoneRows(db, cmd, now, budget, id);
      CommitJobRows(db, cmd, now, budget, id);
      CommitPlainRows(db, cmd, now, budget, id);
      hide Commit, Stones, Withdrawn, Overtaken, NewBindings, NewDevice, NewAddresses;
      var g := devices[cmd.device].generation + 1;
      Desire(cmd, now);
      Supersede(cmd.device, g);
      operations := operations[id := Operation(cmd, cmd.device, g, now, now + budget)];
      requests := requests[RequestKey(cmd.actor, cmd.verb, cmd.idempotency) := id];
      outbox := outbox[id := Job(Pending, 0, 0, None)];
    }

    /** The overdue work of one device is marked, in a transaction of its own. */
    method Degrade(d: DeviceId)
      modifies this
      ensures View() == DegradeDevice(old(View()), d)
    {
      outbox := map o | o in outbox ::
        if Open(outbox[o].state) && o in operations && operations[o].device == d then outbox[o].(state := Degraded)
          else outbox[o];
    }

    /** submitChecked: authorization before idempotency, idempotency before generation. */
    method SubmitChecked(cfg: Config, cmd: Command, now: int, room: bool, id: OpId) returns (r: Result<OpId, Fault>)
      modifies this
      ensures (View(), r) == Submit(old(View()), cfg, cmd, now, room, id)
    {
      hide Permitted, Routable, Commit, DegradeDevice, OverdueWork;
      var apply := cmd.verb == ApplyKey;
      if apply != cmd.target.Some? { return Err(Invalid); }
      if apply && !Routable(cmd.target.value.address) { return Err(Invalid); }
      if apply && !Permitted(cfg.policy, cmd.target.value.key, cmd.target.value.address) { return Err(ProtectedPeer); }
      if cmd.device !in devices { return Err(NotFound); }
      var dev := devices[cmd.device];
      if dev.owner != cmd.owner { return Err(Unauthorized); }
      if apply {
        if dev.standing != Active { return Err(Unauthorized); }
        if now >= dev.validUntil { return Err(PastValidity); }
        if !room { return Err(Quota); }
        var db := Snapshot();
        if OverdueWork(db, cmd.device, now, cfg.budget) {
          Degrade(cmd.device);
          return Err(Overdue);
        }
      }
      if cmd.verb == Expire && now < dev.validUntil { return Err(Invalid); }
      var q := RequestKey(cmd.actor, cmd.verb, cmd.idempotency);
      if q in requests {
        var before := requests[q];
        if before !in operations || operations[before].command != cmd { return Err(Conflict); }
        return Ok(before);
      }
      if dev.generation != cmd.expected || dev.generation >= MAX_GENERATION { return Err(BadGeneration); }
      if apply {
        if |set k | k in bindings && bindings[k].device == cmd.device| >= MAX_BINDINGS { return Err(Invalid); }
        if cmd.target.value.key in bindings { return Err(Conflict); }
        var address := cmd.target.value.address;
        if address in addresses && addresses[address] != cmd.device { return Err(Conflict); }
      }
      if id in operations { return Err(Conflict); }
      Apply(cmd, now, cfg.budget, id);
      return Ok(id);
    }

    /** The second phase's transaction: one durable intent per planned action. */
    method PrepareIntents(op: OpId, generation: nat, number: nat, actions: seq<Action>)
      modifies this
      ensures View() == old(View()).(intents := Prepared(old(intents), op, generation, number, actions))
    {
      for n := 0 to |actions|
        invariant View() == old(View()).(intents := intents)
        invariant intents == Prepared(old(intents), op, generation, number, actions[..n])
      {
        assert actions[..n + 1][..n] == actions[..n];
        intents := intents[IntentFor(op, actions[n]) := Intent(generation, number, false)];
      }
      assert actions[..|actions|] == actions;
    }

    /** The third phase's transaction, refused unless the generation and the fence still hold. */
    method RecordResult(p: Process, now: int) returns (done: bool)
      requires p.Held?
      modifies this
      ensures done <==> p.device in old(devices) && old(devices)[p.device].generation == p.dev.generation
                        && p.op in old(outbox) && old(outbox)[p.op].fence == p.fence
      ensures View() == if done then Record(old(View()), p, now) else old(View())
    {
      if p.device !in devices || devices[p.device].generation != p.dev.generation { return false; }
      if p.op !in outbox || outbox[p.op].fence != p.fence { return false; }
      hide Record, Confirmed, Removed, WithApplied, Resolved;
      RecordParts(View(), p, now);
      ConfirmedAfter(tombstones, bindings, p, now);
      devices := devices[p.device := devices[p.device].(applied := p.dev.generation)];
      bindings := Removed(bindings, p.device, p.dev.generation);
      if p.dev.current.Some? { MarkApplied(p.device, p.dev.current.value.key); }
      tombstones := Confirmed(tombstones, bindings, p.device, now);
      intents := Resolved(intents, p.op, p.fence);
      outbox := outbox[p.op := outbox[p.op].(state := Finished, verifiedAt := Some(now))];
      return true;
    }

    method MarkApplied(d: DeviceId, k: Key)
      modifies this`bindings
      ensures bindings == WithApplied(old(bindings), d, k)
    {
      if k in bindings && bindings[k].device == d && bindings[k].revoked == 0 {
        bindings := bindings[k := bindings[k].(applied := true)];
      }
    }
  }

  // ---------------------------------------------------------------- the statements as functions

  function Stones(bindings: map<Key, Binding>, d: DeviceId, g: nat, now: int): map<(Key, nat), Tombstone> {
    map k | k in bindings && bindings[k].device == d && bindings[k].revoked == 0 :: (k, g) := Tombstone(now, None)
  }

  function Withdrawn(bindings: map<Key, Binding>, d: DeviceId, g: nat): map<Key, Binding> {
    map k | k in bindings :: if bindings[k].device == d && bindings[k].revoked == 0 then bindings[k].(revoked := g)
      else bindings[k]
  }

  function Overtaken(outbox: map<OpId, Job>, operations: map<OpId, Operation>, d: DeviceId, g: nat): map<OpId, Job> {
    map o | o in outbox ::
      if Open(outbox[o].state) && o in operations && operations[o].device == d && operations[o].generation < g
      then outbox[o].(state := Superseded) else outbox[o]
  }

  lemma CommitBindingRows(db: Db, cmd: Command, now: int, budget: nat, id: OpId)
    requires cmd.device in db.devices && (cmd.verb == ApplyKey ==> cmd.target.Some?) && id !in db.operations
    ensures var d, g := cmd.device, db.devices[cmd.device].generation + 1;
            var kept := Withdrawn(db.bindings, d, g);
            Commit(db, cmd, now, budget, id).bindings == NewBindings(kept, cmd, g)
  {
    var d, g := cmd.device, db.devices[cmd.device].generation + 1;
    var retired := map k | k in db.bindings :: if Current(db, d, k) then db.bindings[k].(revoked := g)
      else db.bindings[k];
    assert retired == Withdrawn(db.bindings, d, g);
  }

  function NewBindings(kept: map<Key, Binding>, cmd: Command, g: nat): map<Key, Binding>
    requires cmd.verb == ApplyKey ==> cmd.target.Some?
  {
    if cmd.verb == ApplyKey
    then kept[cmd.target.value.key := Binding(cmd.device, cmd.target.value.address, g, 0, 0, false)] else kept
  }

  lemma CommitTombstoneRows(db: Db, cmd: Command, now: int, budget: nat, id: OpId)
    requires cmd.device in db.devices && (cmd.verb == ApplyKey ==> cmd.target.Some?) && id !in db.operations
    ensures var g := db.devices[cmd.device].generation + 1;
            Commit(db, cmd, now, budget, id).tombstones == db.tombstones + Stones(db.bindings, cmd.device, g, now)
  {
    var t, g := Commit(db, cmd, now, budget, id), db.devices[cmd.device].generation + 1;
    var expected := db.tombstones + Stones(db.bindings, cmd.device, g, now);
    hide NextStanding, OwnOpen;
    forall x ensures (x in t.tombstones <==> x in expected) && (x in expected ==> t.tombstones[x] == expected[x]) {}
  }

  lemma CommitJobRows(db: Db, cmd: Command, now: int, budget: nat, id: OpId)
    requires cmd.device in db.devices && (cmd.verb == ApplyKey ==> cmd.target.Some?) && id !in db.operations
    ensures var g := db.devices[cmd.device].generation + 1;
            var jobs := Overtaken(db.outbox, db.operations, cmd.device, g);
            Commit(db, cmd, now, budget, id).outbox == jobs[id := Job(Pending, 0, 0, None)]
  {
    var t, g := Commit(db, cmd, now, budget, id), db.devices[cmd.device].generation + 1;
    var expected := Overtaken(db.outbox, db.operations, cmd.device, g)[id := Job(Pending, 0, 0, None)];
    hide NextStanding, Current;
    forall o ensures (o in t.outbox <==> o in expected) && (o in expected ==> t.outbox[o] == expected[o]) {}
  }

  /** The device's next row. */
  function NewDevice(dev: Device, cmd: Command): Device {
    dev.(standing := NextStanding(dev.standing, cmd.verb), generation := dev.generation + 1,
         current := if cmd.verb == ApplyKey then cmd.target else None)
  }

  function NewAddresses(addresses: map<Prefix, DeviceId>, cmd: Command): map<Prefix, DeviceId>
    requires cmd.verb == ApplyKey ==> cmd.target.Some?
  {
    if cmd.verb == ApplyKey && cmd.target.value.address !in addresses
    then addresses[cmd.target.value.address := cmd.device] else addresses
  }

  lemma CommitPlainRows(db: Db, cmd: Command, now: int, budget: nat, id: OpId)
    requires cmd.device in db.devices && (cmd.verb == ApplyKey ==> cmd.target.Some?) && id !in db.operations
    ensures var d, dev := cmd.device, db.devices[cmd.device];
            var t := Commit(db, cmd, now, budget, id);
            && t.devices == db.devices[d := NewDevice(dev, cmd)]
            && t.addresses == NewAddresses(db.addresses, cmd)
            && t.operations == db.operations[id := Operation(cmd, d, dev.generation + 1, now, now + budget)]
            && t.requests == db.requests[RequestKey(cmd.actor, cmd.verb, cmd.idempotency) := id]
            && t.intents == db.intents && t.fence == db.fence
  {
  }

  /** One intent per action, later ones over earlier ones. */
  function Prepared(intents: map<IntentKey, Intent>, op: OpId, generation: nat, number: nat,
                    actions: seq<Action>): map<IntentKey, Intent> {
    if actions == [] then intents
    else Prepared(intents, op, generation, number, actions[..|actions| - 1])
           [IntentFor(op, actions[|actions| - 1]) := Intent(generation, number, false)]
  }

  /** The loop's intents are those of the model's second phase. */
  lemma {:induction false} PreparedIsIntended(intents: map<IntentKey, Intent>, op: OpId, generation: nat, number: nat,
                                              actions: seq<Action>)
    ensures var named := set j | 0 <= j < |actions| :: IntentFor(op, actions[j]);
            Prepared(intents, op, generation, number, actions)
              == intents + (map i | i in named :: Intent(generation, number, false))
  {
    if actions != [] {
      PreparedIsIntended(intents, op, generation, number, actions[..|actions| - 1]);
      NamedGrows(op, actions);
      hide IntentFor;
    }
  }

  lemma NamedGrows(op: OpId, actions: seq<Action>)
    requires actions != []
    ensures var before := actions[..|actions| - 1];
            (set j | 0 <= j < |actions| :: IntentFor(op, actions[j]))
              == (set j | 0 <= j < |before| :: IntentFor(op, before[j])) + {IntentFor(op, actions[|actions| - 1])}
  {
    var before := actions[..|actions| - 1];
    hide IntentFor;
    assert forall j | 0 <= j < |before| :: before[j] == actions[j];
  }

  function Confirmed(stones: map<(Key, nat), Tombstone>, bindings: map<Key, Binding>, d: DeviceId,
                     now: int): map<(Key, nat), Tombstone> {
    map t | t in stones :: if t.0 in bindings && bindings[t.0].device == d && stones[t].verifiedAt.None?
                           then stones[t].(verifiedAt := Some(now)) else stones[t]
  }

  function Removed(bindings: map<Key, Binding>, d: DeviceId, g: nat): map<Key, Binding> {
    map k | k in bindings :: if bindings[k].device == d && bindings[k].revoked > 0 then bindings[k].(removed := g)
      else bindings[k]
  }

  function WithApplied(bindings: map<Key, Binding>, d: DeviceId, k: Key): map<Key, Binding> {
    if k in bindings && bindings[k].device == d && bindings[k].revoked == 0
      then bindings[k := bindings[k].(applied := true)] else bindings
  }

  function Resolved(intents: map<IntentKey, Intent>, op: OpId, number: nat): map<IntentKey, Intent> {
    map i | i in intents :: if i.op == op && intents[i].fence == number then intents[i].(verified := true)
      else intents[i]
  }

  /** Which tombstones are confirmed depends only on whose the keys are. */
  lemma ConfirmedAfter(stones: map<(Key, nat), Tombstone>, bindings: map<Key, Binding>, p: Process, now: int)
    requires p.Held?
    ensures var removed := Removed(bindings, p.device, p.dev.generation);
            var after := if p.dev.current.Some? then WithApplied(removed, p.device, p.dev.current.value.key)
              else removed;
            Confirmed(stones, after, p.device, now) == Confirmed(stones, bindings, p.device, now)
  {
  }

  lemma RecordParts(db: Db, p: Process, now: int)
    requires p.Held? && p.device in db.devices && p.op in db.outbox
    ensures var t := Record(db, p, now);
            var removed := Removed(db.bindings, p.device, p.dev.generation);
            && t == db.(devices := t.devices, bindings := t.bindings, tombstones := t.tombstones,
                        intents := t.intents, outbox := t.outbox)
            && t.devices == db.devices[p.device := db.devices[p.device].(applied := p.dev.generation)]
            && t.bindings == (if p.dev.current.Some? then WithApplied(removed, p.device, p.dev.current.value.key)
                        else removed)
            && t.tombstones == Confirmed(db.tombstones, db.bindings, p.device, now)
            && t.intents == Resolved(db.intents, p.op, p.fence)
            && t.outbox == db.outbox[p.op := db.outbox[p.op].(state := Finished, verifiedAt := Some(now))]
  {
    RecordBindings(db, p, now);
    var t := Record(db, p, now);
    assert t.tombstones == Confirmed(db.tombstones, db.bindings, p.device, now);
    assert t.intents == Resolved(db.intents, p.op, p.fence);
  }

  lemma RecordBindings(db: Db, p: Process, now: int)
    requires p.Held? && p.device in db.devices && p.op in db.outbox
    ensures var removed := Removed(db.bindings, p.device, p.dev.generation);
            var expected := if p.dev.current.Some? then WithApplied(removed, p.device, p.dev.current.value.key)
              else removed;
            Record(db, p, now).bindings == expected
  {
  }
}
