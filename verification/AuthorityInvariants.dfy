/** What every transaction and every executor step keeps. */
module AuthorityInvariants {
  import opened Prelude
  import opened Prefixes
  import opened PeerPlan
  import opened AuthorityModel

  // ---------------------------------------------------------------- the tables

  ghost predicate DevicesOk(db: Db) {
    forall d | d in db.devices ::
      var dev := db.devices[d];
      && dev.applied <= dev.generation
      && (dev.current.Some? ==> dev.standing == Active && Current(db, d, dev.current.value.key)
                                && db.bindings[dev.current.value.key].address == dev.current.value.address)
  }

  predicate BindingOk(db: Db, k: Key)
    requires k in db.bindings
  {
    var b := db.bindings[k];
    && b.device in db.devices
    && (var dev := db.devices[b.device];
        && 1 <= b.created <= dev.generation
        && (b.revoked == 0 ==> dev.standing == Active && dev.current == Some(Assignment(k, b.address))
                               && b.removed == 0)
        && (b.revoked > 0 ==> b.created < b.revoked <= dev.generation && (k, b.revoked) in db.tombstones)
        && b.removed <= dev.generation && (b.removed > 0 ==> b.removed >= b.revoked > 0))
    && b.address in db.addresses && db.addresses[b.address] == b.device
  }

  ghost predicate BindingsOk(db: Db) {
    forall k | k in db.bindings :: BindingOk(db, k)
  }

  /** Every tombstone is the revocation of its binding, at exactly that generation. */
  ghost predicate StonesOk(db: Db) {
    forall t | t in db.tombstones :: t.0 in db.bindings && db.bindings[t.0].revoked == t.1 && t.1 > 0
  }

  predicate OperationAt(db: Db, o: OpId, d: DeviceId, g: nat) {
    o in db.operations && db.operations[o].device == d && db.operations[o].generation == g
  }

  ghost predicate HasOperation(db: Db, d: DeviceId, g: nat) {
    exists o :: OperationAt(db, o, d, g)
  }

  /** Exactly one operation for each generation a device has gone through, accepted on
      exactly the generation before. */
  ghost predicate OperationsOk(db: Db) {
    && (forall o | o in db.operations :: db.operations[o].device in db.devices
          && 1 <= db.operations[o].generation <= db.devices[db.operations[o].device].generation
          && db.operations[o].command.device == db.operations[o].device
          && db.operations[o].command.expected + 1 == db.operations[o].generation)
    && (forall o, p | o in db.operations && p in db.operations && db.operations[o].device == db.operations[p].device
          && db.operations[o].generation == db.operations[p].generation :: o == p)
    && (forall d, g: nat | d in db.devices && 1 <= g <= db.devices[d].generation :: HasOperation(db, d, g))
  }

  predicate JobOk(db: Db, o: OpId)
    requires o in db.outbox
  {
    && o in db.operations && db.operations[o].device in db.devices
    && (Open(db.outbox[o].state) ==> db.operations[o].generation == db.devices[db.operations[o].device].generation)
  }

  /** Only the latest generation of a device has unfinished work. */
  ghost predicate JobsOk(db: Db) {
    && (forall o | o in db.outbox :: JobOk(db, o))
    && (forall o | o in db.operations :: o in db.outbox)
  }

  function KeyOf(cmd: Command): RequestKey { RequestKey(cmd.actor, cmd.verb, cmd.idempotency) }

  ghost predicate RequestsOk(db: Db) {
    && (forall q | q in db.requests ::
          db.requests[q] in db.operations && KeyOf(db.operations[db.requests[q]].command) == q)
    && (forall o | o in db.operations :: KeyOf(db.operations[o].command) in db.requests
          && db.requests[KeyOf(db.operations[o].command)] == o)
  }

  ghost predicate IntentsOk(db: Db) {
    forall i | i in db.intents :: i.key in db.bindings
  }

  ghost predicate Tables(db: Db) {
    DevicesOk(db) && BindingsOk(db) && StonesOk(db) && OperationsOk(db) && JobsOk(db) && RequestsOk(db) && IntentsOk(db)
  }

  // ---------------------------------------------------------------- outbox-only changes

  predicate Latest(db: Db, o: OpId) {
    && o in db.operations && db.operations[o].device in db.devices
    && db.operations[o].generation == db.devices[db.operations[o].device].generation
  }

  /** The tables survive new job states, fences and intents, as long as work is reopened
      only at the latest generation and intents name bound keys. */
  lemma SideKeeps(db: Db, t: Db)
    requires Tables(db) && t == db.(outbox := t.outbox, fence := t.fence, intents := t.intents)
    requires t.outbox.Keys == db.outbox.Keys
    requires forall o | o in t.outbox && Open(t.outbox[o].state) :: Open(db.outbox[o].state) || Latest(db, o)
    requires IntentsOk(t)
    ensures Tables(t)
  {
    SideJobs(db, t);
    SideFrame(db, t);
    SideBindings(db, t);
    DevicesFrame(db, t);
    hide DevicesOk, BindingsOk, StonesOk, OperationsOk, JobsOk, RequestsOk, IntentsOk;
  }

  lemma SideJobs(db: Db, t: Db)
    requires JobsOk(db) && t == db.(outbox := t.outbox, fence := t.fence, intents := t.intents)
    requires t.outbox.Keys == db.outbox.Keys
    requires forall o | o in t.outbox && Open(t.outbox[o].state) :: Open(db.outbox[o].state) || Latest(db, o)
    ensures JobsOk(t)
  {
    forall o | o in t.outbox ensures JobOk(t, o) { assert JobOk(db, o); }
  }

  lemma SideFrame(db: Db, t: Db)
    requires t == db.(outbox := t.outbox, fence := t.fence, intents := t.intents)
    requires DevicesOk(db) && StonesOk(db)
    ensures DevicesOk(t) && StonesOk(t)
  {
  }

  lemma SideBindings(db: Db, t: Db)
    requires t == db.(outbox := t.outbox, fence := t.fence, intents := t.intents) && BindingsOk(db)
    ensures BindingsOk(t)
  {
    forall k | k in t.bindings ensures BindingOk(t, k) { assert BindingOk(db, k); }
  }

  lemma OutboxKeeps(db: Db, jobs: map<OpId, Job>)
    requires Tables(db) && jobs.Keys == db.outbox.Keys
    requires forall o | o in jobs && Open(jobs[o].state) :: Open(db.outbox[o].state) || Latest(db, o)
    ensures Tables(db.(outbox := jobs))
  {
    hide DevicesOk, BindingsOk, StonesOk, OperationsOk, JobsOk, RequestsOk;
    SideKeeps(db, db.(outbox := jobs));
  }

  // ---------------------------------------------------------------- a committed command

  /** The part of submitChecked that makes a commit lawful. */
  predicate Lawful(db: Db, cmd: Command, id: OpId) {
    && cmd.device in db.devices && cmd.expected == db.devices[cmd.device].generation
    && (cmd.verb == ApplyKey <==> cmd.target.Some?)
    && (cmd.verb == ApplyKey ==>
          && db.devices[cmd.device].standing == Active && cmd.target.value.key !in db.bindings
          && (cmd.target.value.address in db.addresses ==> db.addresses[cmd.target.value.address] == cmd.device))
    && id !in db.operations && KeyOf(cmd) !in db.requests
  }

  /** A commit, table by table. */
  lemma CommitShape(db: Db, cmd: Command, now: int, budget: nat, id: OpId)
    requires Lawful(db, cmd, id)
    ensures var t := Commit(db, cmd, now, budget, id);
            var dev := db.devices[cmd.device];
            var g := dev.generation + 1;
            && t.devices == db.devices[cmd.device := dev.(standing := NextStanding(dev.standing, cmd.verb),
                                                          generation := g,
                                                          current := if cmd.verb == ApplyKey then cmd.target else None)]
            && t.operations == db.operations[id := Operation(cmd, cmd.device, g, now, now + budget)]
            && t.requests == db.requests[KeyOf(cmd) := id]
            && t.intents == db.intents && t.fence == db.fence
            && (forall a | a in db.addresses :: a in t.addresses && t.addresses[a] == db.addresses[a])
            && (cmd.verb == ApplyKey ==> cmd.target.value.address in t.addresses
                                         && t.addresses[cmd.target.value.address] == cmd.device)
  {
  }

  /** A commit, binding by binding. */
  lemma CommitBinding(db: Db, cmd: Command, now: int, budget: nat, id: OpId, k: Key)
    requires Lawful(db, cmd, id)
    ensures var t := Commit(db, cmd, now, budget, id);
            var g := db.devices[cmd.device].generation + 1;
            && (k in t.bindings <==> k in db.bindings || (cmd.verb == ApplyKey && k == cmd.target.value.key))
            && (k in db.bindings ==> t.bindings[k] == if Current(db, cmd.device, k) then db.bindings[k].(revoked := g)
                else db.bindings[k])
            && (k in db.bindings && Current(db, cmd.device, k) ==> (k, g) in t.tombstones)
            && (cmd.verb == ApplyKey && k == cmd.target.value.key ==>
                  t.bindings[k] == Binding(cmd.device, cmd.target.value.address, g, 0, 0, false))
            && (forall n: nat | (k, n) in db.tombstones :: (k, n) in t.tombstones)
  {
  }

  lemma CommitBindingOk(db: Db, cmd: Command, now: int, budget: nat, id: OpId, k: Key)
    requires Lawful(db, cmd, id) && k in Commit(db, cmd, now, budget, id).bindings
             && (k in db.bindings ==> BindingOk(db, k))
    ensures BindingOk(Commit(db, cmd, now, budget, id), k)
  {
    CommitShape(db, cmd, now, budget, id);
    CommitBinding(db, cmd, now, budget, id, k);
    hide Commit;
  }

  lemma CommitBindings(db: Db, cmd: Command, now: int, budget: nat, id: OpId)
    requires BindingsOk(db) && Lawful(db, cmd, id)
    ensures BindingsOk(Commit(db, cmd, now, budget, id))
  {
    var t := Commit(db, cmd, now, budget, id);
    forall k | k in t.bindings ensures BindingOk(t, k) {
      hide Commit, Lawful, BindingOk;
      CommitBindingOk(db, cmd, now, budget, id, k);
    }
  }

  lemma CommitDevices(db: Db, cmd: Command, now: int, budget: nat, id: OpId)
    requires DevicesOk(db) && BindingsOk(db) && Lawful(db, cmd, id)
    ensures DevicesOk(Commit(db, cmd, now, budget, id))
  {
    var t := Commit(db, cmd, now, budget, id);
    CommitShape(db, cmd, now, budget, id);
    hide Commit, BindingsOk;
    forall d | d in t.devices && t.devices[d].current.Some?
      ensures Current(t, d, t.devices[d].current.value.key)
              && t.bindings[t.devices[d].current.value.key].address == t.devices[d].current.value.address
    {
      CommitBinding(db, cmd, now, budget, id, t.devices[d].current.value.key);
      if d != cmd.device { assert Current(db, d, t.devices[d].current.value.key); }
    }
  }

  lemma CommitStones(db: Db, cmd: Command, now: int, budget: nat, id: OpId)
    requires StonesOk(db) && Lawful(db, cmd, id)
    ensures StonesOk(Commit(db, cmd, now, budget, id))
  {
  }

  lemma CommitHasOperation(db: Db, cmd: Command, now: int, budget: nat, id: OpId, d: DeviceId, g: nat)
    requires Lawful(db, cmd, id) && d in db.devices && 1 <= g <= Commit(db, cmd, now, budget, id).devices[d].generation
    requires 1 <= g <= db.devices[d].generation ==> HasOperation(db, d, g)
    ensures HasOperation(Commit(db, cmd, now, budget, id), d, g)
  {
    var t := Commit(db, cmd, now, budget, id);
    CommitShape(db, cmd, now, budget, id);
    hide Commit;
    if d == cmd.device && g == t.devices[d].generation {
      assert OperationAt(t, id, d, g);
    } else {
      var o :| OperationAt(db, o, d, g);
      assert OperationAt(t, o, d, g);
    }
  }

  lemma CommitOperations(db: Db, cmd: Command, now: int, budget: nat, id: OpId)
    requires OperationsOk(db) && Lawful(db, cmd, id)
    ensures OperationsOk(Commit(db, cmd, now, budget, id))
  {
    var t := Commit(db, cmd, now, budget, id);
    CommitShape(db, cmd, now, budget, id);
    forall d, g: nat | d in t.devices && 1 <= g <= t.devices[d].generation ensures HasOperation(t, d, g) {
      hide Commit, HasOperation;
      CommitHasOperation(db, cmd, now, budget, id, d, g);
    }
    hide Commit, HasOperation;
  }

  lemma CommitJobOk(db: Db, cmd: Command, now: int, budget: nat, id: OpId, o: OpId)
    requires Lawful(db, cmd, id) && o in Commit(db, cmd, now, budget, id).outbox && (o in db.outbox ==> JobOk(db, o))
    ensures JobOk(Commit(db, cmd, now, budget, id), o)
  {
  }

  lemma CommitJobs(db: Db, cmd: Command, now: int, budget: nat, id: OpId)
    requires JobsOk(db) && Lawful(db, cmd, id)
    ensures JobsOk(Commit(db, cmd, now, budget, id))
  {
    var t := Commit(db, cmd, now, budget, id);
    forall o | o in t.outbox ensures JobOk(t, o) {
      hide Commit, Lawful, JobOk;
      CommitJobOk(db, cmd, now, budget, id, o);
    }
  }

  lemma CommitRequests(db: Db, cmd: Command, now: int, budget: nat, id: OpId)
    requires RequestsOk(db) && IntentsOk(db) && Lawful(db, cmd, id)
    ensures RequestsOk(Commit(db, cmd, now, budget, id)) && IntentsOk(Commit(db, cmd, now, budget, id))
  {
  }

  lemma CommitKeeps(db: Db, cmd: Command, now: int, budget: nat, id: OpId)
    requires Tables(db) && Lawful(db, cmd, id)
    ensures Tables(Commit(db, cmd, now, budget, id))
  {
    hide Commit, Lawful;
    CommitDevices(db, cmd, now, budget, id);
    CommitBindings(db, cmd, now, budget, id);
    CommitStones(db, cmd, now, budget, id);
    CommitOperations(db, cmd, now, budget, id);
    CommitJobs(db, cmd, now, budget, id);
    CommitRequests(db, cmd, now, budget, id);
    hide DevicesOk, BindingsOk, StonesOk, OperationsOk, JobsOk, RequestsOk, IntentsOk;
  }

  /** What a submission does to the tables: nothing, a degradation, or one lawful commit. */
  lemma SubmitCases(db: Db, cfg: Config, cmd: Command, now: int, room: bool, id: OpId)
    requires RequestsOk(db)
    ensures var r := Submit(db, cfg, cmd, now, room, id);
            || r.0 == db
            || r.0 == DegradeDevice(db, cmd.device)
            || (r.1 == Ok(id) && Lawful(db, cmd, id) && r.0 == Commit(db, cmd, now, cfg.budget, id))
  {
    hide OverdueWork, Permitted, Commit, DegradeDevice, RequestsOk;
  }

  lemma SubmitKeeps(db: Db, cfg: Config, cmd: Command, now: int, room: bool, id: OpId)
    requires Tables(db)
    ensures Tables(Submit(db, cfg, cmd, now, room, id).0)
  {
    SubmitCases(db, cfg, cmd, now, room, id);
    var t := Submit(db, cfg, cmd, now, room, id).0;
    hide Submit, DevicesOk, BindingsOk, StonesOk, OperationsOk, JobsOk, RequestsOk, IntentsOk;
    if t == DegradeDevice(db, cmd.device) {
      OutboxKeeps(db, t.outbox);
    } else if t != db {
      hide Tables;
      CommitKeeps(db, cmd, now, cfg.budget, id);
    }
  }

  lemma ExpireKeeps(db: Db, cfg: Config, d: DeviceId, dev: Device, now: int, id: OpId, idempotency: string)
    requires Tables(db)
    ensures Tables(ExpireDevice(db, cfg, d, dev, now, id, idempotency))
  {
    var cmd := Command("deviceauth-expiry-reconciler", dev.owner, d, Expire, idempotency, dev.generation, None,
                       "authorization deadline reached during reconciliation");
    hide Submit, DevicesOk, BindingsOk, StonesOk, OperationsOk, JobsOk, RequestsOk, IntentsOk, Tables;
    SubmitKeeps(db, cfg, cmd, now, true, id);
    var r := Submit(db, cfg, cmd, now, true, id);
    var t := ExpireDevice(db, cfg, d, dev, now, id, idempotency);
    if t != r.0 { OutboxKeeps(r.0, t.outbox); }
  }

  /** Devices may be added or change what jobs, operations and bindings do not look at. */
  lemma DevicesFrame(db: Db, t: Db)
    requires forall d | d in db.devices :: d in t.devices && t.devices[d].generation == db.devices[d].generation
    requires forall d | d in t.devices && d !in db.devices :: t.devices[d].generation == 0
    requires t.operations == db.operations && t.requests == db.requests
    requires OperationsOk(db) && RequestsOk(db)
    ensures OperationsOk(t) && RequestsOk(t)
  {
    forall x, g: nat | x in t.devices && 1 <= g <= t.devices[x].generation ensures HasOperation(t, x, g) {
      assert HasOperation(db, x, g);
      var o :| OperationAt(db, o, x, g);
      assert OperationAt(t, o, x, g);
    }
  }

  lemma EnrollBindings(db: Db, t: Db, d: DeviceId, dev: Device)
    requires BindingsOk(db) && d !in db.devices && t == db.(devices := db.devices[d := dev])
    ensures BindingsOk(t)
  {
    forall k | k in t.bindings ensures BindingOk(t, k) { assert BindingOk(db, k); }
  }

  lemma EnrollJobs(db: Db, t: Db, d: DeviceId, dev: Device)
    requires JobsOk(db) && d !in db.devices && t == db.(devices := db.devices[d := dev])
    ensures JobsOk(t)
  {
    forall o | o in t.outbox ensures JobOk(t, o) { assert JobOk(db, o); }
  }

  lemma EnrollDevices(db: Db, t: Db, d: DeviceId, dev: Device)
    requires DevicesOk(db) && StonesOk(db) && IntentsOk(db) && d !in db.devices
             && t == db.(devices := db.devices[d := dev])
    requires dev.applied <= dev.generation && dev.current.None?
    ensures DevicesOk(t) && StonesOk(t) && IntentsOk(t)
  {
  }

  lemma EnrollKeeps(db: Db, d: DeviceId, owner: string, validUntil: int, now: int)
    requires Tables(db)
    ensures Tables(Enroll(db, d, owner, validUntil, now))
  {
    var t := Enroll(db, d, owner, validUntil, now);
    if t != db {
      var dev := Device(owner, Active, validUntil, 0, 0, None);
      EnrollBindings(db, t, d, dev);
      EnrollJobs(db, t, d, dev);
      EnrollDevices(db, t, d, dev);
      DevicesFrame(db, t);
      hide DevicesOk, StonesOk, OperationsOk, BindingsOk, JobsOk, RequestsOk, IntentsOk;
    }
  }

  lemma RecordJobs(db: Db, p: Process, now: int)
    requires JobsOk(db) && p.Held? && p.device in db.devices && p.op in db.outbox
    ensures JobsOk(Record(db, p, now))
  {
    var t := Record(db, p, now);
    forall o | o in t.outbox ensures JobOk(t, o) { assert JobOk(db, o); }
  }

  lemma RecordStones(db: Db, p: Process, now: int)
    requires StonesOk(db) && IntentsOk(db) && p.Held? && p.device in db.devices && p.op in db.outbox
    ensures StonesOk(Record(db, p, now)) && IntentsOk(Record(db, p, now))
  {
  }

  lemma RecordDevices(db: Db, p: Process, now: int)
    requires DevicesOk(db) && p.Held? && p.device in db.devices && p.op in db.outbox
    requires db.devices[p.device].generation == p.dev.generation
    ensures DevicesOk(Record(db, p, now))
  {
    var t := Record(db, p, now);
    forall d | d in t.devices && t.devices[d].current.Some? ensures Current(t, d, t.devices[d].current.value.key) {
      assert Current(db, d, t.devices[d].current.value.key);
    }
  }

  lemma RecordBindings(db: Db, p: Process, now: int)
    requires BindingsOk(db) && p.Held? && p.device in db.devices && p.op in db.outbox
    requires db.devices[p.device].generation == p.dev.generation
    ensures BindingsOk(Record(db, p, now))
  {
    var t := Record(db, p, now);
    forall k | k in t.bindings ensures BindingOk(t, k) { assert BindingOk(db, k); }
  }

  lemma RecordTables(db: Db, p: Process, now: int)
    requires Tables(db) && p.Held? && p.device in db.devices && p.op in db.outbox
    requires db.devices[p.device].generation == p.dev.generation
    ensures Tables(Record(db, p, now))
  {
    RecordJobs(db, p, now);
    RecordStones(db, p, now);
    RecordDevices(db, p, now);
    RecordBindings(db, p, now);
    DevicesFrame(db, Record(db, p, now));
    hide DevicesOk, BindingsOk, StonesOk, OperationsOk, JobsOk, RequestsOk, IntentsOk, Record;
  }
}
