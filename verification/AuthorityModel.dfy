/** The device authority (hub/internal/deviceauth): desired state in tables, and the
    executor that brings the WireGuard interface to it in three persistence phases under
    one process fence. One transition per SQLite transaction or external action; a crash
    may fall between any two of them. */
module AuthorityModel {
  import opened Prelude
  import opened Prefixes
  import opened PeerPlan

  const MAX_GENERATION: nat := 0x7fff_ffff_ffff_ffff
  const MAX_BINDINGS: nat := 4096

  type DeviceId = string
  type OpId = string

  datatype Standing = Active | Disabled | Expired | Revoked

  datatype Assignment = Assignment(key: Key, address: Prefix)

  datatype Device = Device(owner: string, standing: Standing, validUntil: int, generation: nat, applied: nat,
                           current: Option<Assignment>)

  datatype Binding = Binding(device: DeviceId, address: Prefix, created: nat, revoked: nat, removed: nat, applied: bool)

  datatype Tombstone = Tombstone(committedAt: int, verifiedAt: Option<int>)

  datatype Verb = ApplyKey | Disable | Expire | Revoke

  /** A command; its digest in the source is taken over exactly these fields. */
  datatype Command = Command(actor: string, owner: string, device: DeviceId, verb: Verb, idempotency: string,
                             expected: nat, target: Option<Assignment>, reason: string)

  datatype Operation = Operation(command: Command, device: DeviceId, generation: nat, committedAt: int, deadline: int)

  datatype JobState = Pending | Degraded | Finished | Superseded

  datatype Job = Job(state: JobState, attempts: nat, fence: nat, verifiedAt: Option<int>)

  datatype RequestKey = RequestKey(actor: string, verb: Verb, idempotency: string)

  datatype IntentKey = IntentKey(op: OpId, key: Key, applies: bool)
  datatype Intent = Intent(generation: nat, fence: nat, verified: bool)

  datatype Db = Db(
    devices: map<DeviceId, Device>,
    addresses: map<Prefix, DeviceId>,
    bindings: map<Key, Binding>,
    tombstones: map<(Key, nat), Tombstone>,
    operations: map<OpId, Operation>,
    requests: map<RequestKey, OpId>,     // the unique index on actor, action and idempotency key
    outbox: map<OpId, Job>,
    intents: map<IntentKey, Intent>,
    fence: nat)

  const EMPTY := Db(map[], map[], map[], map[], map[], map[], map[], map[], 0)

  datatype Config = Config(policy: Policy, budget: nat)

  datatype Fault =
    | Invalid | Conflict | Unauthorized | BadGeneration | AlreadySuperseded | ProtectedPeer | PastValidity | Overdue
    | Unverified | ExecutionUnknown | Quota | NotFound

  // ---------------------------------------------------------------- submitChecked

  predicate Open(state: JobState) { state == Pending || state == Degraded }

  predicate OverdueWork(db: Db, d: DeviceId, now: int, budget: nat) {
    || (exists o | o in db.operations :: db.operations[o].device == d && o in db.outbox && Open(db.outbox[o].state)
          && db.operations[o].deadline <= now)
    || (exists t | t in db.tombstones :: t.0 in db.bindings && db.bindings[t.0].device == d
          && db.tombstones[t].verifiedAt.None? && db.tombstones[t].committedAt <= now - budget)
  }

  predicate OwnOpen(db: Db, d: DeviceId, o: OpId) {
    o in db.outbox && Open(db.outbox[o].state) && o in db.operations && db.operations[o].device == d
  }

  /** Overdue work is marked, in a transaction of its own. */
  function DegradeDevice(db: Db, d: DeviceId): Db {
    db.(outbox := map o | o in db.outbox :: if OwnOpen(db, d, o) then db.outbox[o].(state := Degraded)
        else db.outbox[o])
  }

  function NextStanding(was: Standing, verb: Verb): Standing {
    if was == Revoked then Revoked
    else match verb case ApplyKey => Active case Disable => Disabled case Expire => Expired case Revoke => Revoked
  }

  predicate Bound(db: Db, d: DeviceId, k: Key) {
    k in db.bindings && db.bindings[k].device == d
  }

  predicate Current(db: Db, d: DeviceId, k: Key) {
    Bound(db, d, k) && db.bindings[k].revoked == 0
  }

  /** The accepted mutation: every current key gets its tombstone, the device its next
      generation, older jobs are superseded, and one new operation and job appear. */
  function Commit(db: Db, cmd: Command, now: int, budget: nat, id: OpId): Db
    requires cmd.device in db.devices && (cmd.verb == ApplyKey ==> cmd.target.Some?)
  {
    var d := cmd.device;
    var dev := db.devices[d];
    var g := dev.generation + 1;
    var retired := map k | k in db.bindings :: if Current(db, d, k) then db.bindings[k].(revoked := g)
      else db.bindings[k];
    var bound := if cmd.verb == ApplyKey
                 then retired[cmd.target.value.key := Binding(d, cmd.target.value.address, g, 0, 0, false)]
                   else retired;
    var stones := map k | k in db.bindings && Current(db, d, k) :: (k, g) := Tombstone(now, None);
    var jobs := map o | o in db.outbox ::
                  if OwnOpen(db, d, o) && db.operations[o].generation < g then db.outbox[o].(state := Superseded)
                    else db.outbox[o];
    db.(devices := db.devices[d := dev.(standing := NextStanding(dev.standing, cmd.verb), generation := g,
                                        current := if cmd.verb == ApplyKey then cmd.target else None)],
    addresses := if cmd.verb == ApplyKey && cmd.target.value.address !in db.addresses
                 then db.addresses[cmd.target.value.address := d] else db.addresses,
    bindings := bound,
    tombstones := db.tombstones + stones,
    outbox := jobs[id := Job(Pending, 0, 0, None)],
    operations := db.operations[id := Operation(cmd, d, g, now, now + budget)],
    requests := db.requests[RequestKey(cmd.actor, cmd.verb, cmd.idempotency) := id])
  }

  /** The checks before an idempotent replay is even considered. */
  function Admissible(db: Db, cfg: Config, cmd: Command, now: int, room: bool): Result<Device, Fault> {
    if cmd.verb != ApplyKey && cmd.target.Some? then Err(Invalid)
    else if cmd.verb == ApplyKey && cmd.target.None? then Err(Invalid)
    else if cmd.verb == ApplyKey && !Routable(cmd.target.value.address) then Err(Invalid)
    else if cmd.verb == ApplyKey && !Permitted(cfg.policy, cmd.target.value.key, cmd.target.value.address)
      then Err(ProtectedPeer)
    else if cmd.device !in db.devices then Err(NotFound)
    else
      var dev := db.devices[cmd.device];
      if dev.owner != cmd.owner then Err(Unauthorized)
      else if cmd.verb == ApplyKey && dev.standing != Active then Err(Unauthorized)
      else if cmd.verb == ApplyKey && now >= dev.validUntil then Err(PastValidity)
      else if cmd.verb == ApplyKey && !room then Err(Quota)
      else if cmd.verb == ApplyKey && OverdueWork(db, cmd.device, now, cfg.budget) then Err(Overdue)
      else if cmd.verb == Expire && now < dev.validUntil then Err(Invalid)
      else Ok(dev)
  }

  /** The checks on the new key and address. */
  function Assignable(db: Db, cmd: Command): Option<Fault> {
    if cmd.verb != ApplyKey || cmd.target.None? then None
    else if |set k | k in db.bindings && db.bindings[k].device == cmd.device| >= MAX_BINDINGS then Some(Invalid)
    else if cmd.target.value.key in db.bindings then Some(Conflict)
    else if cmd.target.value.address in db.addresses && db.addresses[cmd.target.value.address] != cmd.device
      then Some(Conflict)
    else None
  }

  /** submitChecked; `id` is the random operation id, `room` whether grantResources passes. */
  function Submit(db: Db, cfg: Config, cmd: Command, now: int, room: bool, id: OpId): (Db, Result<OpId, Fault>) {
    var check := Admissible(db, cfg, cmd, now, room);
    if check.Err? then (if check.error == Overdue then DegradeDevice(db, cmd.device) else db, Err(check.error))
    else
      var dev := check.value;
      var q := RequestKey(cmd.actor, cmd.verb, cmd.idempotency);
      if q in db.requests then
        var old' := db.requests[q];
        (db, if old' in db.operations && db.operations[old'].command == cmd then Ok(old') else Err(Conflict))
      else if dev.generation != cmd.expected || dev.generation >= MAX_GENERATION then (db, Err(BadGeneration))
      else if Assignable(db, cmd).Some? then (db, Err(Assignable(db, cmd).value))
      else if id in db.operations then (db, Err(Conflict))
      else (Commit(db, cmd, now, cfg.budget, id), Ok(id))
  }

  // ---------------------------------------------------------------- other writers

  function Enroll(db: Db, d: DeviceId, owner: string, validUntil: int, now: int): Db {
    if d in db.devices || validUntil <= now then db
    else db.(devices := db.devices[d := Device(owner, Active, validUntil, 0, 0, None)])
  }

  predicate DueJob(db: Db, o: OpId, now: int, budget: nat) {
    && o in db.outbox && Open(db.outbox[o].state) && o in db.operations
    && (db.operations[o].deadline <= now
        || exists t | t in db.tombstones :: t.0 in db.bindings && db.bindings[t.0].device == db.operations[o].device
             && db.tombstones[t].verifiedAt.None? && db.tombstones[t].committedAt <= now - budget)
  }

  function Refresh(db: Db, now: int, budget: nat): Db {
    db.(outbox := map o | o in db.outbox ::
          if DueJob(db, o, now, budget) then db.outbox[o].(state := Degraded) else db.outbox[o])
  }

  /** failed: a job that is neither done nor superseded is degraded. */
  function Fail(db: Db, o: OpId): Db {
    if o in db.outbox && Open(db.outbox[o].state)
      then db.(outbox := db.outbox[o := db.outbox[o].(state := Degraded)]) else db
  }

  /** expireLocked: an observed expiry becomes a new desired generation, already degraded. */
  function ExpireDevice(db: Db, cfg: Config, d: DeviceId, dev: Device, now: int, id: OpId, idempotency: string): Db {
    var cmd := Command("deviceauth-expiry-reconciler", dev.owner, d, Expire, idempotency, dev.generation, None,
                       "authorization deadline reached during reconciliation");
    var r := Submit(db, cfg, cmd, now, true, id);
    if r.1.Err? then r.0
    else if r.1.value in r.0.outbox && r.0.outbox[r.1.value].state == Pending
    then r.0.(outbox := r.0.outbox[r.1.value := r.0.outbox[r.1.value].(state := Degraded)])
    else r.0
  }

  // ---------------------------------------------------------------- the executor

  predicate HasIntent(db: Db, k: Key) {
    exists i | i in db.intents :: i.key == k && i.applies
  }

  /** The rows are the device's bindings, each once, as the claim transaction read them. */
  predicate IsHistory(db: Db, d: DeviceId, rows: seq<Row>) {
    && Distinct(rows)
    && (forall i | 0 <= i < |rows| :: Bound(db, d, rows[i].key) && rows[i].address == db.bindings[rows[i].key].address
          && rows[i].managed && rows[i].revoked == (db.bindings[rows[i].key].revoked > 0)
          && rows[i].applied == db.bindings[rows[i].key].applied
          && (rows[i].intent ==> HasIntent(db, rows[i].key)))
    && (forall k | k in db.bindings && db.bindings[k].device == d :: InHistory(rows, k))
  }

  /** Every durable intent to apply one of the keys was read. */
  predicate KnowsIntents(db: Db, rows: seq<Row>) {
    forall i | 0 <= i < |rows| :: HasIntent(db, rows[i].key) ==> rows[i].intent
  }

  function TargetOf(dev: Device): Target {
    if dev.standing == Active && dev.current.Some? then Peer(dev.current.value.key, dev.current.value.address)
      else NoPeer
  }

  datatype Progress =
    | Claimed
    | Planned(before: Peers, actions: seq<Action>)
    | Acting(before: Peers, actions: seq<Action>, next: nat)
    | Certified

  datatype Process =
    | Free
    | Held(op: OpId, device: DeviceId, dev: Device, rows: seq<Row>, fence: nat, at: Progress)

  datatype Sys = Sys(
    cfg: Config,
    db: Db,
    runtime: Peers,
    now: int,
    proc: Process,
    made: set<Key>)      // keys some Apply of this executor has put into the runtime

  predicate PastDue(dev: Device, now: int) { dev.standing == Active && now >= dev.validUntil }

  function Claim(s: Sys, o: OpId, rows: seq<Row>, id: OpId, idempotency: string): Sys {
    if s.proc.Held? || o !in s.db.operations || o !in s.db.outbox || s.db.operations[o].device !in s.db.devices then s
    else
      var op := s.db.operations[o];
      var dev := s.db.devices[op.device];
      if op.generation != dev.generation then
        s.(db := s.db.(outbox := s.db.outbox[o := s.db.outbox[o].(state := Superseded)]))
      else if PastDue(dev, s.now) then
        s.(db := ExpireDevice(s.db, s.cfg, op.device, dev, s.now, id, idempotency))
      else if !IsHistory(s.db, op.device, rows) || !KnowsIntents(s.db, rows) then s
      else if s.db.fence + 1 >= MAX_GENERATION then s
      else
        var job := s.db.outbox[o];
        s.(db := s.db.(fence := s.db.fence + 1,
        outbox := s.db.outbox[o := job.(state := Pending, attempts := job.attempts + 1, fence := s.db.fence + 1)]),
        proc := Held(o, op.device, dev, rows, s.db.fence + 1, Claimed))
  }

  function Abandon(s: Sys): Sys
    requires s.proc.Held?
  {
    s.(db := Fail(s.db, s.proc.op), proc := Free)
  }

  /** The first snapshot and plan. */
  function Inspect(s: Sys, ok: bool): Sys {
    if !(s.proc.Held? && s.proc.at == Claimed) then s
    else if !ok then Abandon(s)
    else
      var plan := Plan(s.cfg.policy, TargetOf(s.proc.dev), s.proc.rows, s.runtime);
      if plan.Err? then Abandon(s)
      else s.(proc := s.proc.(at := Planned(s.runtime, plan.value)))
  }

  function IntentFor(o: OpId, a: Action): IntentKey { IntentKey(o, a.key, a.Apply?) }

  /** The durable intents that precede any action. */
  function Intend(s: Sys, ok: bool): Sys {
    if !(s.proc.Held? && s.proc.at.Planned?) then s
    else if !ok then Abandon(s)
    else
      var p := s.proc;
      var named := set j | 0 <= j < |p.at.actions| :: IntentFor(p.op, p.at.actions[j]);
      s.(db := s.db.(intents := s.db.intents + map i | i in named :: Intent(p.dev.generation, p.fence, false)),
      proc := p.(at := Acting(p.at.before, p.at.actions, 0)))
  }

  /** One external action: it may have happened although it is reported as unknown, but a
      reported success has happened. */
  function Act(s: Sys, happened: bool, reported: bool): Sys {
    if !(s.proc.Held? && s.proc.at.Acting? && s.proc.at.next < |s.proc.at.actions|) then s
    else
      var p := s.proc;
      var a := p.at.actions[p.at.next];
      if reported && !happened then s
      else if a.Apply? && (p.dev.standing != Active || PastDue(p.dev, s.now)) then s
      else
        var t := if happened
                 then s.(runtime := Effect(s.runtime, a), made := if a.Apply? then s.made + {a.key} else s.made) else s;
        if reported then t.(proc := p.(at := p.at.(next := p.at.next + 1))) else Abandon(t)
  }

  /** The second snapshot and verify. */
  function Certify(s: Sys, ok: bool): Sys {
    if !(s.proc.Held? && s.proc.at.Acting? && s.proc.at.next == |s.proc.at.actions|)
      || PastDue(s.proc.dev, s.now) then s
    else
      var p := s.proc;
      if ok && Verified(TargetOf(p.dev), p.rows, p.at.before, s.runtime) then s.(proc := p.(at := Certified))
      else Abandon(s)
  }

  /** The result transaction. */
  function Record(db: Db, p: Process, now: int): Db
    requires p.Held? && p.device in db.devices && p.op in db.outbox
  {
    db.(devices := db.devices[p.device := db.devices[p.device].(applied := p.dev.generation)],
    bindings := map k | k in db.bindings ::
      if !Bound(db, p.device, k) then db.bindings[k]
      else if db.bindings[k].revoked > 0 then db.bindings[k].(removed := p.dev.generation)
      else if p.dev.current.Some? && p.dev.current.value.key == k then db.bindings[k].(applied := true)
      else db.bindings[k],
    tombstones := map t | t in db.tombstones ::
      if Bound(db, p.device, t.0) && db.tombstones[t].verifiedAt.None? then db.tombstones[t].(verifiedAt := Some(now))
        else db.tombstones[t],
    intents := map i | i in db.intents ::
      if i.op == p.op && db.intents[i].fence == p.fence then db.intents[i].(verified := true) else db.intents[i],
    outbox := db.outbox[p.op := db.outbox[p.op].(state := Finished, verifiedAt := Some(now))])
  }

  function Conclude(s: Sys, ok: bool): Sys {
    if !(s.proc.Held? && s.proc.at == Certified) then s
    else
      var p := s.proc;
      if !ok || p.device !in s.db.devices || s.db.devices[p.device].generation != p.dev.generation
         || p.op !in s.db.outbox || s.db.outbox[p.op].fence != p.fence then Abandon(s)
      else s.(db := Record(s.db, p, s.now), proc := Free)
  }

  // ---------------------------------------------------------------- runs

  datatype Event =
    | Tick(elapsed: nat)
    | EPeers(runtime: Peers)            // somebody else changes peers that are not the authority's
    | EEnroll(d: DeviceId, owner: string, validUntil: int)
    | ESubmit(cmd: Command, room: bool, id: OpId)
    | ERefresh
    | ESweep(d: DeviceId, id: OpId, idempotency: string)
    | EClaim(o: OpId, rows: seq<Row>, id: OpId, idempotency: string)
    | EInspect(ok: bool)
    | EIntend(ok: bool)
    | EAct(happened: bool, reported: bool)
    | ECertify(ok: bool)
    | EConclude(ok: bool)
    | EExpire(id: OpId, idempotency: string)   // Process notices the deadline and gives up
    | Crash

  function Take(s: Sys, e: Event): Sys {
    match e
    case Tick(d) => s.(now := s.now + d)
    case EPeers(rt) => if forall k | k in s.db.bindings :: SameAt(s.runtime, rt, k) then s.(runtime := rt) else s
    case EEnroll(d, owner, until) => if s.proc.Held? then s else s.(db := Enroll(s.db, d, owner, until, s.now))
    case ESubmit(cmd, room, id) => if s.proc.Held? then s else s.(db := Submit(s.db, s.cfg, cmd, s.now, room, id).0)
    case ERefresh => if s.proc.Held? then s else s.(db := Refresh(s.db, s.now, s.cfg.budget))
    case ESweep(d, id, idem) =>
      if s.proc.Held? || d !in s.db.devices || !PastDue(s.db.devices[d], s.now) then s
      else s.(db := ExpireDevice(s.db, s.cfg, d, s.db.devices[d], s.now, id, idem))
    case EClaim(o, rows, id, idem) => Claim(s, o, rows, id, idem)
    case EInspect(ok) => Inspect(s, ok)
    case EIntend(ok) => Intend(s, ok)
    case EAct(happened, reported) => Act(s, happened, reported)
    case ECertify(ok) => Certify(s, ok)
    case EConclude(ok) => Conclude(s, ok)
    case EExpire(id, idem) =>
      if !s.proc.Held? || !PastDue(s.proc.dev, s.now) then s
      else s.(db := ExpireDevice(s.db, s.cfg, s.proc.device, s.proc.dev, s.now, id, idem), proc := Free)
    case Crash => s.(proc := Free)
  }

  function Start(cfg: Config, peers: Peers, now: int): Sys {
    Sys(cfg, EMPTY, peers, now, Free, {})
  }

  function Run(s: Sys, events: seq<Event>): Sys {
    if events == [] then s else Take(Run(s, events[..|events| - 1]), events[|events| - 1])
  }
}
