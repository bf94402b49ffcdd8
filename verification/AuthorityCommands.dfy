/** Commands from end to end: exactly which are accepted, what an accepted one makes of the
    tables, and that a revocation takes the device's keys off the interface for good. */
module AuthorityCommands {
  import opened Prelude
  import opened Prefixes
  import opened PeerPlan
  import opened AuthorityModel
  import opened AuthorityInvariants
  import opened AuthorityRuns
  import opened AuthorityDrain

  // ---------------------------------------------------------------- which commands are accepted

  /** The device's open jobs are within their deadlines and its revocations within the budget. */
  predicate OnTime(db: Db, d: DeviceId, now: int, budget: nat) {
    && (forall o | o in db.outbox && Open(db.outbox[o].state) && o in db.operations && db.operations[o].device == d ::
          now < db.operations[o].deadline)
    && (forall t | t in db.tombstones && db.tombstones[t].verifiedAt.None? && Bound(db, d, t.0) ::
          now < db.tombstones[t].committedAt + budget)
  }

  lemma OnTimeIs(db: Db, d: DeviceId, now: int, budget: nat)
    ensures OnTime(db, d, now, budget) <==> !OverdueWork(db, d, now, budget)
  {
  }

  /** A single routable host inside a pool that meets nothing protected. */
  predicate Free(policy: Policy, key: Key, p: Prefix) {
    && p.bits == (if p.v6 then 128 else 32) && !Unroutable(p) && key !in policy.protectedKeys
    && (exists i | 0 <= i < |policy.pools| :: Contains(policy.pools[i], p.v6, p.base))
    && (forall i | 0 <= i < |policy.protectedPrefixes| :: !Overlaps(policy.protectedPrefixes[i], p))
  }

  lemma FreeIs(policy: Policy, key: Key, p: Prefix)
    ensures Free(policy, key, p) <==> Permitted(policy, key, p)
  {
    hide Overlaps, Contains, Unroutable;
  }

  /** A new key for an active device, within policy, quota and time. */
  predicate MayAssign(db: Db, cfg: Config, cmd: Command, now: int, room: bool)
    requires cmd.device in db.devices
  {
    && cmd.target.Some? && Free(cfg.policy, cmd.target.value.key, cmd.target.value.address)
    && db.devices[cmd.device].standing == Active && now < db.devices[cmd.device].validUntil
    && room && OnTime(db, cmd.device, now, cfg.budget)
    && |set k | k in db.bindings && db.bindings[k].device == cmd.device| < 4096
    && cmd.target.value.key !in db.bindings
    && (cmd.target.value.address in db.addresses ==> db.addresses[cmd.target.value.address] == cmd.device)
  }

  /** What a new command needs: its owner's device at the generation it expects, a request key
      not used before, and what its verb asks for. */
  predicate Acceptable(db: Db, cfg: Config, cmd: Command, now: int, room: bool) {
    && cmd.device in db.devices && db.devices[cmd.device].owner == cmd.owner
    && db.devices[cmd.device].generation == cmd.expected < 0x7fff_ffff_ffff_ffff
    && KeyOf(cmd) !in db.requests
    && match cmd.verb
       case ApplyKey => MayAssign(db, cfg, cmd, now, room)
       case Expire => cmd.target.None? && db.devices[cmd.device].validUntil <= now
       case _ => cmd.target.None?
  }

  /** A command is committed if and only if it is acceptable; with its random id unused, it
      then is the operation of that id. */
  lemma AcceptedExactly(db: Db, cfg: Config, cmd: Command, now: int, room: bool, id: OpId)
    requires RequestsOk(db) && id !in db.operations
    ensures var r := Submit(db, cfg, cmd, now, room, id);
            && (r.1 == Ok(id) <==> Acceptable(db, cfg, cmd, now, room))
            && (id in r.0.operations <==> r.1 == Ok(id))
  {
    AcceptableCommits(db, cfg, cmd, now, room, id);
    SubmitCases(db, cfg, cmd, now, room, id);
    var r := Submit(db, cfg, cmd, now, room, id);
    if Lawful(db, cmd, id) { CommitShape(db, cmd, now, cfg.budget, id); }
    hide Submit, Commit, Lawful, Acceptable, RequestsOk, Free, OnTime;
  }

  lemma AcceptableCommits(db: Db, cfg: Config, cmd: Command, now: int, room: bool, id: OpId)
    requires RequestsOk(db) && id !in db.operations
    ensures Submit(db, cfg, cmd, now, room, id).1 == Ok(id) <==> Acceptable(db, cfg, cmd, now, room)
    ensures Acceptable(db, cfg, cmd, now, room) ==>
              cmd.device in db.devices && (cmd.verb == ApplyKey ==> cmd.target.Some?)
              && Submit(db, cfg, cmd, now, room, id).0 == Commit(db, cmd, now, cfg.budget, id)
  {
    OnTimeIs(db, cmd.device, now, cfg.budget);
    if cmd.target.Some? { FreeIs(cfg.policy, cmd.target.value.key, cmd.target.value.address); }
    hide OverdueWork, OnTime, Free, Commit, DegradeDevice, Protected, RequestsOk, Unroutable;
    if KeyOf(cmd) in db.requests { Remembered(db, KeyOf(cmd)); }
  }

  lemma Remembered(db: Db, q: RequestKey)
    requires RequestsOk(db) && q in db.requests
    ensures db.requests[q] in db.operations
  {
  }

  /** The jobs afterwards are the same, but for some of the device's open ones marked degraded. */
  predicate Marked(x: Db, y: Db, d: DeviceId, o: OpId)
    requires o in x.outbox
  {
    && o in y.outbox
    && (y.outbox[o] == x.outbox[o] || (OwnOpen(x, d, o) && y.outbox[o] == x.outbox[o].(state := Degraded)))
  }

  lemma RefusedIs(db: Db, cfg: Config, cmd: Command, now: int, room: bool, id: OpId)
    ensures var r := Submit(db, cfg, cmd, now, room, id);
            r.1.Err? ==>
              if r.1.error != Overdue then r.0 == db
              else r.0 == DegradeDevice(db, cmd.device) && cmd.verb == ApplyKey
                   && OverdueWork(db, cmd.device, now, cfg.budget)
  {
    hide OverdueWork, Permitted, Routable, Commit, DegradeDevice;
  }

  /** A refused command changes nothing, unless it would have assigned a key while the device is
      behind: then exactly the device's open jobs are marked degraded. */
  lemma RefusedOnlyMarks(db: Db, cfg: Config, cmd: Command, now: int, room: bool, id: OpId)
    ensures var r := Submit(db, cfg, cmd, now, room, id);
            r.1.Err? ==>
              && r.0 == db.(outbox := r.0.outbox) && r.0.outbox.Keys == db.outbox.Keys
              && (forall o | o in db.outbox :: Marked(db, r.0, cmd.device, o))
              && (r.0 != db ==> cmd.verb == ApplyKey && !OnTime(db, cmd.device, now, cfg.budget))
              && (r.1.error == Overdue ==> forall o | OwnOpen(db, cmd.device, o) :: r.0.outbox[o].state == Degraded)
  {
    hide Submit, OverdueWork, OnTime;
    OnTimeIs(db, cmd.device, now, cfg.budget);
    RefusedIs(db, cfg, cmd, now, room, id);
  }

  /** The sweep over the deadlines marks every open job of a device that is behind with it, and
      only open jobs of devices that are behind at all. */
  lemma RefreshMarksOverdue(db: Db, now: int, budget: nat)
    ensures var t := Refresh(db, now, budget);
            && t == db.(outbox := t.outbox) && t.outbox.Keys == db.outbox.Keys
            && (forall o | o in db.outbox && t.outbox[o] != db.outbox[o] ::
                  && o in db.operations && OwnOpen(db, db.operations[o].device, o)
                  && !OnTime(db, db.operations[o].device, now, budget)
                  && t.outbox[o] == db.outbox[o].(state := Degraded))
            && (forall o | o in db.outbox && o in db.operations && Open(db.outbox[o].state)
                  && db.operations[o].deadline <= now :: t.outbox[o].state == Degraded)
            && (forall o, s | o in db.outbox && o in db.operations && Open(db.outbox[o].state) && s in db.tombstones
                  && Bound(db, db.operations[o].device, s.0) && db.tombstones[s].verifiedAt.None?
                  && db.tombstones[s].committedAt + budget <= now :: t.outbox[o].state == Degraded)
  {
  }

  /** A repeated command, still admissible, is answered with its first operation and changes
      nothing; another command under the same request key is a conflict. */
  lemma RepeatIsIdempotent(db: Db, cfg: Config, cmd: Command, now: int, room: bool, id: OpId)
    requires RequestsOk(db) && KeyOf(cmd) in db.requests && Admissible(db, cfg, cmd, now, room).Ok?
    ensures var first := db.requests[KeyOf(cmd)];
            && first in db.operations
            && Submit(db, cfg, cmd, now, room, id)
               == (db, if db.operations[first].command == cmd then Ok(first) else Err(Conflict))
  {
    hide Admissible, RequestsOk;
    Remembered(db, KeyOf(cmd));
  }

  // ---------------------------------------------------------------- what an accepted command does

  /** What the verb makes of a device that is not revoked; a revoked one stays so. */
  function Becomes(verb: Verb): Standing {
    match verb
    case ApplyKey => Active
    case Disable => Disabled
    case Expire => Expired
    case Revoke => Revoked
  }

  /** The device is at the next generation with its new standing and only the key it was
      given; every key it had before is revoked with its tombstone; one pending job is open
      for it; every other device and binding is as it was. */
  ghost predicate Effective(x: Db, y: Db, cmd: Command, now: int, id: OpId)
    requires cmd.device in x.devices
  {
    var dev, g := x.devices[cmd.device], cmd.expected + 1;
    && y.devices == x.devices[cmd.device := dev.(
         standing := if dev.standing == Revoked then Revoked else Becomes(cmd.verb), generation := g,
         current := cmd.target)]
    && Rebound(x, y, cmd, now)
    && id in y.outbox && y.outbox[id].state == Pending && id in y.operations && y.operations[id].command == cmd
    && (forall o | OwnOpen(y, cmd.device, o) :: o == id)
  }

  lemma CommitEffective(db: Db, cmd: Command, now: int, budget: nat, id: OpId)
    requires Lawful(db, cmd, id) && JobsOk(db)
    ensures Effective(db, Commit(db, cmd, now, budget, id), cmd, now, id)
  {
    CommitRows(db, cmd, now, budget, id);
    CommitWork(db, cmd, now, budget, id);
    CommitShape(db, cmd, now, budget, id);
    var t := Commit(db, cmd, now, budget, id);
    hide Commit, Lawful, JobsOk, Rebound;
    assert cmd.verb == ApplyKey <==> cmd.target.Some? by { LawfulTarget(db, cmd, id); }
    assert cmd.expected == db.devices[cmd.device].generation by { LawfulTarget(db, cmd, id); }
  }

  lemma LawfulTarget(db: Db, cmd: Command, id: OpId)
    requires Lawful(db, cmd, id)
    ensures (cmd.verb == ApplyKey <==> cmd.target.Some?) && cmd.expected == db.devices[cmd.device].generation
  {
  }

  lemma CommitStone(db: Db, cmd: Command, now: int, budget: nat, id: OpId, k: Key)
    requires Lawful(db, cmd, id) && Current(db, cmd.device, k)
    ensures var t, i := Commit(db, cmd, now, budget, id), (k, cmd.expected + 1);
            i in t.tombstones && t.tombstones[i] == Tombstone(now, None)
  {
    var g := cmd.expected + 1;
    var stones := map k | k in db.bindings && Current(db, cmd.device, k) :: (k, g) := Tombstone(now, None);
    assert (k, g) in stones;
  }

  /** A key bound before: revoked with its tombstone if it was the device's current one. */
  predicate Kept(x: Db, y: Db, cmd: Command, now: int, k: Key)
    requires k in x.bindings
  {
    var g := cmd.expected + 1;
    && k in y.bindings
    && (if Current(x, cmd.device, k)
        then y.bindings[k] == x.bindings[k].(revoked := g)
             && (k, g) in y.tombstones && y.tombstones[(k, g)] == Tombstone(now, None)
        else y.bindings[k] == x.bindings[k])
  }

  /** A newly bound key is the one the command assigns. */
  predicate Given(y: Db, cmd: Command, k: Key)
    requires k in y.bindings
  {
    && cmd.target.Some? && cmd.target.value.key == k
    && y.bindings[k] == Binding(cmd.device, cmd.target.value.address, cmd.expected + 1, 0, 0, false)
  }

  /** The bindings and tombstones after a commit. */
  ghost predicate Rebound(x: Db, y: Db, cmd: Command, now: int) {
    && (forall k | k in x.bindings :: Kept(x, y, cmd, now, k))
    && (forall k | k in y.bindings && k !in x.bindings :: Given(y, cmd, k))
    && (cmd.target.Some? ==> cmd.target.value.key in y.bindings)
  }

  lemma CommitKept(db: Db, cmd: Command, now: int, budget: nat, id: OpId, k: Key)
    requires Lawful(db, cmd, id) && k in db.bindings
    ensures Kept(db, Commit(db, cmd, now, budget, id), cmd, now, k)
  {
    hide Commit;
    CommitBinding(db, cmd, now, budget, id, k);
    if Current(db, cmd.device, k) { CommitStone(db, cmd, now, budget, id, k); }
  }

  lemma CommitGives(db: Db, cmd: Command, now: int, budget: nat, id: OpId, k: Key)
    requires Lawful(db, cmd, id) && k !in db.bindings
    ensures var t := Commit(db, cmd, now, budget, id);
            && (k in t.bindings ==> Given(t, cmd, k))
            && (cmd.target.Some? && cmd.target.value.key == k ==> k in t.bindings)
  {
    CommitBinding(db, cmd, now, budget, id, k);
    hide Commit;
  }

  lemma CommitRows(db: Db, cmd: Command, now: int, budget: nat, id: OpId)
    requires Lawful(db, cmd, id)
    ensures Rebound(db, Commit(db, cmd, now, budget, id), cmd, now)
  {
    hide Commit, Kept, Given;
    var t := Commit(db, cmd, now, budget, id);
    if cmd.target.Some? { CommitGives(db, cmd, now, budget, id, cmd.target.value.key); }
    hide Lawful;
    forall k | k in db.bindings ensures Kept(db, t, cmd, now, k) { CommitKept(db, cmd, now, budget, id, k); }
    forall k | k in t.bindings && k !in db.bindings ensures Given(t, cmd, k) {
      CommitGives(db, cmd, now, budget, id, k);
    }
  }

  lemma CommitWork(db: Db, cmd: Command, now: int, budget: nat, id: OpId)
    requires Lawful(db, cmd, id) && JobsOk(db)
    ensures var t := Commit(db, cmd, now, budget, id);
            && id in t.outbox && t.outbox[id].state == Pending && id in t.operations && t.operations[id].command == cmd
            && (forall o | OwnOpen(t, cmd.device, o) :: o == id)
  {
    var t := Commit(db, cmd, now, budget, id);
    forall o | OwnOpen(t, cmd.device, o) ensures o == id {
      assert o in db.outbox ==> JobOk(db, o);
    }
  }

  lemma AcceptableLawful(db: Db, cfg: Config, cmd: Command, now: int, room: bool, id: OpId)
    requires Acceptable(db, cfg, cmd, now, room) && id !in db.operations
    ensures Lawful(db, cmd, id)
  {
    hide OnTime, Free;
  }

  /** Over every run: an enrolment with time left makes an unknown device known, active, with no
      key, operation or address to its name; any other one changes nothing. */
  lemma EnrolmentStartsClean(cfg: Config, peers: Peers, now: int, history: seq<Event>, d: DeviceId, owner: string,
                             until: int)
    requires Run(Start(cfg, peers, now), history).proc.Free?
    ensures var s := Run(Start(cfg, peers, now), history);
            var t := Take(s, EEnroll(d, owner, until));
            if d in s.db.devices || until <= s.now then t == s
            else
              && t == s.(db := s.db.(devices := s.db.devices[d := Device(owner, Active, until, 0, 0, None)]))
              && (forall k | k in s.db.bindings :: !Bound(t.db, d, k))
              && (forall o | o in s.db.operations :: t.db.operations[o].device != d)
  {
    ReachableTables(cfg, peers, now, history);
    var s := Run(Start(cfg, peers, now), history);
    hide Run, DevicesOk, StonesOk, JobsOk, RequestsOk, IntentsOk, Start;
    assert forall k | k in s.db.bindings :: BindingOk(s.db, k);
  }

  /** Over every run: an acceptable command of anybody who holds no fence is committed, and
      has its whole effect at once. */
  lemma CommandTakesEffect(cfg: Config, peers: Peers, now: int, history: seq<Event>, cmd: Command, room: bool, id: OpId)
    requires var s := Run(Start(cfg, peers, now), history);
             s.proc.Free? && id !in s.db.operations && Acceptable(s.db, s.cfg, cmd, s.now, room)
    ensures var s := Run(Start(cfg, peers, now), history);
            Effective(s.db, Take(s, ESubmit(cmd, room, id)).db, cmd, s.now, id)
  {
    ReachableTables(cfg, peers, now, history);
    var s := Run(Start(cfg, peers, now), history);
    hide Run, FenceOk, PeersOk, DevicesOk, BindingsOk, StonesOk, OperationsOk, IntentsOk;
    AcceptableCommits(s.db, s.cfg, cmd, s.now, room, id);
    AcceptableLawful(s.db, s.cfg, cmd, s.now, room, id);
    CommitEffective(s.db, cmd, s.now, s.cfg.budget, id);
    hide Submit, Commit, Acceptable, Effective, Lawful, JobsOk, RequestsOk;
  }

  // ---------------------------------------------------------------- expiry and failure

  function ExpiryOf(dev: Device, d: DeviceId, idempotency: string): Command {
    Command("deviceauth-expiry-reconciler", dev.owner, d, Expire, idempotency, dev.generation, None,
            "authorization deadline reached during reconciliation")
  }

  /** An expiry of the device can be written down: its id and request key are unused. */
  predicate Noticeable(db: Db, d: DeviceId, id: OpId, idempotency: string) {
    && d in db.devices && id !in db.operations && db.devices[d].generation < MAX_GENERATION
    && KeyOf(ExpiryOf(db.devices[d], d, idempotency)) !in db.requests
  }

  /** The device is expired one generation on, without a key; what it had is revoked, and the
      only open job of its own is the expiry's, marked degraded. */
  ghost predicate Lapsed(x: Db, y: Db, d: DeviceId, id: OpId)
    requires d in x.devices
  {
    && y.devices == x.devices[d := x.devices[d].(standing := Expired, generation := x.devices[d].generation + 1,
                                                 current := None)]
    && (forall k | Current(x, d, k) :: k in y.bindings && y.bindings[k].revoked == x.devices[d].generation + 1)
    && id in y.outbox && y.outbox[id].state == Degraded && (forall o | OwnOpen(y, d, o) :: o == id)
  }

  lemma ExpireLapses(db: Db, cfg: Config, d: DeviceId, now: int, id: OpId, idempotency: string)
    requires JobsOk(db) && RequestsOk(db) && Noticeable(db, d, id, idempotency) && PastDue(db.devices[d], now)
    ensures Lapsed(db, ExpireDevice(db, cfg, d, db.devices[d], now, id, idempotency), d, id)
  {
    hide Submit, Commit, Lawful, JobsOk, RequestsOk, Free, OnTime, MayAssign;
    var cmd := ExpiryOf(db.devices[d], d, idempotency);
    AcceptableCommits(db, cfg, cmd, now, true, id);
    AcceptableLawful(db, cfg, cmd, now, true, id);
    CommitEffective(db, cmd, now, cfg.budget, id);
    var t := Commit(db, cmd, now, cfg.budget, id);
    assert Submit(db, cfg, cmd, now, true, id) == (t, Ok(id));
    assert ExpireDevice(db, cfg, d, db.devices[d], now, id, idempotency)
        == t.(outbox := t.outbox[id := t.outbox[id].(state := Degraded)]);
    hide ExpireDevice, Acceptable, Noticeable;
    forall k | Current(db, d, k)
      ensures k in t.bindings && t.bindings[k].revoked == db.devices[d].generation + 1
    {
    }
    var y := ExpireDevice(db, cfg, d, db.devices[d], now, id, idempotency);
    forall o | OwnOpen(y, d, o) ensures o == id { assert OwnOpen(t, d, o); }
  }

  predicate ComesUpon(s: Sys, d: DeviceId, e: Event) {
    || (e.ESweep? && s.proc.Free? && e.d == d)
    || (e.EClaim? && s.proc.Free? && Latest(s.db, e.o) && s.db.operations[e.o].device == d)
    || (e.EExpire? && s.proc.Held? && s.proc.device == d)
  }

  /** In every run, whoever comes upon a device past its validity, the sweep, a claim or the
      holder in the middle of its work, lets it lapse, and nobody holds it afterwards. */
  lemma ExpiryIsNoticed(cfg: Config, peers: Peers, now: int, history: seq<Event>, d: DeviceId, e: Event)
    requires var s := Run(Start(cfg, peers, now), history);
             && (e.ESweep? || e.EClaim? || e.EExpire?) && ComesUpon(s, d, e)
             && Noticeable(s.db, d, e.id, e.idempotency) && PastDue(s.db.devices[d], s.now)
    ensures var s := Run(Start(cfg, peers, now), history);
            var t := Take(s, e);
            Lapsed(s.db, t.db, d, e.id) && t.proc.Free? && t.runtime == s.runtime
  {
    ReachableTables(cfg, peers, now, history);
    var s := Run(Start(cfg, peers, now), history);
    hide Run, Start;
    GoodWork(s);
    hide Good, JobsOk, RequestsOk, ExpireDevice, Lapsed, Take, PastDue;
    ExpireLapses(s.db, s.cfg, d, s.now, e.id, e.idempotency);
    hide Noticeable;
    ExpiresOn(s, d, e);
  }

  lemma ExpiresOn(s: Sys, d: DeviceId, e: Event)
    requires (e.ESweep? || e.EClaim? || e.EExpire?) && ComesUpon(s, d, e)
    requires d in s.db.devices && PastDue(s.db.devices[d], s.now)
    requires s.proc.Held? ==> s.proc.device in s.db.devices && s.db.devices[s.proc.device] == s.proc.dev
    requires forall o | o in s.db.operations :: o in s.db.outbox
    ensures Take(s, e)
         == s.(db := ExpireDevice(s.db, s.cfg, d, s.db.devices[d], s.now, e.id, e.idempotency), proc := Process.Free)
  {
    hide ExpireDevice, IsHistory, KnowsIntents, PastDue;
  }

  lemma GoodWork(s: Sys)
    requires Good(s)
    ensures JobsOk(s.db) && RequestsOk(s.db)
    ensures s.proc.Held? ==> s.proc.device in s.db.devices && s.db.devices[s.proc.device] == s.proc.dev
    ensures forall o | o in s.db.operations :: o in s.db.outbox
  {
    hide PeersOk, StageOk, IsHistory;
  }

  /** In every run, a key is put on the interface only as the current key of an active device,
      at its address, before the end of the device's validity. */
  lemma AppliesInTime(cfg: Config, peers: Peers, now: int, history: seq<Event>, happened: bool, reported: bool, k: Key)
    requires var s := Run(Start(cfg, peers, now), history);
             var t := Act(s, happened, reported);
             k in t.runtime && (k !in s.runtime || k in t.made - s.made)
    ensures var s := Run(Start(cfg, peers, now), history);
            var t := Act(s, happened, reported);
            && s.proc.Held? && s.proc.device in s.db.devices
            && (var dev := s.db.devices[s.proc.device];
                && dev.standing == Active && s.now < dev.validUntil
                && dev.current.Some? && dev.current.value.key == k && t.runtime[k] == {dev.current.value.address})
  {
    ReachableTables(cfg, peers, now, history);
    var s := Run(Start(cfg, peers, now), history);
    GoodParts(s);
    hide Run, Start, Good, Tables, PeersOk;
    ActInTime(s, happened, reported, k);
  }

  lemma ActInTime(s: Sys, happened: bool, reported: bool, k: Key)
    requires FenceOk(s)
    requires var t := Act(s, happened, reported); k in t.runtime && (k !in s.runtime || k in t.made - s.made)
    ensures var t := Act(s, happened, reported);
            && s.proc.Held? && s.proc.device in s.db.devices
            && (var dev := s.db.devices[s.proc.device];
                && dev.standing == Active && s.now < dev.validUntil
                && dev.current.Some? && dev.current.value.key == k && t.runtime[k] == {dev.current.value.address})
  {
    hide IsHistory, HasIntent, Plan;
    if s.proc.Held? && s.proc.at.Acting? && s.proc.at.next < |s.proc.at.actions| {
      PlanTouchesOwnPeers(s.cfg.policy, TargetOf(s.proc.dev), s.proc.rows, s.proc.at.before, s.proc.at.next);
    }
  }

  /** In every run, what Process certifies is true then and in time: the device's old keys are
      off the interface and its current key, if it is active, exactly on its address. */
  lemma CertifiedIsTrue(cfg: Config, peers: Peers, now: int, history: seq<Event>, ok: bool)
    requires var s := Run(Start(cfg, peers, now), history);
             var t := Certify(s, ok);
             t != s && t.proc.Held?
    ensures var s := Run(Start(cfg, peers, now), history);
            && s.proc.Held? && s.proc.device in s.db.devices && !PastDue(s.db.devices[s.proc.device], s.now)
            && (forall k | Old(s.db, s.proc.device, k) :: k !in s.runtime)
            && (var target := TargetOf(s.db.devices[s.proc.device]);
                target.Peer? ==> target.key in s.runtime && s.runtime[target.key] == {target.address})
  {
    ReachableTables(cfg, peers, now, history);
    var s := Run(Start(cfg, peers, now), history);
    GoodParts(s);
    hide Run, Good, Tables, PeersOk, HasIntent, StageOk, TargetOf;
    forall k | Old(s.db, s.proc.device, k) ensures k !in s.runtime {
      assert InHistory(s.proc.rows, k);
      var i :| 0 <= i < |s.proc.rows| && s.proc.rows[i].key == k;
      assert s.proc.rows[i].revoked;
    }
  }

  /** In every run, a holder that gives its job up has it marked degraded, never finished; one
      that finishes it has recorded the result. */
  lemma GivenUpIsMarked(cfg: Config, peers: Peers, now: int, history: seq<Event>, e: Event)
    requires var s := Run(Start(cfg, peers, now), history);
             s.proc.Held? && Take(s, e).proc.Free? && e != Crash && !e.EExpire?
    ensures var s := Run(Start(cfg, peers, now), history);
            var t := Take(s, e);
            && s.proc.op in s.db.outbox && s.proc.op in t.db.outbox && s.proc.device in t.db.devices
            && if e.EConclude? && e.ok
               then t.db.outbox[s.proc.op].state == Finished
                 && t.db.devices[s.proc.device].applied == s.proc.dev.generation
               else t.db == s.db.(outbox := s.db.outbox[s.proc.op := s.db.outbox[s.proc.op].(state := Degraded)])
  {
    ReachableSound(cfg, peers, now, history);
    var s := Run(Start(cfg, peers, now), history);
    hide Run, Sound, Take;
    HistoryDistinct(s);
    HolderLetsGo(s, e);
  }

  lemma AbandonMarks(s: Sys)
    requires Holds(s)
    ensures Abandon(s) == s.(proc := Process.Free,
              db := s.db.(outbox := s.db.outbox[s.proc.op := s.db.outbox[s.proc.op].(state := Degraded)]))
  {
  }

  predicate Holds(s: Sys) {
    && s.proc.Held? && s.proc.op in s.db.outbox && s.db.outbox[s.proc.op].state == Pending
    && s.db.outbox[s.proc.op].fence == s.proc.fence
    && s.proc.device in s.db.devices && s.db.devices[s.proc.device] == s.proc.dev
  }

  lemma HolderLetsGo(s: Sys, e: Event)
    requires Holds(s) && Take(s, e).proc.Free? && e != Crash && !e.EExpire?
    ensures var t := Take(s, e).db;
            && s.proc.op in t.outbox && s.proc.device in t.devices
            && if e.EConclude? && e.ok
               then t.outbox[s.proc.op].state == Finished && t.devices[s.proc.device].applied == s.proc.dev.generation
               else t == s.db.(outbox := s.db.outbox[s.proc.op := s.db.outbox[s.proc.op].(state := Degraded)])
  {
    hide Plan, Verified, Effect, PastDue, TargetOf, Abandon, Submit, ExpireDevice, Intend, Act;
    AbandonMarks(s);
    if e.EIntend? { IntendLetsGo(s, e.ok); }
    if e.EAct? { ActLetsGo(s, e.happened, e.reported); }
  }

  lemma IntendLetsGo(s: Sys, ok: bool)
    requires Holds(s)
    ensures Intend(s, ok).proc.Held? || Intend(s, ok) == Abandon(s)
  {
    hide IntentFor, Abandon;
  }

  lemma ActLetsGo(s: Sys, happened: bool, reported: bool)
    requires Holds(s)
    ensures Act(s, happened, reported).proc.Held? || Act(s, happened, reported).db == Abandon(s).db
  {
    hide PastDue, Effect;
  }

  // ---------------------------------------------------------------- revocation, end to end

  lemma SoundTables(s: Sys)
    requires Sound(s)
    ensures JobsOk(s.db) && RequestsOk(s.db)
  {
  }

  lemma SubmitSound(s: Sys, cmd: Command, room: bool, id: OpId)
    requires Sound(s) && s.proc.Free? && id !in s.db.operations && Acceptable(s.db, s.cfg, cmd, s.now, room)
    ensures var t := Take(s, ESubmit(cmd, room, id));
            && Sound(t) && Effective(s.db, t.db, cmd, s.now, id)
            && t == s.(db := t.db) && t.db.fence == s.db.fence
  {
    hide Sound, JobsOk, RequestsOk, Submit, Commit, Acceptable, Effective, Lawful;
    SoundTables(s);
    AcceptableCommits(s.db, s.cfg, cmd, s.now, room, id);
    AcceptableLawful(s.db, s.cfg, cmd, s.now, room, id);
    CommitEffective(s.db, cmd, s.now, s.cfg.budget, id);
    assert Commit(s.db, cmd, s.now, s.cfg.budget, id).fence == s.db.fence by {
      CommitShape(s.db, cmd, s.now, s.cfg.budget, id);
    }
    TakeSound(s, ESubmit(cmd, room, id));
  }

  /** After a revocation every key of the device is an old one and none is wanted. */
  lemma RevokedKeysOld(x: Db, y: Db, cmd: Command, now: int, id: OpId, k: Key)
    requires cmd.device in x.devices && Effective(x, y, cmd, now, id) && cmd.verb == Revoke && cmd.target.None?
    ensures TargetOf(y.devices[cmd.device]) == NoPeer
    ensures Bound(x, cmd.device, k) ==> Old(y, cmd.device, k) && y.bindings[k].address == x.bindings[k].address
    ensures Bound(y, cmd.device, k) ==> Bound(x, cmd.device, k)
  {
    assert k in x.bindings ==> Kept(x, y, cmd, now, k);
    assert k in y.bindings && k !in x.bindings ==> Given(y, cmd, k);
  }

  /** The device's keys are on the interface only as this executor put them there. */
  ghost predicate OwnKeysOk(s: Sys, d: DeviceId) {
    forall k | Bound(s.db, d, k) :: OwnKeyOk(s, k)
  }

  lemma RevokedUnobstructed(s: Sys, t: Sys, cmd: Command, id: OpId)
    requires cmd.device in s.db.devices && Effective(s.db, t.db, cmd, s.now, id) && cmd.verb == Revoke
    requires cmd.target.None? && t == s.(db := t.db) && OwnKeysOk(s, cmd.device)
    ensures cmd.device in t.db.devices && Unobstructed(t, cmd.device, TargetOf(t.db.devices[cmd.device]))
  {
    RevokedKeysOld(s.db, t.db, cmd, s.now, id, "");
    forall k | k in t.db.bindings && Bound(t.db, cmd.device, k) ensures OwnKeyOk(t, k) {
      RevokedKeysOld(s.db, t.db, cmd, s.now, id, k);
      hide Effective, Permitted;
      assert OwnKeyOk(s, k);
    }
    hide Effective;
  }

  lemma RevokedClaimable(s: Sys, t: Sys, cmd: Command, id: OpId)
    requires Sound(t) && cmd.device in s.db.devices && Effective(s.db, t.db, cmd, s.now, id) && cmd.verb == Revoke
    requires t == s.(db := t.db) && t.db.fence + 1 < MAX_GENERATION
    ensures Claimable(t, id) && t.db.operations[id].device == cmd.device
  {
    assert OperationsOk(t.db);
    hide Sound;
    assert t.db.devices[cmd.device].standing == Revoked;
    assert t.db.operations[id].command.expected + 1 == t.db.operations[id].generation;
  }

  lemma GoneForGood(t: Sys, u: Sys, after: seq<Event>, o: OpId, d: DeviceId, k: Key)
    requires Sound(u) && Landed(t, u, o, d) && Old(t.db, d, k) && t.db.devices[d].generation > 0
    ensures k !in u.runtime && k !in Run(u, after).runtime
  {
    assert Good(u);
    assert u.db.bindings[k].removed > 0;
    hide Sound, Good, Run, Landed;
    RunGood(u, after);
    StaysOut(u, Run(u, after), k);
  }

  /** A revocation by the device's owner, in any reachable state: it is accepted, one
      fault-free Process finishes it, and none of the device's keys is on the interface then
      or in any later state. */
  lemma RevokedDeviceLeaves(cfg: Config, peers: Peers, now: int, history: seq<Event>, cmd: Command, room: bool,
                            id: OpId)
    returns (rows: seq<Row>, n: nat)
    requires var s := Run(Start(cfg, peers, now), history);
             && s.proc.Free? && id !in s.db.operations && cmd.verb == Revoke && cmd.target.None?
             && cmd.device in s.db.devices && s.db.devices[cmd.device].owner == cmd.owner
             && s.db.devices[cmd.device].generation == cmd.expected < MAX_GENERATION
             && KeyOf(cmd) !in s.db.requests && s.db.fence + 1 < MAX_GENERATION && OwnKeysOk(s, cmd.device)
    ensures var s := Run(Start(cfg, peers, now), history);
            var t := Take(s, ESubmit(cmd, room, id));
            var u := Run(t, Processing(id, rows, n));
            && t.db.devices[cmd.device].standing == Revoked
            && id in u.db.outbox && u.db.outbox[id].state == Finished
            && forall k, after | Bound(s.db, cmd.device, k) :: k !in Run(u, after).runtime
  {
    ReachableSound(cfg, peers, now, history);
    var s := Run(Start(cfg, peers, now), history);
    hide Sound, Run, Effective, Unobstructed;
    SubmitSound(s, cmd, room, id);
    var t := Take(s, ESubmit(cmd, room, id));
    hide Take;
    RevokedUnobstructed(s, t, cmd, id);
    RevokedClaimable(s, t, cmd, id);
    rows, n := FreeJobLands(t, id);
    ProcessingRun(t, id, rows, n);
    var u := Run(t, Processing(id, rows, n));
    RunSound(t, Processing(id, rows, n));
    hide Landed;
    assert t.db.devices[cmd.device].generation > 0 && t.db.devices[cmd.device].standing == Revoked by {
      EffectiveDevice(s.db, t.db, cmd, s.now, id);
    }
    forall k, after | Bound(s.db, cmd.device, k) ensures k !in Run(u, after).runtime {
      RevokedKeysOld(s.db, t.db, cmd, s.now, id, k);
      GoneForGood(t, u, after, id, cmd.device, k);
    }
    LandedFinished(t, u, id, cmd.device);
  }

  lemma EffectiveDevice(x: Db, y: Db, cmd: Command, now: int, id: OpId)
    requires cmd.device in x.devices && Effective(x, y, cmd, now, id) && cmd.verb == Revoke
    ensures y.devices[cmd.device].generation > 0 && y.devices[cmd.device].standing == Revoked
  {
  }

  lemma LandedFinished(t: Sys, u: Sys, o: OpId, d: DeviceId)
    requires Landed(t, u, o, d)
    ensures o in u.db.outbox && u.db.outbox[o].state == Finished
  {
  }

  // ---------------------------------------------------------------- protected peers

  ghost predicate AllFree(s: Sys) {
    forall k | k in s.db.bindings :: Free(s.cfg.policy, k, s.db.bindings[k].address)
  }

  /** Bindings keep their addresses, and a new one was within policy. */
  ghost predicate BindsFree(x: Db, y: Db, policy: Policy) {
    forall k | k in y.bindings ::
      if k in x.bindings then y.bindings[k].address == x.bindings[k].address
      else Free(policy, k, y.bindings[k].address)
  }

  lemma SubmitBindsFree(db: Db, cfg: Config, cmd: Command, now: int, room: bool, id: OpId)
    requires RequestsOk(db)
    ensures BindsFree(db, Submit(db, cfg, cmd, now, room, id).0, cfg.policy)
  {
    SubmitCases(db, cfg, cmd, now, room, id);
    var t := Submit(db, cfg, cmd, now, room, id).0;
    if t != db && t != DegradeDevice(db, cmd.device) {
      AcceptableCommits(db, cfg, cmd, now, room, id);
      assert Acceptable(db, cfg, cmd, now, room);
      CommitRows(db, cmd, now, cfg.budget, id);
      hide Submit, Commit, OnTime, Free, Lawful, RequestsOk;
    } else {
      hide Submit, Commit, Free, Lawful, RequestsOk;
    }
  }

  lemma ExpireBindsFree(db: Db, cfg: Config, d: DeviceId, dev: Device, now: int, id: OpId, idempotency: string)
    requires RequestsOk(db)
    ensures BindsFree(db, ExpireDevice(db, cfg, d, dev, now, id, idempotency), cfg.policy)
  {
    var cmd := Command("deviceauth-expiry-reconciler", dev.owner, d, Expire, idempotency, dev.generation, None,
                       "authorization deadline reached during reconciliation");
    SubmitBindsFree(db, cfg, cmd, now, true, id);
    hide Submit, RequestsOk, Free;
  }

  lemma SameBindsFree(x: Db, y: Db, policy: Policy)
    requires y.bindings == x.bindings
    ensures BindsFree(x, y, policy)
  {
  }

  lemma RecordBindsFree(db: Db, p: Process, now: int, policy: Policy)
    requires p.Held? && p.device in db.devices && p.op in db.outbox
    ensures BindsFree(db, Record(db, p, now), policy)
  {
  }

  lemma PlanningKeepsBindings(s: Sys, ok: bool)
    ensures Inspect(s, ok).db.bindings == s.db.bindings && Inspect(s, ok).cfg == s.cfg
    ensures Certify(s, ok).db.bindings == s.db.bindings && Certify(s, ok).cfg == s.cfg
  {
    hide Plan, Verified, PastDue;
  }

  lemma IntendKeepsBindings(s: Sys, ok: bool)
    ensures Intend(s, ok).db.bindings == s.db.bindings && Intend(s, ok).cfg == s.cfg
  {
  }

  lemma ActKeepsBindings(s: Sys, happened: bool, reported: bool)
    ensures Act(s, happened, reported).db.bindings == s.db.bindings && Act(s, happened, reported).cfg == s.cfg
  {
    hide Effect, PastDue;
  }

  lemma ActingKeepsBindings(s: Sys, e: Event)
    requires e.EInspect? || e.EIntend? || e.EAct? || e.ECertify?
    ensures Take(s, e).db.bindings == s.db.bindings && Take(s, e).cfg == s.cfg
  {
    hide Inspect, Intend, Act, Certify;
    match e {
      case EInspect(ok) => PlanningKeepsBindings(s, ok);
      case EIntend(ok) => IntendKeepsBindings(s, ok);
      case EAct(happened, reported) => ActKeepsBindings(s, happened, reported);
      case ECertify(ok) => PlanningKeepsBindings(s, ok);
    }
  }

  lemma ConcludeBindsFree(s: Sys, ok: bool)
    ensures BindsFree(s.db, Conclude(s, ok).db, s.cfg.policy) && Conclude(s, ok).cfg == s.cfg
  {
    hide BindsFree, Record;
    SameBindsFree(s.db, s.db, s.cfg.policy);
    if s.proc.Held? {
      SameBindsFree(s.db, Abandon(s).db, s.cfg.policy);
      if s.proc.device in s.db.devices && s.proc.op in s.db.outbox {
        RecordBindsFree(s.db, s.proc, s.now, s.cfg.policy);
      }
    }
  }

  lemma ExecutorBindsFree(s: Sys, e: Event)
    requires e.EInspect? || e.EIntend? || e.EAct? || e.ECertify? || e.EConclude?
    ensures BindsFree(s.db, Take(s, e).db, s.cfg.policy) && Take(s, e).cfg == s.cfg
  {
    hide BindsFree;
    if e.EConclude? {
      hide Conclude;
      ConcludeBindsFree(s, e.ok);
    } else {
      hide Take;
      ActingKeepsBindings(s, e);
      SameBindsFree(s.db, Take(s, e).db, s.cfg.policy);
    }
  }

  lemma ClaimBindsFree(s: Sys, o: OpId, rows: seq<Row>, id: OpId, idempotency: string)
    requires RequestsOk(s.db)
    ensures BindsFree(s.db, Claim(s, o, rows, id, idempotency).db, s.cfg.policy)
    ensures Claim(s, o, rows, id, idempotency).cfg == s.cfg
  {
    hide BindsFree, RequestsOk, ExpireDevice, IsHistory, KnowsIntents;
    var t := Claim(s, o, rows, id, idempotency);
    if o in s.db.operations && s.db.operations[o].device in s.db.devices {
      var d := s.db.operations[o].device;
      ExpireBindsFree(s.db, s.cfg, d, s.db.devices[d], s.now, id, idempotency);
    }
    if t.db.bindings == s.db.bindings { SameBindsFree(s.db, t.db, s.cfg.policy); }
  }

  lemma TakeBindsFree(s: Sys, e: Event)
    requires RequestsOk(s.db)
    ensures BindsFree(s.db, Take(s, e).db, s.cfg.policy) && Take(s, e).cfg == s.cfg
  {
    hide BindsFree, RequestsOk, ExpireDevice, Submit, Claim;
    SameBindsFree(s.db, s.db, s.cfg.policy);
    match e {
      case ESubmit(cmd, room, id) => SubmitBindsFree(s.db, s.cfg, cmd, s.now, room, id);
      case ESweep(d, id, idem) =>
        if d in s.db.devices { ExpireBindsFree(s.db, s.cfg, d, s.db.devices[d], s.now, id, idem); }
      case EClaim(o, rows, id, idem) => ClaimBindsFree(s, o, rows, id, idem);
      case EExpire(id, idem) =>
        if s.proc.Held? { ExpireBindsFree(s.db, s.cfg, s.proc.device, s.proc.dev, s.now, id, idem); }
      case EInspect(_) => ExecutorBindsFree(s, e);
      case EIntend(_) => ExecutorBindsFree(s, e);
      case EAct(_, _) => ExecutorBindsFree(s, e);
      case ECertify(_) => ExecutorBindsFree(s, e);
      case EConclude(_) => ExecutorBindsFree(s, e);
      case _ => SameBindsFree(s.db, Take(s, e).db, s.cfg.policy);
    }
  }

  lemma {:induction false} RunFree(s: Sys, events: seq<Event>)
    requires Good(s) && AllFree(s)
    ensures Good(Run(s, events)) && AllFree(Run(s, events)) && Run(s, events).cfg == s.cfg
  {
    if events != [] {
      hide Good, Take, Later, Free;
      var before, e := events[..|events| - 1], events[|events| - 1];
      RunFree(s, before);
      var t := Run(s, before);
      ApplyGood(t, e);
      assert RequestsOk(t.db) by { GoodParts(t); TablesRequests(t.db); hide Tables; }
      TakeBindsFree(t, e);
    }
  }

  lemma TablesRequests(db: Db)
    requires Tables(db)
    ensures RequestsOk(db)
  {
  }

  /** Over every run, no key or address the policy protects is ever bound, and none is ever
      put on the interface by the executor. */
  lemma ProtectedNeverBound(cfg: Config, peers: Peers, now: int, history: seq<Event>, k: Key)
    ensures var s := Run(Start(cfg, peers, now), history);
            && (k in s.db.bindings ==> Free(cfg.policy, k, s.db.bindings[k].address))
            && (k in cfg.policy.protectedKeys ==> k !in s.db.bindings && k !in s.made)
  {
    StartGood(cfg, peers, now);
    ReachableSound(cfg, peers, now, history);
    var s := Run(Start(cfg, peers, now), history);
    assert AllFree(Start(cfg, peers, now));
    assert MadeOk(s) && IntentsOk(s.db);
    hide Good, Run, Sound, Start;
    RunFree(Start(cfg, peers, now), history);
    if k in s.made { assert HasIntent(s.db, k); }
    assert s.cfg == cfg by { StartConfig(cfg, peers, now); }
  }

  lemma StartConfig(cfg: Config, peers: Peers, now: int)
    ensures Start(cfg, peers, now).cfg == cfg
  {
  }
}
