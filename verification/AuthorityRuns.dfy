/** What the authority and its executor promise over whole runs. */
module AuthorityRuns {
  import opened Prelude
  import opened Prefixes
  import opened PeerPlan
  import opened AuthorityModel
  import opened AuthorityInvariants

  // ---------------------------------------------------------------- the executor

  predicate StageOk(s: Sys, p: Process)
    requires p.Held?
  {
    match p.at
    case Claimed => true
    case Planned(before, actions) =>
      && Plan(s.cfg.policy, TargetOf(p.dev), p.rows, before) == Ok(actions)
      && (forall k | k in s.db.bindings :: SameAt(before, s.runtime, k))
    case Acting(before, actions, next) =>
      && Plan(s.cfg.policy, TargetOf(p.dev), p.rows, before) == Ok(actions) && next <= |actions|
      && (forall j | 0 <= j < |actions| && actions[j].Apply? :: HasIntent(s.db, actions[j].key))
    case Certified =>
      && (forall k | Bound(s.db, p.device, k) && s.db.bindings[k].revoked > 0 :: k !in s.runtime)
      && (TargetOf(p.dev).Peer? ==> TargetOf(p.dev).key in s.made)
  }

  /** The process fence: what the holder read is still what the tables say. */
  predicate FenceOk(s: Sys) {
    s.proc.Held? ==>
      var p := s.proc;
      && Latest(s.db, p.op) && s.db.operations[p.op].device == p.device
      && p.device in s.db.devices && s.db.devices[p.device] == p.dev
      && IsHistory(s.db, p.device, p.rows)
      && StageOk(s, p)
  }

  /** A removal that was certified stays true, and whatever the authority counts as its own
      in the runtime was put there by it. */
  predicate PeerOk(s: Sys, k: Key)
    requires k in s.db.bindings
  {
    && (s.db.bindings[k].removed > 0 ==> k !in s.runtime)
    && (k in s.runtime && (s.db.bindings[k].applied || HasIntent(s.db, k)) ==> k in s.made)
  }

  ghost predicate PeersOk(s: Sys) {
    forall k | k in s.db.bindings :: PeerOk(s, k)
  }

  ghost predicate Good(s: Sys) {
    Tables(s.db) && FenceOk(s) && PeersOk(s)
  }

  // ---------------------------------------------------------------- what only grows

  predicate StandingOk(was: Standing, became: Standing) {
    (was != Active ==> became != Active) && (was == Revoked ==> became == Revoked)
  }

  predicate BindingLater(b: Binding, c: Binding) {
    && c.device == b.device && c.address == b.address && c.created == b.created
    && (b.revoked > 0 ==> c.revoked == b.revoked)
    && (b.removed > 0 ==> c.removed > 0)
    && (b.applied ==> c.applied)
  }

  predicate DeviceLater(x: Device, y: Device) {
    y.owner == x.owner && y.validUntil == x.validUntil && x.generation <= y.generation
      && StandingOk(x.standing, y.standing)
  }

  /** Bindings are never rebound or unrevoked, devices never come back, operations and
      tombstones never disappear. */
  ghost predicate Later(x: Db, y: Db) {
    && (forall k | k in x.bindings :: k in y.bindings && BindingLater(x.bindings[k], y.bindings[k]))
    && (forall d | d in x.devices :: d in y.devices && DeviceLater(x.devices[d], y.devices[d]))
    && (forall o | o in x.operations :: o in y.operations && y.operations[o] == x.operations[o])
    && (forall t | t in x.tombstones :: t in y.tombstones)
    && (forall i | i in x.intents :: i in y.intents)
  }

  lemma LaterTransitive(x: Db, y: Db, z: Db)
    requires Later(x, y) && Later(y, z)
    ensures Later(x, z)
  {
  }

  lemma OutboxLater(x: Db, y: Db)
    requires y == x.(outbox := y.outbox, fence := y.fence)
    ensures Later(x, y)
  {
  }

  lemma CommitLater(db: Db, cmd: Command, now: int, budget: nat, id: OpId)
    requires Lawful(db, cmd, id)
    ensures Later(db, Commit(db, cmd, now, budget, id))
  {
    var t := Commit(db, cmd, now, budget, id);
    CommitShape(db, cmd, now, budget, id);
    forall k | k in db.bindings ensures k in t.bindings && BindingLater(db.bindings[k], t.bindings[k]) {
      CommitBinding(db, cmd, now, budget, id, k);
    }
    forall s | s in db.tombstones ensures s in t.tombstones {
      CommitBinding(db, cmd, now, budget, id, s.0);
    }
    hide Commit;
  }

  lemma SubmitLater(db: Db, cfg: Config, cmd: Command, now: int, room: bool, id: OpId)
    requires RequestsOk(db)
    ensures Later(db, Submit(db, cfg, cmd, now, room, id).0)
  {
    SubmitCases(db, cfg, cmd, now, room, id);
    hide Submit, Later;
    var t := Submit(db, cfg, cmd, now, room, id).0;
    if t == db || t == DegradeDevice(db, cmd.device) {
      OutboxLater(db, t);
    } else {
      CommitLater(db, cmd, now, cfg.budget, id);
    }
  }

  lemma ExpireLater(db: Db, cfg: Config, d: DeviceId, dev: Device, now: int, id: OpId, idempotency: string)
    requires RequestsOk(db)
    ensures Later(db, ExpireDevice(db, cfg, d, dev, now, id, idempotency))
  {
    hide Submit, Later, RequestsOk;
    var cmd := Command("deviceauth-expiry-reconciler", dev.owner, d, Expire, idempotency, dev.generation, None,
                       "authorization deadline reached during reconciliation");
    SubmitLater(db, cfg, cmd, now, true, id);
    var t := ExpireDevice(db, cfg, d, dev, now, id, idempotency);
    OutboxLater(Submit(db, cfg, cmd, now, true, id).0, t);
    LaterTransitive(db, Submit(db, cfg, cmd, now, true, id).0, t);
  }

  lemma RecordLater(db: Db, p: Process, now: int)
    requires BindingsOk(db) && p.Held? && p.device in db.devices && p.op in db.outbox
    requires db.devices[p.device].generation == p.dev.generation
    ensures Later(db, Record(db, p, now))
  {
    forall k | k in db.bindings ensures BindingLater(db.bindings[k], Record(db, p, now).bindings[k]) {
      assert BindingOk(db, k);
    }
  }

  // ---------------------------------------------------------------- steps of other writers

  /** A new desired state binds a key the executor has nothing to do with yet. */
  lemma CommitPeers(s: Sys, cmd: Command, id: OpId)
    requires PeersOk(s) && IntentsOk(s.db) && Lawful(s.db, cmd, id)
    ensures PeersOk(s.(db := Commit(s.db, cmd, s.now, s.cfg.budget, id)))
  {
    var t := s.(db := Commit(s.db, cmd, s.now, s.cfg.budget, id));
    CommitShape(s.db, cmd, s.now, s.cfg.budget, id);
    hide Commit;
    forall k | k in t.db.bindings ensures PeerOk(t, k) {
      CommitBinding(s.db, cmd, s.now, s.cfg.budget, id, k);
      if k in s.db.bindings { assert PeerOk(s, k); }
    }
  }

  lemma OutboxPeers(s: Sys, db: Db)
    requires PeersOk(s) && db == s.db.(outbox := db.outbox, fence := db.fence)
    ensures PeersOk(s.(db := db))
  {
    forall k | k in db.bindings ensures PeerOk(s.(db := db), k) { assert PeerOk(s, k); }
  }

  lemma SubmitPeers(s: Sys, cmd: Command, room: bool, id: OpId)
    requires PeersOk(s) && Tables(s.db)
    ensures PeersOk(s.(db := Submit(s.db, s.cfg, cmd, s.now, room, id).0))
  {
    SubmitCases(s.db, s.cfg, cmd, s.now, room, id);
    hide Submit, PeersOk, DevicesOk, BindingsOk, StonesOk, OperationsOk, JobsOk, RequestsOk, IntentsOk;
    var t := Submit(s.db, s.cfg, cmd, s.now, room, id).0;
    if t == s.db || t == DegradeDevice(s.db, cmd.device) {
      OutboxPeers(s, t);
    } else {
      CommitPeers(s, cmd, id);
    }
  }

  lemma ExpireGood(s: Sys, d: DeviceId, dev: Device, id: OpId, idempotency: string)
    requires Tables(s.db) && PeersOk(s)
    ensures var t := s.(db := ExpireDevice(s.db, s.cfg, d, dev, s.now, id, idempotency), proc := Free);
            Good(t) && Later(s.db, t.db)
  {
    var cmd := Command("deviceauth-expiry-reconciler", dev.owner, d, Expire, idempotency, dev.generation, None,
                       "authorization deadline reached during reconciliation");
    var r := Submit(s.db, s.cfg, cmd, s.now, true, id);
    var t := s.(db := ExpireDevice(s.db, s.cfg, d, dev, s.now, id, idempotency), proc := Free);
    ExpireKeeps(s.db, s.cfg, d, dev, s.now, id, idempotency);
    ExpireLater(s.db, s.cfg, d, dev, s.now, id, idempotency);
    SubmitPeers(s, cmd, true, id);
    hide Submit, Later, Tables, PeersOk;
    OutboxPeers(s.(db := r.0), t.db);
    FreePeers(s.(db := t.db));
  }

  lemma FreePeers(s: Sys)
    requires PeersOk(s)
    ensures PeersOk(s.(proc := Free))
  {
    forall k | k in s.db.bindings ensures PeerOk(s.(proc := Free), k) { assert PeerOk(s, k); }
  }

  // ---------------------------------------------------------------- steps of the executor

  lemma OutboxHistory(x: Db, y: Db, d: DeviceId, rows: seq<Row>)
    requires IsHistory(x, d, rows) && y == x.(outbox := y.outbox, fence := y.fence)
    ensures IsHistory(y, d, rows)
  {
    forall i | 0 <= i < |rows| && rows[i].intent ensures HasIntent(y, rows[i].key) {
      assert HasIntent(x, rows[i].key);
    }
  }

  lemma ClaimGood(s: Sys, o: OpId, rows: seq<Row>, id: OpId, idempotency: string)
    requires Good(s)
    ensures Good(Claim(s, o, rows, id, idempotency)) && Later(s.db, Claim(s, o, rows, id, idempotency).db)
  {
    var t := Claim(s, o, rows, id, idempotency);
    hide Tables, PeersOk, Later;
    if s.proc.Free? && o in s.db.operations && s.db.operations[o].device in s.db.devices
       && s.db.operations[o].generation == s.db.devices[s.db.operations[o].device].generation
       && PastDue(s.db.devices[s.db.operations[o].device], s.now) && o in s.db.outbox {
      var op := s.db.operations[o];
      ExpireGood(s, op.device, s.db.devices[op.device], id, idempotency);
      hide ExpireDevice;
    } else {
      OutboxLater(s.db, t.db);
      OutboxPeers(s, t.db);
      ClaimTables(s, o, rows, id, idempotency);
      assert PeersOk(t) by { ClaimPeers(s, t); }
      if t.proc.Held? && s.proc.Free? { OutboxHistory(s.db, t.db, t.proc.device, rows); }
    }
  }

  lemma ClaimPeers(s: Sys, t: Sys)
    requires PeersOk(s.(db := t.db)) && t.runtime == s.runtime && t.made == s.made
    ensures PeersOk(t)
  {
    forall k | k in t.db.bindings ensures PeerOk(t, k) { assert PeerOk(s.(db := t.db), k); }
  }

  lemma ClaimTables(s: Sys, o: OpId, rows: seq<Row>, id: OpId, idempotency: string)
    requires Tables(s.db)
    requires var t := Claim(s, o, rows, id, idempotency); t.db == s.db.(outbox := t.db.outbox, fence := t.db.fence)
    requires !(s.proc.Free? && o in s.db.operations && s.db.operations[o].device in s.db.devices
       && s.db.operations[o].generation == s.db.devices[s.db.operations[o].device].generation
       && PastDue(s.db.devices[s.db.operations[o].device], s.now) && o in s.db.outbox)
    ensures Tables(Claim(s, o, rows, id, idempotency).db)
  {
    hide DevicesOk, BindingsOk, StonesOk, OperationsOk, JobsOk, RequestsOk, ExpireDevice, IsHistory;
    SideKeeps(s.db, Claim(s, o, rows, id, idempotency).db);
  }

  lemma AbandonGood(s: Sys)
    requires Tables(s.db) && PeersOk(s) && s.proc.Held?
    ensures Good(Abandon(s)) && Later(s.db, Abandon(s).db)
  {
    var t := Abandon(s);
    OutboxKeeps(s.db, t.db.outbox);
    hide Tables, PeersOk, Later;
    OutboxLater(s.db, t.db);
    OutboxPeers(s, t.db);
    FreePeers(s.(db := t.db));
  }

  lemma InspectFence(s: Sys)
    requires FenceOk(s) && s.proc.Held? && s.proc.at == Claimed
    requires Plan(s.cfg.policy, TargetOf(s.proc.dev), s.proc.rows, s.runtime).Ok?
    ensures FenceOk(Inspect(s, true))
  {
    hide Plan, IsHistory;
  }

  lemma InspectGood(s: Sys, ok: bool)
    requires Good(s)
    ensures Good(Inspect(s, ok)) && Later(s.db, Inspect(s, ok).db)
  {
    OutboxLater(s.db, s.db);
    hide Tables, Later, Plan, PeersOk;
    if s.proc.Held? && s.proc.at == Claimed {
      if ok && Plan(s.cfg.policy, TargetOf(s.proc.dev), s.proc.rows, s.runtime).Ok? {
        InspectFence(s);
        hide FenceOk;
        ClaimPeers(s, Inspect(s, ok));
      } else {
        hide FenceOk;
        AbandonGood(s);
      }
    }
  }

  lemma IntendGood(s: Sys, ok: bool)
    requires Good(s)
    ensures Good(Intend(s, ok)) && Later(s.db, Intend(s, ok).db)
  {
    var t := Intend(s, ok);
    hide Tables;
    if s.proc.Held? && s.proc.at.Planned? {
      if !ok {
        hide Later;
        AbandonGood(s);
      } else {
        IntendTables(s);
        IntendPeers(s);
        IntendFence(s);
        hide PeersOk;
      }
    } else {
      OutboxLater(s.db, s.db);
    }
  }

  /** Intents are only ever written for keys of the device's own history. */
  lemma PlannedKeys(s: Sys, j: nat)
    requires s.proc.Held? && s.proc.at.Planned? && FenceOk(s) && DevicesOk(s.db) && j < |s.proc.at.actions|
    ensures s.proc.at.actions[j].key in s.db.bindings
    ensures s.proc.at.actions[j].Apply? ==> s.proc.at.actions[j].key !in s.proc.at.before
  {
    var p := s.proc;
    PlanTouchesOwnPeers(s.cfg.policy, TargetOf(p.dev), p.rows, p.at.before, j);
    hide Plan;
    if p.at.actions[j].Remove? {
      var i :| 0 <= i < |p.rows| && p.rows[i].key == p.at.actions[j].key;
      assert Bound(s.db, p.device, p.rows[i].key);
    }
  }

  lemma IntendTables(s: Sys)
    requires Good(s) && s.proc.Held? && s.proc.at.Planned?
    ensures Tables(Intend(s, true).db)
  {
    var t := Intend(s, true).db;
    forall i | i in t.intents ensures i.key in t.bindings {
      if i !in s.db.intents {
        var j :| 0 <= j < |s.proc.at.actions| && IntentFor(s.proc.op, s.proc.at.actions[j]) == i;
        PlannedKeys(s, j);
      }
    }
    hide DevicesOk, BindingsOk, StonesOk, OperationsOk, JobsOk, RequestsOk, FenceOk;
    SideKeeps(s.db, t);
  }

  lemma IntendPeers(s: Sys)
    requires Good(s) && s.proc.Held? && s.proc.at.Planned?
    ensures PeersOk(Intend(s, true))
  {
    var t := Intend(s, true);
    forall k | k in t.db.bindings ensures PeerOk(t, k) {
      assert PeerOk(s, k);
      if HasIntent(t.db, k) && !HasIntent(s.db, k) {
        var i :| i in t.db.intents && i.key == k && i.applies;
        assert i !in s.db.intents;
        var j :| 0 <= j < |s.proc.at.actions| && IntentFor(s.proc.op, s.proc.at.actions[j]) == i;
        PlannedKeys(s, j);
        assert SameAt(s.proc.at.before, s.runtime, k);
      }
    }
  }

  lemma IntendFence(s: Sys)
    requires FenceOk(s) && s.proc.Held? && s.proc.at.Planned?
    ensures FenceOk(Intend(s, true))
  {
    var t := Intend(s, true);
    var p := s.proc;
    forall j | 0 <= j < |p.at.actions| && p.at.actions[j].Apply? ensures HasIntent(t.db, p.at.actions[j].key) {
      assert IntentFor(p.op, p.at.actions[j]) in t.db.intents;
    }
    assert IsHistory(t.db, p.device, p.rows) by {
      forall i | 0 <= i < |p.rows| && p.rows[i].intent ensures HasIntent(t.db, p.rows[i].key) {
        assert HasIntent(s.db, p.rows[i].key);
        var x :| x in s.db.intents && x.key == p.rows[i].key && x.applies;
        assert x in t.db.intents;
      }
    }
  }

  // ---------------------------------------------------------------- external actions

  /** The key an executor applies is the device's current, unrevoked one. */
  lemma ActsOnOwn(s: Sys)
    requires Good(s) && s.proc.Held? && s.proc.at.Acting? && s.proc.at.next < |s.proc.at.actions|
    ensures var a := s.proc.at.actions[s.proc.at.next];
            && (a.Apply? ==> Current(s.db, s.proc.device, a.key))
            && (a.Remove? ==> Bound(s.db, s.proc.device, a.key) && s.db.bindings[a.key].revoked > 0
                              && (s.db.bindings[a.key].applied || HasIntent(s.db, a.key)))
  {
    var p := s.proc;
    PlanTouchesOwnPeers(s.cfg.policy, TargetOf(p.dev), p.rows, p.at.before, p.at.next);
    hide Plan, PeersOk, BindingsOk, StonesOk, OperationsOk, JobsOk, RequestsOk, IntentsOk;
    var a := p.at.actions[p.at.next];
    if a.Remove? {
      var i :| 0 <= i < |p.rows| && p.rows[i].key == a.key && p.rows[i].revoked
        && (p.rows[i].applied || p.rows[i].intent);
      assert Bound(s.db, p.device, p.rows[i].key);
    }
  }

  lemma EffectPeers(s: Sys)
    requires Good(s) && s.proc.Held? && s.proc.at.Acting? && s.proc.at.next < |s.proc.at.actions|
    ensures var a := s.proc.at.actions[s.proc.at.next];
            PeersOk(s.(runtime := Effect(s.runtime, a), made := if a.Apply? then s.made + {a.key} else s.made))
  {
    ActsOnOwn(s);
    var a := s.proc.at.actions[s.proc.at.next];
    var t := s.(runtime := Effect(s.runtime, a), made := if a.Apply? then s.made + {a.key} else s.made);
    hide FenceOk;
    forall k | k in t.db.bindings ensures PeerOk(t, k) {
      assert PeerOk(s, k) && BindingOk(s.db, k);
    }
  }

  lemma ActGood(s: Sys, happened: bool, reported: bool)
    requires Good(s)
    ensures Good(Act(s, happened, reported)) && Later(s.db, Act(s, happened, reported).db)
  {
    var t := Act(s, happened, reported);
    hide PeersOk, Tables, Later, Effect, Plan, IsHistory;
    OutboxLater(s.db, s.db);
    if t != s {
      var a := s.proc.at.actions[s.proc.at.next];
      var u := if happened
               then s.(runtime := Effect(s.runtime, a), made := if a.Apply? then s.made + {a.key} else s.made) else s;
      assert PeersOk(u) by { EffectPeers(s); }
      if reported {
        ClaimPeers(u, t);
      } else {
        AbandonGood(u);
      }
    }
  }

  lemma CertifyGood(s: Sys, ok: bool)
    requires Good(s)
    ensures Good(Certify(s, ok)) && Later(s.db, Certify(s, ok).db)
  {
    var t := Certify(s, ok);
    OutboxLater(s.db, s.db);
    if t != s {
      if t.proc.Free? {
        hide Tables, Later;
        AbandonGood(s);
      } else {
        CertifyFence(s, ok);
        hide Tables, Later;
        ClaimPeers(s, t);
      }
    }
  }

  lemma CertifyFence(s: Sys, ok: bool)
    requires Good(s) && Certify(s, ok) != s && Certify(s, ok).proc.Held?
    ensures FenceOk(Certify(s, ok))
  {
    var p := s.proc;
    var t := Certify(s, ok);
    assert p.at.Acting?;
    forall k | Bound(s.db, p.device, k) && s.db.bindings[k].revoked > 0 ensures k !in s.runtime {
      assert InHistory(p.rows, k);
      var i :| 0 <= i < |p.rows| && p.rows[i].key == k;
      assert p.rows[i].revoked;
    }
    if TargetOf(p.dev).Peer? {
      CertifyMade(s, TargetOf(p.dev).key);
    }
    hide Tables, PeersOk, Plan;
  }

  /** The certified current key was put into the runtime by this executor. */
  lemma CertifyMade(s: Sys, key: Key)
    requires Good(s) && s.proc.Held? && s.proc.at.Acting?
    requires TargetOf(s.proc.dev).Peer? && TargetOf(s.proc.dev).key == key && key in s.runtime
    ensures key in s.made
  {
    var p := s.proc;
    var target := TargetOf(p.dev);
    assert Current(s.db, p.device, key);
    assert PeerOk(s, key);
    hide PeersOk, BindingsOk, StonesOk, OperationsOk, JobsOk, RequestsOk, IntentsOk;
    if key !in p.at.before {
      assert p.at.actions[|p.at.actions| - 1] == PeerPlan.Apply(key, target.address);
      assert HasIntent(s.db, key);
    } else {
      assert InHistory(p.rows, key);
      var i :| 0 <= i < |p.rows| && p.rows[i].key == key;
      assert !Foreign(s.cfg.policy, p.rows[i], p.at.before);
    }
  }

  lemma ConcludeGood(s: Sys, ok: bool)
    requires Good(s)
    ensures Good(Conclude(s, ok)) && Later(s.db, Conclude(s, ok).db)
  {
    var t := Conclude(s, ok);
    OutboxLater(s.db, s.db);
    if t != s {
      if t == Abandon(s) {
        hide Tables, Later;
        AbandonGood(s);
      } else {
        RecordTables(s.db, s.proc, s.now);
        RecordLater(s.db, s.proc, s.now);
        RecordPeers(s);
        hide Tables, Later, PeersOk, Record;
      }
    }
  }

  lemma RecordPeers(s: Sys)
    requires Good(s) && s.proc.Held? && s.proc.at == Certified && s.proc.op in s.db.outbox
    ensures PeersOk(s.(db := Record(s.db, s.proc, s.now), proc := Free))
  {
    var t := s.(db := Record(s.db, s.proc, s.now), proc := Free);
    forall k | k in t.db.bindings ensures PeerOk(t, k) {
      assert PeerOk(s, k) && BindingOk(s.db, k);
      assert HasIntent(t.db, k) ==> HasIntent(s.db, k);
    }
  }

  // ---------------------------------------------------------------- every run

  lemma EnrollGood(s: Sys, d: DeviceId, owner: string, until: int)
    requires Good(s) && s.proc.Free?
    ensures var db := Enroll(s.db, d, owner, until, s.now); Good(s.(db := db)) && Later(s.db, db)
  {
    var t := s.(db := Enroll(s.db, d, owner, until, s.now));
    EnrollKeeps(s.db, d, owner, until, s.now);
    hide Tables;
    EnrollLater(s.db, d, owner, until, s.now);
    hide Later;
    forall k | k in t.db.bindings ensures PeerOk(t, k) { assert PeerOk(s, k); }
  }

  lemma EnrollLater(db: Db, d: DeviceId, owner: string, until: int, now: int)
    ensures Later(db, Enroll(db, d, owner, until, now))
  {
    var t := Enroll(db, d, owner, until, now);
    assert t == db.(devices := t.devices);
    assert forall x | x in db.devices :: x in t.devices && t.devices[x] == db.devices[x];
    hide Enroll;
  }

  lemma SubmitGood(s: Sys, cmd: Command, room: bool, id: OpId)
    requires Good(s) && s.proc.Free?
    ensures var db := Submit(s.db, s.cfg, cmd, s.now, room, id).0; Good(s.(db := db)) && Later(s.db, db)
  {
    SubmitLater(s.db, s.cfg, cmd, s.now, room, id);
    hide Submit, Later, PeersOk, Tables;
    SubmitKeeps(s.db, s.cfg, cmd, s.now, room, id);
    SubmitPeers(s, cmd, room, id);
  }

  lemma RefreshGood(s: Sys)
    requires Good(s) && s.proc.Free?
    ensures var db := Refresh(s.db, s.now, s.cfg.budget); Good(s.(db := db)) && Later(s.db, db)
  {
    var t := Refresh(s.db, s.now, s.cfg.budget);
    RefreshOpens(s.db, s.now, s.cfg.budget);
    hide Later, Tables, PeersOk, DueJob;
    OutboxKeeps(s.db, t.outbox);
    OutboxLater(s.db, t);
    OutboxPeers(s, t);
  }

  lemma RefreshOpens(db: Db, now: int, budget: nat)
    ensures var t := Refresh(db, now, budget);
            t.outbox.Keys == db.outbox.Keys && forall o | o in t.outbox && Open(t.outbox[o].state) ::
                Open(db.outbox[o].state)
  {
  }

  lemma SweepGood(s: Sys, d: DeviceId, id: OpId, idempotency: string)
    requires Good(s) && s.proc.Free? && d in s.db.devices
    ensures var db := ExpireDevice(s.db, s.cfg, d, s.db.devices[d], s.now, id, idempotency);
            Good(s.(db := db)) && Later(s.db, db)
  {
    hide Later, Tables, PeersOk, ExpireDevice;
    ExpireGood(s, d, s.db.devices[d], id, idempotency);
  }

  lemma PeersGood(s: Sys, rt: Peers)
    requires Good(s) && forall k | k in s.db.bindings :: SameAt(s.runtime, rt, k)
    ensures Good(s.(runtime := rt))
  {
    var t := s.(runtime := rt);
    hide Tables, IsHistory, Plan;
    forall k | k in t.db.bindings ensures PeerOk(t, k) { assert PeerOk(s, k); }
    if s.proc.Held? && s.proc.at.Certified? {
      forall k | Bound(t.db, s.proc.device, k) && t.db.bindings[k].revoked > 0 ensures k !in rt {
        assert SameAt(s.runtime, rt, k);
      }
    }
  }

  lemma TimeGood(s: Sys, elapsed: nat)
    requires Good(s)
    ensures Good(s.(now := s.now + elapsed)) && Good(s.(proc := Free))
  {
    var t := s.(now := s.now + elapsed);
    FreePeers(s);
    hide Tables, IsHistory, Plan;
    forall k | k in t.db.bindings ensures PeerOk(t, k) { assert PeerOk(s, k); }
  }

  lemma PrepareGood(s: Sys, e: Event)
    requires Good(s) && (e.EClaim? || e.EInspect? || e.EIntend?)
    ensures Good(Take(s, e)) && Later(s.db, Take(s, e).db)
  {
    hide Good, Later, Claim, Inspect, Intend;
    match e {
      case EClaim(o, rows, id, idem) => ClaimGood(s, o, rows, id, idem);
      case EInspect(ok) => InspectGood(s, ok);
      case EIntend(ok) => IntendGood(s, ok);
    }
  }

  lemma ExecuteGood(s: Sys, e: Event)
    requires Good(s) && (e.EAct? || e.ECertify? || e.EConclude?)
    ensures Good(Take(s, e)) && Later(s.db, Take(s, e).db)
  {
    hide Good, Later, Act, Certify, Conclude;
    match e {
      case EAct(happened, reported) => ActGood(s, happened, reported);
      case ECertify(ok) => CertifyGood(s, ok);
      case EConclude(ok) => ConcludeGood(s, ok);
    }
  }

  lemma LaterSame(db: Db)
    ensures Later(db, db)
  {
  }

  lemma ExpiryGood(s: Sys, e: Event)
    requires Good(s) && (e.EExpire? || e.ESweep?)
    ensures Good(Take(s, e)) && Later(s.db, Take(s, e).db)
  {
    LaterSame(s.db);
    hide Good, Later, ExpireDevice;
    match e {
      case EExpire(id, idem) => if s.proc.Held? { GoodParts(s); ExpireGood(s, s.proc.device, s.proc.dev, id, idem); }
      case ESweep(d, id, idem) => if s.proc.Free? && d in s.db.devices { SweepGood(s, d, id, idem); }
    }
  }

  lemma WriterGood(s: Sys, e: Event)
    requires Good(s) && (e.EEnroll? || e.ESubmit? || e.ERefresh?)
    ensures Good(Take(s, e)) && Later(s.db, Take(s, e).db)
  {
    LaterSame(s.db);
    hide Good, Later, Enroll, Submit, Refresh;
    match e {
      case EEnroll(d, owner, until) => if s.proc.Free? { EnrollGood(s, d, owner, until); }
      case ESubmit(cmd, room, id) => if s.proc.Free? { SubmitGood(s, cmd, room, id); }
      case ERefresh => if s.proc.Free? { RefreshGood(s); }
    }
  }

  lemma OutsideGood(s: Sys, e: Event)
    requires Good(s) && (e.Tick? || e.EPeers? || e.Crash?)
    ensures Good(Take(s, e)) && Later(s.db, Take(s, e).db)
  {
    LaterSame(s.db);
    hide Good, Later;
    match e {
      case Tick(d) => TimeGood(s, d);
      case EPeers(rt) => if forall k | k in s.db.bindings :: SameAt(s.runtime, rt, k) { PeersGood(s, rt); }
      case Crash => TimeGood(s, 0);
    }
  }

  lemma ApplyGood(s: Sys, e: Event)
    requires Good(s)
    ensures Good(Take(s, e)) && Later(s.db, Take(s, e).db)
  {
    hide Good, Later, Take;
    if e.EClaim? || e.EInspect? || e.EIntend? {
      PrepareGood(s, e);
    } else if e.EAct? || e.ECertify? || e.EConclude? {
      ExecuteGood(s, e);
    } else if e.EExpire? || e.ESweep? {
      ExpiryGood(s, e);
    } else if e.EEnroll? || e.ESubmit? || e.ERefresh? {
      WriterGood(s, e);
    } else {
      OutsideGood(s, e);
    }
  }

  lemma GoodParts(s: Sys)
    requires Good(s)
    ensures Tables(s.db) && FenceOk(s) && PeersOk(s)
  {
  }

  lemma {:induction false} RunGood(s: Sys, events: seq<Event>)
    requires Good(s)
    ensures Good(Run(s, events)) && Later(s.db, Run(s, events).db)
  {
    if events == [] {
      OutboxLater(s.db, s.db);
    } else {
      hide Good, Later, Take;
      var before := events[..|events| - 1];
      RunGood(s, before);
      ApplyGood(Run(s, before), events[|events| - 1]);
      LaterTransitive(s.db, Run(s, before).db, Run(s, events).db);
    }
  }

  lemma StartGood(cfg: Config, peers: Peers, now: int)
    ensures Good(Start(cfg, peers, now))
  {
    EmptyTables(EMPTY);
    hide Tables;
  }

  lemma EmptyTables(db: Db)
    requires db.devices == map[] && db.bindings == map[] && db.tombstones == map[] && db.operations == map[]
    requires db.requests == map[] && db.outbox == map[] && db.intents == map[]
    ensures Tables(db)
  {
  }

  /** Every reachable state: keys bound once, at most one current key per device and only
      while it is active, revocations matched by their tombstones, one operation per
      generation, open work only at the latest one. */
  lemma ReachableTables(cfg: Config, peers: Peers, now: int, events: seq<Event>)
    ensures Good(Run(Start(cfg, peers, now), events))
  {
    StartGood(cfg, peers, now);
    hide Good, Run, Later;
    RunGood(Start(cfg, peers, now), events);
  }

  /** At most one unrevoked binding per device, and only for an active one's current key. */
  lemma OneCurrentKey(cfg: Config, peers: Peers, now: int, events: seq<Event>, j: Key, k: Key)
    requires var db := Run(Start(cfg, peers, now), events).db;
             j in db.bindings && k in db.bindings && db.bindings[j].device == db.bindings[k].device
             && db.bindings[j].revoked == 0 && db.bindings[k].revoked == 0
    ensures var db := Run(Start(cfg, peers, now), events).db;
            j == k && db.bindings[j].device in db.devices && db.devices[db.bindings[j].device].standing == Active
  {
    ReachableTables(cfg, peers, now, events);
    var db := Run(Start(cfg, peers, now), events).db;
    hide Run, FenceOk, PeersOk;
    assert BindingOk(db, j) && BindingOk(db, k);
  }

  /** The generation is a compare-and-swap: over every run, no two operations of one device
      were accepted on the same expected generation, and each raised it by one. */
  lemma OneOperationPerExpectation(cfg: Config, peers: Peers, now: int, events: seq<Event>, o: OpId, p: OpId)
    requires var db := Run(Start(cfg, peers, now), events).db;
             && o in db.operations && p in db.operations && db.operations[o].device == db.operations[p].device
             && db.operations[o].command.expected == db.operations[p].command.expected
    ensures o == p
    ensures var db := Run(Start(cfg, peers, now), events).db;
            db.operations[o].generation == db.operations[o].command.expected + 1
  {
    ReachableTables(cfg, peers, now, events);
    hide Run, FenceOk, PeersOk;
  }

  /** Nothing is ever taken back: over any continuation of any run, bindings keep their
      device, address and revocation, and a device that left `active` never returns. */
  lemma NothingComesBack(cfg: Config, peers: Peers, now: int, before: seq<Event>, after: seq<Event>)
    ensures var s := Run(Start(cfg, peers, now), before); Later(s.db, Run(s, after).db)
  {
    ReachableTables(cfg, peers, now, before);
    hide Good, Later;
    RunGood(Run(Start(cfg, peers, now), before), after);
  }

  // ---------------------------------------------------------------- revoked keys stay out

  /** Step `before + [EConclude(true)]` recorded the operation as done. */
  predicate Recorded(s: Sys) {
    && s.proc.Held? && s.proc.at == Certified && s.proc.device in s.db.devices
    && s.db.devices[s.proc.device].generation == s.proc.dev.generation
    && s.proc.op in s.db.outbox && s.db.outbox[s.proc.op].fence == s.proc.fence
  }

  /** Once a Process run has committed `done`, every key of that device revoked by then is
      absent from the runtime and stays absent in every later state: over any submissions,
      expiries, retries and crashes between the phases. */
  lemma RevokedStaysOut(cfg: Config, peers: Peers, now: int, before: seq<Event>, after: seq<Event>, k: Key)
    requires var s := Run(Start(cfg, peers, now), before);
             Recorded(s) && Bound(s.db, s.proc.device, k) && s.db.bindings[k].revoked > 0
    ensures var s := Run(Start(cfg, peers, now), before);
            var done := Take(s, EConclude(true));
            && done.db.outbox[s.proc.op].state == Finished
            && k !in done.runtime
            && k !in Run(done, after).runtime
  {
    var s := Run(Start(cfg, peers, now), before);
    ReachableTables(cfg, peers, now, before);
    hide Run;
    RecordedRemoves(s, k);
    var done := Take(s, EConclude(true));
    RunGood(done, after);
    StaysOut(done, Run(done, after), k);
  }

  lemma RecordedRemoves(s: Sys, k: Key)
    requires Good(s) && Recorded(s) && Bound(s.db, s.proc.device, k) && s.db.bindings[k].revoked > 0
    ensures var done := Take(s, EConclude(true));
            && Good(done) && s.proc.op in done.db.outbox && done.db.outbox[s.proc.op].state == Finished
            && k in done.db.bindings && done.db.bindings[k].removed > 0
  {
    GoodParts(s);
    HolderGeneration(s, k);
    hide Tables, FenceOk, PeersOk;
    ApplyGood(s, EConclude(true));
    hide Good, Later;
    RecordRemoves(s.db, s.proc, s.now, k);
    hide Record;
    ConcludeRecords(s);
    hide Take;
  }

  lemma ConcludeRecords(s: Sys)
    requires Recorded(s)
    ensures Take(s, EConclude(true)) == s.(db := Record(s.db, s.proc, s.now), proc := Free)
  {
    hide Record;
  }

  lemma HolderGeneration(s: Sys, k: Key)
    requires Tables(s.db) && FenceOk(s) && s.proc.Held? && Bound(s.db, s.proc.device, k) && s.db.bindings[k].revoked > 0
    ensures s.proc.dev.generation > 0
  {
    assert BindingOk(s.db, k);
  }

  lemma RecordRemoves(db: Db, p: Process, now: int, k: Key)
    requires p.Held? && p.device in db.devices && p.op in db.outbox && Bound(db, p.device, k)
             && db.bindings[k].revoked > 0
    ensures var t := Record(db, p, now);
            && t.outbox[p.op].state == Finished
            && k in t.bindings && t.bindings[k].removed == p.dev.generation
  {
  }

  lemma StaysOut(s: Sys, t: Sys, k: Key)
    requires Good(s) && Good(t) && Later(s.db, t.db) && k in s.db.bindings && s.db.bindings[k].removed > 0
    ensures k !in s.runtime && k !in t.runtime
  {
    hide Tables, FenceOk;
    assert PeerOk(s, k) && PeerOk(t, k);
  }

  /** The executor never adopts or removes a peer it did not put into the runtime itself. */
  lemma ActsOnOwnPeersOnly(cfg: Config, peers: Peers, now: int, events: seq<Event>)
    requires var s := Run(Start(cfg, peers, now), events);
             s.proc.Held? && s.proc.at.Acting? && s.proc.at.next < |s.proc.at.actions|
    ensures var s := Run(Start(cfg, peers, now), events);
            var a := s.proc.at.actions[s.proc.at.next];
            && (a.Remove? && a.key in s.runtime ==> a.key in s.made)
            && (a.Apply? ==> Current(s.db, s.proc.device, a.key) && (a.key in s.runtime ==> a.key in s.made))
  {
    ReachableTables(cfg, peers, now, events);
    var s := Run(Start(cfg, peers, now), events);
    ActsOnOwn(s);
    var a := s.proc.at.actions[s.proc.at.next];
    assert PeerOk(s, a.key);
    assert a.Apply? ==> HasIntent(s.db, a.key);
    hide Run, Tables;
  }
}
