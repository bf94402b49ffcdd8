/** The authority and the fleet proof together: when the executor has landed a device's job,
    the device converges, and what a converged fleet says about jobs and keys. */
module ConvergenceRuns {
  import opened Prelude
  import opened Prefixes
  import opened PeerPlan
  import opened AuthorityModel
  import opened AuthorityInvariants
  import opened AuthorityRuns
  import opened AuthorityDrain
  import opened AuthorityCommands
  import Convergence

  type Credentials = map<string, Convergence.Credential>

  // ---------------------------------------------------------------- what the latest operation decides

  predicate DeviceStands(db: Db, d: DeviceId)
    requires d in db.devices
  {
    var dev := db.devices[d];
    && (dev.generation == 0 ==> dev.standing == Active)
    && (dev.standing == Active && dev.generation > 0 ==> dev.current.Some?)
  }

  predicate KeyStands(db: Db, k: Key)
    requires k in db.bindings
  {
    db.bindings[k].device in db.devices
    && (db.bindings[k].revoked == 0 ==> db.bindings[k].created == db.devices[db.bindings[k].device].generation)
  }

  predicate OperationStands(db: Db, o: OpId)
    requires o in db.operations
  {
    var op := db.operations[o];
    && op.device in db.devices && op.generation <= db.devices[op.device].generation
    && (op.generation == db.devices[op.device].generation ==>
          (op.command.verb == ApplyKey <==> db.devices[op.device].standing == Active))
  }

  /** A device is active exactly while its latest operation assigned a key, and a current key
      is of the latest generation. */
  ghost predicate Stands(db: Db) {
    && (forall d | d in db.devices :: DeviceStands(db, d))
    && (forall k | k in db.bindings :: KeyStands(db, k))
    && (forall o | o in db.operations :: OperationStands(db, o))
  }

  lemma SameStands(x: Db, y: Db)
    requires Stands(x) && y.devices.Keys == x.devices.Keys && y.bindings.Keys == x.bindings.Keys
    requires y.operations == x.operations
    requires forall d | d in x.devices :: y.devices[d] == x.devices[d].(applied := y.devices[d].applied)
    requires forall k | k in x.bindings ::
               y.bindings[k] == x.bindings[k].(applied := y.bindings[k].applied, removed := y.bindings[k].removed)
    ensures Stands(y)
  {
    forall d | d in y.devices ensures DeviceStands(y, d) { assert DeviceStands(x, d); }
    forall k | k in y.bindings ensures KeyStands(y, k) { assert KeyStands(x, k); }
    forall o | o in y.operations ensures OperationStands(y, o) { assert OperationStands(x, o); }
  }

  lemma RecordStands(db: Db, p: Process, now: int)
    requires Stands(db) && p.Held? && p.device in db.devices && p.op in db.outbox
    ensures Stands(Record(db, p, now))
  {
    hide Stands;
    SameStands(db, Record(db, p, now));
  }

  lemma EnrollIs(db: Db, d: DeviceId, owner: string, until: int, now: int)
    ensures var t := Enroll(db, d, owner, until, now);
            t == db || (d !in db.devices
                        && t == db.(devices := db.devices[d := Device(owner, Active, until, 0, 0, None)]))
  {
  }

  lemma EnrollStands(db: Db, d: DeviceId, owner: string, until: int, now: int)
    requires Stands(db)
    ensures Stands(Enroll(db, d, owner, until, now))
  {
    hide Enroll;
    var t := Enroll(db, d, owner, until, now);
    EnrollIs(db, d, owner, until, now);
    forall x | x in t.devices ensures DeviceStands(t, x) { assert x in db.devices ==> DeviceStands(db, x); }
    forall k | k in t.bindings ensures KeyStands(t, k) { assert KeyStands(db, k); }
    forall o | o in t.operations ensures OperationStands(t, o) { assert OperationStands(db, o); }
  }

  lemma CommitKeyStands(db: Db, cmd: Command, now: int, budget: nat, id: OpId, k: Key)
    requires Lawful(db, cmd, id) && k in Commit(db, cmd, now, budget, id).bindings
    requires k in db.bindings ==> KeyStands(db, k)
    ensures KeyStands(Commit(db, cmd, now, budget, id), k)
  {
    CommitShape(db, cmd, now, budget, id);
    CommitBinding(db, cmd, now, budget, id, k);
    hide Commit;
  }

  lemma CommitStands(db: Db, cmd: Command, now: int, budget: nat, id: OpId)
    requires Stands(db) && Lawful(db, cmd, id)
    ensures Stands(Commit(db, cmd, now, budget, id))
  {
    var t := Commit(db, cmd, now, budget, id);
    CommitShape(db, cmd, now, budget, id);
    hide Commit;
    forall d | d in t.devices ensures DeviceStands(t, d) { assert DeviceStands(db, d); }
    forall k | k in t.bindings ensures KeyStands(t, k) {
      assert k in db.bindings ==> KeyStands(db, k);
      CommitKeyStands(db, cmd, now, budget, id, k);
    }
    forall o | o in t.operations ensures OperationStands(t, o) {
      assert o in db.operations ==> OperationStands(db, o);
    }
  }

  lemma OutboxStands(x: Db, y: Db)
    requires Stands(x) && y == x.(outbox := y.outbox, fence := y.fence, intents := y.intents)
    ensures Stands(y)
  {
    hide Stands;
    SameStands(x, y);
  }

  lemma SubmitStands(db: Db, cfg: Config, cmd: Command, now: int, room: bool, id: OpId)
    requires Stands(db) && RequestsOk(db)
    ensures Stands(Submit(db, cfg, cmd, now, room, id).0)
  {
    SubmitCases(db, cfg, cmd, now, room, id);
    hide Submit, Stands, RequestsOk, Lawful;
    var t := Submit(db, cfg, cmd, now, room, id).0;
    if t == db || t == DegradeDevice(db, cmd.device) {
      OutboxStands(db, t);
    } else {
      CommitStands(db, cmd, now, cfg.budget, id);
    }
  }

  lemma ExpireStands(db: Db, cfg: Config, d: DeviceId, dev: Device, now: int, id: OpId, idempotency: string)
    requires Stands(db) && RequestsOk(db)
    ensures Stands(ExpireDevice(db, cfg, d, dev, now, id, idempotency))
  {
    hide Submit, Stands, RequestsOk;
    var cmd := Command("deviceauth-expiry-reconciler", dev.owner, d, Expire, idempotency, dev.generation, None,
                       "authorization deadline reached during reconciliation");
    SubmitStands(db, cfg, cmd, now, true, id);
    OutboxStands(Submit(db, cfg, cmd, now, true, id).0, ExpireDevice(db, cfg, d, dev, now, id, idempotency));
  }

  lemma ClaimStands(s: Sys, o: OpId, rows: seq<Row>, id: OpId, idempotency: string)
    requires Stands(s.db) && RequestsOk(s.db)
    ensures Stands(Claim(s, o, rows, id, idempotency).db)
  {
    hide Stands, RequestsOk, ExpireDevice, IsHistory, KnowsIntents;
    var t := Claim(s, o, rows, id, idempotency);
    if o in s.db.operations && s.db.operations[o].device in s.db.devices {
      var d := s.db.operations[o].device;
      ExpireStands(s.db, s.cfg, d, s.db.devices[d], s.now, id, idempotency);
    }
    if t.db == s.db.(outbox := t.db.outbox, fence := t.db.fence, intents := t.db.intents) { OutboxStands(s.db, t.db); }
  }

  lemma ConcludeStands(s: Sys, ok: bool)
    requires Stands(s.db)
    ensures Stands(Conclude(s, ok).db)
  {
    hide Stands, Record;
    if s.proc.Held? {
      OutboxStands(s.db, Abandon(s).db);
      if s.proc.device in s.db.devices && s.proc.op in s.db.outbox { RecordStands(s.db, s.proc, s.now); }
    }
  }

  /** The executor's other steps touch only jobs and intents. */
  /** Between the claim and the result, only jobs, fences and intents change. */
  predicate Beside(x: Db, y: Db) { y == x.(outbox := y.outbox, fence := y.fence, intents := y.intents) }

  lemma PlanningSide(s: Sys, ok: bool)
    ensures Beside(s.db, Inspect(s, ok).db) && Beside(s.db, Certify(s, ok).db)
  {
    hide Plan, Verified, PastDue, TargetOf, Abandon;
    if s.proc.Held? { AbandonSide(s); }
  }

  lemma IntendSide(s: Sys, ok: bool)
    ensures Beside(s.db, Intend(s, ok).db)
  {
    hide Abandon, IntentFor;
    if s.proc.Held? { AbandonSide(s); }
  }

  lemma ActSide(s: Sys, happened: bool, reported: bool)
    ensures Beside(s.db, Act(s, happened, reported).db)
  {
    hide Effect, PastDue, Abandon;
    if s.proc.Held? && s.proc.at.Acting? && s.proc.at.next < |s.proc.at.actions| {
      var a := s.proc.at.actions[s.proc.at.next];
      AbandonSide(s);
      AbandonSide(s.(runtime := Effect(s.runtime, a), made := if a.Apply? then s.made + {a.key} else s.made));
    }
  }

  lemma TakeStands(s: Sys, e: Event)
    requires Stands(s.db) && RequestsOk(s.db)
    ensures Stands(Take(s, e).db)
  {
    hide Stands, RequestsOk, ExpireDevice, Submit, Claim, Inspect, Intend, Act, Certify, Conclude, Enroll;
    match e {
      case EEnroll(d, owner, until) => EnrollStands(s.db, d, owner, until, s.now);
      case ESubmit(cmd, room, id) => SubmitStands(s.db, s.cfg, cmd, s.now, room, id);
      case ESweep(d, id, idem) =>
        if d in s.db.devices { ExpireStands(s.db, s.cfg, d, s.db.devices[d], s.now, id, idem); }
      case EClaim(o, rows, id, idem) => ClaimStands(s, o, rows, id, idem);
      case EExpire(id, idem) =>
        if s.proc.Held? { ExpireStands(s.db, s.cfg, s.proc.device, s.proc.dev, s.now, id, idem); }
      case EInspect(ok) => PlanningSide(s, ok); OutboxStands(s.db, Take(s, e).db);
      case ECertify(ok) => PlanningSide(s, ok); OutboxStands(s.db, Take(s, e).db);
      case EIntend(ok) => IntendSide(s, ok); OutboxStands(s.db, Take(s, e).db);
      case EAct(happened, reported) => ActSide(s, happened, reported); OutboxStands(s.db, Take(s, e).db);
      case EConclude(ok) => ConcludeStands(s, ok);
      case _ => OutboxStands(s.db, Take(s, e).db);
    }
  }

  lemma {:induction false} RunStands(s: Sys, events: seq<Event>)
    requires Good(s) && Stands(s.db)
    ensures Good(Run(s, events)) && Stands(Run(s, events).db)
  {
    if events != [] {
      hide Good, Stands, Take, Later;
      var t := Run(s, events[..|events| - 1]);
      RunStands(s, events[..|events| - 1]);
      ApplyGood(t, events[|events| - 1]);
      assert RequestsOk(t.db) by { GoodParts(t); TablesRequests(t.db); hide Tables; }
      TakeStands(t, events[|events| - 1]);
    }
  }

  /** Over every run. */
  lemma ReachableStands(cfg: Config, peers: Peers, now: int, events: seq<Event>)
    ensures Stands(Run(Start(cfg, peers, now), events).db)
  {
    hide Good, Stands, Run;
    StartGood(cfg, peers, now);
    EmptyStands();
    RunStands(Start(cfg, peers, now), events);
  }

  lemma EmptyStands()
    ensures Stands(EMPTY)
  {
  }

  // ---------------------------------------------------------------- a landed device converges

  /** What the proof reads after the executor's run. */
  function FleetOf(t: Sys, credentials: Credentials): Convergence.Fleet {
    Convergence.Fleet(t.cfg.policy, t.db, credentials, t.runtime)
  }

  /** An intent that no recorded result has resolved although its action is done: an attempt
      was cut short between the two. */
  predicate Stranded(s: Sys, o: OpId, d: DeviceId, i: IntentKey) {
    && i in s.db.intents && i.op == o && !s.db.intents[i].verified && d in s.db.devices
    && s.db.intents[i].generation == s.db.devices[d].generation && !Needed(s, d, i)
  }

  ghost predicate CutShort(s: Sys, o: OpId, d: DeviceId) {
    exists i | i in s.db.intents :: Stranded(s, o, d, i)
  }

  /** The device's latest job landed between `s` and `t`. */
  ghost predicate Arrived(s: Sys, t: Sys, o: OpId, d: DeviceId) {
    && Landed(s, t, o, d) && Latest(s.db, o) && s.db.operations[o].device == d
    && Good(t) && Stands(t.db) && AllFree(t)
  }

  lemma SameSides(s: Sys, t: Sys, o: OpId, d: DeviceId, k: Key)
    requires Landed(s, t, o, d)
    ensures Bound(s.db, d, k) <==> Bound(t.db, d, k)
    ensures Old(s.db, d, k) <==> Old(t.db, d, k)
    ensures Current(s.db, d, k) <==> Current(t.db, d, k)
  {
    hide Installed;
  }

  lemma OldKeyConverged(s: Sys, t: Sys, o: OpId, d: DeviceId, k: Key, credentials: Credentials)
    requires Arrived(s, t, o, d) && Old(t.db, d, k)
    ensures Convergence.BindingConverged(FleetOf(t, credentials), d, t.db.devices[d], k)
  {
    SameSides(s, t, o, d, k);
    assert Tables(t.db);
    hide Good, Stands, DevicesOk, OperationsOk, JobsOk, RequestsOk, IntentsOk;
    assert BindingOk(t.db, k) && AuthorityCommands.Free(t.cfg.policy, k, t.db.bindings[k].address);
    FreeIs(t.cfg.policy, k, t.db.bindings[k].address);
    hide AuthorityCommands.Free, Permitted, AllFree;
  }

  lemma CurrentKeyConverged(s: Sys, t: Sys, o: OpId, d: DeviceId, k: Key, credentials: Credentials)
    requires Arrived(s, t, o, d) && Current(t.db, d, k)
    ensures Convergence.BindingConverged(FleetOf(t, credentials), d, t.db.devices[d], k)
  {
    SameSides(s, t, o, d, k);
    assert Tables(t.db) && KeyStands(t.db, k);
    hide Good, Stands, DevicesOk, OperationsOk, JobsOk, RequestsOk, IntentsOk;
    assert BindingOk(t.db, k) && AuthorityCommands.Free(t.cfg.policy, k, t.db.bindings[k].address);
    FreeIs(t.cfg.policy, k, t.db.bindings[k].address);
    hide AuthorityCommands.Free, Permitted, AllFree;
  }

  lemma KeysConverged(s: Sys, t: Sys, o: OpId, d: DeviceId, credentials: Credentials)
    requires Arrived(s, t, o, d)
    ensures d in t.db.devices
    ensures forall k | k in Convergence.KeysOf(t.db, d) ::
              Convergence.BindingConverged(FleetOf(t, credentials), d, t.db.devices[d], k)
  {
    forall k | k in Convergence.KeysOf(t.db, d)
      ensures Convergence.BindingConverged(FleetOf(t, credentials), d, t.db.devices[d], k)
    {
      hide Arrived, Convergence.BindingConverged;
      if Old(t.db, d, k) {
        OldKeyConverged(s, t, o, d, k, credentials);
      } else {
        CurrentKeyConverged(s, t, o, d, k, credentials);
      }
    }
    hide Good, Stands, AllFree, Installed;
  }

  /** The one operation of the latest generation is the finished one. */
  lemma OneDone(s: Sys, t: Sys, o: OpId, d: DeviceId)
    requires Arrived(s, t, o, d) && d in t.db.devices
    ensures Convergence.DoneOperations(t.db, d, t.db.devices[d]) == {o}
  {
    hide AllFree, Installed, Resolves;
    assert OperationsOk(t.db) && OperationStands(t.db, o);
    hide Good, Stands, Tables;
    assert o in Convergence.DoneOperations(t.db, d, t.db.devices[d]);
  }

  /** An intent is unresolved afterwards if and only if it was stranded before. */
  lemma UnresolvedIs(s: Sys, t: Sys, o: OpId, d: DeviceId, i: IntentKey)
    requires Arrived(s, t, o, d) && d in t.db.devices
    ensures Convergence.Unresolved(t.db, d, t.db.devices[d], i) <==> Stranded(s, o, d, i)
  {
    assert OperationsOk(t.db) && o in t.db.operations;
    assert IntentResolved(s, t, o, d, i);
    hide Good, Stands, AllFree, Installed, Needed, Resolves;
  }

  lemma SettledExactly(s: Sys, t: Sys, o: OpId, d: DeviceId, credentials: Credentials, now: int)
    requires Arrived(s, t, o, d) && d in t.db.devices
    ensures Convergence.Settled(FleetOf(t, credentials), d, t.db.devices[d], now) <==>
              && !CutShort(s, o, d) && |Convergence.KeysOf(t.db, d)| <= 16384
              && (t.db.devices[d].standing == Active ==> now < t.db.devices[d].validUntil)
  {
    hide Good, Stands, AllFree, Installed, Convergence.DoneOperations, Resolves, Certain, Stranded,
         Convergence.Unresolved;
    OneDone(s, t, o, d);
    forall i: IntentKey ensures Convergence.Unresolved(t.db, d, t.db.devices[d], i) <==> Stranded(s, o, d, i) {
      UnresolvedIs(s, t, o, d, i);
    }
    if i: IntentKey :| i in s.db.intents && Stranded(s, o, d, i) {
      assert i in t.db.intents by { UnresolvedKnown(t.db, d, i); }
    }
    if i: IntentKey :| i in t.db.intents && Convergence.Unresolved(t.db, d, t.db.devices[d], i) {
      assert i in s.db.intents by { StrandedKnown(s, o, d, i); }
    }
    assert t.db.devices[d].applied == t.db.devices[d].generation by { SameKeys(s, t, o, d, credentials, now); }
  }

  lemma UnresolvedKnown(db: Db, d: DeviceId, i: IntentKey)
    requires d in db.devices && Convergence.Unresolved(db, d, db.devices[d], i)
    ensures i in db.intents
  {
  }

  lemma StrandedKnown(s: Sys, o: OpId, d: DeviceId, i: IntentKey)
    requires Stranded(s, o, d, i)
    ensures i in s.db.intents
  {
  }

  lemma CurrentStands(s: Sys, t: Sys, o: OpId, d: DeviceId, credentials: Credentials, now: int)
    requires Arrived(s, t, o, d) && d in t.db.devices
    ensures Convergence.CurrentConverged(FleetOf(t, credentials), d, now) <==>
              (t.db.devices[d].current.Some? ==> Convergence.CredentialsOk(FleetOf(t, credentials), d, now))
  {
    assert DeviceStands(t.db, d) && DevicesOk(t.db);
    hide Good, Stands, AllFree, Landed, Convergence.CredentialsOk;
  }

  /** What is left for the fleet proof to look at once the device's job has landed. */
  ghost predicate Acceptable(s: Sys, o: OpId, d: DeviceId, credentials: Credentials, now: int)
    requires d in s.db.devices
  {
    var dev := s.db.devices[d];
    && !CutShort(s, o, d) && |Convergence.KeysOf(s.db, d)| <= 16384
    && (dev.standing == Active ==> now < dev.validUntil)
    && (dev.current.Some? ==> Convergence.CredentialsOk(FleetOf(s, credentials), d, now))
  }

  lemma SameKeys(s: Sys, t: Sys, o: OpId, d: DeviceId, credentials: Credentials, now: int)
    requires Landed(s, t, o, d)
    ensures Convergence.KeysOf(t.db, d) == Convergence.KeysOf(s.db, d) && d in t.db.devices
    ensures t.db.devices[d] == s.db.devices[d].(applied := s.db.devices[d].generation)
    ensures Convergence.CredentialsOk(FleetOf(t, credentials), d, now)
         == Convergence.CredentialsOk(FleetOf(s, credentials), d, now)
  {
    hide Installed, Resolves;
    forall k | k in s.db.bindings ensures t.db.bindings[k].device == s.db.bindings[k].device {
      SameSides(s, t, o, d, k);
    }
    assert Convergence.Live(FleetOf(t, credentials), d) == Convergence.Live(FleetOf(s, credentials), d);
  }

  lemma LandedConverges(s: Sys, t: Sys, o: OpId, d: DeviceId, credentials: Credentials, now: int)
    requires Arrived(s, t, o, d)
    ensures d in s.db.devices
    ensures Convergence.DeviceConverged(FleetOf(t, credentials), d, now) <==> Acceptable(s, o, d, credentials, now)
  {
    SameKeys(s, t, o, d, credentials, now);
    KeysConverged(s, t, o, d, credentials);
    SettledExactly(s, t, o, d, credentials, now);
    CurrentStands(s, t, o, d, credentials, now);
    hide Arrived, Convergence.BindingConverged, Convergence.Settled, Convergence.CurrentConverged, CutShort,
         Convergence.CredentialsOk, Convergence.KeysOf;
  }

  /** From every reachable state, a crash and one fault-free Process of a device's latest job
      make the fleet proof accept the device, if and only if no attempt at the job was cut short
      between its actions and its result, the history is within bounds, and the validity of the
      device and of its credential lasts. */
  lemma JobConverges(cfg: Config, peers: Peers, start: int, history: seq<Event>, o: OpId)
    returns (rows: seq<Row>, n: nat)
    requires var s := Run(Start(cfg, peers, start), history);
             && Claimable(s, o)
             && (var d := s.db.operations[o].device; Unobstructed(s, d, TargetOf(s.db.devices[d])))
    ensures var s := Run(Start(cfg, peers, start), history);
            var t := Run(s, Processing(o, rows, n));
            var d := s.db.operations[o].device;
            && d in t.db.devices && t.db.devices[d].applied == t.db.devices[d].generation
            && forall credentials, now :: Convergence.DeviceConverged(FleetOf(t, credentials), d, now)
                                     <==> Acceptable(s, o, d, credentials, now)
  {
    hide Run, Unobstructed, Landed, Good, Sound, Stands, Acceptable, Convergence.DeviceConverged, TargetOf;
    rows, n := EveryJobLands(cfg, peers, start, history, o);
    var s := Run(Start(cfg, peers, start), history);
    var t := Run(s, Processing(o, rows, n));
    var d := s.db.operations[o].device;
    RunJoin(Start(cfg, peers, start), history, Processing(o, rows, n));
    ReachableAll(cfg, peers, start, history + Processing(o, rows, n));
    forall credentials, now ensures
      Convergence.DeviceConverged(FleetOf(t, credentials), d, now) <==> Acceptable(s, o, d, credentials, now)
    {
      LandedConverges(s, t, o, d, credentials, now);
    }
    SameKeys(s, t, o, d, map[], 0);
  }

  lemma ReachableAll(cfg: Config, peers: Peers, start: int, history: seq<Event>)
    ensures var t := Run(Start(cfg, peers, start), history); Sound(t) && Good(t) && Stands(t.db) && AllFree(t)
  {
    var t := Run(Start(cfg, peers, start), history);
    ReachableSound(cfg, peers, start, history);
    ReachableStands(cfg, peers, start, history);
    assert Good(t) && AllFree(Start(cfg, peers, start));
    hide Run, Good, Sound, Stands, AllFree, Start;
    StartGood(cfg, peers, start);
    RunFree(Start(cfg, peers, start), history);
  }

  // ---------------------------------------------------------------- what the proof says of the tables

  lemma OnlyElement(s: set<OpId>) returns (o: OpId)
    requires |s| == 1
    ensures s == {o}
  {
    o :| o in s;
    assert |s - {o}| == 0;
    assert s == {o};
  }

  /** The operation that made the device what it is, carried out and verified under a fence. */
  predicate Carried(db: Db, d: DeviceId, o: OpId)
    requires d in db.devices
  {
    && o in db.operations && o in db.outbox && db.operations[o].device == d
    && db.operations[o].generation == db.devices[d].generation
    && db.outbox[o].state == Finished && db.outbox[o].verifiedAt.Some? && db.outbox[o].fence > 0
    && (db.operations[o].command.verb == ApplyKey <==> db.devices[d].standing == Active)
  }

  predicate Gone(f: Convergence.Fleet, d: DeviceId, k: Key)
    requires d in f.db.devices && k in f.db.bindings
  {
    && k !in f.runtime && f.db.bindings[k].removed == f.db.devices[d].generation
    && (k, f.db.bindings[k].revoked) in f.db.tombstones
    && f.db.tombstones[(k, f.db.bindings[k].revoked)].verifiedAt.Some?
  }

  predicate InPlace(f: Convergence.Fleet, d: DeviceId, k: Key)
    requires d in f.db.devices && k in f.db.bindings
  {
    && f.db.devices[d].standing == Active && f.db.bindings[k].applied
    && f.db.devices[d].current == Some(Assignment(k, f.db.bindings[k].address))
    && f.db.bindings[k].created == f.db.devices[d].generation
  }

  lemma LatestCarried(f: Convergence.Fleet, d: DeviceId, now: int) returns (o: OpId)
    requires Tables(f.db) && Convergence.DeviceConverged(f, d, now) && f.db.devices[d].generation > 0
    ensures Carried(f.db, d, o)
    ensures forall p | OwnOpen(f.db, d, p) :: p == o
  {
    hide DevicesOk, BindingsOk, StonesOk, RequestsOk, IntentsOk;
    hide Convergence.BindingConverged, Convergence.CurrentConverged;
    o := OnlyElement(Convergence.DoneOperations(f.db, d, f.db.devices[d]));
    assert o in Convergence.DoneOperations(f.db, d, f.db.devices[d]);
    forall p | OwnOpen(f.db, d, p) ensures p == o { assert JobOk(f.db, p); }
  }

  lemma KeysTold(f: Convergence.Fleet, d: DeviceId, now: int, k: Key)
    requires Tables(f.db) && Convergence.DeviceConverged(f, d, now) && Bound(f.db, d, k)
    ensures if f.db.bindings[k].revoked > 0 then Gone(f, d, k) else InPlace(f, d, k)
  {
    assert k in Convergence.KeysOf(f.db, d);
    assert Convergence.BindingConverged(f, d, f.db.devices[d], k);
    assert BindingOk(f.db, k);
    hide Tables, Convergence.Settled, Convergence.CurrentConverged, Permitted;
  }

  /** With tables in order, a converged device has no work left: no open job, its latest
      operation carried out, every key it ever had gone at the latest generation or in place,
      and no intent in doubt. */
  lemma ConvergedHasNoWork(f: Convergence.Fleet, d: DeviceId, now: int)
    requires Tables(f.db) && Convergence.DeviceConverged(f, d, now)
    ensures d in f.db.devices && f.db.devices[d].applied == f.db.devices[d].generation
    ensures forall o | o in f.db.outbox :: !OwnOpen(f.db, d, o)
    ensures f.db.devices[d].generation > 0 ==> exists o :: Carried(f.db, d, o)
    ensures forall k | k in f.db.bindings && Bound(f.db, d, k) ::
              if f.db.bindings[k].revoked > 0 then Gone(f, d, k) else InPlace(f, d, k)
    ensures forall i | i in f.db.intents && i.op in f.db.operations && Latest(f.db, i.op) ::
              f.db.operations[i.op].device == d && f.db.intents[i].generation == f.db.devices[d].generation ==>
                f.db.intents[i].verified
  {
    hide Tables, Gone, InPlace, Convergence.BindingConverged, Convergence.CurrentConverged, Convergence.DoneOperations;
    if f.db.devices[d].generation > 0 {
      var o := LatestCarried(f, d, now);
      assert !OwnOpen(f.db, d, o);
    } else {
      NothingSubmitted(f.db, d);
    }
    forall k | k in f.db.bindings && Bound(f.db, d, k)
      ensures if f.db.bindings[k].revoked > 0 then Gone(f, d, k) else InPlace(f, d, k)
    {
      KeysTold(f, d, now, k);
    }
  }

  lemma NothingSubmitted(db: Db, d: DeviceId)
    requires Tables(db) && d in db.devices && db.devices[d].generation == 0
    ensures forall o | o in db.outbox :: !OwnOpen(db, d, o)
  {
    hide DevicesOk, BindingsOk, StonesOk, RequestsOk, IntentsOk;
    forall o | o in db.outbox ensures !OwnOpen(db, d, o) { assert JobOk(db, o); }
  }

  // ---------------------------------------------------------------- an attempt that is cut short

  /** The phases of Process up to its last external action. */
  function Attempt(n: nat): seq<Event> { [EInspect(true), EIntend(true)] + Acts(n) }

  lemma AttemptRun(s: Sys)
    requires Ready(s)
    ensures var n := |PlanOf(s).value|;
            var u := Run(s, Attempt(n));
            && u.runtime == Exec(s.runtime, PlanOf(s).value) && u.made == Making(s.made, PlanOf(s).value)
            && u.cfg == s.cfg && u.now == s.now && u.db == s.db.(intents := Intended(s))
  {
    var n := |PlanOf(s).value|;
    hide Run, PlanOf, Inspect, Intend, Exec, Intended, Making;
    Prepares(s);
    hide Ready;
    var s2 := Intend(Inspect(s, true), true);
    var first := [EInspect(true), EIntend(true)];
    assert first == [] + [EInspect(true)] + [EIntend(true)];
    RunNone(s);
    Snoc(s, [], EInspect(true));
    Snoc(s, [] + [EInspect(true)], EIntend(true));
    RunJoin(s, first, Acts(n));
    ActsRun(s2, n);
    assert PlanOf(s).value[..n] == PlanOf(s).value;
  }

  lemma {:induction false} MakingHas(made: set<Key>, actions: seq<Action>, k: Key)
    ensures k in Making(made, actions) <==> k in made || exists a | a in actions :: a.Apply? && a.key == k
  {
    if actions != [] {
      var init := actions[..|actions| - 1];
      MakingHas(made, init, k);
      assert actions == init + [actions[|actions| - 1]];
    }
  }

  /** An attempt that did all its actions and is cut short before its result leaves every one of
      its intents stranded, and nothing in the way of the next attempt. */
  lemma AttemptStrands(s: Sys, u: Sys, i: IntentKey)
    requires Sound(s) && Ready(s) && i.op == s.proc.op && Needed(s, s.proc.device, i)
    requires u.runtime == Exec(s.runtime, PlanOf(s).value) && u.db == s.db.(intents := Intended(s))
    ensures Stranded(u, s.proc.op, s.proc.device, i)
  {
    hide Sound, Plan, Exec, Intended;
    HistoryDistinct(s);
    PlanNeeds(s, i);
    IntendedIs(s, i);
    ExecInstalled(s, u);
    assert forall k :: Old(u.db, s.proc.device, k) == Old(s.db, s.proc.device, k);
    hide Ready, PlanOf, Old;
  }

  lemma AttemptClears(s: Sys, u: Sys)
    requires Sound(s) && Ready(s) && Unobstructed(s, s.proc.device, TargetOf(s.proc.dev))
    requires u.runtime == Exec(s.runtime, PlanOf(s).value) && u.made == Making(s.made, PlanOf(s).value)
    requires u.cfg == s.cfg && u.db == s.db.(intents := Intended(s))
    ensures Unobstructed(u, s.proc.device, TargetOf(s.proc.dev))
  {
    var d, target := s.proc.device, TargetOf(s.proc.dev);
    hide Sound, Exec, Intended, PlanOf, OwnKeyOk, Sits, Making, TargetOf, Installed, PastDue;
    ExecInstalled(s, u);
    HistoryDistinct(s);
    assert forall k :: Old(u.db, d, k) == Old(s.db, d, k) && Bound(u.db, d, k) == Bound(s.db, d, k);
    hide Old, Bound;
    forall k | k in u.db.bindings && Bound(u.db, d, k) ensures OwnKeyOk(u, k) { OwnKeyStays(s, u, k); }
    if target.Peer? {
      forall k | k in u.runtime && k != target.key && !Old(u.db, d, k) ensures !Sits(u.runtime[k], target.address) {
        OthersStay(s, u, k);
      }
    }
  }

  lemma OthersStay(s: Sys, u: Sys, k: Key)
    requires Sound(s) && Claiming(s) && s.proc.device in s.db.devices && Installed(s, u, s.proc.device)
    requires k in u.runtime && !Old(s.db, s.proc.device, k)
    requires TargetOf(s.proc.dev).Peer? && k != TargetOf(s.proc.dev).key
    ensures k in s.runtime && u.runtime[k] == s.runtime[k]
  {
    HistoryDistinct(s);
    GoodParts(s);
    hide Sound, Good;
    if Bound(s.db, s.proc.device, k) { CurrentIs(s, s.proc.device, k); }
    hide Tables;
  }

  lemma OwnKeyStays(s: Sys, u: Sys, k: Key)
    requires Sound(s) && Ready(s) && s.proc.device in s.db.devices && Installed(s, u, s.proc.device)
    requires u.made == Making(s.made, PlanOf(s).value) && u.cfg == s.cfg && u.db == s.db.(intents := u.db.intents)
    requires Bound(s.db, s.proc.device, k) && OwnKeyOk(s, k)
    ensures OwnKeyOk(u, k)
  {
    HistoryDistinct(s);
    GoodParts(s);
    hide Sound, Good, PlanOf, Making, Permitted;
    if !Old(s.db, s.proc.device, k) {
      CurrentIs(s, s.proc.device, k);
      BoundActive(s.db, k);
      hide Tables;
      OwnMade(s, u, k);
    }
    hide Tables;
  }

  lemma BoundActive(db: Db, k: Key)
    requires Tables(db) && k in db.bindings && db.bindings[k].revoked == 0
    ensures db.bindings[k].device in db.devices && db.devices[db.bindings[k].device].standing == Active
  {
    assert BindingOk(db, k);
  }

  lemma OwnMade(s: Sys, u: Sys, k: Key)
    requires Sound(s) && Ready(s) && TargetOf(s.proc.dev).Peer? && TargetOf(s.proc.dev).key == k
    requires k in s.runtime ==> k in s.made
    requires u.made == Making(s.made, PlanOf(s).value)
    ensures k in u.made
  {
    hide Sound, Plan;
    HistoryDistinct(s);
    MakingHas(s.made, PlanOf(s).value, k);
    if k !in s.runtime {
      PlanNeeds(s, IntentKey(s.proc.op, k, true));
    }
  }

  /** So, from every reachable state in which a claimed job has something to do and nothing is in
      its way: cut short after its actions and processed again without a fault, the job is
      finished and the device's generation applied, and yet the fleet proof refuses the device,
      whatever the credentials and the time. */
  lemma CutShortNeverConverges(cfg: Config, peers: Peers, start: int, history: seq<Event>, i: IntentKey)
    returns (m: nat, rows: seq<Row>, n: nat)
    requires var s := Run(Start(cfg, peers, start), history);
             && Claiming(s) && !PastDue(s.proc.dev, s.now) && s.db.fence + 1 < MAX_GENERATION
             && Unobstructed(s, s.proc.device, TargetOf(s.proc.dev))
             && i.op == s.proc.op && Needed(s, s.proc.device, i)
    ensures var s := Run(Start(cfg, peers, start), history);
            var t := Run(s, Attempt(m) + Processing(s.proc.op, rows, n));
            && s.proc.device in t.db.devices
            && t.db.devices[s.proc.device].applied == t.db.devices[s.proc.device].generation
            && forall credentials, now :: !Convergence.DeviceConverged(FleetOf(t, credentials), s.proc.device, now)
  {
    var s := Run(Start(cfg, peers, start), history);
    var o, d := s.proc.op, s.proc.device;
    ReachableSound(cfg, peers, start, history);
    hide Run, Unobstructed, Needed, Sound, Plan, Convergence.DeviceConverged, Acceptable;
    PlansExactly(s);
    HistoryDistinct(s);
    m := |PlanOf(s).value|;
    var u := Run(s, Attempt(m));
    AttemptRun(s);
    AttemptStrands(s, u, i);
    AttemptClears(s, u);
    RunJoin(Start(cfg, peers, start), history, Attempt(m));
    ClaimableAgain(s, u);
    rows, n := JobConverges(cfg, peers, start, history + Attempt(m), o);
    RunJoin(s, Attempt(m), Processing(o, rows, n));
    StrandedRefused(u, o, d, i);
  }

  lemma ClaimableAgain(s: Sys, u: Sys)
    requires Sound(s) && Claiming(s) && !PastDue(s.proc.dev, s.now) && s.db.fence + 1 < MAX_GENERATION
    requires u.db == s.db.(intents := u.db.intents) && u.now == s.now
    ensures Claimable(u, s.proc.op) && u.db.operations[s.proc.op].device == s.proc.device
  {
    GoodParts(s);
    HistoryDistinct(s);
    hide Good, Tables, PeersOk, StageOk, IsHistory;
  }

  lemma StrandedRefused(u: Sys, o: OpId, d: DeviceId, i: IntentKey)
    requires Stranded(u, o, d, i)
    ensures forall credentials, now :: !Acceptable(u, o, d, credentials, now)
  {
    assert i in u.db.intents;
    hide Stranded;
  }
}
