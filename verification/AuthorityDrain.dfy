/** Every job can be brought to its end: the executor plans exactly when nothing foreign is in
    its way, and then a run without faults leaves the interface as desired. */
module AuthorityDrain {
  import opened Prelude
  import opened Prefixes
  import opened PeerPlan
  import opened AuthorityModel
  import opened AuthorityInvariants
  import opened AuthorityRuns

  // ---------------------------------------------------------------- what the holder can rely on

  /** Whatever this executor ever applied has a durable intent. */
  ghost predicate MadeOk(s: Sys) {
    forall k | k in s.made :: HasIntent(s.db, k)
  }

  /** The holder's job is pending and carries its fence number, and a fresh claim has read every intent. */
  predicate HoldOk(s: Sys) {
    s.proc.Held? ==>
      && s.proc.op in s.db.outbox && s.db.outbox[s.proc.op].fence == s.proc.fence > 0
      && s.db.outbox[s.proc.op].state == Pending
      && (s.proc.at == Claimed ==> KnowsIntents(s.db, s.proc.rows))
  }

  /** Every intent was recorded under a fence below `fence`. */
  ghost predicate Newer(db: Db, fence: nat) {
    forall i | i in db.intents :: db.intents[i].fence < fence
  }

  predicate Announced(p: Process) { p.Held? && p.at != Claimed && !p.at.Planned? }

  /** A holder that has announced nothing yet is newer than every intent. */
  ghost predicate FencesOk(s: Sys) {
    && Newer(s.db, s.db.fence + 1)
    && (s.proc.Held? ==> s.proc.fence <= s.db.fence && (Announced(s.proc) || Newer(s.db, s.proc.fence)))
  }

  ghost predicate Sound(s: Sys) { Good(s) && MadeOk(s) && HoldOk(s) && FencesOk(s) }

  lemma IntentLater(x: Db, y: Db, k: Key)
    requires Later(x, y) && HasIntent(x, k)
    ensures HasIntent(y, k)
  {
    var i :| i in x.intents && i.key == k && i.applies;
    assert i in y.intents;
  }

  lemma MadeKept(s: Sys, t: Sys)
    requires MadeOk(s) && Later(s.db, t.db) && t.made == s.made
    ensures MadeOk(t)
  {
    hide Later;
    forall k | k in t.made ensures HasIntent(t.db, k) { IntentLater(s.db, t.db, k); }
  }

  /** The next action of a holder, if it applies a key, has its intent. */
  lemma NextIntended(s: Sys)
    requires FenceOk(s) && s.proc.Held? && s.proc.at.Acting? && s.proc.at.next < |s.proc.at.actions|
    requires s.proc.at.actions[s.proc.at.next].Apply?
    ensures HasIntent(s.db, s.proc.at.actions[s.proc.at.next].key)
  {
    hide Plan, IsHistory, HasIntent;
  }

  lemma ActMade(s: Sys, happened: bool, reported: bool)
    requires FenceOk(s) && MadeOk(s)
    ensures MadeOk(Act(s, happened, reported))
  {
    hide FenceOk;
    var t := Act(s, happened, reported);
    if s.proc.Held? && s.proc.at.Acting? && s.proc.at.next < |s.proc.at.actions| {
      var a := s.proc.at.actions[s.proc.at.next];
      if a.Apply? { NextIntended(s); }
      hide Effect;
      assert t.made <= s.made + (if a.Apply? then {a.key} else {});
      SameIntents(s.db, t.db);
    }
  }

  lemma SameIntents(x: Db, y: Db)
    requires y.intents == x.intents
    ensures forall k :: HasIntent(x, k) == HasIntent(y, k)
  {
  }

  lemma OnlyActMakes(s: Sys, e: Event)
    requires !e.EAct?
    ensures Take(s, e).made == s.made
  {
    hide ExpireDevice, Submit, Plan, IsHistory, KnowsIntents, Record, Verified, Enroll, Refresh;
  }

  lemma TakeMade(s: Sys, e: Event)
    requires Good(s) && MadeOk(s)
    ensures MadeOk(Take(s, e))
  {
    if e.EAct? {
      GoodParts(s);
      hide Good, FenceOk, MadeOk, Act;
      ActMade(s, e.happened, e.reported);
    } else {
      OnlyActMakes(s, e);
      hide Take, Good, MadeOk, Later;
      ApplyGood(s, e);
      MadeKept(s, Take(s, e));
    }
  }

  lemma KnowsSame(x: Db, y: Db, rows: seq<Row>)
    requires y.intents == x.intents && KnowsIntents(x, rows)
    ensures KnowsIntents(y, rows)
  {
    SameIntents(x, y);
    hide HasIntent;
  }

  lemma ClaimHold(s: Sys, o: OpId, rows: seq<Row>, id: OpId, idempotency: string)
    requires HoldOk(s)
    ensures HoldOk(Claim(s, o, rows, id, idempotency))
  {
    hide ExpireDevice, KnowsIntents, IsHistory;
    var t := Claim(s, o, rows, id, idempotency);
    if s.proc.Free? && t.proc.Held? { KnowsSame(s.db, t.db, rows); }
  }

  lemma TakeHold(s: Sys, e: Event)
    requires HoldOk(s)
    ensures HoldOk(Take(s, e))
  {
    if e.EClaim? {
      hide Claim, HoldOk;
      ClaimHold(s, e.o, e.rows, e.id, e.idempotency);
    } else {
      hide ExpireDevice, Submit, Plan, Verified, Record, KnowsIntents, Enroll, Refresh, Effect;
    }
  }

  lemma SubmitQuiet(db: Db, cfg: Config, cmd: Command, now: int, room: bool, id: OpId)
    ensures var t := Submit(db, cfg, cmd, now, room, id).0; t.intents == db.intents && t.fence == db.fence
  {
    hide Protected, Permitted, OverdueWork;
  }

  lemma ExpireQuiet(db: Db, cfg: Config, d: DeviceId, dev: Device, now: int, id: OpId, idempotency: string)
    ensures var t := ExpireDevice(db, cfg, d, dev, now, id, idempotency);
            t.intents == db.intents && t.fence == db.fence
  {
    hide Submit;
    SubmitQuiet(db, cfg, Command("deviceauth-expiry-reconciler", dev.owner, d, Expire, idempotency,
                                 dev.generation, None,
                                 "authorization deadline reached during reconciliation"), now, true, id);
  }

  lemma ClaimFences(s: Sys, o: OpId, rows: seq<Row>, id: OpId, idempotency: string)
    requires FencesOk(s)
    ensures FencesOk(Claim(s, o, rows, id, idempotency))
  {
    hide ExpireDevice, IsHistory, KnowsIntents;
    if o in s.db.operations && s.db.operations[o].device in s.db.devices {
      var d := s.db.operations[o].device;
      ExpireQuiet(s.db, s.cfg, d, s.db.devices[d], s.now, id, idempotency);
    }
  }

  lemma IntendFences(s: Sys, ok: bool)
    requires FencesOk(s)
    ensures FencesOk(Intend(s, ok))
  {
    hide IntentFor;
  }

  lemma ConcludeFences(s: Sys, ok: bool)
    requires FencesOk(s)
    ensures FencesOk(Conclude(s, ok))
  {
    hide Bound;
  }

  /** The step leaves fences and intents to their holder. */
  predicate Quiet(s: Sys, t: Sys) {
    && t.db.intents == s.db.intents && t.db.fence == s.db.fence
    && (t.proc.Held? ==> s.proc.Held? && t.proc.fence == s.proc.fence && (Announced(s.proc) ==> Announced(t.proc)))
  }

  lemma AbandonSide(s: Sys)
    requires s.proc.Held?
    ensures Abandon(s).db == s.db.(outbox := Abandon(s).db.outbox) && Abandon(s).proc.Free?
  {
  }

  lemma ActQuiet(s: Sys, happened: bool, reported: bool)
    ensures Quiet(s, Act(s, happened, reported))
  {
    hide Effect, PastDue, Abandon;
    if s.proc.Held? && s.proc.at.Acting? && s.proc.at.next < |s.proc.at.actions| {
      var a := s.proc.at.actions[s.proc.at.next];
      AbandonSide(s);
      AbandonSide(s.(runtime := Effect(s.runtime, a), made := if a.Apply? then s.made + {a.key} else s.made));
    }
  }

  lemma HolderQuiet(s: Sys, e: Event)
    requires e.EInspect? || e.EAct? || e.ECertify?
    ensures Quiet(s, Take(s, e))
  {
    hide Plan, Verified, TargetOf, PastDue, Abandon, Act;
    if s.proc.Held? { AbandonSide(s); }
    if e.EAct? { ActQuiet(s, e.happened, e.reported); }
  }

  lemma QuietFences(s: Sys, e: Event)
    requires !e.EClaim? && !e.EIntend? && !e.EConclude?
    ensures Quiet(s, Take(s, e))
  {
    if e.EInspect? || e.EAct? || e.ECertify? {
      hide Take;
      HolderQuiet(s, e);
    } else {
      hide ExpireDevice, Submit, Enroll, Refresh;
      if e.ESubmit? {
        SubmitQuiet(s.db, s.cfg, e.cmd, s.now, e.room, e.id);
      } else if e.ESweep? && e.d in s.db.devices {
        ExpireQuiet(s.db, s.cfg, e.d, s.db.devices[e.d], s.now, e.id, e.idempotency);
      } else if e.EExpire? && s.proc.Held? {
        ExpireQuiet(s.db, s.cfg, s.proc.device, s.proc.dev, s.now, e.id, e.idempotency);
      } else if e.EEnroll? || e.ERefresh? {
        RowsQuiet(s, e);
      }
    }
  }

  lemma RowsQuiet(s: Sys, e: Event)
    requires e.EEnroll? || e.ERefresh?
    ensures Quiet(s, Take(s, e))
  {
  }

  lemma TakeFences(s: Sys, e: Event)
    requires FencesOk(s)
    ensures FencesOk(Take(s, e))
  {
    hide Claim, Intend, Conclude;
    match e
    case EClaim(o, rows, id, idempotency) => hide FencesOk; ClaimFences(s, o, rows, id, idempotency);
    case EIntend(ok) => hide FencesOk; IntendFences(s, ok);
    case EConclude(ok) => hide FencesOk; ConcludeFences(s, ok);
    case _ => hide Take; QuietFences(s, e);
  }

  lemma TakeSound(s: Sys, e: Event)
    requires Sound(s)
    ensures Sound(Take(s, e))
  {
    hide Good, MadeOk, HoldOk, FencesOk, Take, Later;
    TakeFences(s, e);
    ApplyGood(s, e);
    TakeMade(s, e);
    TakeHold(s, e);
  }

  lemma {:induction false} RunSound(s: Sys, events: seq<Event>)
    requires Sound(s)
    ensures Sound(Run(s, events))
  {
    if events != [] {
      hide Sound, Take;
      RunSound(s, events[..|events| - 1]);
      TakeSound(Run(s, events[..|events| - 1]), events[|events| - 1]);
    }
  }

  lemma ReachableSound(cfg: Config, peers: Peers, now: int, events: seq<Event>)
    ensures Sound(Run(Start(cfg, peers, now), events))
  {
    StartGood(cfg, peers, now);
    hide Good;
    assert Sound(Start(cfg, peers, now));
    hide Sound, Start, Run;
    RunSound(Start(cfg, peers, now), events);
  }

  // ---------------------------------------------------------------- when there is a plan

  /** A key of the device is within policy, and on the interface only as this executor put it there. */
  predicate OwnKeyOk(s: Sys, k: Key)
    requires k in s.db.bindings
  {
    && Permitted(s.cfg.policy, k, s.db.bindings[k].address)
    && (k in s.runtime ==> s.runtime[k] == {s.db.bindings[k].address} && k in s.made)
  }

  predicate Old(db: Db, d: DeviceId, k: Key) { Bound(db, d, k) && db.bindings[k].revoked > 0 }

  predicate Sits(ips: set<Prefix>, address: Prefix) {
    exists p | p in ips :: Overlaps(p, address)
  }

  /** Nothing foreign is in the way of the device's desired state: its keys are as they should
      be, and nobody but its own revoked keys sits on the wanted address. */
  predicate Unobstructed(s: Sys, d: DeviceId, target: Target) {
    && (forall k | k in s.db.bindings && Bound(s.db, d, k) :: OwnKeyOk(s, k))
    && (target.Peer? ==>
          forall k | k in s.runtime && k != target.key && !Old(s.db, d, k) :: !Sits(s.runtime[k], target.address))
  }

  predicate Claiming(s: Sys) { s.proc.Held? && s.proc.at == Claimed }

  lemma RowIs(s: Sys, i: nat)
    requires Sound(s) && Claiming(s) && i < |s.proc.rows|
    ensures var row := s.proc.rows[i];
            && Bound(s.db, s.proc.device, row.key) && row.managed && row.address == s.db.bindings[row.key].address
            && row.revoked == (s.db.bindings[row.key].revoked > 0)
            && (row.key in s.runtime ==> (row.applied || row.intent <==> row.key in s.made))
  {
    GoodParts(s);
    hide Tables, Good;
    var k := s.proc.rows[i].key;
    assert Bound(s.db, s.proc.device, k);
    assert PeerOk(s, k);
    hide HasIntent, PeersOk;
  }

  lemma RowForeign(s: Sys, i: nat)
    requires Sound(s) && Claiming(s) && i < |s.proc.rows|
    ensures s.proc.rows[i].key in s.db.bindings
    ensures Foreign(s.cfg.policy, s.proc.rows[i], s.runtime) <==> !OwnKeyOk(s, s.proc.rows[i].key)
  {
    RowIs(s, i);
    hide Sound, Permitted;
  }

  lemma RowOf(s: Sys, k: Key) returns (i: nat)
    requires Sound(s) && Claiming(s) && Bound(s.db, s.proc.device, k)
    ensures i < |s.proc.rows| && s.proc.rows[i].key == k
  {
    GoodParts(s);
    hide Tables, PeersOk, Good, HasIntent;
    assert InHistory(s.proc.rows, k);
    i :| 0 <= i < |s.proc.rows| && s.proc.rows[i].key == k;
  }

  lemma RetiredIsOld(s: Sys, k: Key)
    requires Sound(s) && Claiming(s)
    ensures Retired(s.proc.rows, k) <==> Old(s.db, s.proc.device, k)
  {
    if Retired(s.proc.rows, k) {
      var i: nat :| 0 <= i < |s.proc.rows| && s.proc.rows[i].key == k && s.proc.rows[i].revoked;
      RowIs(s, i);
    }
    if Old(s.db, s.proc.device, k) {
      var i := RowOf(s, k);
      RowIs(s, i);
    }
  }

  lemma TargetAuthorised(s: Sys)
    requires Sound(s) && Claiming(s) && TargetOf(s.proc.dev).Peer?
    ensures Authorised(s.proc.rows, TargetOf(s.proc.dev).key, TargetOf(s.proc.dev).address)
  {
    var target := TargetOf(s.proc.dev);
    TargetBound(s);
    var i := RowOf(s, target.key);
    RowIs(s, i);
  }

  lemma TargetBound(s: Sys)
    requires Good(s) && s.proc.Held? && TargetOf(s.proc.dev).Peer?
    ensures var target := TargetOf(s.proc.dev);
            Current(s.db, s.proc.device, target.key) && s.db.bindings[target.key].address == target.address
  {
    hide PeersOk, BindingsOk, StonesOk, OperationsOk, JobsOk, RequestsOk, IntentsOk, IsHistory, StageOk;
  }

  lemma NotOccupied(s: Sys)
    requires Sound(s) && Claiming(s) && TargetOf(s.proc.dev).Peer?
    ensures var target := TargetOf(s.proc.dev);
            !Occupied(s.proc.rows, s.runtime, target.key, target.address) <==>
              forall k | k in s.runtime && k != target.key && !Old(s.db, s.proc.device, k) ::
                !Sits(s.runtime[k], target.address)
  {
    forall k | k in s.runtime ensures Retired(s.proc.rows, k) <==> Old(s.db, s.proc.device, k) {
      hide Sound, Retired, Old;
      RetiredIsOld(s, k);
    }
    hide Sound, Retired, Old, Overlaps;
  }

  /** The executor finds a plan if and only if nothing foreign is in the way. */
  lemma PlansExactly(s: Sys)
    requires Sound(s) && Claiming(s)
    ensures Plan(s.cfg.policy, TargetOf(s.proc.dev), s.proc.rows, s.runtime).Ok?
       <==> Unobstructed(s, s.proc.device, TargetOf(s.proc.dev))
  {
    var p, target := s.proc, TargetOf(s.proc.dev);
    hide Sound, Foreign, OwnKeyOk, Occupied, Authorised, Old, Sits;
    if target.Peer? {
      TargetAuthorised(s);
      NotOccupied(s);
    }
    forall i: nat | i < |p.rows| ensures RowTells(s, p.rows[i]) {
      RowIs(s, i);
      RowForeign(s, i);
    }
    forall k | Bound(s.db, p.device, k) ensures InHistory(p.rows, k) {
      var i := RowOf(s, k);
    }
    PlanFromRows(s);
  }

  /** The rows stand for the device's keys, refused or not. */
  ghost predicate RowsTell(s: Sys)
    requires s.proc.Held?
  {
    && (forall i: nat | i < |s.proc.rows| :: RowTells(s, s.proc.rows[i]))
    && (forall k | Bound(s.db, s.proc.device, k) :: InHistory(s.proc.rows, k))
  }

  predicate RowTells(s: Sys, row: Row)
    requires s.proc.Held?
  {
    Bound(s.db, s.proc.device, row.key) && (Foreign(s.cfg.policy, row, s.runtime) <==> !OwnKeyOk(s, row.key))
  }

  lemma PlanFromRows(s: Sys)
    requires s.proc.Held? && RowsTell(s)
    requires var target := TargetOf(s.proc.dev);
      target.Peer? ==>
        && Authorised(s.proc.rows, target.key, target.address)
        && (!Occupied(s.proc.rows, s.runtime, target.key, target.address) <==>
              forall k | k in s.runtime && k != target.key && !Old(s.db, s.proc.device, k) ::
                !Sits(s.runtime[k], target.address))
    ensures Plan(s.cfg.policy, TargetOf(s.proc.dev), s.proc.rows, s.runtime).Ok?
       <==> Unobstructed(s, s.proc.device, TargetOf(s.proc.dev))
  {
    hide Foreign, OwnKeyOk, Occupied, Authorised, Old, Sits;
    assert forall i: nat | i < |s.proc.rows| :: RowTells(s, s.proc.rows[i]);
    if forall k | k in s.db.bindings && Bound(s.db, s.proc.device, k) :: OwnKeyOk(s, k) {
      assert forall i | 0 <= i < |s.proc.rows| :: !Foreign(s.cfg.policy, s.proc.rows[i], s.runtime);
    } else {
      var k :| Bound(s.db, s.proc.device, k) && !OwnKeyOk(s, k);
      var i: nat :| i < |s.proc.rows| && s.proc.rows[i].key == k;
      assert Foreign(s.cfg.policy, s.proc.rows[i], s.runtime);
    }
  }

  // ---------------------------------------------------------------- a run without faults

  function Acts(n: nat): seq<Event> { seq(n, _ => EAct(true, true)) }

  /** The phases of Process after the claim, with `n` external actions, every report good. */
  function Faultless(n: nat): seq<Event> {
    [EInspect(true), EIntend(true)] + Acts(n) + [ECertify(true), EConclude(true)]
  }

  function Making(made: set<Key>, actions: seq<Action>): set<Key> {
    if actions == [] then made
    else
      var a := actions[|actions| - 1];
      var before := Making(made, actions[..|actions| - 1]);
      if a.Apply? then before + {a.key} else before
  }

  predicate MayAct(s: Sys) {
    && s.proc.Held? && s.proc.at.Acting? && s.proc.at.next == 0
    && (forall j | 0 <= j < |s.proc.at.actions| && s.proc.at.actions[j].Apply? ::
          s.proc.dev.standing == Active && !PastDue(s.proc.dev, s.now))
  }

  /** The state after the first i actions. */
  function Acted(s: Sys, i: nat): Sys
    requires MayAct(s) && i <= |s.proc.at.actions|
  {
    var actions := s.proc.at.actions;
    s.(runtime := Exec(s.runtime, actions[..i]), made := Making(s.made, actions[..i]),
       proc := s.proc.(at := s.proc.at.(next := i)))
  }

  lemma ActsOnce(s: Sys, i: nat)
    requires MayAct(s) && i < |s.proc.at.actions|
    ensures Act(Acted(s, i), true, true) == Acted(s, i + 1)
  {
    var actions := s.proc.at.actions;
    assert actions[..i + 1][..i] == actions[..i];
    hide Effect;
  }

  lemma Snoc(s: Sys, events: seq<Event>, e: Event)
    ensures Run(s, events + [e]) == Take(Run(s, events), e)
  {
    assert (events + [e])[..|events|] == events;
    hide Take;
  }

  lemma {:induction false} ActsRun(s: Sys, i: nat)
    requires MayAct(s) && i <= |s.proc.at.actions|
    ensures Run(s, Acts(i)) == Acted(s, i)
  {
    hide Run, Act;
    if i == 0 {
      assert Acts(0) == [] && s.proc.at.actions[..0] == [];
      RunNone(s);
    } else {
      hide Acted;
      ActsRun(s, i - 1);
      assert Acts(i) == Acts(i - 1) + [EAct(true, true)];
      Snoc(s, Acts(i - 1), EAct(true, true));
      ActsOnce(s, i - 1);
    }
  }

  lemma {:induction false} RunJoin(s: Sys, xs: seq<Event>, ys: seq<Event>)
    ensures Run(s, xs + ys) == Run(Run(s, xs), ys)
  {
    if ys == [] {
      assert xs + ys == xs;
    } else {
      var n := |ys| - 1;
      RunJoin(s, xs, ys[..n]);
      assert (xs + ys)[..|xs + ys| - 1] == xs + ys[..n];
      hide Take;
    }
  }

  lemma FaultlessRun(s: Sys, n: nat)
    ensures var acted := Run(Intend(Inspect(s, true), true), Acts(n));
            Run(s, Faultless(n)) == Conclude(Certify(acted, true), true)
  {
    hide Run, Inspect, Intend, Certify, Conclude;
    var first := [EInspect(true), EIntend(true)];
    assert first == [] + [EInspect(true)] + [EIntend(true)];
    Snoc(s, [], EInspect(true));
    Snoc(s, [] + [EInspect(true)], EIntend(true));
    RunNone(s);
    RunJoin(s, first, Acts(n));
    var acting := first + Acts(n);
    assert Faultless(n) == acting + [ECertify(true)] + [EConclude(true)];
    Snoc(s, acting, ECertify(true));
    Snoc(s, acting + [ECertify(true)], EConclude(true));
  }

  lemma RunNone(s: Sys)
    ensures Run(s, []) == s
  {
  }

  /** The plan of a claimed job. */
  function PlanOf(s: Sys): Result<seq<Action>, Error>
    requires s.proc.Held?
  {
    Plan(s.cfg.policy, TargetOf(s.proc.dev), s.proc.rows, s.runtime)
  }

  predicate Ready(s: Sys) { Claiming(s) && PlanOf(s).Ok? && !PastDue(s.proc.dev, s.now) }

  /** The intents once the plan of a claimed job has been announced. */
  function Intended(s: Sys): map<IntentKey, Intent>
    requires Ready(s)
  {
    var actions := PlanOf(s).value;
    var named := set j | 0 <= j < |actions| :: IntentFor(s.proc.op, actions[j]);
    s.db.intents + map i | i in named :: Intent(s.proc.dev.generation, s.proc.fence, false)
  }

  lemma Prepares(s: Sys)
    requires Ready(s)
    ensures var t := Intend(Inspect(s, true), true);
            && t == s.(db := s.db.(intents := Intended(s)),
                       proc := s.proc.(at := Acting(s.runtime, PlanOf(s).value, 0)))
            && MayAct(t)
  {
    var actions := PlanOf(s).value;
    forall j | 0 <= j < |actions| && actions[j].Apply? ensures s.proc.dev.standing == Active {
      PlanTouchesOwnPeers(s.cfg.policy, TargetOf(s.proc.dev), s.proc.rows, s.runtime, j);
    }
    hide Plan;
  }

  lemma Certifies(s: Sys, u: Sys)
    requires Ready(s) && Distinct(s.proc.rows) && u.proc.Held? && u.proc.dev == s.proc.dev && u.proc.rows == s.proc.rows
    requires u.now == s.now && u.proc.at == Acting(s.runtime, PlanOf(s).value, |PlanOf(s).value|)
    requires u.runtime == Exec(s.runtime, PlanOf(s).value)
    ensures Certify(u, true) == u.(proc := u.proc.(at := Certified))
  {
    PlanVerifies(s.cfg.policy, TargetOf(s.proc.dev), s.proc.rows, s.runtime);
    hide Plan, Exec, Verified;
  }

  lemma HistoryDistinct(s: Sys)
    requires Sound(s) && s.proc.Held?
    ensures Distinct(s.proc.rows) && s.proc.device in s.db.devices && s.db.devices[s.proc.device] == s.proc.dev
    ensures s.proc.op in s.db.outbox && s.db.outbox[s.proc.op].fence == s.proc.fence > 0
    ensures s.db.outbox[s.proc.op].state == Pending
    ensures s.proc.op in s.db.operations && s.db.operations[s.proc.op].device == s.proc.device
  {
    GoodParts(s);
    hide Good, Tables, PeersOk, StageOk, HasIntent;
  }

  /** With a plan and no fault, the phases end in the recorded result. */
  lemma FaultlessEnds(s: Sys)
    requires Sound(s) && Ready(s)
    ensures var actions := PlanOf(s).value;
            var t := Run(s, Faultless(|actions|));
            && t.proc.Free? && t.cfg == s.cfg && t.now == s.now
            && t.runtime == Exec(s.runtime, actions)
            && t.db == Record(s.db.(intents := Intended(s)), s.proc.(at := Certified), s.now)
  {
    var actions := PlanOf(s).value;
    HistoryDistinct(s);
    hide Sound, Run, PlanOf, Inspect, Intend, Certify, Record, Exec, Intended;
    Prepares(s);
    hide Ready;
    var s2 := Intend(Inspect(s, true), true);
    var n := |actions|;
    FaultlessRun(s, n);
    ActsRun(s2, n);
    assert actions[..n] == actions;
    var s3 := Acted(s2, n);
    Certifies(s, s3);
    var s4 := Certify(s3, true);
    assert s4.db == s.db.(intents := Intended(s));
  }

  // ---------------------------------------------------------------- every job lands

  /** The device's desired state is on the interface: its old keys are off it, its current key
      is on exactly its address, and nobody else's peer was touched. */
  ghost predicate Installed(s: Sys, t: Sys, d: DeviceId)
    requires d in s.db.devices
  {
    && (forall k | Old(s.db, d, k) :: k !in t.runtime)
    && (var target := TargetOf(s.db.devices[d]);
        target.Peer? ==> target.key in t.runtime && t.runtime[target.key] == {target.address})
    && (forall k | !Bound(s.db, d, k) :: SameAt(s.runtime, t.runtime, k))
  }

  /** The tables say so: the job is finished, the device's generation applied, every removal
      and every tombstone of the device verified, and nothing of another device changed. */
  ghost predicate Certain(x: Db, y: Db, now: int, o: OpId, d: DeviceId)
    requires d in x.devices
  {
    && o in y.outbox && y.outbox[o].state == Finished && y.outbox[o].verifiedAt == Some(now) && y.outbox[o].fence > 0
    && y.devices == x.devices[d := x.devices[d].(applied := x.devices[d].generation)]
    && y.bindings.Keys == x.bindings.Keys && y.tombstones.Keys == x.tombstones.Keys && y.operations == x.operations
    && (forall k | Old(x, d, k) :: y.bindings[k] == x.bindings[k].(removed := x.devices[d].generation))
    && (forall k | Current(x, d, k) :: y.bindings[k] == x.bindings[k].(applied := true))
    && (forall k | k in x.bindings && !Bound(x, d, k) :: y.bindings[k] == x.bindings[k])
    && (forall i | i in y.tombstones && Bound(x, d, i.0) :: y.tombstones[i].verifiedAt.Some?)
    && (forall i | i in x.tombstones && !Bound(x, d, i.0) :: y.tombstones[i] == x.tombstones[i])
  }

  /** The intent's action is still to be done. */
  predicate Needed(s: Sys, d: DeviceId, i: IntentKey) {
    if i.applies then
      d in s.db.devices && TargetOf(s.db.devices[d]).Peer? && TargetOf(s.db.devices[d]).key == i.key
      && i.key !in s.runtime
    else Old(s.db, d, i.key) && i.key in s.runtime
  }

  /** The job's intents afterwards: those whose action was still to be done, verified, and the
      others as they were. */
  ghost predicate Resolves(s: Sys, t: Sys, o: OpId, d: DeviceId)
    requires d in s.db.devices
  {
    forall i: IntentKey :: IntentResolved(s, t, o, d, i)
  }

  predicate IntentResolved(s: Sys, t: Sys, o: OpId, d: DeviceId, i: IntentKey)
    requires d in s.db.devices
  {
    if i.op == o && Needed(s, d, i) then
      i in t.db.intents && t.db.intents[i].verified && t.db.intents[i].generation == s.db.devices[d].generation
    else
      (i in t.db.intents <==> i in s.db.intents) && (i in t.db.intents ==> t.db.intents[i] == s.db.intents[i])
  }

  ghost predicate Landed(s: Sys, t: Sys, o: OpId, d: DeviceId) {
    && d in s.db.devices && t.proc.Free? && Installed(s, t, d) && Certain(s.db, t.db, s.now, o, d)
    && Resolves(s, t, o, d)
  }

  lemma {:induction false} RemovalsAll(rows: seq<Row>, rt: Peers, k: Key)
    ensures Remove(k) in Removals(rows, rt) <==> Retired(rows, k) && k in rt
    ensures forall a | a in Removals(rows, rt) :: a.Remove?
  {
    if rows != [] {
      var init := rows[..|rows| - 1];
      RemovalsAll(init, rt, k);
      if Retired(init, k) {
        var i :| 0 <= i < |init| && init[i].key == k && init[i].revoked;
        assert rows[i] == init[i];
      }
    }
  }

  /** The announced intents are those whose action is still to be done. */
  lemma PlanNeeds(s: Sys, i: IntentKey)
    requires Sound(s) && Ready(s) && i.op == s.proc.op
    ensures Needed(s, s.proc.device, i) <==> exists a | a in PlanOf(s).value :: IntentFor(s.proc.op, a) == i
  {
    hide Sound, Foreign, Occupied, Authorised, Retired;
    HistoryDistinct(s);
    RetiredIsOld(s, i.key);
    RemovalsAll(s.proc.rows, s.runtime, i.key);
    hide Old, Removals;
    if Needed(s, s.proc.device, i) {
      var target := TargetOf(s.proc.dev);
      var a := if i.applies then Apply(target.key, target.address) else Remove(i.key);
      assert a in PlanOf(s).value && IntentFor(s.proc.op, a) == i;
    }
  }

  lemma RecordResolves(s: Sys, i: IntentKey, t: Sys)
    requires Sound(s) && Ready(s) && s.proc.device in s.db.devices && s.proc.op in s.db.outbox
    requires t.db == Record(s.db.(intents := Intended(s)), s.proc.(at := Certified), s.now)
    ensures IntentResolved(s, t, s.proc.op, s.proc.device, i)
  {
    hide PlanOf, Needed, Record, Intended, PastDue, Good, MadeOk, HoldOk;
    assert FencesOk(s) && !Announced(s.proc);
    hide Sound;
    HistoryDistinct(s);
    if i.op == s.proc.op { PlanNeeds(s, i); }
    IntendedIs(s, i);
    RecordIntents(s.db.(intents := Intended(s)), s.proc.(at := Certified), s.now, i);
  }

  lemma IntendedIs(s: Sys, i: IntentKey)
    requires Ready(s)
    ensures if exists a | a in PlanOf(s).value :: IntentFor(s.proc.op, a) == i
            then i in Intended(s) && Intended(s)[i] == Intent(s.proc.dev.generation, s.proc.fence, false)
            else (i in Intended(s) <==> i in s.db.intents)
                 && (i in Intended(s) ==> Intended(s)[i] == s.db.intents[i])
  {
    hide Plan;
  }

  lemma RecordIntents(db: Db, p: Process, now: int, i: IntentKey)
    requires p.Held? && p.device in db.devices && p.op in db.outbox
    ensures var y := Record(db, p, now);
            && (i in y.intents <==> i in db.intents)
            && (i in y.intents ==> y.intents[i] == (if i.op == p.op && db.intents[i].fence == p.fence
                                                    then db.intents[i].(verified := true) else db.intents[i]))
  {
  }

  /** An unrevoked key of a device is its current one. */
  lemma CurrentIs(s: Sys, d: DeviceId, k: Key)
    requires Tables(s.db) && Current(s.db, d, k)
    ensures d in s.db.devices && s.db.devices[d].current == Some(Assignment(k, s.db.bindings[k].address))
  {
    hide DevicesOk, StonesOk, OperationsOk, JobsOk, RequestsOk, IntentsOk;
    assert BindingOk(s.db, k);
  }

  lemma RecordIs(x: Db, p: Process, now: int, intents: map<IntentKey, Intent>)
    requires p.Held? && p.device in x.devices && x.devices[p.device] == p.dev
    requires p.op in x.outbox && x.outbox[p.op].fence > 0
    requires forall k | Current(x, p.device, k) :: p.dev.current.Some? && p.dev.current.value.key == k
    ensures Certain(x, Record(x.(intents := intents), p, now), now, p.op, p.device)
  {
  }

  lemma RecordCertain(s: Sys, intents: map<IntentKey, Intent>)
    requires Sound(s) && s.proc.Held?
    ensures var y := Record(s.db.(intents := intents), s.proc.(at := Certified), s.now);
            s.proc.device in s.db.devices && Certain(s.db, y, s.now, s.proc.op, s.proc.device)
  {
    hide Good, FenceOk, PeersOk, Distinct, Tables, Certain, Record;
    HistoryDistinct(s);
    GoodParts(s);
    forall k | Current(s.db, s.proc.device, k)
      ensures s.proc.dev.current == Some(Assignment(k, s.db.bindings[k].address))
    {
      CurrentIs(s, s.proc.device, k);
    }
    RecordIs(s.db, s.proc.(at := Certified), s.now, intents);
  }

  lemma HistoryBound(s: Sys, k: Key)
    requires Sound(s) && Claiming(s) && InHistory(s.proc.rows, k)
    ensures Bound(s.db, s.proc.device, k)
  {
    var i: nat :| 0 <= i < |s.proc.rows| && s.proc.rows[i].key == k;
    RowIs(s, i);
  }

  lemma ExecInstalled(s: Sys, t: Sys)
    requires Sound(s) && Ready(s) && t.runtime == Exec(s.runtime, PlanOf(s).value)
    ensures s.proc.device in s.db.devices && Installed(s, t, s.proc.device)
  {
    hide Sound, Exec, Distinct, Plan, InHistory;
    HistoryDistinct(s);
    var d := s.proc.device;
    PlanVerifies(s.cfg.policy, TargetOf(s.proc.dev), s.proc.rows, s.runtime);
    forall k | Old(s.db, d, k) ensures k !in t.runtime {
      var i := RowOf(s, k);
      RowIs(s, i);
    }
    forall k | !Bound(s.db, d, k) ensures SameAt(s.runtime, t.runtime, k) {
      if InHistory(s.proc.rows, k) { HistoryBound(s, k); }
    }
  }

  lemma ReadyLands(s: Sys)
    requires Sound(s) && Ready(s)
    ensures Landed(s, Run(s, Faultless(|PlanOf(s).value|)), s.proc.op, s.proc.device)
  {
    var t := Run(s, Faultless(|PlanOf(s).value|));
    FaultlessEnds(s);
    hide Sound, Ready, PlanOf, Installed, Certain, Run, Record, Intended, IntentResolved;
    RecordCertain(s, Intended(s));
    ExecInstalled(s, t);
    HistoryDistinct(s);
    forall i: IntentKey ensures IntentResolved(s, t, s.proc.op, s.proc.device, i) { RecordResolves(s, i, t); }
  }

  /** A claimed job is planned if and only if nothing foreign is in the way, and from there a
      run with every report good ends with the job finished and the desired state installed. */
  lemma ClaimedJobLands(cfg: Config, peers: Peers, now: int, history: seq<Event>)
    requires var s := Run(Start(cfg, peers, now), history); Claiming(s) && !PastDue(s.proc.dev, s.now)
    ensures var s := Run(Start(cfg, peers, now), history);
            var planned := Inspect(s, true);
            && (planned.proc.Held? && planned.proc.at.Planned? <==>
                  Unobstructed(s, s.proc.device, TargetOf(s.proc.dev)))
            && (Unobstructed(s, s.proc.device, TargetOf(s.proc.dev)) ==>
                  exists n :: Landed(s, Run(s, Faultless(n)), s.proc.op, s.proc.device))
  {
    ReachableSound(cfg, peers, now, history);
    var s := Run(Start(cfg, peers, now), history);
    hide Sound, Run, Plan, Unobstructed, Landed;
    PlansExactly(s);
    if Unobstructed(s, s.proc.device, TargetOf(s.proc.dev)) { ReadyLands(s); }
  }

  // ---------------------------------------------------------------- from the claim on

  function RowFor(db: Db, k: Key): Row
    requires k in db.bindings
  {
    var b := db.bindings[k];
    Row(k, b.address, true, b.revoked > 0, b.applied, HasIntent(db, k))
  }

  /** The claim's read: one row for each of the keys. */
  lemma {:induction false} ReadsRows(db: Db, ks: set<Key>) returns (rows: seq<Row>)
    requires ks <= db.bindings.Keys
    ensures Distinct(rows) && (forall i | 0 <= i < |rows| :: rows[i].key in ks && rows[i] == RowFor(db, rows[i].key))
    ensures forall k | k in ks :: InHistory(rows, k)
    decreases |ks|
  {
    if ks == {} {
      rows := [];
    } else {
      var k :| k in ks;
      var rest := ReadsRows(db, ks - {k});
      hide RowFor;
      rows := rest + [RowFor(db, k)];
      assert RowFor(db, k).key == k by { RowForKey(db, k); }
      forall j | j in ks ensures InHistory(rows, j) {
        if j == k {
          assert rows[|rest|].key == k;
        } else {
          assert InHistory(rest, j);
          var i :| 0 <= i < |rest| && rest[i].key == j;
          assert rows[i].key == j;
        }
      }
    }
  }

  lemma RowForKey(db: Db, k: Key)
    requires k in db.bindings
    ensures RowFor(db, k).key == k
  {
  }

  lemma HistoryExists(db: Db, d: DeviceId) returns (rows: seq<Row>)
    ensures IsHistory(db, d, rows) && KnowsIntents(db, rows)
  {
    var ks := set k | k in db.bindings && db.bindings[k].device == d;
    rows := ReadsRows(db, ks);
    hide HasIntent, Distinct;
  }

  predicate Claimable(s: Sys, o: OpId) {
    && Latest(s.db, o) && o in s.db.outbox && s.db.fence + 1 < MAX_GENERATION
    && !PastDue(s.db.devices[s.db.operations[o].device], s.now)
  }

  lemma ClaimStarts(s: Sys, o: OpId, rows: seq<Row>)
    requires s.proc.Free? && Claimable(s, o)
    requires IsHistory(s.db, s.db.operations[o].device, rows) && KnowsIntents(s.db, rows)
    ensures var d := s.db.operations[o].device;
            var t := Claim(s, o, rows, "", "");
            && Claiming(t) && t.proc.op == o && t.proc.device == d && t.proc.dev == s.db.devices[d] && t.now == s.now
            && t == s.(db := s.db.(fence := t.db.fence, outbox := t.db.outbox), proc := t.proc)
  {
    hide IsHistory, KnowsIntents, ExpireDevice;
  }

  lemma UnobstructedSame(s: Sys, t: Sys, d: DeviceId, target: Target)
    requires t.cfg == s.cfg && t.runtime == s.runtime && t.made == s.made && t.db.bindings == s.db.bindings
    ensures Unobstructed(s, d, target) == Unobstructed(t, d, target)
  {
    hide Permitted, Sits;
    assert forall k | k in s.db.bindings :: OwnKeyOk(s, k) == OwnKeyOk(t, k);
    assert forall k :: Old(s.db, d, k) == Old(t.db, d, k);
  }

  lemma LandedSame(s: Sys, u: Sys, t: Sys, o: OpId, d: DeviceId)
    requires Landed(u, t, o, d) && u.runtime == s.runtime && u.now == s.now
    requires u.db == s.db.(fence := u.db.fence, outbox := u.db.outbox)
    ensures Landed(s, t, o, d)
  {
    assert forall k :: Old(s.db, d, k) == Old(u.db, d, k);
    assert forall k :: Bound(s.db, d, k) == Bound(u.db, d, k);
    assert forall k :: Current(s.db, d, k) == Current(u.db, d, k);
    hide TargetOf, SameAt;
    forall i: IntentKey ensures IntentResolved(s, t, o, d, i) {
      assert IntentResolved(u, t, o, d, i);
      hide Installed, Certain, Old, Bound, Current;
    }
  }

  lemma FreeJobLands(s: Sys, o: OpId) returns (rows: seq<Row>, n: nat)
    requires Sound(s) && s.proc.Free? && Claimable(s, o)
    requires var d := s.db.operations[o].device; Unobstructed(s, d, TargetOf(s.db.devices[d]))
    ensures Landed(s, Run(Claim(s, o, rows, "", ""), Faultless(n)), o, s.db.operations[o].device)
  {
    hide Sound, Run, Unobstructed, Landed, Claim, Plan, IsHistory, KnowsIntents, TargetOf;
    var d := s.db.operations[o].device;
    rows := HistoryExists(s.db, d);
    ClaimStarts(s, o, rows);
    var u := Claim(s, o, rows, "", "");
    assert Sound(u) by { TakeSound(s, EClaim(o, rows, "", "")); }
    UnobstructedSame(s, u, d, TargetOf(s.db.devices[d]));
    PlansExactly(u);
    ReadyLands(u);
    n := |PlanOf(u).value|;
    LandedSame(s, u, Run(u, Faultless(n)), o, d);
  }

  function Processing(o: OpId, rows: seq<Row>, n: nat): seq<Event> {
    [Crash, EClaim(o, rows, "", "")] + Faultless(n)
  }

  lemma ProcessingRun(s: Sys, o: OpId, rows: seq<Row>, n: nat)
    ensures Run(s, Processing(o, rows, n)) == Run(Claim(s.(proc := Free), o, rows, "", ""), Faultless(n))
  {
    hide Run, Claim, Faultless;
    var first := [Crash, EClaim(o, rows, "", "")];
    assert first == [] + [Crash] + [EClaim(o, rows, "", "")];
    RunNone(s);
    Snoc(s, [], Crash);
    Snoc(s, [] + [Crash], EClaim(o, rows, "", ""));
    RunJoin(s, first, Faultless(n));
  }

  lemma CrashSound(s: Sys, o: OpId)
    requires Sound(s) && Claimable(s, o)
    ensures Sound(s.(proc := Free)) && Claimable(s.(proc := Free), o)
  {
    hide Sound;
    TakeSound(s, Crash);
  }

  lemma CrashLanded(s: Sys, t: Sys, o: OpId, d: DeviceId)
    requires Landed(s.(proc := Free), t, o, d)
    ensures Landed(s, t, o, d)
  {
    LandedSame(s, s.(proc := Free), t, o, d);
    hide Landed;
  }

  /** From every reachable state, whatever was going on, a crash and one fault-free Process of
      a device's latest job installs its desired state, if nothing foreign is in the way. */
  lemma EveryJobLands(cfg: Config, peers: Peers, now: int, history: seq<Event>, o: OpId)
    returns (rows: seq<Row>, n: nat)
    requires var s := Run(Start(cfg, peers, now), history);
             && Claimable(s, o)
             && (var d := s.db.operations[o].device; Unobstructed(s, d, TargetOf(s.db.devices[d])))
    ensures var s := Run(Start(cfg, peers, now), history);
            Landed(s, Run(s, Processing(o, rows, n)), o, s.db.operations[o].device)
  {
    ReachableSound(cfg, peers, now, history);
    var s := Run(Start(cfg, peers, now), history);
    var d := s.db.operations[o].device;
    hide Sound, Run, Unobstructed, Landed, Claim, TargetOf;
    CrashSound(s, o);
    UnobstructedSame(s, s.(proc := Free), d, TargetOf(s.db.devices[d]));
    rows, n := FreeJobLands(s.(proc := Free), o);
    ProcessingRun(s, o, rows, n);
    CrashLanded(s, Run(s, Processing(o, rows, n)), o, d);
  }
}
