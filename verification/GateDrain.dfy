/** Every gate can be wound down: whatever calls, operations and closes are still
    pending, finishing them leaves a gate that the next session may own. */
module GateDrain {
  import opened Prelude
  import opened GateModel
  import opened GateInvariants
  import opened GateTheorems

  // ---------------------------------------------------------------- admissions that hold nothing

  predicate TidyAt(s: State, a: AdmissionId)
    requires a in s.adms
  {
    && (s.adms[a].released ==> s.adms[a].cancelled)
    && (a in s.admissions && s.owner == "" ==> s.adms[a].cancelled)
    && (a in s.admissions && s.adms[a].released && s.adms[a].registrations == {} ==> s.cleaning)
  }

  /** A released admission that holds nothing is only kept while a cleanup runs, and without an
      owner every request is cancelled. */
  ghost predicate Tidy(s: State) {
    forall a | a in s.adms :: TidyAt(s, a)
  }

  /** The admissions and the cleanup flag are as they were, and nobody lost the gate. */
  predicate SameFloor(s: State, t: State) {
    && t.adms == s.adms && t.admissions == s.admissions && t.cleaning == s.cleaning
    && (t.owner == "" ==> s.owner == "" || t.admissions == {})
  }

  lemma FloorTidy(s: State, t: State)
    requires Tidy(s) && SameFloor(s, t)
    ensures Tidy(t)
  {
    forall a | a in t.adms ensures TidyAt(t, a) { assert TidyAt(s, a); }
  }

  lemma InvalidateTidy(s: State, owner: string)
    requires Tidy(s) && Quarantine(s)
    ensures Tidy(Invalidate(s, owner))
  {
    var t := Invalidate(s, owner);
    forall a | a in t.adms ensures TidyAt(t, a) { assert TidyAt(s, a); }
  }

  lemma JoinTidy(s: State, a: AdmissionId, r: RegistrationId)
    requires Tidy(s) && Quarantine(s)
    ensures Tidy(Acquire(s, a, r).0) && Tidy(Reserve(s, a, r).0)
  {
    InvalidateTidy(s, "");
    hide Invalidate;
    forall x | x in Acquire(s, a, r).0.adms ensures TidyAt(Acquire(s, a, r).0, x) {
      if x in s.adms { assert TidyAt(s, x); }
    }
    forall x | x in Reserve(s, a, r).0.adms ensures TidyAt(Reserve(s, a, r).0, x) { assert TidyAt(s, x); }
  }

  lemma AbortTidy(s: State, r: RegistrationId)
    requires Tidy(s)
    ensures Tidy(Abort(s, r))
  {
    forall x | x in Abort(s, r).adms ensures TidyAt(Abort(s, r), x) { assert TidyAt(s, x); }
  }

  lemma ReleaseTidy(s: State, r: RegistrationId)
    requires Tidy(s)
    ensures Tidy(Release(s, r))
  {
    forall x | x in Release(s, r).adms ensures TidyAt(Release(s, r), x) { assert TidyAt(s, x); }
  }

  lemma ReleaseAdmissionTidy(s: State, a: AdmissionId)
    requires Tidy(s)
    ensures Tidy(ReleaseAdmission(s, a))
  {
    var t := ReleaseAdmission(s, a);
    forall x | x in t.adms ensures TidyAt(t, x) { assert TidyAt(s, x); }
  }

  lemma WorkerReleaseTidy(s: State, r: RegistrationId)
    requires Tidy(s) && Quarantine(s)
    ensures Tidy(WorkerRelease(s, r))
  {
    var t := WorkerRelease(s, r);
    forall x | x in t.adms ensures TidyAt(t, x) { assert TidyAt(s, x); }
  }

  lemma FinishCleanupTidy(s: State)
    requires Tidy(s)
    ensures Tidy(FinishCleanup(s))
  {
    var t := FinishCleanup(s);
    forall x | x in t.adms ensures TidyAt(t, x) { assert TidyAt(s, x); }
  }

  lemma LateInvalidateTidy(s: State, r: RegistrationId)
    requires Tidy(s) && Quarantine(s)
    ensures Tidy(LateInvalidate(s, r))
  {
    if r in s.regs && s.regs[r].attach.LateClose? {
      var call := s.regs[r].attach;
      InvalidateTidy(s, call.owner);
      hide Invalidate;
      var t := if call.quarantined then s else Invalidate(s, call.owner);
      FloorTidy(t, LateInvalidate(s, r));
    }
  }

  lemma CloseStepTidy(s: State, r: RegistrationId)
    requires Tidy(s)
    ensures Tidy(CloseStep(s, r))
  {
    ReleaseTidy(s, r);
    var t := if HasFence(s, r) && s.regs[r].conn.fence.phase == Completed then Release(s, r) else s;
    hide Release, CloseNext;
    FloorTidy(t, CloseStep(s, r));
  }

  lemma ApplyTidy(s: State, e: Event)
    requires Tidy(s) && Quarantine(s)
    ensures Tidy(Apply(s, e))
  {
    hide Tidy, Quarantine;
    match e
    case EAcquire(a, r) => JoinTidy(s, a, r);
    case EReserve(a, r) => JoinTidy(s, a, r);
    case ELateInvalidate(r) => LateInvalidateTidy(s, r);
    case EAbort(r) => AbortTidy(s, r);
    case ERelease(r) => ReleaseTidy(s, r);
    case EReleaseAdmission(a) => ReleaseAdmissionTidy(s, a);
    case ECloseFor(owner) => InvalidateTidy(s, owner);
    case EWorkerRelease(r) => WorkerReleaseTidy(s, r);
    case EFinishCleanup => FinishCleanupTidy(s);
    case ECloseStep(r) => CloseStepTidy(s, r);
    case EOperationStep(o) => { hide OpNext; FloorTidy(s, Apply(s, e)); }
    case _ => FloorTidy(s, Apply(s, e));
  }

  ghost predicate Sound(s: State) { Inv(s) && Tidy(s) }

  lemma ApplySound(s: State, e: Event)
    requires Sound(s)
    ensures Sound(Apply(s, e))
  {
    assert Quarantine(s);
    hide Tidy, Inv, Apply, Quarantine;
    ApplyKeeps(s, e);
    ApplyTidy(s, e);
  }

  lemma {:induction false} RunSound(s: State, events: seq<Event>)
    requires Sound(s)
    ensures Sound(Run(s, events))
  {
    if events != [] {
      hide Sound, Apply;
      RunSound(s, events[..|events| - 1]);
      ApplySound(Run(s, events[..|events| - 1]), events[|events| - 1]);
    }
  }

  lemma ReachableSound(events: seq<Event>)
    ensures Sound(Run(INITIAL, events))
  {
    assert Sound(INITIAL) by { RunKeeps([]); assert Run(INITIAL, []) == INITIAL; hide Inv; }
    RunSound(INITIAL, events);
  }

  // ---------------------------------------------------------------- runs that only finish things

  /** Events that finish what was begun: nobody is admitted, nothing is reserved,
      attached, owned or granted, and no operation starts. */
  predicate Finishes(e: Event) {
    || (e.ECloseFor? && e.owner == "") || e.EAbort? || e.ELateInvalidate? || e.ELatePublish? || e.EReleaseAdmission?
    || e.EWorkerTake? || e.EWorkerRelease? || e.EFinishCleanup?
    || e.EOperationStep? || e.ECloseStep? || e.EPlainClose?
  }

  ghost predicate Winding(events: seq<Event>) { forall e | e in events :: Finishes(e) }

  /** Released registrations are left exactly as they are, and no activation starts. */
  ghost predicate Spared(s: State, t: State) {
    && t.activation == s.activation && t.regs.Keys == s.regs.Keys
    && forall r | r in s.regs && s.regs[r].released :: t.regs[r] == s.regs[r]
  }

  /** `events` winds `s` down to `t`. */
  ghost predicate Path(s: State, events: seq<Event>, t: State) {
    t == Run(s, events) && Winding(events) && Sound(t) && Spared(s, t)
  }

  lemma PathNone(s: State)
    requires Sound(s)
    ensures Path(s, [], s)
  {
  }

  lemma {:induction false} RunJoin(s: State, xs: seq<Event>, ys: seq<Event>)
    ensures Run(s, xs + ys) == Run(Run(s, xs), ys)
  {
    if ys == [] {
      assert xs + ys == xs;
    } else {
      var n := |ys| - 1;
      RunJoin(s, xs, ys[..n]);
      assert (xs + ys)[..|xs + ys| - 1] == xs + ys[..n];
      hide Apply;
    }
  }

  lemma PathJoin(s: State, xs: seq<Event>, t: State, ys: seq<Event>, u: State)
    requires Path(s, xs, t) && Path(t, ys, u)
    ensures Path(s, xs + ys, u)
  {
    RunJoin(s, xs, ys);
    hide Run, Sound;
  }

  lemma PathStep(s: State, e: Event, t: State)
    requires Sound(s) && Finishes(e) && t == Apply(s, e) && Spared(s, t)
    ensures Path(s, [e], t)
  {
    ApplySound(s, e);
    assert Run(s, []) == s;
    Snoc(s, [], e);
    assert [] + [e] == [e];
    hide Apply, Sound, Run;
  }

  /** One step, and then the rest. */
  lemma PathCons(s: State, e: Event, t: State, ys: seq<Event>, u: State)
    requires Path(s, [e], t) && Path(t, ys, u)
    ensures Path(s, [e] + ys, u)
  {
    PathJoin(s, [e], t, ys, u);
  }

  // ---------------------------------------------------------------- operations in flight

  function StagesLeft(g: Stage): nat {
    match g
    case Permitted => 7
    case Locked => 6
    case Checked => 5
    case Updated => 4
    case Repairing => 3
    case Finished => 2
    case Cleared => 1
  }

  /** Only fences and operations differ, and no fence is any nearer to being closed. */
  ghost predicate OnlyFences(s: State, t: State) {
    && t == s.(regs := t.regs, ops := t.ops) && t.regs.Keys == s.regs.Keys
    && forall r | r in s.regs :: SameButFence(s.regs[r], t.regs[r])
  }

  predicate SameButFence(x: Registration, y: Registration) {
    y == x || (x.conn.Fenced? && y.conn.Fenced? && y == x.(conn := y.conn) && y.conn.fence.phase == x.conn.fence.phase)
  }

  lemma OnlyFencesJoin(s: State, t: State, u: State)
    requires OnlyFences(s, t) && OnlyFences(t, u)
    ensures OnlyFences(s, u)
  {
    forall r | r in s.regs ensures SameButFence(s.regs[r], u.regs[r]) {
      assert SameButFence(s.regs[r], t.regs[r]) && SameButFence(t.regs[r], u.regs[r]);
    }
  }

  /** A released registration has no operation in flight. */
  lemma OperationIsLive(s: State, o: OperationId)
    requires Inv(s) && o in s.ops
    ensures HasFence(s, s.ops[o].reg) && OpOk(s, o)
    ensures !s.regs[s.ops[o].reg].released && s.regs[s.ops[o].reg].conn.fence.operations > 0
  {
    hide Structure, Clients, Activations, Quarantine, Bounded;
    assert OpOk(s, o);
    var r := s.ops[o].reg;
    SiblingsHold(s, r, o);
    assert o in OpsOf(s, r);
    assert RegOk(s.regs[r]);
  }

  predicate Unhindered(s: State, o: OperationId) {
    o in s.ops && HasFence(s, s.ops[o].reg)
    && (s.regs[s.ops[o].reg].conn.fence.holder == None || s.regs[s.ops[o].reg].conn.fence.holder == Some(o))
  }

  lemma OpNextForward(f: Fence, o: OperationId, op: Operation, live: bool, now: nat)
    requires !op.kind.DeadlineOp? ==> !InLock(op.stage)
    requires InLock(op.stage) <==> f.holder == Some(o)
    requires f.holder == None || f.holder == Some(o)
    ensures var next := OpNext(f, o, op, live, now);
            && next.0.phase == f.phase && (next.0.holder == None || next.0.holder == Some(o))
            && (next.1.Some? ==> StagesLeft(next.1.value) < StagesLeft(op.stage))
  {
  }

  lemma FenceOnly(s: State, r: RegistrationId, f: Fence, ops: map<OperationId, Operation>)
    requires r in s.regs && s.regs[r].conn.Fenced? && s.regs[r].conn.fence.phase == f.phase && !s.regs[r].released
    ensures OnlyFences(s, SetFence(s, r, f).(ops := ops)) && Spared(s, SetFence(s, r, f).(ops := ops))
  {
  }

  /** A step of an operation touches its own fence only. */
  lemma OperationStepLocal(s: State, o: OperationId)
    requires Inv(s) && o in s.ops
    ensures OnlyFences(s, OperationStep(s, o)) && Spared(s, OperationStep(s, o))
  {
    hide Inv, OpOk, OpNext, FenceLive, OnlyFences, Spared, SetFence;
    OperationIsLive(s, o);
    var op := s.ops[o];
    OpNextPhase(s.regs[op.reg].conn.fence, o, op, FenceLive(s, op.reg), s.now);
    FenceOnly(s, op.reg, OpNext(s.regs[op.reg].conn.fence, o, op, FenceLive(s, op.reg), s.now).0,
              OperationStep(s, o).ops);
  }

  /** An operation nobody else keeps out of the deadline mutex moves on. */
  lemma OperationMoves(s: State, o: OperationId)
    requires Inv(s) && Unhindered(s, o)
    ensures var t := OperationStep(s, o);
            t.ops.Keys == s.ops.Keys - {o}
            || (t.ops.Keys == s.ops.Keys && Unhindered(t, o) && StagesLeft(t.ops[o].stage) < StagesLeft(s.ops[o].stage))
  {
    hide Inv, OpNext, FenceLive, StagesLeft;
    OperationIsLive(s, o);
    var op := s.ops[o];
    OpNextForward(s.regs[op.reg].conn.fence, o, op, FenceLive(s, op.reg), s.now);
    hide OpOk;
  }

  lemma {:induction false} FinishOperation(s: State, o: OperationId) returns (events: seq<Event>, t: State)
    requires Sound(s) && Unhindered(s, o)
    ensures Path(s, events, t) && OnlyFences(s, t) && t.ops.Keys == s.ops.Keys - {o}
    decreases StagesLeft(s.ops[o].stage)
  {
    hide Inv, Tidy, OperationStep, OnlyFences, Spared, Run, Path, StagesLeft;
    var e := EOperationStep(o);
    var u := OperationStep(s, o);
    OperationMoves(s, o);
    OperationStepLocal(s, o);
    hide Unhindered, Sound;
    PathStep(s, e, u);
    ApplySound(s, e);
    if u.ops.Keys == s.ops.Keys - {o} {
      events, t := [e], u;
    } else {
      var rest, v := FinishOperation(u, o);
      PathCons(s, e, u, rest, v);
      OnlyFencesJoin(s, u, v);
      events, t := [e] + rest, v;
    }
  }

  /** Some operation is not kept waiting: the one inside the deadline mutex, if any is. */
  lemma SomeUnhindered(s: State) returns (o: OperationId)
    requires Inv(s) && s.ops != map[]
    ensures o in s.ops && Unhindered(s, o)
  {
    assert s.ops.Keys != {};
    var p :| p in s.ops;
    OperationIsLive(s, p);
    hide Structure, Clients, Activations, Quarantine, Bounded;
    var r := s.ops[p].reg;
    SiblingsHold(s, r, p);
    hide Permits;
    o := if s.regs[r].conn.fence.holder.Some? then s.regs[r].conn.fence.holder.value else p;
  }

  lemma {:induction false} FinishOperations(s: State) returns (events: seq<Event>, t: State)
    requires Sound(s)
    ensures Path(s, events, t) && OnlyFences(s, t) && t.ops == map[]
    decreases |s.ops.Keys|
  {
    hide Inv, Tidy, Unhindered, Run, Spared;
    if s.ops == map[] {
      PathNone(s);
      events, t := [], s;
    } else {
      hide OnlyFences;
      var o := SomeUnhindered(s);
      hide Sound;
      var xs, u := FinishOperation(s, o);
      assert Sound(u);
      hide Path;
      var ys, v := FinishOperations(u);
      PathJoin(s, xs, u, ys, v);
      OnlyFencesJoin(s, u, v);
      events, t := xs + ys, v;
    }
  }

  // ---------------------------------------------------------------- registrations still live

  function StepsToClose(c: Conn): nat {
    match c
    case NoConn => 0
    case Plain(closed) => if closed then 0 else 1
    case Fenced(f) => 6 - Rank(f.phase)
  }

  /** How many steps the cleanup worker's registration still needs. */
  function StepsToReap(reg: Registration): nat {
    if reg.released then 0
    else if reg.reap == Queued && reg.Ready() then 10
    else if reg.reap == Queued && reg.attach == LateReady then 11
    else if reg.reap == Queued then 12
    else 1 + StepsToClose(reg.conn)
  }

  function StepToReap(r: RegistrationId, reg: Registration): (e: Event)
    ensures Finishes(e)
  {
    if reg.reap == Queued && reg.Ready() then EWorkerTake(r)
    else if reg.reap == Queued && reg.attach == LateReady then ELatePublish(r)
    else if reg.reap == Queued && reg.attach.LateClose? then ELateInvalidate(r)
    else if reg.reap == Queued then EAbort(r)
    else if CloseReturned(reg.conn) then EWorkerRelease(r)
    else if reg.conn.Plain? then EPlainClose(r)
    else ECloseStep(r)
  }

  /** Closed to everybody, with no operation in flight. */
  predicate Still(s: State) { s.owner == "" && s.ops == map[] }

  /** Only registration `r` has changed, and the gate is as closed as before. */
  ghost predicate OnlyOne(s: State, t: State, r: RegistrationId) {
    && r in s.regs && r in t.regs && t.regs == s.regs[r := t.regs[r]]
    && t.owner == s.owner && t.ops == s.ops && t.activation == s.activation
  }

  /** What a live registration of a still gate looks like. */
  lemma LiveIsQueued(s: State, r: RegistrationId)
    requires Inv(s) && Still(s) && r in s.regs && !s.regs[r].released
    ensures var reg := s.regs[r];
            && RegOk(reg) && reg.admission in s.adms && (reg.reap == Queued || reg.reap == Closing)
            && (reg.conn.Fenced? ==> reg.conn.fence.holder == None && reg.conn.fence.operations == 0)
  {
    hide Clients, Activations, Bounded;
    assert Filed(s, r) && RegOk(s.regs[r]);
    hide Structure, Connections, Quarantine;
    if s.regs[r].conn.Fenced? {
      assert HasFence(s, r);
      SiblingsHold(s, r, 0);
      assert OpsOf(s, r) == {};
    }
  }

  lemma QueuedMoves(s: State, r: RegistrationId)
    requires r in s.regs && s.owner == "" && s.regs[r].admission in s.adms && RegOk(s.regs[r])
    requires !s.regs[r].released && s.regs[r].reap == Queued
    ensures var t := Apply(s, StepToReap(r, s.regs[r]));
            OnlyOne(s, t, r) && StepsToReap(t.regs[r]) < StepsToReap(s.regs[r])
  {
  }

  lemma ClosingMoves(s: State, r: RegistrationId)
    requires r in s.regs && s.regs[r].admission in s.adms && RegOk(s.regs[r])
    requires !s.regs[r].released && s.regs[r].reap == Closing
    requires s.regs[r].conn.Fenced? ==> s.regs[r].conn.fence.holder == None && s.regs[r].conn.fence.operations == 0
    ensures var t := Apply(s, StepToReap(r, s.regs[r]));
            OnlyOne(s, t, r) && StepsToReap(t.regs[r]) < StepsToReap(s.regs[r])
  {
  }

  lemma OnlyOneSpares(s: State, t: State, r: RegistrationId)
    requires OnlyOne(s, t, r) && !s.regs[r].released
    ensures Spared(s, t)
  {
  }

  lemma {:induction false} Reap(s: State, r: RegistrationId) returns (events: seq<Event>, t: State)
    requires Sound(s) && Still(s) && r in s.regs
    ensures Path(s, events, t) && OnlyOne(s, t, r) && t.regs[r].released
    decreases StepsToReap(s.regs[r])
  {
    hide Inv, Tidy, Run, Spared, Path, StepsToReap, Apply, StepToReap, RegOk, SameFloor;
    if s.regs[r].released {
      PathNone(s);
      events, t := [], s;
    } else {
      LiveIsQueued(s, r);
      var e := StepToReap(r, s.regs[r]);
      var u := Apply(s, e);
      if s.regs[r].reap == Queued { QueuedMoves(s, r); } else { ClosingMoves(s, r); }
      OnlyOneSpares(s, u, r);
      hide Sound;
      PathStep(s, e, u);
      ApplySound(s, e);
      var rest, v := Reap(u, r);
      PathCons(s, e, u, rest, v);
      events, t := [e] + rest, v;
    }
  }

  function Live(s: State): set<RegistrationId> { set r | r in s.regs && !s.regs[r].released }

  lemma {:induction false} ReapAll(s: State) returns (events: seq<Event>, t: State)
    requires Sound(s) && Still(s)
    ensures Path(s, events, t) && Still(t) && Live(t) == {}
    decreases |Live(s)|
  {
    hide Inv, Tidy, Run, Spared;
    if Live(s) == {} {
      PathNone(s);
      events, t := [], s;
    } else {
      var r :| r in Live(s);
      hide Sound;
      var xs, u := Reap(s, r);
      assert Sound(u);
      hide Path;
      assert Live(u) == Live(s) - {r};
      var ys, v := ReapAll(u);
      PathJoin(s, xs, u, ys, v);
      events, t := xs + ys, v;
    }
  }

  // ---------------------------------------------------------------- the floor

  lemma CleanupFinishes(s: State)
    requires Sound(s) && Still(s) && Live(s) == {}
    ensures Path(s, [EFinishCleanup], FinishCleanup(s))
    ensures var t := FinishCleanup(s); Still(t) && Live(t) == {} && !t.cleaning
  {
    assert BatchDone(s) by {
      forall r | r in s.regs ensures s.regs[r].reap != Queued && s.regs[r].reap != Closing {
        assert r !in Live(s);
        assert RegOk(s.regs[r]);
      }
    }
    hide Inv, Tidy, BatchDone;
    assert Live(FinishCleanup(s)) == Live(s);
    PathStep(s, EFinishCleanup, FinishCleanup(s));
  }

  lemma HoldsNothing(s: State, a: AdmissionId)
    requires Structure(s) && Clients(s) && Live(s) == {} && a in s.adms
    ensures s.adms[a].registrations == {} && s.adms[a].client in s.regs
  {
    forall r | r in s.adms[a].registrations ensures r in Live(s) { assert Filed(s, r); }
  }

  /** With nothing live and no cleanup, an admission still tracked is one to release. */
  lemma AdmissionRetires(s: State, a: AdmissionId)
    requires Sound(s) && Still(s) && Live(s) == {} && !s.cleaning && a in s.admissions
    ensures Path(s, [EReleaseAdmission(a)], ReleaseAdmission(s, a))
    ensures var t := ReleaseAdmission(s, a);
            Still(t) && Live(t) == {} && !t.cleaning && t.admissions == s.admissions - {a}
  {
    var t := ReleaseAdmission(s, a);
    assert a in s.adms && TidyAt(s, a);
    HoldsNothing(s, a);
    var c := s.adms[a].client;
    hide Inv, Tidy;
    assert c !in Live(s);
    assert t.regs == s.regs;
    PathStep(s, EReleaseAdmission(a), t);
  }

  lemma {:induction false} RetireAll(s: State) returns (events: seq<Event>, t: State)
    requires Sound(s) && Still(s) && Live(s) == {} && !s.cleaning
    ensures Path(s, events, t) && t.owner == "" && !t.cleaning && t.admissions == {}
    decreases |s.admissions|
  {
    hide Inv, Tidy, Run, Spared, Live;
    if s.admissions == {} {
      PathNone(s);
      events, t := [], s;
    } else {
      var a :| a in s.admissions;
      AdmissionRetires(s, a);
      var u := ReleaseAdmission(s, a);
      hide ReleaseAdmission;
      assert Sound(u);
      hide Sound, Path;
      var ys, v := RetireAll(u);
      PathCons(s, EReleaseAdmission(a), u, ys, v);
      events, t := [EReleaseAdmission(a)] + ys, v;
    }
  }

  // ---------------------------------------------------------------- every gate drains

  /** The gate is closed to whoever owns it; released registrations stay as they are. */
  lemma CloseGate(s: State)
    requires Sound(s)
    ensures Path(s, [ECloseFor("")], Invalidate(s, "")) && Invalidate(s, "").owner == ""
  {
    var t := Invalidate(s, "");
    assert Spared(s, t) by { hide Inv, Tidy; }
    hide Inv, Tidy, Spared, Invalidate;
    PathStep(s, ECloseFor(""), t);
  }

  lemma Drain(s: State) returns (events: seq<Event>, t: State)
    requires Sound(s)
    ensures Path(s, events, t) && t.owner == "" && !t.cleaning && t.admissions == {}
  {
    hide Inv, Tidy, Run, Spared, Live, Invalidate, FinishCleanup;
    CloseGate(s);
    var s1 := Invalidate(s, "");
    hide Sound;
    var e2, s2 := FinishOperations(s1);
    hide OnlyFences;
    PathJoin(s, [ECloseFor("")], s1, e2, s2);
    var e3, s3 := ReapAll(s2);
    PathJoin(s, [ECloseFor("")] + e2, s2, e3, s3);
    CleanupFinishes(s3);
    var s4 := FinishCleanup(s3);
    PathJoin(s, [ECloseFor("")] + e2 + e3, s3, [EFinishCleanup], s4);
    var e5, s5 := RetireAll(s4);
    PathJoin(s, [ECloseFor("")] + e2 + e3 + [EFinishCleanup], s4, e5, s5);
    events, t := [ECloseFor("")] + e2 + e3 + [EFinishCleanup] + e5, s5;
  }

  /** No reachable gate is stuck: finishing what is pending, without admitting, attaching
      or starting anything, always ends in a gate any session may own. */
  lemma EveryGateDrains(history: seq<Event>, session: string)
    ensures exists events :: Winding(events) && Own(Run(Run(INITIAL, history), events), session).1 == Accepted
  {
    ReachableSound(history);
    hide Sound, Run;
    var events, t := Drain(Run(INITIAL, history));
    assert Winding(events) && Own(Run(Run(INITIAL, history), events), session).1 == Accepted;
  }

  // ---------------------------------------------------------------- what a late Attach can still close

  ghost predicate Reaches(s: State, events: seq<Event>, r: RegistrationId) {
    r in Run(s, events).regs && ClosesAnother(Run(s, events), r)
  }

  /** The late call of `r` can no longer be overtaken: its registration is quarantined, or
      holds a fence that nobody but the call itself has. */
  predicate Pinned(s: State, r: RegistrationId) {
    && r in s.regs && s.regs[r].IsAttached()
    && (s.regs[r].attach.LateClose? ==> s.regs[r].Quarantined() || (s.regs[r].conn.Fenced? && !s.regs[r].handedOut))
  }

  lemma PinnedReachesOwn(s: State, r: RegistrationId)
    requires Inv(s) && Pinned(s, r)
    ensures !ClosesAnother(s, r)
  {
    assert RegOk(s.regs[r]);
    ReservedBefore(s, r);
    hide Structure, Clients, Activations, Quarantine, Connections, Permits, Bounded, LateInvalidate;
  }

  /** What a step may do to a call that has already attached its connection: the call is
      never begun again, and only its end or a repeated call hands the fence out. */
  predicate CallMoves(x: Registration, y: Registration, again: bool) {
    && (y.attach.LateClose? ==> y.attach == x.attach)
    && (x.IsAttached() ==> y.IsAttached())
    && (y.attach.LateClose? && y.handedOut ==> x.handedOut || again)
  }

  lemma JoinCall(s: State, e: Event, r: RegistrationId)
    requires r in s.regs && s.regs[r].IsAttached() && (e.EAcquire? || e.EReserve?)
    ensures r in Apply(s, e).regs && CallMoves(s.regs[r], Apply(s, e).regs[r], false)
  {
    InvalidateKeepsAttach(s, "", r);
    hide Invalidate;
  }

  lemma CloseCall(s: State, e: Event, r: RegistrationId)
    requires r in s.regs && s.regs[r].IsAttached() && (e.ECloseFor? || e.ELateInvalidate?)
    ensures r in Apply(s, e).regs && CallMoves(s.regs[r], Apply(s, e).regs[r], false)
  {
    hide Invalidate;
    if e.ECloseFor? {
      InvalidateKeepsAttach(s, e.owner, r);
    } else if e.r in s.regs && s.regs[e.r].attach.LateClose? {
      InvalidateKeepsAttach(s, s.regs[e.r].attach.owner, r);
    }
  }

  lemma OperationCall(s: State, e: Event, r: RegistrationId)
    requires r in s.regs && s.regs[r].IsAttached() && (e.EBegin? || e.EOperationStep?)
    ensures r in Apply(s, e).regs && CallMoves(s.regs[r], Apply(s, e).regs[r], false)
  {
    hide OpNext, FenceLive, PermitTaken, SetPermit;
  }

  lemma ReleaseCall(s: State, x: RegistrationId, r: RegistrationId)
    requires r in s.regs
    ensures r in Release(s, x).regs
    ensures Release(s, x).regs[r] == s.regs[r] || Release(s, x).regs[r] == s.regs[r].(released := true)
  {
  }

  lemma CloseStepCall(s: State, x: RegistrationId, r: RegistrationId)
    requires r in s.regs && s.regs[r].IsAttached()
    ensures r in CloseStep(s, x).regs && CallMoves(s.regs[r], CloseStep(s, x).regs[r], false)
  {
    hide CloseNext, Release;
    ReleaseCall(s, x, r);
  }

  lemma ApplyCall(s: State, e: Event, r: RegistrationId)
    requires r in s.regs && s.regs[r].IsAttached()
    ensures r in Apply(s, e).regs && CallMoves(s.regs[r], Apply(s, e).regs[r], e == EAttachAgain(r))
  {
    if e.EAcquire? || e.EReserve? {
      hide Apply;
      JoinCall(s, e, r);
    } else if e.ECloseFor? || e.ELateInvalidate? {
      hide Apply;
      CloseCall(s, e, r);
    } else if e.EBegin? || e.EOperationStep? {
      hide Apply;
      OperationCall(s, e, r);
    } else if e.ECloseStep? {
      hide CloseStep;
      CloseStepCall(s, e.r, r);
    }
  }

  lemma ApplyPinned(s: State, e: Event, r: RegistrationId)
    requires Inv(s) && Pinned(s, r)
    requires e == EAttachAgain(r) ==> s.regs[r].Quarantined()
    ensures Pinned(Apply(s, e), r) && (s.regs[r].Quarantined() ==> Apply(s, e).regs[r].Quarantined())
  {
    ApplyOnward(s, e);
    hide Inv;
    ApplyCall(s, e, r);
    assert Older(s.regs[r], Apply(s, e).regs[r]);
    hide Apply, Onward;
  }

  lemma {:induction false} RunPinned(s: State, events: seq<Event>, r: RegistrationId)
    requires Inv(s) && Pinned(s, r)
    requires EAttachAgain(r) in events ==> s.regs[r].Quarantined()
    ensures Inv(Run(s, events)) && Pinned(Run(s, events), r)
    ensures s.regs[r].Quarantined() ==> Run(s, events).regs[r].Quarantined()
  {
    if events != [] {
      hide Inv, Pinned, Apply;
      var n := |events| - 1;
      RunPinned(s, events[..n], r);
      ApplyKeeps(Run(s, events[..n]), events[n]);
      ApplyPinned(Run(s, events[..n]), events[n], r);
    }
  }

  /** The late call of `r` is pending and its registration may be released around it. */
  predicate Loose(s: State, r: RegistrationId) {
    && r in s.regs && s.regs[r].attach.LateClose? && !s.regs[r].Quarantined()
    && (s.regs[r].conn.Plain? || (s.regs[r].conn.Fenced? && s.regs[r].handedOut))
  }

  /** `events` releases `r` and leaves its late call pending. */
  ghost predicate Frees(s: State, events: seq<Event>, t: State, r: RegistrationId) {
    && t == Run(s, events) && Sound(t) && EAttachAgain(r) !in events
    && r in s.regs && r in t.regs && t.regs[r].attach == s.regs[r].attach
    && t.regs[r].released && !t.regs[r].Quarantined()
  }

  lemma ReleaseFrees(s: State, r: RegistrationId)
    requires Sound(s) && Loose(s, r) && !s.regs[r].released && s.regs[r].admission in s.adms
    requires s.regs[r].conn.Fenced? ==> s.regs[r].conn.fence.IsCompleted()
    ensures Frees(s, [ERelease(r)], Release(s, r), r)
  {
    hide Inv, Tidy;
    ApplySound(s, ERelease(r));
    hide Sound;
    assert Run(s, []) == s;
    Snoc(s, [], ERelease(r));
    assert [] + [ERelease(r)] == [ERelease(r)];
    hide Run;
  }

  /** A handed-out fence with nothing in flight comes one step closer to being closed. */
  lemma LooseCloses(s: State, r: RegistrationId)
    requires Inv(s) && s.ops == map[] && Loose(s, r) && s.regs[r].conn.Fenced? && !s.regs[r].conn.fence.IsCompleted()
    ensures s.regs[r].admission in s.adms
    ensures var t := CloseStep(s, r);
            && t.ops == map[] && Loose(t, r) && t.regs[r].conn.Fenced? && t.regs[r].attach == s.regs[r].attach
            && Rank(t.regs[r].conn.fence.phase) > Rank(s.regs[r].conn.fence.phase)
  {
    hide Clients, Activations, Bounded, Connections, Quarantine;
    assert Filed(s, r);
    hide Structure;
    assert HasFence(s, r);
    SiblingsHold(s, r, 0);
    assert OpsOf(s, r) == {};
    hide Permits;
  }

  lemma FreesCons(s: State, e: Event, ys: seq<Event>, v: State, r: RegistrationId)
    requires r in s.regs && e != EAttachAgain(r) && Frees(Apply(s, e), ys, v, r)
    requires Apply(s, e).regs[r].attach == s.regs[r].attach
    ensures Frees(s, [e] + ys, v, r)
  {
    hide Sound, Apply;
    assert Run(s, []) == s;
    Snoc(s, [], e);
    assert [] + [e] == [e];
    RunJoin(s, [e], ys);
    hide Run;
  }

  lemma {:induction false} CloseLoose(s: State, r: RegistrationId) returns (events: seq<Event>, t: State)
    requires Sound(s) && s.ops == map[] && Loose(s, r) && s.regs[r].conn.Fenced?
    ensures Frees(s, events, t, r)
    decreases 6 - Rank(s.regs[r].conn.fence.phase)
  {
    hide Clients, Activations, Bounded, Connections, Quarantine, Permits, Tidy, Frees, CloseStep, Release, Run;
    if s.regs[r].released {
      events, t := NothingFrees(s, r);
    } else if s.regs[r].conn.fence.IsCompleted() {
      assert Filed(s, r);
      hide Structure;
      ReleaseFrees(s, r);
      events, t := [ERelease(r)], Release(s, r);
    } else {
      hide Structure;
      LooseCloses(s, r);
      var e := ECloseStep(r);
      ApplySound(s, e);
      hide Inv, Sound, Loose;
      var rest, v := CloseLoose(CloseStep(s, r), r);
      FreesCons(s, e, rest, v, r);
      events, t := [e] + rest, v;
    }
  }

  lemma NothingFrees(s: State, r: RegistrationId) returns (events: seq<Event>, t: State)
    requires Sound(s) && Loose(s, r) && s.regs[r].released
    ensures Frees(s, events, t, r)
  {
    hide Inv, Tidy;
    events, t := [], s;
  }

  lemma FreesAfter(s: State, xs: seq<Event>, u: State, ys: seq<Event>, v: State, r: RegistrationId)
    requires Path(s, xs, u) && r in s.regs && r in u.regs && u.regs[r].attach == s.regs[r].attach && Frees(u, ys, v, r)
    ensures Frees(s, xs + ys, v, r)
  {
    RunJoin(s, xs, ys);
    hide Run, Sound, Spared;
  }

  /** Whatever is in flight, a loose registration can be released around its late call. */
  lemma FreeLoose(s: State, r: RegistrationId) returns (events: seq<Event>, t: State)
    requires Sound(s) && Loose(s, r)
    ensures Frees(s, events, t, r)
  {
    hide Clients, Activations, Bounded, Connections, Quarantine, Permits, Tidy, Frees, Release, Run, Spared;
    if s.regs[r].released {
      events, t := NothingFrees(s, r);
    } else if s.regs[r].conn.Plain? {
      assert Filed(s, r);
      hide Structure;
      ReleaseFrees(s, r);
      events, t := [ERelease(r)], Release(s, r);
    } else {
      hide Inv;
      var xs, u := FinishOperations(s);
      assert SameButFence(s.regs[r], u.regs[r]);
      hide OnlyFences;
      var ys, v := CloseLoose(u, r);
      FreesAfter(s, xs, u, ys, v, r);
      events, t := xs + ys, v;
    }
  }

  /** On a drained gate, the next activation under the name a pending call of a released
      registration remembers is one that call closes. */
  lemma OwnedAgain(u: State, r: RegistrationId)
    requires Inv(u) && u.owner == "" && !u.cleaning && u.admissions == {}
    requires r in u.regs && u.regs[r].attach.LateClose? && !u.regs[r].Quarantined()
    ensures ClosesAnother(Own(u, u.regs[r].attach.owner).0, r)
  {
    assert RegOk(u.regs[r]);
    ReservedBefore(u, r);
    hide Inv;
  }

  /** Drained and owned again under the name the pending call remembers, the gate is
      what that call closes. */
  lemma FreedReaches(s: State, xs: seq<Event>, t: State, r: RegistrationId) returns (events: seq<Event>)
    requires Frees(s, xs, t, r) && t.regs[r].attach.LateClose?
    ensures Reaches(s, events, r) && EAttachAgain(r) !in events
  {
    hide Run, Inv, Tidy;
    var ys, u := Drain(t);
    var owner := t.regs[r].attach.owner;
    assert u.regs[r] == t.regs[r];
    OwnedAgain(u, r);
    hide Spared, Own, ClosesAnother;
    RunJoin(s, xs, ys);
    Snoc(s, xs + ys, EOwn(owner));
    events := xs + ys + [EOwn(owner)];
  }

  /** A late call whose AttachFenced is not repeated can come to close an activation it
      was not reserved under if and only if its registration is not quarantined and holds
      a plain connection or a fence that was already handed out. */
  lemma LateAttachOnce(history: seq<Event>, r: RegistrationId)
    requires var s := Run(INITIAL, history); r in s.regs && s.regs[r].attach.LateClose?
    ensures var s := Run(INITIAL, history);
            (exists events :: EAttachAgain(r) !in events && Reaches(s, events, r))
            <==> !s.regs[r].Quarantined() && (s.regs[r].conn.Plain? || s.regs[r].handedOut)
  {
    var s := Run(INITIAL, history);
    ReachableSound(history);
    assert RegOk(s.regs[r]);
    hide Inv, Tidy, Run;
    if Loose(s, r) {
      var events := LooseReaches(s, r);
    } else {
      forall events | EAttachAgain(r) !in events ensures !Reaches(s, events, r) {
        RunPinned(s, events, r);
        PinnedReachesOwn(Run(s, events), r);
      }
    }
  }

  lemma ReachesAfter(s: State, e: Event, events: seq<Event>, r: RegistrationId)
    requires Reaches(Apply(s, e), events, r)
    ensures Reaches(s, [e] + events, r)
  {
    hide Apply, ClosesAnother;
    assert Run(s, []) == s;
    Snoc(s, [], e);
    assert [] + [e] == [e];
    RunJoin(s, [e], events);
    hide Run;
  }

  /** A repeated AttachFenced hands the fence of a pending call out. */
  lemma RepeatLoosens(s: State, r: RegistrationId)
    requires Sound(s) && r in s.regs && s.regs[r].attach.LateClose? && !s.regs[r].Quarantined()
             && s.regs[r].conn.Fenced?
    ensures Sound(AttachAgain(s, r)) && Loose(AttachAgain(s, r), r)
  {
    hide Clients, Activations, Quarantine, Connections, Permits, Bounded, Tidy;
    assert Filed(s, r);
    assert Apply(s, EAttachAgain(r)) == AttachAgain(s, r);
    hide Inv, Apply;
    ApplySound(s, EAttachAgain(r));
    hide Sound;
  }

  lemma LooseReaches(s: State, r: RegistrationId) returns (events: seq<Event>)
    requires Sound(s) && Loose(s, r)
    ensures Reaches(s, events, r) && EAttachAgain(r) !in events
  {
    hide Sound, Run, Reaches;
    var xs, t := FreeLoose(s, r);
    events := FreedReaches(s, xs, t, r);
  }

  lemma UnquarantinedReaches(s: State, r: RegistrationId) returns (events: seq<Event>)
    requires Sound(s) && r in s.regs && s.regs[r].attach.LateClose? && !s.regs[r].Quarantined()
    ensures Reaches(s, events, r)
  {
    hide Structure, Clients, Activations, Quarantine, Permits, Bounded, Tidy, Run, Reaches;
    assert RegOk(s.regs[r]);
    hide Inv, FenceOk, AttachAgain;
    if Loose(s, r) {
      events := LooseReaches(s, r);
    } else {
      RepeatLoosens(s, r);
      hide Sound, Loose;
      var rest := LooseReaches(AttachAgain(s, r), r);
      ReachesAfter(s, EAttachAgain(r), rest, r);
      events := [EAttachAgain(r)] + rest;
    }
  }

  /** With AttachFenced repeated, exactly the calls of quarantined registrations are safe. */
  lemma LateAttachExactly(history: seq<Event>, r: RegistrationId)
    requires var s := Run(INITIAL, history); r in s.regs && s.regs[r].attach.LateClose?
    ensures var s := Run(INITIAL, history);
            (exists events :: Reaches(s, events, r)) <==> !s.regs[r].Quarantined()
  {
    var s := Run(INITIAL, history);
    ReachableSound(history);
    hide Inv, Tidy, Run;
    if s.regs[r].Quarantined() {
      forall events ensures !Reaches(s, events, r) {
        RunPinned(s, events, r);
        PinnedReachesOwn(Run(s, events), r);
      }
    } else {
      var events := UnquarantinedReaches(s, r);
    }
  }
}
