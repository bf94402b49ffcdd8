/** What the gate promises over whole runs. */
module GateTheorems {
  import opened Prelude
  import opened GateModel
  import opened GateInvariants

  // ---------------------------------------------------------------- reaping before ownership

  /** Nothing of this registration is left: it was aborted as never created, or its
      transport close has returned with no operation in flight on it. A plain connection
      that no cleanup took was released by its caller, whose rule is to call Release only
      once the transport is closed. */
  ghost predicate ReapedFor(s: State, r: RegistrationId)
    requires r in s.regs
  {
    && s.regs[r].released
    && match s.regs[r].conn
       case NoConn => s.regs[r].aborted
       case Plain(closed) => closed || !s.regs[r].Quarantined()
       case Fenced(f) => f.IsCompleted() && f.TransportClosed() && f.operations == 0 && OpsOf(s, r) == {}
  }

  /** From any reachable gate: ownership only over an empty floor. */
  lemma ReapedAtOwn(s: State, session: string)
    requires Inv(s) && Own(s, session).1 == Accepted
    ensures forall r | r in s.regs :: ReapedFor(s, r) && s.regs[r].activation < Own(s, session).0.activation
  {
    NobodyLive(s);
    forall r | r in s.regs ensures ReapedFor(s, r) && s.regs[r].activation <= s.activation {
      assert RegOk(s.regs[r]);
      ReservedBefore(s, r);
      hide Structure;
    }
  }

  /** Whenever own makes a session the owner, everything reserved under any earlier
      activation has been reaped: aborted as never created, or physically closed with no
      permit in flight. */
  lemma ReapedBeforeOwnership(events: seq<Event>, session: string)
    requires Own(Run(INITIAL, events), session).1 == Accepted
    ensures var s := Run(INITIAL, events);
            forall r | r in s.regs :: ReapedFor(s, r) && s.regs[r].activation < Own(s, session).0.activation
  {
    RunKeeps(events);
    hide Inv, Run;
    ReapedAtOwn(Run(INITIAL, events), session);
  }

  lemma ReservedBefore(s: State, r: RegistrationId)
    requires Structure(s) && Activations(s) && r in s.regs
    ensures s.regs[r].activation <= s.activation
    ensures !s.regs[r].released ==> s.regs[r].activation == s.activation
  {
    assert Filed(s, r);
    assert s.regs[r].admission in s.admissions || s.regs[r].released;
  }

  /** One live registration, reserved or attached, is enough to refuse every session. */
  lemma LiveBlocksOwnership(events: seq<Event>, session: string, r: RegistrationId)
    requires var s := Run(INITIAL, events); r in s.regs && !s.regs[r].released
    ensures Own(Run(INITIAL, events), session).1 == ErrCleanupUnknown
  {
    RunKeeps(events);
    var s := Run(INITIAL, events);
    hide Run, Clients, Activations, Quarantine, Connections, Permits, Bounded;
    assert Filed(s, r);
    assert s.regs[r].admission in s.admissions;
  }

  // ---------------------------------------------------------------- no permit after invalidation

  /** Activation `k` and everything before it is over. */
  ghost predicate Barrier(s: State, k: nat) {
    && (s.activation > k || s.owner == "")
    && k <= s.activation
    && forall r | r in s.regs && s.regs[r].activation <= k :: s.regs[r].Quarantined() || s.regs[r].released
  }

  lemma InvalidateRaisesBarrier(s: State, owner: string)
    requires Inv(s) && (owner == "" || s.owner == owner)
    ensures Barrier(Invalidate(s, owner), s.activation)
  {
    hide Clients, Activations, Connections, Permits, Bounded;
    DoomedIsLive(s);
    hide Structure, Doomed;
  }

  function Rank(p: ClosePhase): nat {
    match p
    case NotStarted => 0
    case Marked => 1
    case Cut => 2
    case Severed => 3
    case Drained => 4
    case Completed => 5
    case Done => 6
  }

  /** A registration only ever moves on: it keeps its place, its flags stay set, its
      fence stays and the fence's close never goes back. */
  predicate Older(x: Registration, y: Registration) {
    && y.activation == x.activation && y.admission == x.admission
    && (x.Quarantined() ==> y.Quarantined())
    && (x.released ==> y.released)
    && (x.conn.Fenced? ==> y.conn.Fenced? && Rank(x.conn.fence.phase) <= Rank(y.conn.fence.phase))
  }

  /** What every step does to what was there, and when it may add something. */
  ghost predicate Onward(s: State, t: State) {
    && (forall a | a in s.adms :: a in t.adms)
    && (forall r | r in s.regs :: r in t.regs && Older(s.regs[r], t.regs[r]))
    && (forall r | r in t.regs && r !in s.regs :: s.owner != "" && t.regs[r].activation == s.activation)
    && (if t.activation == s.activation then t.owner == s.owner || t.owner == ""
        else t.activation > s.activation && forall r | r in s.regs :: s.regs[r].released)
  }

  /** A step that changes at most registration `r`, and no ownership, only moves on. */
  ghost predicate Local(s: State, t: State, r: RegistrationId) {
    && t.owner == s.owner && t.activation == s.activation
    && (forall a | a in s.adms :: a in t.adms)
    && (t.regs == s.regs || (r in s.regs && r in t.regs && t.regs == s.regs[r := t.regs[r]]
                && Older(s.regs[r], t.regs[r])))
  }

  lemma LocalOnward(s: State, t: State, r: RegistrationId)
    requires Local(s, t, r)
    ensures Onward(s, t)
  {
  }

  lemma InvalidateOnward(s: State, owner: string)
    ensures Onward(s, Invalidate(s, owner))
  {
    forall r | r in s.regs ensures r in Invalidate(s, owner).regs && Older(s.regs[r], Invalidate(s, owner).regs[r]) {
      InvalidateKeepsAttach(s, owner, r);
    }
  }

  lemma AcquireOnward(s: State, a: AdmissionId, r: RegistrationId)
    ensures Onward(s, Acquire(s, a, r).0)
  {
    if Acquire(s, a, r).1 != Accepted {
      InvalidateOnward(s, "");
      LocalOnward(s, s, r);
      hide Onward, Invalidate;
    }
  }

  lemma ReserveOnward(s: State, a: AdmissionId, r: RegistrationId)
    requires Structure(s) && Activations(s)
    ensures Onward(s, Reserve(s, a, r).0)
  {
    if Reserve(s, a, r).1 != Accepted {
      InvalidateOnward(s, "");
      LocalOnward(s, s, r);
      hide Onward, Invalidate;
    } else {
      assert a in s.admissions && s.adms[a].activation == s.activation;
      hide Structure, Activations;
    }
  }

  lemma AttachOnward(s: State, r: RegistrationId)
    requires Connections(s)
    ensures Onward(s, AttachPlain(s, r).0) && Onward(s, AttachFenced(s, r).0)
  {
    hide Onward;
    if r in s.regs { assert RegOk(s.regs[r]); }
    hide Connections;
    LocalOnward(s, AttachPlain(s, r).0, r);
    LocalOnward(s, AttachFenced(s, r).0, r);
  }

  lemma AttachAgainOnward(s: State, r: RegistrationId)
    requires Connections(s)
    ensures Onward(s, AttachAgain(s, r)) && Onward(s, LatePublish(s, r))
  {
    hide Onward;
    if r in s.regs { assert RegOk(s.regs[r]); }
    hide Connections;
    LocalOnward(s, AttachAgain(s, r), r);
    LocalOnward(s, LatePublish(s, r), r);
  }

  lemma SameOnward(s: State)
    ensures Onward(s, s)
  {
  }

  /** Where an Attach call stands does not matter to what moves on. */
  lemma CallOnward(s: State, t: State, r: RegistrationId)
    requires Onward(s, t) && r in t.regs
    ensures Onward(s, SetReg(t, r, t.regs[r].(attach := LateReady)))
  {
  }

  lemma LateInvalidateOnward(s: State, r: RegistrationId)
    ensures Onward(s, LateInvalidate(s, r))
  {
    SameOnward(s);
    if r in s.regs && s.regs[r].attach.LateClose? {
      InvalidateOnward(s, s.regs[r].attach.owner);
      hide Invalidate, Onward;
      var t := if s.regs[r].attach.quarantined then s else Invalidate(s, s.regs[r].attach.owner);
      if r in t.regs { CallOnward(s, t, r); }
    }
  }

  lemma ReleaseOnward(s: State, r: RegistrationId)
    ensures Onward(s, Release(s, r)) && Onward(s, Abort(s, r))
  {
    hide Onward;
    LocalOnward(s, Release(s, r), r);
    LocalOnward(s, Abort(s, r), r);
  }

  lemma WorkerOnward(s: State, r: RegistrationId)
    ensures Onward(s, WorkerTake(s, r)) && Onward(s, WorkerRelease(s, r)) && Onward(s, PlainClose(s, r))
  {
    hide Onward;
    LocalOnward(s, WorkerTake(s, r), r);
    LocalOnward(s, WorkerRelease(s, r), r);
    LocalOnward(s, PlainClose(s, r), r);
  }

  lemma RetireOnward(s: State, a: AdmissionId)
    ensures Onward(s, ReleaseAdmission(s, a)) && Onward(s, FinishCleanup(s))
  {
    hide Onward;
    LocalOnward(s, ReleaseAdmission(s, a), if a in s.adms then s.adms[a].client else 0);
    LocalOnward(s, FinishCleanup(s), 0);
  }

  lemma OwnOnward(s: State, session: string)
    requires Structure(s)
    ensures Onward(s, Own(s, session).0)
  {
    if Own(s, session).1 == Accepted { NobodyLive(s); }
    hide Structure;
  }

  lemma OpNextPhase(f: Fence, o: OperationId, op: Operation, live: bool, now: nat)
    ensures OpNext(f, o, op, live, now).0.phase == f.phase
  {
  }

  lemma OperationOnward(s: State, r: RegistrationId, o: OperationId, k: Kind)
    ensures Onward(s, Begin(s, r, o, k).0) && Onward(s, OperationStep(s, o))
  {
    hide Onward;
    LocalOnward(s, Begin(s, r, o, k).0, r);
    if o in s.ops && HasFence(s, s.ops[o].reg) {
      var x := s.ops[o].reg;
      OpNextPhase(s.regs[x].conn.fence, o, s.ops[o], FenceLive(s, x), s.now);
      hide OpNext;
      LocalOnward(s, OperationStep(s, o), x);
    } else {
      LocalOnward(s, s, r);
    }
  }

  lemma CloseNextRank(f: Fence, mayStart: bool, now: nat)
    ensures Rank(f.phase) <= Rank(CloseNext(f, mayStart, now).phase)
  {
  }

  lemma CloseOnward(s: State, r: RegistrationId)
    ensures Onward(s, CloseStep(s, r))
  {
    hide Onward;
    if !HasFence(s, r) {
      LocalOnward(s, s, r);
    } else if s.regs[r].conn.fence.phase == Completed {
      assert Local(s, Release(s, r), r);
      ReleaseSameConn(s, r);
      hide Release;
      LocalOnward(s, CloseStep(s, r), r);
    } else {
      var reg := s.regs[r];
      CloseNextRank(reg.conn.fence, reg.handedOut || reg.reap == Closing, s.now);
      hide CloseNext, Release;
      LocalOnward(s, CloseStep(s, r), r);
    }
  }

  lemma ApplyOnward(s: State, e: Event)
    requires Structure(s) && Activations(s) && Connections(s)
    ensures Onward(s, Apply(s, e))
  {
    hide Onward, Structure, Activations, Connections;
    match e {
      case Tick(d) => LocalOnward(s, Apply(s, e), 0);
      case EGrant(x, u, c) => LocalOnward(s, Apply(s, e), 0);
      case EAcquire(a, r) => AcquireOnward(s, a, r);
      case EReserve(a, r) => ReserveOnward(s, a, r);
      case EAttachPlain(r) => AttachOnward(s, r);
      case EAttachFenced(r) => AttachOnward(s, r);
      case EAttachAgain(r) => AttachAgainOnward(s, r);
      case ELatePublish(r) => AttachAgainOnward(s, r);
      case ELateInvalidate(r) => LateInvalidateOnward(s, r);
      case ECloseFor(owner) => InvalidateOnward(s, owner);
      case EAbort(r) => ReleaseOnward(s, r);
      case ERelease(r) => ReleaseOnward(s, r);
      case EWorkerTake(r) => WorkerOnward(s, r);
      case EWorkerRelease(r) => WorkerOnward(s, r);
      case EPlainClose(r) => WorkerOnward(s, r);
      case EReleaseAdmission(a) => RetireOnward(s, a);
      case EFinishCleanup => RetireOnward(s, 0);
      case EOwn(session) => OwnOnward(s, session);
      case EBegin(r, o, k) => OperationOnward(s, r, o, k);
      case EOperationStep(o) => OperationOnward(s, 0, o, WriteOp);
      case ECloseStep(r) => CloseOnward(s, r);
    }
  }

  lemma ApplyKeepsBarrier(s: State, e: Event, k: nat)
    requires Inv(s) && Barrier(s, k)
    ensures Barrier(Apply(s, e), k)
  {
    ApplyOnward(s, e);
    hide Inv, Apply;
  }

  lemma {:induction false} BarrierHolds(s: State, events: seq<Event>, k: nat)
    requires Inv(s) && Barrier(s, k)
    ensures Inv(Run(s, events)) && Barrier(Run(s, events), k)
  {
    if events != [] {
      hide Inv, Barrier, Apply;
      var before := events[..|events| - 1];
      BarrierHolds(s, before, k);
      ApplyKeeps(Run(s, before), events[|events| - 1]);
      ApplyKeepsBarrier(Run(s, before), events[|events| - 1], k);
    }
  }

  /** After an invalidation step no write permit and no ordinary deadline permit is ever
      granted again on a connection of that activation, or of one before it. */
  lemma NoPermitAfterInvalidation(before: seq<Event>, owner: string, after: seq<Event>,
                                  r: RegistrationId, o: OperationId, k: Kind)
    requires owner == "" || Run(INITIAL, before).owner == owner
    requires var t := Run(Invalidate(Run(INITIAL, before), owner), after);
             r in t.regs && t.regs[r].activation <= Run(INITIAL, before).activation
    requires !k.RevokeOp?
    ensures var t := Run(Invalidate(Run(INITIAL, before), owner), after); Begin(t, r, o, k).1 != Accepted
  {
    var s := Run(INITIAL, before);
    RunKeeps(before);
    InvalidateRaisesBarrier(s, owner);
    InvalidateKeeps(s, owner);
    BarrierHolds(Invalidate(s, owner), after, s.activation);
    hide Inv, Invalidate, Run;
  }

  // ---------------------------------------------------------------- closed connections stay closed

  /** A fenced connection stays fenced and its close never goes back. */
  ghost predicate Closer(s: State, t: State, r: RegistrationId) {
    HasFence(s, r) ==> HasFence(t, r) && Rank(s.regs[r].conn.fence.phase) <= Rank(t.regs[r].conn.fence.phase)
  }

  lemma {:induction false} RunCloser(s: State, events: seq<Event>, r: RegistrationId)
    requires Inv(s)
    ensures Inv(Run(s, events)) && Closer(s, Run(s, events), r)
  {
    if events != [] {
      var before := events[..|events| - 1];
      RunCloser(s, before, r);
      ApplyOnward(Run(s, before), events[|events| - 1]);
      hide Inv, Apply;
      ApplyKeeps(Run(s, before), events[|events| - 1]);
    }
  }

  /** Once a fenced Close has waited for its permits, no write, deadline update or
      revocation is running on the connection or can start, in any later state. */
  lemma ClosedIsQuiet(before: seq<Event>, after: seq<Event>, r: RegistrationId, o: OperationId, k: Kind)
    requires HasFence(Run(INITIAL, before), r) && Run(INITIAL, before).regs[r].conn.fence.HasDrained()
    ensures var t := Run(Run(INITIAL, before), after);
            && HasFence(t, r) && OpsOf(t, r) == {} && t.regs[r].conn.fence.operations == 0
            && Begin(t, r, o, k).1 != Accepted
  {
    var t := Run(Run(INITIAL, before), after);
    RunKeeps(before);
    hide Inv;
    RunCloser(Run(INITIAL, before), after, r);
    hide Run;
    QuietNow(t, r, o, k);
  }

  lemma QuietNow(t: State, r: RegistrationId, o: OperationId, k: Kind)
    requires Inv(t) && HasFence(t, r) && t.regs[r].conn.fence.HasDrained()
    ensures OpsOf(t, r) == {} && t.regs[r].conn.fence.operations == 0 && Begin(t, r, o, k).1 != Accepted
  {
    hide Structure, Clients, Activations, Quarantine, Bounded;
    assert RegOk(t.regs[r]);
    SiblingsHold(t, r, o);
  }

  /** Once Close has been through the deadline mutex, the transport's deadlines are never
      in the future again, whatever permitted updates were still racing with it. */
  lemma CutDeadlinesStayPast(before: seq<Event>, after: seq<Event>, r: RegistrationId)
    requires HasFence(Run(INITIAL, before), r) && Run(INITIAL, before).regs[r].conn.fence.PastCut()
    ensures var t := Run(Run(INITIAL, before), after);
            && HasFence(t, r)
            && Past(t.regs[r].conn.fence.readDeadline, t.now) && Past(t.regs[r].conn.fence.writeDeadline, t.now)
  {
    var t := Run(Run(INITIAL, before), after);
    RunKeeps(before);
    hide Inv;
    RunCloser(Run(INITIAL, before), after, r);
    hide Run;
    PastNow(t, r);
  }

  lemma PastNow(t: State, r: RegistrationId)
    requires Inv(t) && HasFence(t, r) && t.regs[r].conn.fence.PastCut()
    ensures Past(t.regs[r].conn.fence.readDeadline, t.now) && Past(t.regs[r].conn.fence.writeDeadline, t.now)
  {
    hide Structure, Clients, Activations, Quarantine, Bounded;
    SiblingsHold(t, r, 0);
  }

  /** At most one write, one deadline update and one revocation hold a permit on a connection. */
  lemma OnePermitPerKind(events: seq<Event>, o: OperationId, p: OperationId)
    requires var s := Run(INITIAL, events);
             && o in s.ops && p in s.ops && s.ops[o].reg == s.ops[p].reg
             && SameKind(s.ops[o].kind, s.ops[p].kind)
             && s.ops[o].stage != Cleared && s.ops[p].stage != Cleared
    ensures o == p
  {
    RunKeeps(events);
    hide Run;
  }

  // ---------------------------------------------------------------- late attach

  /** The late Attach call of `r` is about to close an activation it was not reserved under. */
  predicate ClosesAnother(s: State, r: RegistrationId)
    requires r in s.regs
  {
    && s.regs[r].attach.LateClose?
    && s.owner != "" && s.activation != s.regs[r].activation
    && LateInvalidate(s, r).owner == ""
  }

  /** A fenced connection that has not been handed out by a repeated AttachFenced call
      cannot be released mid-call, so its late call only ever reaches its own activation. */
  lemma LateFencedReachesOwnActivation(events: seq<Event>, r: RegistrationId)
    requires var s := Run(INITIAL, events);
             r in s.regs && s.regs[r].attach.LateClose? && s.regs[r].conn.Fenced? && !s.regs[r].handedOut
    ensures var s := Run(INITIAL, events);
            && !s.regs[r].released && s.activation == s.regs[r].activation && !ClosesAnother(s, r)
  {
    RunKeeps(events);
    var s := Run(INITIAL, events);
    ReservedBefore(s, r);
    assert RegOk(s.regs[r]);
    hide Run, Structure, Clients, Activations, Quarantine, Permits, Bounded;
  }

  /** The ready channel of a registration is closed at most once: never twice, which would panic. */
  lemma ReadyClosedOnce(events: seq<Event>, r: RegistrationId)
    requires r in Run(INITIAL, events).regs
    ensures Run(INITIAL, events).regs[r].readyCloses <= 1
  {
    RunKeeps(events);
    assert RegOk(Run(INITIAL, events).regs[r]);
  }

  // ---------------------------------------------------------------- bounded cleanup

  function DoomedIn(s: State, among: set<AdmissionId>): set<RegistrationId> {
    set a, r | a in among && a in s.adms && r in s.adms[a].registrations
               && r in s.regs && !s.regs[r].released :: r
  }

  lemma {:induction false} DoomedBound(s: State, among: set<AdmissionId>)
    requires Bounded(s)
    ensures |DoomedIn(s, among)| <= MAX_TRACKED * |among|
  {
    if among == {} {
      assert DoomedIn(s, among) == {};
    } else {
      var a :| a in among;
      DoomedBound(s, among - {a});
      var own := if a in s.adms then s.adms[a].registrations else {};
      assert DoomedIn(s, among) <= DoomedIn(s, among - {a}) + own;
      SubsetSize(DoomedIn(s, among), DoomedIn(s, among - {a}) + own);
      assert |DoomedIn(s, among - {a}) + own| <= |DoomedIn(s, among - {a})| + |own|;
    }
  }

  /** No cleanup batch exceeds 4096 admissions of four resources each. */
  lemma BatchBounded(events: seq<Event>)
    ensures |Doomed(Run(INITIAL, events))| <= MAX_ADMISSIONS * MAX_TRACKED
  {
    RunKeeps(events);
    var s := Run(INITIAL, events);
    DoomedBound(s, s.admissions);
    assert Doomed(s) == DoomedIn(s, s.admissions);
  }

  // ---------------------------------------------------------------- the rule the late call needs

  lemma Snoc(s: State, events: seq<Event>, e: Event)
    ensures Run(s, events + [e]) == Apply(Run(s, events), e)
  {
    assert (events + [e])[..|events|] == events;
    hide Apply;
  }

  // A second AttachFenced call hands the fence out while the first is still late: the
  // connection is closed and released, the gate is owned and granted again under the
  // same session name, and only then does the first call close it.

  const GRANTED: seq<Event> := [] + [EOwn("s")] + [EGrant("s", 10, 1)]
  const RESERVED: seq<Event> := GRANTED + [EAcquire(0, 0)] + [EReserve(0, 1)]
  const LATE: seq<Event> := RESERVED + [Tick(20)] + [EAttachFenced(1)] + [EAttachAgain(1)]
  const SEVERED: seq<Event> := LATE + [ECloseStep(1)] + [ECloseStep(1)] + [ECloseStep(1)]
  const RELEASED: seq<Event> := SEVERED + [ECloseStep(1)] + [ECloseStep(1)] + [ECloseStep(1)]
  const REOWNED: seq<Event> := RELEASED + [EReleaseAdmission(0)] + [EOwn("s")] + [EGrant("s", 30, 21)]

  const PENDING := Registration(0, true, 1, NotAttached, false, 0, false, false, NotQueued, NoConn)
  const UPSTREAM := PENDING.(client := false)
  const HELD := Admission({0, 1}, 0, 1, false, false)

  function Shown(now: nat, reg: Registration): State {
    State(now, "s", 10, {0}, false, map[0 := HELD], map[0 := PENDING, 1 := reg], map[], 1, 0)
  }

  const LATE_UPSTREAM := UPSTREAM.(attach := LateClose("s", false), handedOut := true, conn := Fenced(FRESH_FENCE))
  const CUT_FENCE := FRESH_FENCE.(readDeadline := At(21), writeDeadline := At(21))

  lemma MisuseGranted()
    ensures Run(INITIAL, GRANTED) == State(1, "s", 10, {}, false, map[], map[], map[], 1, 0)
  {
    assert Run(INITIAL, []) == INITIAL;
    Snoc(INITIAL, [], EOwn("s"));
    Snoc(INITIAL, [] + [EOwn("s")], EGrant("s", 10, 1));
    hide Run;
  }

  lemma MisuseReserved()
    ensures Run(INITIAL, RESERVED) == Shown(1, UPSTREAM)
  {
    hide Run;
    MisuseGranted();
    Snoc(INITIAL, GRANTED, EAcquire(0, 0));
    Snoc(INITIAL, GRANTED + [EAcquire(0, 0)], EReserve(0, 1));
    var s2 := Run(INITIAL, GRANTED);
    var s3 := State(1, "s", 10, {0}, false, map[0 := HELD.(registrations := {0})], map[0 := PENDING], map[], 1, 0);
    hide Invalidate;
    assert Acquire(s2, 0, 0).0 == s3;
    assert {0} + {1} == {0, 1};
    assert map[0 := PENDING][1 := UPSTREAM] == map[0 := PENDING, 1 := UPSTREAM];
    assert Reserve(s3, 0, 1).0 == Shown(1, UPSTREAM);
  }

  lemma MisuseLate()
    ensures Run(INITIAL, LATE) == Shown(21, LATE_UPSTREAM)
  {
    hide Run, Invalidate;
    MisuseReserved();
    Snoc(INITIAL, RESERVED, Tick(20));
    Snoc(INITIAL, RESERVED + [Tick(20)], EAttachFenced(1));
    Snoc(INITIAL, RESERVED + [Tick(20)] + [EAttachFenced(1)], EAttachAgain(1));
    assert AttachFenced(Shown(21, UPSTREAM), 1).0 == Shown(21, LATE_UPSTREAM.(handedOut := false));
    assert AttachAgain(Shown(21, LATE_UPSTREAM.(handedOut := false)), 1) == Shown(21, LATE_UPSTREAM);
  }

  lemma MisuseClosing(f: Fence)
    requires f.phase != Completed
    ensures CloseStep(Shown(21, LATE_UPSTREAM.(conn := Fenced(f))), 1)
         == Shown(21, LATE_UPSTREAM.(conn := Fenced(CloseNext(f, true, 21))))
  {
  }

  lemma MisuseSevered()
    ensures Run(INITIAL, SEVERED) == Shown(21, LATE_UPSTREAM.(conn := Fenced(CUT_FENCE.(phase := Severed))))
  {
    hide Run, CloseStep;
    MisuseLate();
    Snoc(INITIAL, LATE, ECloseStep(1));
    Snoc(INITIAL, LATE + [ECloseStep(1)], ECloseStep(1));
    Snoc(INITIAL, LATE + [ECloseStep(1)] + [ECloseStep(1)], ECloseStep(1));
    MisuseClosing(FRESH_FENCE);
    MisuseClosing(FRESH_FENCE.(phase := Marked));
    MisuseClosing(CUT_FENCE.(phase := Cut));
  }

  lemma MisuseReleased()
    ensures Run(INITIAL, RELEASED)
         == State(21, "s", 10, {0}, false, map[0 := HELD.(registrations := {0})],
                  map[0 := PENDING, 1 := LATE_UPSTREAM.(released := true, conn := Fenced(CUT_FENCE.(phase := Done)))],
                    map[], 1, 0)
  {
    hide Run, CloseStep;
    MisuseSevered();
    Snoc(INITIAL, SEVERED, ECloseStep(1));
    Snoc(INITIAL, SEVERED + [ECloseStep(1)], ECloseStep(1));
    Snoc(INITIAL, SEVERED + [ECloseStep(1)] + [ECloseStep(1)], ECloseStep(1));
    MisuseClosing(CUT_FENCE.(phase := Severed));
    MisuseClosing(CUT_FENCE.(phase := Drained));
    MisuseCompleted();
  }

  lemma MisuseCompleted()
    ensures CloseStep(Shown(21, LATE_UPSTREAM.(conn := Fenced(CUT_FENCE.(phase := Completed)))), 1)
         == State(21, "s", 10, {0}, false, map[0 := HELD.(registrations := {0})],
                  map[0 := PENDING, 1 := LATE_UPSTREAM.(released := true, conn := Fenced(CUT_FENCE.(phase := Done)))],
                    map[], 1, 0)
  {
    assert {0, 1} - {1} == {0};
  }

  /** Without the caller's rule the promise fails: this run closes a later activation. */
  lemma RepeatedAttachCanCloseAnother()
    ensures var s := Run(INITIAL, REOWNED); 1 in s.regs && ClosesAnother(s, 1)
  {
    MisuseReleased();
    Snoc(INITIAL, RELEASED, EReleaseAdmission(0));
    Snoc(INITIAL, RELEASED + [EReleaseAdmission(0)], EOwn("s"));
    Snoc(INITIAL, RELEASED + [EReleaseAdmission(0)] + [EOwn("s")], EGrant("s", 30, 21));
    hide Run;
    var s := Run(INITIAL, RELEASED);
    assert {0} - {0} == {};
    var t := ReleaseAdmission(s, 0);
    assert t.admissions == {} && t.regs[1] == s.regs[1] && !t.cleaning && t.owner == "s" && t.now == 21;
  }
}
