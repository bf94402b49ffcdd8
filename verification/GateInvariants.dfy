/** What every step of the gate keeps. */
module GateInvariants {
  import opened Prelude
  import opened GateModel

  predicate Filed(s: State, r: RegistrationId)
    requires r in s.regs
  {
    var a := s.regs[r].admission;
    a in s.adms && (!s.regs[r].released <==> r in s.adms[a].registrations)
  }

  /** Registrations, admissions and the gate's set of admissions agree. */
  ghost predicate Structure(s: State) {
    && (forall r {:trigger r in s.regs} :: r in s.regs ==> Filed(s, r))
    && (forall a, r | a in s.adms && r in s.adms[a].registrations :: r in s.regs && s.regs[r].admission == a)
    && (forall a {:trigger a in s.admissions} | a in s.admissions :: a in s.adms)
    && (forall a {:trigger a in s.admissions} | a in s.adms && a !in s.admissions ::
          s.adms[a].released && s.adms[a].registrations == {})
  }

  /** Every admission has its own implicit client registration. */
  ghost predicate Clients(s: State) {
    forall a {:trigger s.adms[a].client} | a in s.adms ::
      var c := s.adms[a].client; c in s.regs && s.regs[c].admission == a && s.regs[c].client
  }

  /** Everything the gate still tracks belongs to the current activation. */
  ghost predicate Activations(s: State) {
    && (forall a {:trigger s.adms[a].activation} | a in s.adms ::
          s.adms[a].activation <= s.activation && (a in s.admissions ==> s.adms[a].activation == s.activation))
    && (forall r {:trigger s.regs[r].activation} | r in s.regs && s.regs[r].admission in s.adms ::
          s.regs[r].activation == s.adms[s.regs[r].admission].activation)
  }

  /** Without an owner every live registration is quarantined; a cleanup excludes an
      owner; without a cleanup no worker has anything left to do. */
  ghost predicate Quarantine(s: State) {
    && (s.owner == "" ==> forall r | r in s.regs && !s.regs[r].released :: s.regs[r].Quarantined())
    && (s.cleaning ==> s.owner == "")
    && (!s.cleaning ==> BatchDone(s))
    && (s.owner == "" ==> s.expires == 0)
  }

  /** A registration that holds nothing any more: never created, or its transport closed. */
  predicate Settled(reg: Registration) {
    match reg.conn
    case NoConn => reg.aborted
    case Plain(_) => true
    case Fenced(f) => f.IsCompleted()
  }

  /** What is true of one registration on its own. */
  predicate RegOk(reg: Registration) {
    && (reg.conn.NoConn? <==> reg.attach.NotAttached?)
    && (reg.client ==> !reg.conn.Fenced?)
    && (reg.aborted ==> reg.attach.NotAttached?)
    && reg.readyCloses == (if reg.aborted || reg.attach == Attached then 1 else 0)
    && (reg.reap == Closing || reg.reap == Reaped ==> reg.readyCloses == 1)
    && (reg.released ==> reg.reap == NotQueued || reg.reap == Reaped)
    && (reg.reap == Reaped ==> reg.released && CloseReturned(reg.conn))
    && (reg.released ==> Settled(reg))
    && (reg.attach.LateClose? && !reg.attach.quarantined ==> reg.attach.owner != "")
    && (reg.attach.LateClose? && reg.attach.quarantined ==> reg.Quarantined())
    && (reg.handedOut ==> reg.conn.Fenced?)
    && (reg.conn.Fenced? ==> FenceOk(reg, reg.conn.fence))
  }

  predicate FenceOk(reg: Registration, f: Fence) {
    && (f.phase != NotStarted ==> reg.handedOut || reg.reap == Closing || reg.reap == Reaped)
    && (reg.attach == Attached ==> reg.handedOut)
    && (f.HasDrained() ==> f.operations == 0)
  }

  ghost predicate Connections(s: State) {
    forall r | r in s.regs :: RegOk(s.regs[r])
  }

  function OpsOf(s: State, r: RegistrationId): set<OperationId> {
    OpsAt(s.ops, r)
  }

  function OpsAt(ops: map<OperationId, Operation>, r: RegistrationId): set<OperationId> {
    set o | o in ops && ops[o].reg == r
  }

  predicate InLock(g: Stage) { g == Locked || g == Checked || g == Updated || g == Repairing }

  predicate SameKind(a: Kind, b: Kind) {
    (a.WriteOp? && b.WriteOp?) || (a.DeadlineOp? && b.DeadlineOp?) || (a.RevokeOp? && b.RevokeOp?)
  }

  predicate Past(d: Deadline, now: nat) { d.At? && d.t <= now }

  predicate OpOk(s: State, o: OperationId)
    requires o in s.ops
  {
    var op := s.ops[o];
    && HasFence(s, op.reg)
    && (var f := s.regs[op.reg].conn.fence;
        && (!op.kind.DeadlineOp? ==> !InLock(op.stage))
        && (op.stage != Cleared ==> PermitTaken(f, op.kind))
        && (InLock(op.stage) <==> f.holder == Some(o))
        && (f.PastCut() ==> op.stage != Checked && op.stage != Updated)
        && (op.kind.RevokeOp? ==> op.kind.past <= s.now))
  }

  predicate CutOk(s: State, r: RegistrationId)
    requires HasFence(s, r)
  {
    var f := s.regs[r].conn.fence;
    && (f.holder.Some? ==> f.holder.value in s.ops && s.ops[f.holder.value].reg == r)
    && (f.PastCut() ==> Past(f.readDeadline, s.now) && Past(f.writeDeadline, s.now))
  }

  /** Permits, the deadline mutex and the wait group agree with the operations in flight. */
  ghost predicate Permits(s: State) {
    && (forall o | o in s.ops :: OpOk(s, o))
    && (forall o, p | o in s.ops && p in s.ops && o != p && s.ops[o].reg == s.ops[p].reg
          && SameKind(s.ops[o].kind, s.ops[p].kind) :: s.ops[o].stage == Cleared || s.ops[p].stage == Cleared)
    && (forall r | HasFence(s, r) :: CutOk(s, r))
    && (forall r | HasFence(s, r) :: s.regs[r].conn.fence.operations == |OpsOf(s, r)|)
  }

  ghost predicate Bounded(s: State) {
    && |s.admissions| <= MAX_ADMISSIONS
    && forall a | a in s.adms :: |s.adms[a].registrations| <= MAX_TRACKED
  }

  ghost predicate Inv(s: State) {
    Structure(s) && Clients(s) && Activations(s) && Quarantine(s) && Connections(s) && Permits(s) && Bounded(s)
  }

  // ---------------------------------------------------------------- frame lemmas

  /** Permits survive any change that leaves operations, fences and the clock alone. */
  lemma PermitsFramed(s: State, t: State)
    requires Permits(s) && t.ops == s.ops && t.now == s.now
    requires forall r | HasFence(s, r) :: HasFence(t, r) && t.regs[r].conn == s.regs[r].conn
    requires forall r | HasFence(t, r) && !HasFence(s, r) :: t.regs[r].conn == Fenced(FRESH_FENCE)
    ensures Permits(t)
  {
    forall r | HasFence(t, r) ensures CutOk(t, r) && t.regs[r].conn.fence.operations == |OpsOf(t, r)| {
      assert OpsOf(t, r) == OpsOf(s, r);
      if !HasFence(s, r) {
        assert forall o | o in s.ops :: OpOk(s, o);
        assert OpsOf(t, r) == {};
      }
    }
    forall o | o in t.ops ensures OpOk(t, o) {
      assert OpOk(s, o);
    }
  }

  // ---------------------------------------------------------------- one registration changes

  /** A registration may change everything but who it belongs to and whether it is released. */
  predicate Tweak(was: Registration, reg: Registration) {
    && reg.admission == was.admission && reg.client == was.client
    && reg.activation == was.activation && reg.released == was.released
    && (was.Quarantined() ==> reg.Quarantined())
    && (reg.Quarantined() && !was.Quarantined() ==> reg.reap == Queued)
  }

  lemma TweakStructure(s: State, r: RegistrationId, reg: Registration)
    requires Structure(s) && r in s.regs && Tweak(s.regs[r], reg)
    ensures Structure(SetReg(s, r, reg))
  {
  }

  lemma TweakClients(s: State, r: RegistrationId, reg: Registration)
    requires Clients(s) && r in s.regs && Tweak(s.regs[r], reg)
    ensures Clients(SetReg(s, r, reg))
  {
  }

  lemma TweakActivations(s: State, r: RegistrationId, reg: Registration)
    requires Activations(s) && r in s.regs && Tweak(s.regs[r], reg)
    ensures Activations(SetReg(s, r, reg))
  {
  }

  lemma TweakQuarantine(s: State, r: RegistrationId, reg: Registration)
    requires Quarantine(s) && r in s.regs && Tweak(s.regs[r], reg)
    requires reg.reap == s.regs[r].reap || s.cleaning
    ensures Quarantine(SetReg(s, r, reg))
  {
  }

  lemma TweakKeeps(s: State, r: RegistrationId, reg: Registration)
    requires Inv(s) && r in s.regs && Tweak(s.regs[r], reg) && RegOk(reg)
    requires reg.reap == s.regs[r].reap || s.cleaning
    requires Permits(SetReg(s, r, reg))
    ensures Inv(SetReg(s, r, reg))
  {
    hide Structure, Clients, Activations, Quarantine, Permits;
    TweakStructure(s, r, reg);
    TweakClients(s, r, reg);
    TweakActivations(s, r, reg);
    TweakQuarantine(s, r, reg);
  }

  lemma AttachPlainKeeps(s: State, r: RegistrationId)
    requires Inv(s)
    ensures Inv(AttachPlain(s, r).0)
  {
    hide Structure, Clients, Activations, Permits;
    var t := AttachPlain(s, r).0;
    if t != s {
      PermitsFramed(s, t);
      TweakKeeps(s, r, t.regs[r]);
    }
  }

  lemma AttachFencedKeeps(s: State, r: RegistrationId)
    requires Inv(s)
    ensures Inv(AttachFenced(s, r).0)
  {
    hide Structure, Clients, Activations, Permits;
    var t := AttachFenced(s, r).0;
    if t != s {
      PermitsFramed(s, t);
      TweakKeeps(s, r, t.regs[r]);
    }
  }

  lemma AttachAgainKeeps(s: State, r: RegistrationId)
    requires Inv(s)
    ensures Inv(AttachAgain(s, r))
  {
    hide Structure, Clients, Activations, Permits, Quarantine;
    var t := AttachAgain(s, r);
    if HasFence(s, r) {
      PermitsFramed(s, t);
      TweakKeeps(s, r, t.regs[r]);
    }
  }

  lemma LatePublishKeeps(s: State, r: RegistrationId)
    requires Inv(s)
    ensures Inv(LatePublish(s, r))
  {
    hide Structure, Clients, Activations, Permits, Quarantine;
    var t := LatePublish(s, r);
    if t != s {
      PermitsFramed(s, t);
      TweakKeeps(s, r, t.regs[r]);
    }
  }

  lemma WorkerTakeKeeps(s: State, r: RegistrationId)
    requires Inv(s)
    ensures Inv(WorkerTake(s, r))
  {
    hide Structure, Clients, Activations, Permits;
    var t := WorkerTake(s, r);
    if t != s {
      PermitsFramed(s, t);
      TweakKeeps(s, r, t.regs[r]);
    }
  }

  lemma PlainCloseKeeps(s: State, r: RegistrationId)
    requires Inv(s)
    ensures Inv(PlainClose(s, r))
  {
    hide Structure, Clients, Activations, Permits, Quarantine;
    var t := PlainClose(s, r);
    if t != s {
      PermitsFramed(s, t);
      TweakKeeps(s, r, t.regs[r]);
    }
  }

  // ---------------------------------------------------------------- invalidation

  /** An invalidation reaches exactly the registrations that are still live. */
  lemma DoomedIsLive(s: State)
    requires Structure(s)
    ensures forall r :: r in Doomed(s) <==> r in s.regs && !s.regs[r].released
  {
    forall r | r in s.regs && !s.regs[r].released ensures r in Doomed(s) {
      assert Filed(s, r);
      assert s.regs[r].admission in s.admissions;
    }
  }

  lemma InvalidateStructure(s: State, owner: string)
    requires Structure(s)
    ensures Structure(Invalidate(s, owner))
  {
    var t := Invalidate(s, owner);
    forall r | r in t.regs ensures Filed(t, r) {
      assert Filed(s, r);
    }
  }

  lemma InvalidateClients(s: State, owner: string)
    requires Clients(s)
    ensures Clients(Invalidate(s, owner))
  {
  }

  lemma InvalidateActivations(s: State, owner: string)
    requires Activations(s)
    ensures Activations(Invalidate(s, owner))
  {
  }

  lemma InvalidateQuarantine(s: State, owner: string)
    requires Structure(s) && Quarantine(s) && Connections(s)
    ensures Quarantine(Invalidate(s, owner)) && Connections(Invalidate(s, owner))
  {
    DoomedIsLive(s);
    hide Structure, Doomed;
  }

  lemma InvalidateKeeps(s: State, owner: string)
    requires Inv(s)
    ensures Inv(Invalidate(s, owner))
  {
    hide Structure, Clients, Activations, Quarantine, Permits, Connections, Doomed;
    InvalidateStructure(s, owner);
    InvalidateClients(s, owner);
    InvalidateActivations(s, owner);
    InvalidateQuarantine(s, owner);
    PermitsFramed(s, Invalidate(s, owner));
  }

  lemma LateInvalidateKeeps(s: State, r: RegistrationId)
    requires Inv(s)
    ensures Inv(LateInvalidate(s, r))
  {
    hide Structure, Clients, Activations, Permits, Quarantine, Invalidate;
    if r in s.regs && s.regs[r].attach.LateClose? {
      var call := s.regs[r].attach;
      InvalidateKeeps(s, call.owner);
      var t := if call.quarantined then s else Invalidate(s, call.owner);
      if r in t.regs {
        var u := LateInvalidate(s, r);
        InvalidateKeepsAttach(s, call.owner, r);
        PermitsFramed(t, u);
        TweakKeeps(t, r, u.regs[r]);
      }
    }
  }

  /** An invalidation leaves every attach call and every connection where it was. */
  lemma InvalidateKeepsAttach(s: State, owner: string, r: RegistrationId)
    requires r in s.regs
    ensures r in Invalidate(s, owner).regs
    ensures Invalidate(s, owner).regs[r] == s.regs[r] || Invalidate(s, owner).regs[r] == s.regs[r].(reap := Queued)
  {
  }

  // ---------------------------------------------------------------- new admissions and registrations

  lemma AllFiled(s: State)
    requires Structure(s)
    ensures forall r | r in s.regs :: s.regs[r].admission in s.adms
  {
    forall r | r in s.regs ensures s.regs[r].admission in s.adms { assert Filed(s, r); }
  }

  /** A fresh registration joins admission `a`, which is either new or already tracked. */
  ghost predicate Joined(s: State, t: State, a: AdmissionId, r: RegistrationId) {
    && r !in s.regs && r in t.regs && a in t.adms && a in t.admissions
    && t.regs == s.regs[r := t.regs[r]] && t.adms == s.adms[a := t.adms[a]] && t.admissions == s.admissions + {a}
    && (var reg := t.regs[r];
        && !reg.released && reg.conn.NoConn? && reg.admission == a && reg.activation == t.adms[a].activation
        && reg.reap == NotQueued && RegOk(reg) && r in t.adms[a].registrations)
    && t.adms[a].activation == s.activation && (a in s.adms ==> s.adms[a].activation == s.activation)
    && t.adms[a].registrations == (if a in s.adms then s.adms[a].registrations else {}) + {r}
    && (if a in s.adms then t.adms[a].client == s.adms[a].client
        else t.adms[a].client == r && t.regs[r].client)
    && t.ops == s.ops && t.now == s.now && t.owner == s.owner && t.expires == s.expires
    && t.cleaning == s.cleaning && t.activation == s.activation && s.owner != "" && !s.cleaning
  }

  lemma JoinedStructure(s: State, t: State, a: AdmissionId, r: RegistrationId)
    requires Structure(s) && Joined(s, t, a, r)
    ensures Structure(t)
  {
    forall x | x in t.regs ensures Filed(t, x) {
      if x in s.regs { assert Filed(s, x); }
    }
  }

  lemma JoinedClients(s: State, t: State, a: AdmissionId, r: RegistrationId)
    requires Clients(s) && Joined(s, t, a, r)
    ensures Clients(t)
  {
  }

  lemma JoinedActivations(s: State, t: State, a: AdmissionId, r: RegistrationId)
    requires Structure(s) && Activations(s) && Joined(s, t, a, r)
    ensures Activations(t)
  {
    AllFiled(s);
    hide Structure;
  }

  lemma JoinedPermits(s: State, t: State, a: AdmissionId, r: RegistrationId)
    requires Structure(s) && Permits(s) && Joined(s, t, a, r)
    ensures Permits(t)
  {
    AllFiled(s);
    hide Structure, Permits;
    PermitsFramed(s, t);
  }

  lemma JoinedKeeps(s: State, t: State, a: AdmissionId, r: RegistrationId)
    requires Inv(s) && Joined(s, t, a, r) && Bounded(t)
    ensures Inv(t)
  {
    hide Structure, Clients, Activations, Permits, Bounded;
    JoinedStructure(s, t, a, r);
    JoinedClients(s, t, a, r);
    JoinedActivations(s, t, a, r);
    JoinedPermits(s, t, a, r);
  }

  lemma AcquireKeeps(s: State, a: AdmissionId, r: RegistrationId)
    requires Inv(s)
    ensures Inv(Acquire(s, a, r).0)
  {
    hide Structure, Clients, Activations, Permits, Quarantine, Connections, Invalidate;
    InvalidateKeeps(s, "");
    if Acquire(s, a, r).1 == Accepted {
      JoinedKeeps(s, Acquire(s, a, r).0, a, r);
    }
  }

  lemma ReserveKeeps(s: State, a: AdmissionId, r: RegistrationId)
    requires Inv(s)
    ensures Inv(Reserve(s, a, r).0)
  {
    hide Clients, Permits, Quarantine, Connections, Invalidate;
    InvalidateKeeps(s, "");
    if Reserve(s, a, r).1 == Accepted {
      assert a in s.admissions;
      assert s.adms[a].activation == s.activation;
      JoinedKeeps(s, Reserve(s, a, r).0, a, r);
    }
  }

  // ---------------------------------------------------------------- releasing

  /** One registration is released and leaves its admission, which may itself be
      released and, once empty, leave the gate. */
  ghost predicate Dropped(s: State, t: State, r: RegistrationId) {
    && r in s.regs && !s.regs[r].released && s.regs[r].admission in s.adms
    && (var a := s.regs[r].admission;
        var reg := s.regs[r];
        var left := s.adms[a].registrations - {r};
        && r in t.regs && t.regs[r].released && t.regs == s.regs[r := t.regs[r]]
        && t.regs[r].admission == a && t.regs[r].client == reg.client && t.regs[r].activation == reg.activation
        && t.regs[r].conn == reg.conn
        && a in t.adms && t.adms == s.adms[a := t.adms[a]]
        && t.adms[a].registrations == left && t.adms[a].client == s.adms[a].client
        && t.adms[a].activation == s.adms[a].activation
        && (t.admissions == s.admissions
            || (t.admissions == s.admissions - {a} && left == {} && t.adms[a].released)))
    && t.ops == s.ops && t.now == s.now && t.owner == s.owner && t.expires == s.expires
    && t.cleaning == s.cleaning && t.activation == s.activation
  }

  lemma DroppedStructure(s: State, t: State, r: RegistrationId)
    requires Structure(s) && Dropped(s, t, r)
    ensures Structure(t)
  {
    forall x | x in t.regs ensures Filed(t, x) {
      assert Filed(s, x);
    }
    assert Filed(s, r);
  }

  lemma DroppedClients(s: State, t: State, r: RegistrationId)
    requires Clients(s) && Dropped(s, t, r)
    ensures Clients(t)
  {
  }

  lemma DroppedBounded(s: State, t: State, r: RegistrationId)
    requires Bounded(s) && Activations(s) && Dropped(s, t, r)
    ensures Bounded(t) && Activations(t)
  {
    var a := s.regs[r].admission;
    SubsetSize(t.admissions, s.admissions);
    SubsetSize(t.adms[a].registrations, s.adms[a].registrations);
  }

  lemma SubsetSize<T>(a: set<T>, b: set<T>)
    requires a <= b
    ensures |a| <= |b|
  {
    assert a + (b - a) == b;
  }

  lemma DroppedKeeps(s: State, t: State, r: RegistrationId)
    requires Inv(s) && Dropped(s, t, r) && RegOk(t.regs[r])
    ensures Inv(t)
  {
    hide Structure, Clients, Activations, Permits, Bounded;
    DroppedStructure(s, t, r);
    DroppedClients(s, t, r);
    DroppedBounded(s, t, r);
    PermitsFramed(s, t);
  }

  lemma AbortKeeps(s: State, r: RegistrationId)
    requires Inv(s)
    ensures Inv(Abort(s, r))
  {
    hide Structure, Clients, Activations, Permits, Quarantine, Bounded;
    var t := Abort(s, r);
    if t != s {
      if s.regs[r].Quarantined() {
        PermitsFramed(s, t);
        TweakKeeps(s, r, t.regs[r]);
      } else {
        DroppedKeeps(s, t, r);
      }
    }
  }

  lemma ReleaseKeeps(s: State, r: RegistrationId)
    requires Inv(s)
    ensures Inv(Release(s, r))
  {
    hide Structure, Clients, Activations, Permits, Quarantine, Bounded;
    if Release(s, r) != s {
      DroppedKeeps(s, Release(s, r), r);
    }
  }

  lemma WorkerReleaseKeeps(s: State, r: RegistrationId)
    requires Inv(s)
    ensures Inv(WorkerRelease(s, r))
  {
    hide Structure, Clients, Activations, Permits, Quarantine, Bounded;
    if WorkerRelease(s, r) != s {
      DroppedKeeps(s, WorkerRelease(s, r), r);
    }
  }

  lemma ReleaseAdmissionKeeps(s: State, a: AdmissionId)
    requires Inv(s)
    ensures Inv(ReleaseAdmission(s, a))
  {
    hide Structure, Activations, Permits, Quarantine, Bounded;
    var t := ReleaseAdmission(s, a);
    if a in s.adms && !s.adms[a].released {
      var c := s.adms[a].client;
      if !s.regs[c].released && !s.regs[c].Quarantined() {
        DroppedKeeps(s, t, c);
      } else {
        RetireAdmissionKeeps(s, a);
      }
    }
  }

  /** Releasing an admission whose client is already released or quarantined. */
  lemma RetireAdmissionKeeps(s: State, a: AdmissionId)
    requires Inv(s) && a in s.adms && !s.adms[a].released && s.adms[a].client in s.regs
    requires s.regs[s.adms[a].client].released || s.regs[s.adms[a].client].Quarantined()
    ensures Inv(ReleaseAdmission(s, a))
  {
    hide Structure, Clients, Activations, Permits, Quarantine, Bounded;
    var t := ReleaseAdmission(s, a);
    var c := s.adms[a].client;
    var u := SetReg(s, c, t.regs[c]);
    PermitsFramed(s, u);
    TweakKeeps(s, c, t.regs[c]);
    RetiredStructure(u, t, a);
    RetiredRest(u, t, a);
    PermitsFramed(s, t);
    QuarantineFramed(u, t);
  }

  ghost predicate Retired(u: State, t: State, a: AdmissionId) {
    && a in u.adms
    && t == u.(adms := u.adms[a := u.adms[a].(released := true, cancelled := true)],
               admissions := if u.adms[a].registrations == {} then u.admissions - {a} else u.admissions)
  }

  lemma RetiredStructure(u: State, t: State, a: AdmissionId)
    requires Structure(u) && Retired(u, t, a)
    ensures Structure(t)
  {
    forall x | x in t.regs ensures Filed(t, x) {
      assert Filed(u, x);
    }
  }

  lemma RetiredRest(u: State, t: State, a: AdmissionId)
    requires Clients(u) && Activations(u) && Bounded(u) && Retired(u, t, a)
    ensures Clients(t) && Activations(t) && Bounded(t)
  {
    SubsetSize(t.admissions, u.admissions);
  }

  lemma QuarantineFramed(s: State, t: State)
    requires Quarantine(s) && t.regs == s.regs && t.owner == s.owner && t.cleaning == s.cleaning
             && t.expires == s.expires
    ensures Quarantine(t)
  {
  }

  lemma FinishCleanupStructure(s: State)
    requires Structure(s)
    ensures Structure(FinishCleanup(s))
  {
    var t := FinishCleanup(s);
    forall x | x in t.regs ensures Filed(t, x) { assert Filed(s, x); }
  }

  lemma FinishCleanupRest(s: State)
    requires Clients(s) && Activations(s) && Bounded(s) && Quarantine(s)
    ensures Clients(FinishCleanup(s)) && Activations(FinishCleanup(s)) && Bounded(FinishCleanup(s))
            && Quarantine(FinishCleanup(s))
  {
    SubsetSize(FinishCleanup(s).admissions, s.admissions);
  }

  lemma FinishCleanupKeeps(s: State)
    requires Inv(s)
    ensures Inv(FinishCleanup(s))
  {
    hide Structure, Clients, Activations, Permits, Quarantine, Bounded;
    FinishCleanupStructure(s);
    FinishCleanupRest(s);
    PermitsFramed(s, FinishCleanup(s));
  }

  lemma OwnKeeps(s: State, session: string)
    requires Inv(s)
    ensures Inv(Own(s, session).0)
  {
    hide Clients, Permits, Connections;
    var t := Own(s, session).0;
    if Own(s, session).1 == Accepted {
      assert Quarantine(t) by { NobodyLive(s); hide Structure, Activations, Bounded; }
      assert Structure(t) by {
        forall x | x in t.regs ensures Filed(t, x) { assert Filed(s, x); }
      }
      assert Clients(t) by { ClientsFramed(s, t); }
      PermitsFramed(s, t);
      assert Connections(t) by { ConnectionsFramed(s, t); }
    }
  }

  /** With no admission left, every registration there ever was is released. */
  lemma NobodyLive(s: State)
    requires Structure(s) && s.admissions == {}
    ensures forall r | r in s.regs :: s.regs[r].released
  {
    forall r | r in s.regs ensures s.regs[r].released {
      assert Filed(s, r);
      assert s.regs[r].admission !in s.admissions;
    }
  }

  lemma ClientsFramed(s: State, t: State)
    requires Clients(s) && t.adms == s.adms && t.regs == s.regs
    ensures Clients(t)
  {
  }

  lemma ConnectionsFramed(s: State, t: State)
    requires Connections(s) && t.regs == s.regs
    ensures Connections(t)
  {
  }

  lemma GrantKeeps(s: State, session: string, until: nat, checkedAt: nat)
    requires Inv(s)
    ensures Inv(Grant(s, session, until, checkedAt).0)
  {
    hide Structure, Clients, Activations, Permits, Bounded, Connections;
    var t := Grant(s, session, until, checkedAt).0;
    ClockFramed(s, t);
    PermitsFramed(s, t);
  }

  /** Structure, clients, activations, bounds and connections ignore the lease. */
  lemma ClockFramed(s: State, t: State)
    requires Structure(s) && Clients(s) && Activations(s) && Bounded(s) && Connections(s)
    requires t.adms == s.adms && t.regs == s.regs && t.admissions == s.admissions && t.activation == s.activation
    ensures Structure(t) && Clients(t) && Activations(t) && Bounded(t) && Connections(t)
  {
    assert Structure(t) by {
      hide Clients, Activations, Bounded, Connections;
      forall x | x in t.regs ensures Filed(t, x) { assert Filed(s, x); }
    }
  }

  // ---------------------------------------------------------------- fenced operations

  /** `t` is `s` with operation `o` at registration `r` started, moved or finished. */
  ghost predicate Moved(s: State, t: State, r: RegistrationId, o: OperationId, f: Fence) {
    && HasFence(s, r)
    && t == SetFence(s, r, f).(ops := t.ops)
    && f.phase == s.regs[r].conn.fence.phase
    && (forall p | p != o :: p in t.ops <==> p in s.ops)
    && (forall p | p != o && p in t.ops :: t.ops[p] == s.ops[p])
    && (o in s.ops ==> s.ops[o].reg == r)
    && (o in t.ops ==> t.ops[o].reg == r && (o in s.ops ==> t.ops[o].kind == s.ops[o].kind))
    && f.operations + (if o in s.ops then 1 else 0)
       == s.regs[r].conn.fence.operations + (if o in t.ops then 1 else 0)
  }

  lemma OpsAtMoved(m: map<OperationId, Operation>, n: map<OperationId, Operation>, r: RegistrationId, o: OperationId)
    requires forall p | p != o :: p in n <==> p in m
    requires forall p | p != o && p in n :: n[p] == m[p]
    requires (o in m ==> m[o].reg == r) && (o in n ==> n[o].reg == r)
    ensures |OpsAt(n, r)| + (if o in m then 1 else 0) == |OpsAt(m, r)| + (if o in n then 1 else 0)
  {
    if (o in m) == (o in n) {
      assert OpsAt(n, r) == OpsAt(m, r);
    } else if o in m {
      assert OpsAt(m, r) == OpsAt(n, r) + {o};
    } else {
      assert OpsAt(n, r) == OpsAt(m, r) + {o};
    }
  }

  lemma MovedOwnCount(s: State, t: State, r: RegistrationId, o: OperationId, f: Fence)
    requires Moved(s, t, r, o, f)
    requires s.regs[r].conn.fence.operations == |OpsOf(s, r)|
    ensures f.operations == |OpsOf(t, r)|
  {
    OpsAtMoved(s.ops, t.ops, r, o);
    hide OpsAt;
  }

  lemma MovedOtherCount(s: State, t: State, r: RegistrationId, o: OperationId, f: Fence, x: RegistrationId)
    requires Moved(s, t, r, o, f) && x != r
    ensures OpsOf(t, x) == OpsOf(s, x)
  {
  }

  lemma MovedCounts(s: State, t: State, r: RegistrationId, o: OperationId, f: Fence)
    requires Permits(s) && Moved(s, t, r, o, f)
    ensures forall x | HasFence(t, x) :: t.regs[x].conn.fence.operations == |OpsOf(t, x)|
  {
    hide OpsOf;
    forall x | HasFence(t, x) ensures t.regs[x].conn.fence.operations == |OpsOf(t, x)| {
      assert HasFence(s, x);
      if x == r {
        MovedOwnCount(s, t, r, o, f);
      } else {
        MovedOtherCount(s, t, r, o, f, x);
      }
    }
  }

  /** What the moved operation itself owes, and what it may not do to its siblings. */
  ghost predicate MoveOk(s: State, t: State, r: RegistrationId, o: OperationId, f: Fence)
    requires Moved(s, t, r, o, f)
  {
    && (o in t.ops ==> OpOk(t, o))
    && (forall p | p in s.ops && p != o && s.ops[p].reg == r && s.ops[p].stage != Cleared ::
          PermitTaken(f, s.ops[p].kind))
    && (f.holder != s.regs[r].conn.fence.holder ==>
          (f.holder == Some(o) && s.regs[r].conn.fence.holder == None && o in t.ops)
          || (f.holder == None && s.regs[r].conn.fence.holder == Some(o)))
    && (f.holder == Some(o) ==> o in t.ops)
    && (f.PastCut() ==> Past(f.readDeadline, s.now) && Past(f.writeDeadline, s.now))
    && (o in t.ops && t.ops[o].stage != Cleared ==>
          forall p | p in s.ops && p != o && s.ops[p].reg == r && SameKind(s.ops[p].kind, t.ops[o].kind) ::
            s.ops[p].stage == Cleared)
  }

  lemma MovedOps(s: State, t: State, r: RegistrationId, o: OperationId, f: Fence)
    requires Permits(s) && Moved(s, t, r, o, f) && MoveOk(s, t, r, o, f)
    ensures forall p | p in t.ops :: OpOk(t, p)
    ensures forall x | HasFence(t, x) :: CutOk(t, x)
  {
    forall p | p in t.ops ensures OpOk(t, p) {
      if p != o {
        assert OpOk(s, p);
      }
    }
    forall x | HasFence(t, x) ensures CutOk(t, x) {
      assert HasFence(s, x) && CutOk(s, x);
    }
  }

  lemma MovedUnique(s: State, t: State, r: RegistrationId, o: OperationId, f: Fence)
    requires Permits(s) && Moved(s, t, r, o, f) && MoveOk(s, t, r, o, f)
    ensures forall p, q | p in t.ops && q in t.ops && p != q && t.ops[p].reg == t.ops[q].reg
              && SameKind(t.ops[p].kind, t.ops[q].kind) :: t.ops[p].stage == Cleared || t.ops[q].stage == Cleared
  {
    forall p, q | p in t.ops && q in t.ops && p != q && t.ops[p].reg == t.ops[q].reg
              && SameKind(t.ops[p].kind, t.ops[q].kind)
      ensures t.ops[p].stage == Cleared || t.ops[q].stage == Cleared
    {
    }
  }

  lemma MovedPermits(s: State, t: State, r: RegistrationId, o: OperationId, f: Fence)
    requires Permits(s) && Moved(s, t, r, o, f) && MoveOk(s, t, r, o, f)
    ensures Permits(t)
  {
    MovedCounts(s, t, r, o, f);
    MovedOps(s, t, r, o, f);
    MovedUnique(s, t, r, o, f);
    hide OpOk, CutOk, OpsOf, Moved, MoveOk;
  }

  lemma MovedKeeps(s: State, t: State, r: RegistrationId, o: OperationId, f: Fence)
    requires Inv(s) && Moved(s, t, r, o, f) && MoveOk(s, t, r, o, f)
    requires FenceOk(s.regs[r], f)
    ensures Inv(t)
  {
    hide Structure, Clients, Activations, Quarantine, Permits, Bounded, MoveOk;
    MovedPermits(s, t, r, o, f);
    var reg := s.regs[r].(conn := Fenced(f));
    var u := SetReg(s, r, reg);
    TweakStructure(s, r, reg);
    TweakClients(s, r, reg);
    TweakActivations(s, r, reg);
    TweakQuarantine(s, r, reg);
    BoundedFramed(s, u);
    ClockFramed(u, t);
    QuarantineFramed(u, t);
  }

  lemma BoundedFramed(s: State, t: State)
    requires Bounded(s) && t.admissions == s.admissions && t.adms == s.adms
    ensures Bounded(t)
  {
  }

  /** The other operations on `o`'s connection that still hold their permit. */
  ghost predicate Siblings(s: State, r: RegistrationId, o: OperationId) {
    && HasFence(s, r)
    && forall p {:trigger s.ops[p]} | p in s.ops && p != o && s.ops[p].reg == r && s.ops[p].stage != Cleared ::
         && PermitTaken(s.regs[r].conn.fence, s.ops[p].kind)
         && (o in s.ops && s.ops[o].reg == r && s.ops[o].stage != Cleared ==> !SameKind(s.ops[p].kind, s.ops[o].kind))
  }

  lemma SiblingsHold(s: State, r: RegistrationId, o: OperationId)
    requires Permits(s) && HasFence(s, r)
    ensures Siblings(s, r, o) && CutOk(s, r)
    ensures o in s.ops ==> OpOk(s, o)
    ensures s.regs[r].conn.fence.operations == |OpsOf(s, r)|
  {
    forall p | p in s.ops && p != o && s.ops[p].reg == r && s.ops[p].stage != Cleared
      ensures PermitTaken(s.regs[r].conn.fence, s.ops[p].kind)
    {
      assert OpOk(s, p);
    }
  }

  lemma BeginMoves(s: State, r: RegistrationId, o: OperationId, k: Kind)
    requires Permits(s) && Begin(s, r, o, k).1 == Accepted
    ensures var t := Begin(s, r, o, k).0; var f := t.regs[r].conn.fence;
            Moved(s, t, r, o, f) && MoveOk(s, t, r, o, f)
  {
    SiblingsHold(s, r, o);
    hide Permits;
  }

  lemma BeginKeeps(s: State, r: RegistrationId, o: OperationId, k: Kind)
    requires Inv(s)
    ensures Inv(Begin(s, r, o, k).0)
  {
    hide Structure, Clients, Activations, Quarantine, Bounded, Permits, Moved, MoveOk;
    if Begin(s, r, o, k).1 == Accepted {
      var t := Begin(s, r, o, k).0;
      BeginMoves(s, r, o, k);
      MovedKeeps(s, t, r, o, t.regs[r].conn.fence);
    }
  }

  lemma StepMoves(s: State, o: OperationId)
    requires Permits(s) && o in s.ops && HasFence(s, s.ops[o].reg)
    ensures var t := OperationStep(s, o); var r := s.ops[o].reg;
            HasFence(t, r) && Moved(s, t, r, o, t.regs[r].conn.fence)
  {
    var r := s.ops[o].reg;
    SiblingsHold(s, r, o);
    hide Permits, Siblings, OpOk, CutOk;
    assert o in OpsOf(s, r);
    hide OpsOf;
    StepCounts(s.regs[r].conn.fence, o, s.ops[o], FenceLive(s, r), s.now);
    hide OpNext;
  }

  lemma StepCounts(f: Fence, o: OperationId, op: Operation, live: bool, now: nat)
    requires f.operations > 0
    ensures var next := OpNext(f, o, op, live, now);
            next.0.phase == f.phase && next.0.operations + 1 == f.operations + (if next.1.Some? then 1 else 0)
  {
  }

  /** What one step of an operation does to its own fence. */
  lemma StepFence(f: Fence, o: OperationId, op: Operation, live: bool, now: nat)
    requires !op.kind.DeadlineOp? ==> !InLock(op.stage)
    requires op.stage != Cleared ==> PermitTaken(f, op.kind)
    requires InLock(op.stage) <==> f.holder == Some(o)
    requires f.PastCut() ==> op.stage != Checked && op.stage != Updated && !live
    requires f.PastCut() ==> Past(f.readDeadline, now) && Past(f.writeDeadline, now)
    requires op.kind.RevokeOp? ==> op.kind.past <= now
    ensures var next := OpNext(f, o, op, live, now);
            var g := next.0;
            && (next.1.Some? && next.1.value != Cleared ==> op.stage != Cleared && PermitTaken(g, op.kind))
            && (next.1.Some? && !op.kind.DeadlineOp? ==> !InLock(next.1.value))
            && (next.1.Some? && InLock(next.1.value) <==> g.holder == Some(o))
            && (next.1.Some? && g.PastCut() ==> next.1.value != Checked && next.1.value != Updated)
            && (g.PastCut() ==> Past(g.readDeadline, now) && Past(g.writeDeadline, now))
            && (g.holder != f.holder ==> (g.holder == Some(o) && f.holder == None)
                                         || (g.holder == None && f.holder == Some(o)))
            && (forall k | PermitTaken(f, k) && (op.stage == Finished ==> !SameKind(k, op.kind)) :: PermitTaken(g, k))
  {
  }

  lemma StepMoveOk(s: State, o: OperationId)
    requires Permits(s) && o in s.ops && HasFence(s, s.ops[o].reg)
    requires var t := OperationStep(s, o); var r := s.ops[o].reg;
             HasFence(t, r) && Moved(s, t, r, o, t.regs[r].conn.fence)
    ensures var t := OperationStep(s, o); var r := s.ops[o].reg; MoveOk(s, t, r, o, t.regs[r].conn.fence)
  {
    var r := s.ops[o].reg;
    SiblingsHold(s, r, o);
    hide Permits, OpsOf, Moved;
    StepFence(s.regs[r].conn.fence, o, s.ops[o], FenceLive(s, r), s.now);
    hide OpNext;
  }

  lemma OperationStepKeeps(s: State, o: OperationId)
    requires Inv(s)
    ensures Inv(OperationStep(s, o))
  {
    hide Structure, Clients, Activations, Quarantine, Bounded, Permits, Moved, MoveOk;
    if o in s.ops && HasFence(s, s.ops[o].reg) {
      var t := OperationStep(s, o);
      var r := s.ops[o].reg;
      SiblingsHold(s, r, o);
      assert o in OpsOf(s, r);
      StepCounts(s.regs[r].conn.fence, o, s.ops[o], FenceLive(s, r), s.now);
      StepMoves(s, o);
      StepMoveOk(s, o);
      hide OpNext, OpsOf;
      MovedKeeps(s, t, r, o, t.regs[r].conn.fence);
    }
  }

  // ---------------------------------------------------------------- closing

  /** A fence whose close advanced: permits and the deadline mutex untouched, and the
      cut taken only while nobody is inside that mutex. */
  ghost predicate Advanced(f: Fence, g: Fence, now: nat) {
    && g.operations == f.operations && g.holder == f.holder
    && (forall k :: PermitTaken(g, k) == PermitTaken(f, k))
    && (g.PastCut() ==> f.PastCut() || f.holder == None)
    && (g.PastCut() ==> (f.PastCut() && g.readDeadline == f.readDeadline && g.writeDeadline == f.writeDeadline)
                        || (Past(g.readDeadline, now) && Past(g.writeDeadline, now)))
  }

  lemma AdvancedPermits(s: State, r: RegistrationId, g: Fence)
    requires Permits(s) && HasFence(s, r) && Advanced(s.regs[r].conn.fence, g, s.now)
    ensures Permits(SetFence(s, r, g))
  {
    var t := SetFence(s, r, g);
    assert CutOk(s, r);
    forall o | o in t.ops ensures OpOk(t, o) { assert OpOk(s, o); }
    forall x | HasFence(t, x) ensures CutOk(t, x) && t.regs[x].conn.fence.operations == |OpsOf(t, x)| {
      assert HasFence(s, x) && CutOk(s, x);
    }
  }

  lemma CloseNextKeeps(s: State, r: RegistrationId)
    requires Inv(s) && HasFence(s, r)
    ensures var reg := s.regs[r];
            Inv(SetFence(s, r, CloseNext(reg.conn.fence, reg.handedOut || reg.reap == Closing, s.now)))
  {
    hide Structure, Clients, Activations, Quarantine, Bounded, Permits;
    var reg := s.regs[r];
    AdvancedPermits(s, r, CloseNext(reg.conn.fence, reg.handedOut || reg.reap == Closing, s.now));
    TweakKeeps(s, r, reg.(conn := Fenced(CloseNext(reg.conn.fence, reg.handedOut || reg.reap == Closing, s.now))));
  }

  lemma ReleaseSameConn(s: State, r: RegistrationId)
    requires HasFence(s, r)
    ensures HasFence(Release(s, r), r) && Release(s, r).regs[r].conn == s.regs[r].conn
  {
  }

  lemma CloseStepKeeps(s: State, r: RegistrationId)
    requires Inv(s)
    ensures Inv(CloseStep(s, r))
  {
    hide Structure, Clients, Activations, Quarantine, Bounded, Permits;
    if HasFence(s, r) {
      if s.regs[r].conn.fence.phase == Completed {
        ReleaseKeeps(s, r);
        ReleaseSameConn(s, r);
        var t := Release(s, r);
        hide Release;
        AdvancedPermits(t, r, t.regs[r].conn.fence.(phase := Done));
        TweakKeeps(t, r, t.regs[r].(conn := Fenced(t.regs[r].conn.fence.(phase := Done))));
      } else {
        CloseNextKeeps(s, r);
      }
    }
  }

  lemma TickPermits(s: State, d: nat)
    requires Permits(s)
    ensures Permits(s.(now := s.now + d))
  {
    var t := s.(now := s.now + d);
    forall o | o in t.ops ensures OpOk(t, o) { assert OpOk(s, o); }
    forall x | HasFence(t, x) ensures CutOk(t, x) && t.regs[x].conn.fence.operations == |OpsOf(t, x)| {
      assert HasFence(s, x) && CutOk(s, x);
    }
  }

  lemma TickKeeps(s: State, d: nat)
    requires Inv(s)
    ensures Inv(s.(now := s.now + d))
  {
    hide Structure, Clients, Activations, Quarantine, Bounded, Permits, Connections;
    var t := s.(now := s.now + d);
    TickPermits(s, d);
    ClockFramed(s, t);
    QuarantineFramed(s, t);
  }

  // ---------------------------------------------------------------- every run

  lemma ApplyKeeps(s: State, e: Event)
    requires Inv(s)
    ensures Inv(Apply(s, e))
  {
    hide Inv;
    match e
    case Tick(d) => TickKeeps(s, d);
    case EAcquire(a, r) => AcquireKeeps(s, a, r);
    case EReserve(a, r) => ReserveKeeps(s, a, r);
    case EAttachPlain(r) => AttachPlainKeeps(s, r);
    case EAttachFenced(r) => AttachFencedKeeps(s, r);
    case EAttachAgain(r) => AttachAgainKeeps(s, r);
    case ELateInvalidate(r) => LateInvalidateKeeps(s, r);
    case ELatePublish(r) => LatePublishKeeps(s, r);
    case EAbort(r) => AbortKeeps(s, r);
    case ERelease(r) => ReleaseKeeps(s, r);
    case EReleaseAdmission(a) => ReleaseAdmissionKeeps(s, a);
    case ECloseFor(owner) => InvalidateKeeps(s, owner);
    case EWorkerTake(r) => WorkerTakeKeeps(s, r);
    case EWorkerRelease(r) => WorkerReleaseKeeps(s, r);
    case EFinishCleanup => FinishCleanupKeeps(s);
    case EOwn(session) => OwnKeeps(s, session);
    case EGrant(session, until, checkedAt) => GrantKeeps(s, session, until, checkedAt);
    case EBegin(r, o, k) => BeginKeeps(s, r, o, k);
    case EOperationStep(o) => OperationStepKeeps(s, o);
    case ECloseStep(r) => CloseStepKeeps(s, r);
    case EPlainClose(r) => PlainCloseKeeps(s, r);
  }

  /** The invariant holds after every run from the initial gate. */
  lemma {:induction false} RunKeeps(events: seq<Event>)
    ensures Inv(Run(INITIAL, events))
  {
    if events == [] {
      assert Inv(INITIAL);
    } else {
      RunKeeps(events[..|events| - 1]);
      hide Inv, Apply;
      ApplyKeeps(Run(INITIAL, events[..|events| - 1]), events[|events| - 1]);
    }
  }
}
