/** The proxy admission gate (shared/proxygate/gate.go) and its write fence
    (shared/proxygate/write_fence.go), as a state machine with one transition per
    critical section of the gate mutex or of a connection's deadline mutex.

    A run is any sequence of events: goroutine scheduling, blocked closes, late
    dials and the clock are all choices of that sequence. An event that is not
    enabled leaves the state as it is. */
module GateModel {
  import opened Prelude

  const MAX_ADMISSIONS: nat := 4096
  const MAX_TRACKED: nat := 4
  const MAX_LEASE: nat := 5_000_000_000

  type AdmissionId = nat
  type RegistrationId = nat
  type OperationId = nat

  /** A transport deadline; `Never` is Go's zero time, no deadline at all. */
  datatype Deadline = Never | At(t: int)
  datatype Side = ReadSide | WriteSide | BothSides

  /** How far the one run of writeFencedConn.Close (behind sync.Once) has come:
      closed flag set, past deadline forced, transport closed, permits drained,
      completed flag set, registration released. */
  datatype ClosePhase = NotStarted | Marked | Cut | Severed | Drained | Completed | Done

  datatype Fence = Fence(
    phase: ClosePhase,
    writeActive: bool,
    deadlineActive: bool,
    revokerActive: bool,
    operations: nat,                 // the wait group's counter
    holder: Option<OperationId>,     // who is inside deadlineMu
    readDeadline: Deadline,
    writeDeadline: Deadline)
  {
    predicate Closed() { phase != NotStarted }
    predicate IsCompleted() { phase == Completed || phase == Done }
    predicate TransportClosed() { phase != NotStarted && phase != Marked && phase != Cut }
    predicate PastCut() { phase != NotStarted && phase != Marked }
    predicate HasDrained() { phase == Drained || phase == Completed || phase == Done }
  }

  const FRESH_FENCE := Fence(NotStarted, false, false, false, 0, None, Never, Never)

  datatype Conn = NoConn | Plain(closed: bool) | Fenced(fence: Fence)

  /** Progress of the one Attach or AttachFenced call that wins a registration. */
  datatype Attach =
    | NotAttached
    | LateClose(owner: string, quarantined: bool) // first section left, closeFor not yet called
    | LateReady                                   // closeFor done, ready not yet closed
    | Attached

  /** Progress of the cleanup worker; anything but NotQueued is "quarantined". */
  datatype Reap = NotQueued | Queued | Closing | Reaped

  datatype Registration = Registration(
    admission: AdmissionId,
    client: bool,
    activation: nat,        // the activation under which it was reserved
    attach: Attach,
    handedOut: bool,        // some AttachFenced call has returned the fenced connection
    readyCloses: nat,       // how often the ready channel was closed
    aborted: bool,
    released: bool,
    reap: Reap,
    conn: Conn)
  {
    predicate IsAttached() { attach != NotAttached }
    predicate Ready() { readyCloses > 0 }
    predicate Quarantined() { reap != NotQueued }
  }

  datatype Admission = Admission(
    registrations: set<RegistrationId>,
    client: RegistrationId,
    activation: nat,
    released: bool,
    cancelled: bool)

  datatype Kind = WriteOp | DeadlineOp(until: Deadline, side: Side) | RevokeOp(past: int, at: Side)

  /** Program counter of an accepted write, deadline update or revocation. */
  datatype Stage =
    | Permitted   // permit held, nothing done yet
    | Locked      // inside deadlineMu
    | Checked     // first live() answered true
    | Updated     // the requested deadline was set
    | Repairing   // live() answered false, past deadline not yet set
    | Finished    // outside deadlineMu, permit flag still set
    | Cleared     // permit flag cleared, wait group not yet decremented

  datatype Operation = Operation(reg: RegistrationId, kind: Kind, stage: Stage)

  datatype State = State(
    now: nat,
    owner: string,          // "" when nobody owns the gate
    expires: nat,           // 0 is the zero time
    admissions: set<AdmissionId>,
    cleaning: bool,         // g.cleanup != nil
    adms: map<AdmissionId, Admission>,
    regs: map<RegistrationId, Registration>,
    ops: map<OperationId, Operation>,
    activation: nat,        // number of successful own calls
    tasks: nat)             // number of finished cleanup tasks
  {
    predicate Open() { owner != "" && now < expires }
  }

  const INITIAL := State(1, "", 0, {}, false, map[], map[], map[], 0, 0)

  datatype Outcome = Accepted | ErrClosed | ErrCapacity | ErrProtocol | ErrCleanupUnknown | Disabled

  // ---------------------------------------------------------------- small updates

  function SetReg(s: State, r: RegistrationId, reg: Registration): State {
    s.(regs := s.regs[r := reg])
  }

  function SetFence(s: State, r: RegistrationId, f: Fence): State
    requires r in s.regs
  {
    SetReg(s, r, s.regs[r].(conn := Fenced(f)))
  }

  /** Drops a released registration from its admission, and the admission from the
      gate once it is released too and holds nothing. */
  function Forget(s: State, r: RegistrationId): State
    requires r in s.regs && s.regs[r].admission in s.adms
  {
    var a := s.regs[r].admission;
    var left := s.adms[a].(registrations := s.adms[a].registrations - {r});
    s.(adms := s.adms[a := left],
    admissions := if left.released && left.registrations == {} then s.admissions - {a} else s.admissions)
  }

  predicate HasFence(s: State, r: RegistrationId) {
    r in s.regs && s.regs[r].conn.Fenced? && s.regs[r].admission in s.adms
  }

  /** writeFencedConn.liveLocked */
  predicate FenceLive(s: State, r: RegistrationId)
    requires HasFence(s, r)
  {
    var reg := s.regs[r];
    var a := s.adms[reg.admission];
    && !reg.conn.fence.Closed() && !reg.released && !reg.aborted && !reg.Quarantined()
    && !a.released && !a.cancelled && !s.cleaning && s.Open()
  }

  // ---------------------------------------------------------------- invalidation

  /** The registrations one invalidation quarantines. */
  function Doomed(s: State): set<RegistrationId> {
    set a, r | a in s.admissions && a in s.adms && r in s.adms[a].registrations
               && r in s.regs && !s.regs[r].released :: r
  }

  /** beginInvalidateLocked; an empty owner means whoever owns the gate now. */
  function Invalidate(s: State, owner: string): State {
    if owner != "" && s.owner != owner then s
    else
      var closed := s.(owner := "", expires := 0);
      if s.cleaning then closed
      else
        var doomed := Doomed(s);
        closed.(
        adms := (map a | a in s.adms :: if a in s.admissions then s.adms[a].(cancelled := true) else s.adms[a]),
        regs := (map r | r in s.regs :: if r in doomed then s.regs[r].(reap := Queued) else s.regs[r]),
        cleaning := doomed != {})
  }

  // ---------------------------------------------------------------- admissions

  /** AcquireSource for a managed source; `a` and `r` are the two new objects. */
  function Acquire(s: State, a: AdmissionId, r: RegistrationId): (State, Outcome) {
    if a in s.adms || r in s.regs then (s, Disabled)
    else if s.cleaning || !s.Open() then (s, ErrClosed)
    else if |s.admissions| >= MAX_ADMISSIONS then (Invalidate(s, ""), ErrCapacity)
    else
      (s.(adms := s.adms[a := Admission({r}, r, s.activation, false, false)],
      regs := s.regs[r := Registration(a, true, s.activation, NotAttached, false, 0, false, false, NotQueued, NoConn)],
      admissions := s.admissions + {a}), Accepted)
  }

  /** Admission.Reserve */
  function Reserve(s: State, a: AdmissionId, r: RegistrationId): (State, Outcome) {
    if a !in s.adms || r in s.regs then (s, Disabled)
    else
      var ad := s.adms[a];
      if ad.released || ad.cancelled || s.cleaning || !s.Open() then (s, ErrClosed)
      else if |ad.registrations| >= MAX_TRACKED then (Invalidate(s, ""), ErrCapacity)
      else
        var reg := Registration(a, false, ad.activation, NotAttached, false, 0, false, false, NotQueued, NoConn);
        (s.(adms := s.adms[a := ad.(registrations := ad.registrations + {r})], regs := s.regs[r := reg]), Accepted)
  }

  /** First critical section of Attach, for the local client's plain connection. */
  function AttachPlain(s: State, r: RegistrationId): (State, Outcome) {
    if r !in s.regs || s.regs[r].admission !in s.adms then (s, Disabled)
    else
      var reg := s.regs[r];
      if reg.IsAttached() || reg.aborted || reg.released then (s, ErrProtocol)
      else if s.adms[reg.admission].cancelled || reg.Quarantined() || !s.Open() then
        (SetReg(s, r, reg.(conn := Plain(false), attach := LateClose(s.owner, reg.Quarantined()))), ErrClosed)
      else
        (SetReg(s, r, reg.(conn := Plain(false), attach := Attached, readyCloses := reg.readyCloses + 1)), Accepted)
  }

  /** First critical section of AttachFenced, for a reserved upstream. The implicit
      client registration never leaves its admission, so it cannot be fenced. */
  function AttachFenced(s: State, r: RegistrationId): (State, Outcome) {
    if r !in s.regs || s.regs[r].admission !in s.adms || s.regs[r].client then (s, Disabled)
    else
      var reg := s.regs[r];
      if reg.IsAttached() || reg.aborted || reg.released then (s, ErrProtocol)
      else
        var t := SetReg(s, r, reg.(conn := Fenced(FRESH_FENCE)));
        if FenceLive(t, r) then
          (SetReg(s, r, reg.(conn := Fenced(FRESH_FENCE), attach := Attached, handedOut := true,
          readyCloses := reg.readyCloses + 1)), Accepted)
        else
          (SetReg(s, r, reg.(conn := Fenced(FRESH_FENCE), attach := LateClose(s.owner, reg.Quarantined()))), ErrClosed)
  }

  /** A repeated AttachFenced of the same connection returns the fence as it is. */
  function AttachAgain(s: State, r: RegistrationId): State {
    if HasFence(s, r) then SetReg(s, r, s.regs[r].(handedOut := true)) else s
  }

  /** closeFor(owner) inside a late Attach: skipped when a quarantine already owns the registration. */
  function LateInvalidate(s: State, r: RegistrationId): State {
    if r !in s.regs || !s.regs[r].attach.LateClose? then s
    else
      var call := s.regs[r].attach;
      var t := if call.quarantined then s else Invalidate(s, call.owner);
      if r in t.regs then SetReg(t, r, t.regs[r].(attach := LateReady)) else t
  }

  /** Last critical section of a late Attach. */
  function LatePublish(s: State, r: RegistrationId): State {
    if r !in s.regs || s.regs[r].attach != LateReady then s
    else
      var reg := s.regs[r];
      SetReg(s, r, reg.(attach := Attached, handedOut := reg.handedOut || reg.conn.Fenced?,
                        readyCloses := reg.readyCloses + 1))
  }

  /** Registration.Abort */
  function Abort(s: State, r: RegistrationId): State {
    if r !in s.regs || s.regs[r].admission !in s.adms then s
    else
      var reg := s.regs[r];
      if reg.IsAttached() || reg.aborted || reg.released then s
      else
        var t := SetReg(s, r, reg.(aborted := true, readyCloses := reg.readyCloses + 1));
        if reg.Quarantined() then t
        else Forget(SetReg(t, r, t.regs[r].(released := true)), r)
  }

  /** Registration.Release */
  function Release(s: State, r: RegistrationId): State {
    if r !in s.regs || s.regs[r].admission !in s.adms then s
    else
      var reg := s.regs[r];
      if reg.Quarantined() || reg.released then s
      else if reg.conn.Fenced? && !reg.conn.fence.IsCompleted() then s
      else if !reg.IsAttached() && !reg.aborted then s
      else Forget(SetReg(s, r, reg.(released := true)), r)
  }

  /** Admission.Release */
  function ReleaseAdmission(s: State, a: AdmissionId): State {
    if a !in s.adms || s.adms[a].client !in s.regs || s.adms[a].released then s
    else
      var ad := s.adms[a];
      var c := ad.client;
      var client := s.regs[c];
      var aborts := !client.IsAttached() && !client.aborted && !client.released;
      var closed := if aborts then client.(aborted := true, readyCloses := client.readyCloses + 1) else client;
      var drops := !client.Quarantined() && !client.released;
      var left := if drops then ad.registrations - {c} else ad.registrations;
      s.(regs := s.regs[c := closed.(released := client.released || drops)],
      adms := s.adms[a := ad.(released := true, cancelled := true, registrations := left)],
      admissions := if left == {} then s.admissions - {a} else s.admissions)
  }

  // ---------------------------------------------------------------- cleanup

  /** A worker sees ready closed and reads the connection it has to close. */
  function WorkerTake(s: State, r: RegistrationId): State {
    if r in s.regs && s.regs[r].reap == Queued && s.regs[r].Ready()
    then SetReg(s, r, s.regs[r].(reap := Closing)) else s
  }

  /** Close has returned to the worker. */
  predicate CloseReturned(c: Conn) {
    match c
    case NoConn => true
    case Plain(closed) => closed
    case Fenced(f) => f.phase == Done
  }

  function WorkerRelease(s: State, r: RegistrationId): State {
    if r in s.regs && s.regs[r].reap == Closing && CloseReturned(s.regs[r].conn) && s.regs[r].admission in s.adms then
      var a := s.regs[r].admission;
      SetReg(s, r, s.regs[r].(released := true, reap := Reaped))
      .(adms := s.adms[a := s.adms[a].(registrations := s.adms[a].registrations - {r})])
    else s
  }

  predicate BatchDone(s: State) {
    forall r | r in s.regs :: s.regs[r].reap != Queued && s.regs[r].reap != Closing
  }

  /** The admissions the last cleanup section retires. */
  predicate Spent(s: State, a: AdmissionId) {
    a in s.admissions && a in s.adms && s.adms[a].cancelled && s.adms[a].registrations == {}
  }

  function FinishCleanup(s: State): State {
    if !s.cleaning || !BatchDone(s) then s
    else
      s.(adms := (map a | a in s.adms :: if Spent(s, a) then s.adms[a].(released := true) else s.adms[a]),
      admissions := (set a | a in s.admissions && !Spent(s, a)),
      cleaning := false, tasks := s.tasks + 1)
  }

  // ---------------------------------------------------------------- ownership

  function Own(s: State, session: string): (State, Outcome) {
    if s.cleaning || s.admissions != {} then (s, ErrCleanupUnknown)
    else if s.owner != "" && s.owner != session then (s, ErrClosed)
    else (s.(owner := session, expires := 0, activation := s.activation + 1), Accepted)
  }

  /** The locked part of grant; the bounds on `until` were checked against `checkedAt`. */
  function Grant(s: State, session: string, until: nat, checkedAt: nat): (State, Outcome) {
    if checkedAt > s.now then (s, Disabled)
    else if until <= checkedAt || until > checkedAt + MAX_LEASE then (s, ErrProtocol)
    else if s.cleaning || s.owner != session || session == "" then (s, ErrClosed)
    else (s.(expires := until), Accepted)
  }

  // ---------------------------------------------------------------- fenced operations

  predicate PermitTaken(f: Fence, k: Kind) {
    match k
    case WriteOp => f.writeActive
    case DeadlineOp(_, _) => f.deadlineActive
    case RevokeOp(_, _) => f.revokerActive
  }

  function SetPermit(f: Fence, k: Kind, on: bool): Fence {
    match k
    case WriteOp => f.(writeActive := on)
    case DeadlineOp(_, _) => f.(deadlineActive := on)
    case RevokeOp(_, _) => f.(revokerActive := on)
  }

  /** begin, and the permit section of a revocation: a revocation needs no live
      scope, only that Close has not started and that its deadline is past. */
  function Begin(s: State, r: RegistrationId, o: OperationId, k: Kind): (State, Outcome) {
    if !HasFence(s, r) || o in s.ops || (k.RevokeOp? && k.past > s.now) then (s, Disabled)
    else
      var f := s.regs[r].conn.fence;
      if (if k.RevokeOp? then f.Closed() else !FenceLive(s, r)) then (s, ErrClosed)
      else if PermitTaken(f, k) then (s, ErrCapacity)
      else
        (SetFence(s, r, SetPermit(f, k, true).(operations := f.operations + 1))
        .(ops := s.ops[o := Operation(r, k, Permitted)]), Accepted)
  }

  function WithDeadline(f: Fence, d: Deadline, side: Side): Fence {
    match side
    case ReadSide => f.(readDeadline := d)
    case WriteSide => f.(writeDeadline := d)
    case BothSides => f.(readDeadline := d, writeDeadline := d)
  }

  /** Where an operation goes next, given what live() would answer: the new fence and
      the new stage, or no stage once the wait group has been decremented. */
  function OpNext(f: Fence, o: OperationId, op: Operation, live: bool, now: nat): (Fence, Option<Stage>) {
    match op.stage
    case Permitted =>
      (match op.kind
       case WriteOp => (f, Some(Finished))
       case DeadlineOp(_, _) =>
         if f.holder != None then (f, Some(Permitted)) else (f.(holder := Some(o)), Some(Locked))
       case RevokeOp(t, side) =>
         if f.holder != None then (f, Some(Permitted)) else (WithDeadline(f, At(t), side), Some(Finished)))
    case Locked => (f, Some(if live then Checked else Repairing))
    case Checked =>
      if !op.kind.DeadlineOp? then (f, Some(Checked))
      else (WithDeadline(f, op.kind.until, op.kind.side), Some(Updated))
    case Updated =>
      if live then (f.(holder := None), Some(Finished)) else (f, Some(Repairing))
    case Repairing => (WithDeadline(f, At(now), BothSides).(holder := None), Some(Finished))
    case Finished => (SetPermit(f, op.kind, false), Some(Cleared))
    case Cleared => (f.(operations := if f.operations == 0 then 0 else f.operations - 1), None)
  }

  /** The next step of an accepted operation. */
  function OperationStep(s: State, o: OperationId): State {
    if o !in s.ops || !HasFence(s, s.ops[o].reg) then s
    else
      var op := s.ops[o];
      var next := OpNext(s.regs[op.reg].conn.fence, o, op, FenceLive(s, op.reg), s.now);
      SetFence(s, op.reg, next.0)
      .(ops := if next.1.Some? then s.ops[o := op.(stage := next.1.value)] else s.ops - {o})
  }

  /** One step of writeFencedConn.Close up to the completed flag. */
  function CloseNext(f: Fence, mayStart: bool, now: nat): Fence {
    match f.phase
    case NotStarted => if mayStart then f.(phase := Marked) else f
    case Marked => if f.holder != None then f else WithDeadline(f, At(now), BothSides).(phase := Cut)
    case Cut => f.(phase := Severed)
    case Severed => if f.operations != 0 then f else f.(phase := Drained)
    case Drained => f.(phase := Completed)
    case _ => f
  }

  /** The next step of writeFencedConn.Close. Only somebody holding the fenced
      connection, or the worker that took it, can start it; the last step releases
      the registration. */
  function CloseStep(s: State, r: RegistrationId): State {
    if !HasFence(s, r) then s
    else
      var reg := s.regs[r];
      var f := reg.conn.fence;
      if f.phase == Completed then
        var t := Release(s, r);
        if HasFence(t, r) then SetFence(t, r, t.regs[r].conn.fence.(phase := Done)) else t
      else
        SetFence(s, r, CloseNext(f, reg.handedOut || reg.reap == Closing, s.now))
  }

  function PlainClose(s: State, r: RegistrationId): State {
    if r in s.regs && s.regs[r].conn.Plain? then SetReg(s, r, s.regs[r].(conn := Plain(true))) else s
  }

  // ---------------------------------------------------------------- runs

  datatype Event =
    | Tick(elapsed: nat)
    | EAcquire(a: AdmissionId, r: RegistrationId)
    | EReserve(a: AdmissionId, r: RegistrationId)
    | EAttachPlain(r: RegistrationId)
    | EAttachFenced(r: RegistrationId)
    | EAttachAgain(r: RegistrationId)
    | ELateInvalidate(r: RegistrationId)
    | ELatePublish(r: RegistrationId)
    | EAbort(r: RegistrationId)
    | ERelease(r: RegistrationId)
    | EReleaseAdmission(a: AdmissionId)
    | ECloseFor(owner: string)
    | EWorkerTake(r: RegistrationId)
    | EWorkerRelease(r: RegistrationId)
    | EFinishCleanup
    | EOwn(session: string)
    | EGrant(session: string, until: nat, checkedAt: nat)
    | EBegin(r: RegistrationId, o: OperationId, kind: Kind)
    | EOperationStep(o: OperationId)
    | ECloseStep(r: RegistrationId)
    | EPlainClose(r: RegistrationId)

  function Apply(s: State, e: Event): State {
    match e
    case Tick(d) => s.(now := s.now + d)
    case EAcquire(a, r) => Acquire(s, a, r).0
    case EReserve(a, r) => Reserve(s, a, r).0
    case EAttachPlain(r) => AttachPlain(s, r).0
    case EAttachFenced(r) => AttachFenced(s, r).0
    case EAttachAgain(r) => AttachAgain(s, r)
    case ELateInvalidate(r) => LateInvalidate(s, r)
    case ELatePublish(r) => LatePublish(s, r)
    case EAbort(r) => Abort(s, r)
    case ERelease(r) => Release(s, r)
    case EReleaseAdmission(a) => ReleaseAdmission(s, a)
    case ECloseFor(owner) => Invalidate(s, owner)
    case EWorkerTake(r) => WorkerTake(s, r)
    case EWorkerRelease(r) => WorkerRelease(s, r)
    case EFinishCleanup => FinishCleanup(s)
    case EOwn(session) => Own(s, session).0
    case EGrant(session, until, checkedAt) => Grant(s, session, until, checkedAt).0
    case EBegin(r, o, k) => Begin(s, r, o, k).0
    case EOperationStep(o) => OperationStep(s, o)
    case ECloseStep(r) => CloseStep(s, r)
    case EPlainClose(r) => PlainClose(s, r)
  }

  /** The state after a whole run. */
  function Run(s: State, events: seq<Event>): State {
    if events == [] then s else Apply(Run(s, events[..|events| - 1]), events[|events| - 1])
  }
}
