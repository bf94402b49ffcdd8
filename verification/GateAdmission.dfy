/** What an open gate gives: how many requests and upstreams it admits before it closes
    itself, and that a session it is granted to is really served. */
module GateAdmission {
  import opened Prelude
  import opened GateModel
  import opened GateInvariants
  import opened GateTheorems
  import opened GateDrain

  // ---------------------------------------------------------------- requests up to the limit

  /** The new objects of one request. */
  datatype Pair = Pair(a: AdmissionId, r: RegistrationId)

  function Acquires(ids: seq<Pair>): seq<Event> {
    if ids == [] then [] else [EAcquire(ids[0].a, ids[0].r)] + Acquires(ids[1..])
  }

  predicate Fresh(s: State, ids: seq<Pair>) {
    && (forall i | 0 <= i < |ids| :: ids[i].a !in s.adms && ids[i].r !in s.regs)
    && (forall i, j | 0 <= i < j < |ids| :: ids[i].a != ids[j].a && ids[i].r != ids[j].r)
  }

  /** One more request: an admission with an unattached client registration, and no other change. */
  function Admit(s: State, x: Pair): State {
    var client := Registration(x.a, true, s.activation, NotAttached, false, 0, false, false, NotQueued, NoConn);
    s.(adms := s.adms[x.a := Admission({x.r}, x.r, s.activation, false, false)],
       regs := s.regs[x.r := client], admissions := s.admissions + {x.a})
  }

  function AdmitAll(s: State, ids: seq<Pair>): State
    decreases |ids|
  {
    if ids == [] then s else AdmitAll(Admit(s, ids[0]), ids[1..])
  }

  /** Each of `ids` is accepted in its turn. */
  ghost predicate AllAccepted(s: State, ids: seq<Pair>)
    decreases |ids|
  {
    ids != [] ==>
      Acquire(s, ids[0].a, ids[0].r).1 == Accepted && AllAccepted(Acquire(s, ids[0].a, ids[0].r).0, ids[1..])
  }

  predicate Serving(s: State) { !s.cleaning && s.Open() }

  lemma NotTracked(s: State, a: AdmissionId)
    requires Inv(s) && a !in s.adms
    ensures a !in s.admissions
  {
    hide Clients, Activations, Quarantine, Connections, Permits, Bounded;
  }

  lemma AcquireFits(s: State, x: Pair)
    requires Inv(s) && Serving(s) && x.a !in s.adms && x.r !in s.regs && |s.admissions| < 4096
    ensures Acquire(s, x.a, x.r) == (Admit(s, x), Accepted)
    ensures Inv(Admit(s, x)) && Serving(Admit(s, x)) && |Admit(s, x).admissions| == |s.admissions| + 1
  {
    hide Inv, Invalidate;
    NotTracked(s, x.a);
    AcquireKeeps(s, x.a, x.r);
  }

  /** The request after the last one that fits ends the activation. */
  lemma AcquireOverflows(s: State, x: Pair)
    requires Inv(s) && Serving(s) && x.a !in s.adms && x.r !in s.regs && |s.admissions| == 4096
    ensures var r := Acquire(s, x.a, x.r);
            r.1 == ErrCapacity && r.0.owner == "" && Barrier(r.0, s.activation)
  {
    hide Inv, Barrier;
    InvalidateRaisesBarrier(s, "");
  }

  lemma FreshRest(s: State, ids: seq<Pair>)
    requires Fresh(s, ids) && ids != []
    ensures Fresh(Admit(s, ids[0]), ids[1..])
  {
  }

  lemma RunCons(s: State, e: Event, rest: seq<Event>)
    ensures Run(s, [e] + rest) == Run(Apply(s, e), rest)
  {
    assert Run(s, []) == s;
    Snoc(s, [], e);
    assert [] + [e] == [e];
    RunJoin(s, [e], rest);
    hide Run, Apply;
  }

  lemma {:induction false} AcquiresRun(s: State, ids: seq<Pair>)
    requires Inv(s) && Serving(s) && Fresh(s, ids) && |s.admissions| + |ids| <= 4096
    ensures AllAccepted(s, ids) && Run(s, Acquires(ids)) == AdmitAll(s, ids)
    ensures Inv(AdmitAll(s, ids)) && Serving(AdmitAll(s, ids))
    ensures |AdmitAll(s, ids).admissions| == |s.admissions| + |ids|
    decreases |ids|
  {
    if ids != [] {
      hide Inv, Run, Acquire, Admit;
      AcquireFits(s, ids[0]);
      FreshRest(s, ids);
      hide Fresh;
      RunCons(s, EAcquire(ids[0].a, ids[0].r), Acquires(ids[1..]));
      AcquiresRun(Admit(s, ids[0]), ids[1..]);
    } else {
      assert Run(s, []) == s;
    }
  }

  lemma {:induction false} FreshLast(s: State, ids: seq<Pair>, next: Pair)
    requires Fresh(s, ids + [next])
    ensures Fresh(s, ids) && next.a !in AdmitAll(s, ids).adms && next.r !in AdmitAll(s, ids).regs
    decreases |ids|
  {
    var all := ids + [next];
    assert all[|ids|] == next && forall i | 0 <= i < |ids| :: all[i] == ids[i];
    if ids != [] {
      FreshRest(s, all);
      assert all[1..] == ids[1..] + [next];
      hide Fresh, Admit;
      FreshLast(Admit(s, ids[0]), ids[1..], next);
    }
  }

  /** A running lease admits every request until 4096 are in flight, each with its one
      client registration and nothing else touched; one more closes the gate on all. */
  lemma AdmitsUpToLimit(history: seq<Event>, ids: seq<Pair>, next: Pair)
    requires var s := Run(INITIAL, history);
             Serving(s) && Fresh(s, ids + [next]) && |s.admissions| + |ids| <= 4096
    ensures var s := Run(INITIAL, history);
            var t := Run(s, Acquires(ids));
            var r := Acquire(t, next.a, next.r);
            && AllAccepted(s, ids) && t == AdmitAll(s, ids)
            && (if |s.admissions| + |ids| < 4096 then r == (Admit(t, next), Accepted)
                else r.1 == ErrCapacity && r.0.owner == "" && Barrier(r.0, s.activation))
  {
    var s := Run(INITIAL, history);
    RunKeeps(history);
    hide Inv, Run, Acquire, Admit, Barrier;
    FreshLast(s, ids, next);
    AcquiresRun(s, ids);
    var t := AdmitAll(s, ids);
    AdmitAllSame(s, ids);
    if |s.admissions| + |ids| < 4096 { AcquireFits(t, next); } else { AcquireOverflows(t, next); }
  }

  lemma {:induction false} AdmitAllSame(s: State, ids: seq<Pair>)
    ensures AdmitAll(s, ids).activation == s.activation
    decreases |ids|
  {
    if ids != [] { AdmitAllSame(Admit(s, ids[0]), ids[1..]); }
  }

  // ---------------------------------------------------------------- upstreams up to the limit

  predicate AdmissionLive(s: State, a: AdmissionId) {
    a in s.adms && !s.adms[a].released && !s.adms[a].cancelled
  }

  function Reserves(a: AdmissionId, rs: seq<RegistrationId>): seq<Event> {
    if rs == [] then [] else [EReserve(a, rs[0])] + Reserves(a, rs[1..])
  }

  predicate FreshUpstreams(s: State, rs: seq<RegistrationId>) {
    (forall i | 0 <= i < |rs| :: rs[i] !in s.regs) && (forall i, j | 0 <= i < j < |rs| :: rs[i] != rs[j])
  }

  /** One more upstream of the request, not yet attached, and no other change. */
  function Claim(s: State, a: AdmissionId, r: RegistrationId): State
    requires a in s.adms
  {
    var upstream := Registration(a, false, s.adms[a].activation, NotAttached, false, 0, false, false, NotQueued,
                                 NoConn);
    s.(adms := s.adms[a := s.adms[a].(registrations := s.adms[a].registrations + {r})], regs := s.regs[r := upstream])
  }

  function ClaimAll(s: State, a: AdmissionId, rs: seq<RegistrationId>): State
    requires a in s.adms
    decreases |rs|
  {
    if rs == [] then s else ClaimAll(Claim(s, a, rs[0]), a, rs[1..])
  }

  ghost predicate AllReserved(s: State, a: AdmissionId, rs: seq<RegistrationId>)
    decreases |rs|
  {
    rs != [] ==> Reserve(s, a, rs[0]).1 == Accepted && AllReserved(Reserve(s, a, rs[0]).0, a, rs[1..])
  }

  lemma NotHeld(s: State, a: AdmissionId, r: RegistrationId)
    requires Inv(s) && a in s.adms && r !in s.regs
    ensures r !in s.adms[a].registrations
  {
    hide Clients, Activations, Quarantine, Connections, Permits, Bounded;
  }

  lemma ReserveFits(s: State, a: AdmissionId, r: RegistrationId)
    requires Inv(s) && Serving(s) && AdmissionLive(s, a) && r !in s.regs && |s.adms[a].registrations| < 4
    ensures Reserve(s, a, r) == (Claim(s, a, r), Accepted)
    ensures var t := Claim(s, a, r);
            && Inv(t) && Serving(t) && AdmissionLive(t, a)
            && |t.adms[a].registrations| == |s.adms[a].registrations| + 1
  {
    hide Inv, Invalidate;
    NotHeld(s, a, r);
    ReserveKeeps(s, a, r);
  }

  lemma ReserveOverflows(s: State, a: AdmissionId, r: RegistrationId)
    requires Inv(s) && Serving(s) && AdmissionLive(s, a) && r !in s.regs && |s.adms[a].registrations| == 4
    ensures var u := Reserve(s, a, r);
            u.1 == ErrCapacity && u.0.owner == "" && Barrier(u.0, s.activation)
  {
    hide Inv, Barrier;
    InvalidateRaisesBarrier(s, "");
  }

  lemma {:induction false} ReservesRun(s: State, a: AdmissionId, rs: seq<RegistrationId>, next: RegistrationId)
    requires Inv(s) && Serving(s) && AdmissionLive(s, a) && FreshUpstreams(s, rs + [next])
    requires |s.adms[a].registrations| + |rs| <= 4
    ensures AllReserved(s, a, rs) && Run(s, Reserves(a, rs)) == ClaimAll(s, a, rs)
    ensures var t := ClaimAll(s, a, rs);
            && Inv(t) && Serving(t) && AdmissionLive(t, a) && next !in t.regs && t.activation == s.activation
            && |t.adms[a].registrations| == |s.adms[a].registrations| + |rs|
    decreases |rs|
  {
    hide Inv, Run, Reserve;
    var all := rs + [next];
    assert all[|rs|] == next;
    if rs != [] {
      assert all[0] == rs[0] && all[1..] == rs[1..] + [next];
      assert FreshUpstreams(Claim(s, a, rs[0]), all[1..]);
      hide FreshUpstreams, Claim;
      ReserveFits(s, a, rs[0]);
      RunCons(s, EReserve(a, rs[0]), Reserves(a, rs[1..]));
      ReservesRun(Claim(s, a, rs[0]), a, rs[1..], next);
    } else {
      RunNone(s);
    }
  }

  lemma RunNone(s: State)
    ensures Run(s, []) == s
  {
  }

  /** A request in flight gets upstreams until it holds four resources, its client counted;
      one more closes the gate on everybody. */
  lemma ReservesUpToLimit(history: seq<Event>, a: AdmissionId, rs: seq<RegistrationId>, next: RegistrationId)
    requires var s := Run(INITIAL, history);
             && Serving(s) && AdmissionLive(s, a) && FreshUpstreams(s, rs + [next])
             && |s.adms[a].registrations| + |rs| <= 4
    ensures var s := Run(INITIAL, history);
            var t := Run(s, Reserves(a, rs));
            var u := Reserve(t, a, next);
            && AllReserved(s, a, rs) && t == ClaimAll(s, a, rs) && a in t.adms
            && (if |s.adms[a].registrations| + |rs| < 4 then u == (Claim(t, a, next), Accepted)
                else u.1 == ErrCapacity && u.0.owner == "" && Barrier(u.0, s.activation))
  {
    var s := Run(INITIAL, history);
    RunKeeps(history);
    hide Inv, Run, Reserve, Claim, Barrier, FreshUpstreams;
    ReservesRun(s, a, rs, next);
    var t := ClaimAll(s, a, rs);
    if |s.adms[a].registrations| + |rs| < 4 { ReserveFits(t, a, next); } else { ReserveOverflows(t, a, next); }
  }

  // ---------------------------------------------------------------- a request is served

  /** The upstream is attached and fenced, and may be used. */
  predicate Connected(s: State, r: RegistrationId) {
    && HasFence(s, r) && FenceLive(s, r)
    && s.regs[r].attach == Attached && s.regs[r].handedOut && s.regs[r].conn.fence == FRESH_FENCE
  }

  /** A live request's reserved upstream is handed out fenced and ready, and its client is tracked. */
  lemma AttachServes(s: State, r: RegistrationId)
    requires Inv(s) && Serving(s) && r in s.regs && !s.regs[r].IsAttached() && !s.regs[r].aborted
    requires !s.regs[r].released && AdmissionLive(s, s.regs[r].admission)
    ensures var t := if s.regs[r].client then AttachPlain(s, r) else AttachFenced(s, r);
            && t.1 == Accepted && r in t.0.regs && t.0 == s.(regs := s.regs[r := t.0.regs[r]])
            && t.0.regs[r].Ready() && t.0.regs[r].attach == Attached
            && (if s.regs[r].client then t.0.regs[r].conn == Plain(false) else Connected(t.0, r))
  {
    NotYetQueued(s, r);
    hide Inv;
  }

  lemma NotYetQueued(s: State, r: RegistrationId)
    requires Inv(s) && Serving(s) && r in s.regs && !s.regs[r].released
    ensures s.regs[r].reap == NotQueued
  {
    hide Structure, Clients, Activations, Permits, Bounded;
    assert RegOk(s.regs[r]);
  }

  function Attach(s: State, r: RegistrationId): (State, Outcome) {
    if r in s.regs && s.regs[r].client then AttachPlain(s, r) else AttachFenced(s, r)
  }

  predicate Unmade(s: State, r: RegistrationId) {
    r in s.regs && !s.regs[r].IsAttached() && !s.regs[r].aborted && !s.regs[r].released
  }

  /** In every run, a connection that comes for its reservation is taken into service if and
      only if its request is live and the lease runs. One that comes late is kept for the
      cleanup all the same, and without a quarantine of its own closes the gate it was for. */
  lemma AttachesExactly(history: seq<Event>, r: RegistrationId)
    requires Unmade(Run(INITIAL, history), r)
    ensures var s := Run(INITIAL, history);
            var t := Attach(s, r);
            && r in t.0.regs && !t.0.regs[r].conn.NoConn?
            && (t.1 == Accepted <==> AdmissionLive(s, s.regs[r].admission) && Serving(s))
            && (t.1 == Accepted ==> t.0.regs[r].attach == Attached)
            && (t.1 != Accepted ==> t.1 == ErrClosed && t.0.regs[r].attach.LateClose?)
            && (t.1 != Accepted && !s.regs[r].Quarantined() ==>
                  var u := LateInvalidate(t.0, r); u.owner == "" && Barrier(u, s.activation))
  {
    var s := Run(INITIAL, history);
    GateDrain.ReachableSound(history);
    hide Run;
    LateIsLate(s, r);
    var t := Attach(s, r).0;
    if t.regs[r].attach.LateClose? && !s.regs[r].Quarantined() {
      hide Inv;
      assert Inv(t) by { AttachPlainKeeps(s, r); AttachFencedKeeps(s, r); }
      InvalidateRaisesBarrier(t, s.owner);
      LateCloses(t, r);
    }
  }

  lemma LateCloses(t: State, r: RegistrationId)
    requires r in t.regs && t.regs[r].attach.LateClose? && !t.regs[r].attach.quarantined
    requires t.regs[r].attach.owner == t.owner && Barrier(Invalidate(t, t.owner), t.activation)
    ensures var u := LateInvalidate(t, r); u.owner == "" && Barrier(u, t.activation)
  {
    hide Doomed;
  }

  lemma LateIsLate(s: State, r: RegistrationId)
    requires Inv(s) && Tidy(s) && Unmade(s, r)
    ensures var t := Attach(s, r);
            && r in t.0.regs && !t.0.regs[r].conn.NoConn? && t.0.owner == s.owner && t.0.activation == s.activation
            && (t.1 == Accepted <==> AdmissionLive(s, s.regs[r].admission) && Serving(s))
            && (t.1 == Accepted ==> t.0.regs[r].attach == Attached)
            && (t.1 != Accepted ==>
                  t.1 == ErrClosed && t.0.regs[r].attach == LateClose(s.owner, s.regs[r].Quarantined()))
  {
    hide Clients, Activations, Permits, Bounded;
    assert Filed(s, r) && RegOk(s.regs[r]);
    assert TidyAt(s, s.regs[r].admission);
    if Serving(s) { NotYetQueued(s, r); }
    hide Inv, Structure, Connections;
  }

  /** From any gate with a running lease and room, one request with one upstream: every call
      on its way is accepted, and it ends with a connection it may use. */
  lemma RequestIsServed(history: seq<Event>, x: Pair, r: RegistrationId, o: OperationId, k: Kind)
    requires var s := Run(INITIAL, history);
             && Serving(s) && |s.admissions| < 4096 && x.a !in s.adms && x.r !in s.regs && r !in s.regs && r != x.r
             && o !in s.ops && !k.RevokeOp?
    ensures var s := Run(INITIAL, history);
            var s1 := Acquire(s, x.a, x.r);
            var s2 := AttachPlain(s1.0, x.r);
            var s3 := Reserve(s2.0, x.a, r);
            var s4 := AttachFenced(s3.0, r);
            && s1.1 == Accepted && s2.1 == Accepted && s3.1 == Accepted && s4.1 == Accepted
            && Connected(s4.0, r) && Begin(s4.0, r, o, k).1 == Accepted
  {
    var s := Run(INITIAL, history);
    RunKeeps(history);
    hide Inv, Run, AttachPlain, AttachFenced, Reserve, Acquire, FenceLive;
    AcquireFits(s, x);
    var s1 := Admit(s, x);
    AttachServes(s1, x.r);
    AttachPlainKeeps(s1, x.r);
    var s2 := AttachPlain(s1, x.r).0;
    ReserveFits(s2, x.a, r);
    var s3 := Claim(s2, x.a, r);
    AttachServes(s3, r);
  }

  /** A granted lease runs exactly until its deadline. */
  lemma LeaseRunsUntil(s: State, session: string, until: nat, d: nat)
    requires s.owner == session != "" && !s.cleaning && s.now < until <= s.now + 5_000_000_000
    ensures var t := Grant(s, session, until, s.now);
            && t == (s.(expires := until), Accepted)
            && (Serving(Apply(t.0, Tick(d))) <==> s.now + d < until)
  {
  }

  /** Whatever a gate has been through, it can be wound down, owned and granted again, and
      then serves with its whole capacity. */
  lemma GateServesAgain(history: seq<Event>, session: string, until: nat)
    requires var now := Run(INITIAL, history).now; session != "" && now < until <= now + 5_000_000_000
    ensures exists events :: Winding(events) && (
              var drained := Run(Run(INITIAL, history), events);
              var owned := Own(drained, session);
              var granted := Grant(owned.0, session, until, drained.now);
              && owned.1 == Accepted && granted.1 == Accepted
              && Serving(granted.0) && granted.0.admissions == {} && Inv(granted.0))
  {
    ReachableSound(history);
    var s := Run(INITIAL, history);
    hide Run, Tidy, Inv, Spared;
    var events, t := Drain(s);
    WindingKeepsTime(s, events);
    OwnKeeps(t, session);
    GrantKeeps(Own(t, session).0, session, until, t.now);
  }

  lemma {:induction false} WindingKeepsTime(s: State, events: seq<Event>)
    requires Winding(events)
    ensures Run(s, events).now == s.now
  {
    if events != [] {
      assert Finishes(events[|events| - 1]);
      WindingKeepsTime(s, events[..|events| - 1]);
      FinishKeepsTime(Run(s, events[..|events| - 1]), events[|events| - 1]);
      hide Apply;
    }
  }

  lemma FinishKeepsTime(s: State, e: Event)
    requires Finishes(e)
    ensures Apply(s, e).now == s.now
  {
    hide OpNext, CloseNext;
  }

  // ---------------------------------------------------------------- a permitted operation does its work

  function Steps(o: OperationId, n: nat): seq<Event> {
    seq(n, _ => EOperationStep(o))
  }

  /** `op` of a fence, alone in the deadline mutex, moves on by one stage. */
  function Stepped(s: State, r: RegistrationId, o: OperationId, f: Fence, op: Operation): State
    requires r in s.regs
  {
    SetFence(s, r, f).(ops := s.ops[o := op])
  }

  lemma StepsTo(s: State, r: RegistrationId, o: OperationId, f: Fence, op: Operation, g: Fence, next: Stage)
    requires HasFence(s, r) && op.reg == r && s.regs[r].conn.fence.phase == NotStarted
             && f.phase == g.phase == NotStarted
    requires OpNext(f, o, op, FenceLive(s, r), s.now) == (g, Some(next))
    ensures OperationStep(Stepped(s, r, o, f, op), o) == Stepped(s, r, o, g, op.(stage := next))
  {
    var t := Stepped(s, r, o, f, op);
    assert FenceLive(t, r) == FenceLive(s, r);
    hide OpNext, FenceLive;
    assert t.regs[r := t.regs[r].(conn := Fenced(g))] == s.regs[r := s.regs[r].(conn := Fenced(g))];
    assert t.ops[o := op.(stage := next)] == s.ops[o := op.(stage := next)];
  }

  lemma StepsOut(s: State, r: RegistrationId, o: OperationId, f: Fence, op: Operation)
    requires HasFence(s, r) && op.reg == r && op.stage == Cleared && o !in s.ops && f.operations > 0
    ensures OperationStep(Stepped(s, r, o, f, op), o) == SetFence(s, r, f.(operations := f.operations - 1))
  {
    var t := Stepped(s, r, o, f, op);
    assert t.ops - {o} == s.ops;
    hide FenceLive;
  }

  /** Nothing stands in the way of an operation of kind `k`. */
  predicate Idle(s: State, r: RegistrationId, o: OperationId, k: Kind) {
    && HasFence(s, r) && FenceLive(s, r) && o !in s.ops
    && !PermitTaken(s.regs[r].conn.fence, k) && s.regs[r].conn.fence.holder == None
  }

  lemma {:induction false} StepsAre(b: State, o: OperationId, states: seq<State>)
    requires states != [] && states[0] == b
    requires forall i | 0 <= i < |states| - 1 :: OperationStep(states[i], o) == states[i + 1]
    ensures Run(b, Steps(o, |states| - 1)) == states[|states| - 1]
  {
    var n := |states| - 1;
    if n == 0 {
      assert Steps(o, 0) == [];
      RunNone(b);
    } else {
      hide Run, OperationStep;
      StepsAre(b, o, states[..n]);
      assert Steps(o, n) == Steps(o, n - 1) + [EOperationStep(o)];
      Snoc(b, Steps(o, n - 1), EOperationStep(o));
    }
  }

  /** A permitted write gives its permit back and leaves the gate as it was. */
  lemma WriteGivesPermitBack(s: State, r: RegistrationId, o: OperationId)
    requires Idle(s, r, o, WriteOp)
    ensures Begin(s, r, o, WriteOp).1 == Accepted
    ensures Run(Begin(s, r, o, WriteOp).0, Steps(o, 3)) == s
  {
    var f := s.regs[r].conn.fence;
    var held := f.(writeActive := true, operations := f.operations + 1);
    var free := held.(writeActive := false);
    var op := Operation(r, WriteOp, Permitted);
    assert Begin(s, r, o, WriteOp) == (Stepped(s, r, o, held, op), Accepted);
    StepsTo(s, r, o, held, op, held, Finished);
    StepsTo(s, r, o, held, op.(stage := Finished), free, Cleared);
    StepsOut(s, r, o, free, op.(stage := Cleared));
    assert SetFence(s, r, f) == s;
    hide Begin, OpNext, Stepped, OperationStep, FenceLive, Run;
    StepsAre(Stepped(s, r, o, held, op), o,
             [Stepped(s, r, o, held, op), Stepped(s, r, o, held, op.(stage := Finished)),
              Stepped(s, r, o, free, op.(stage := Cleared)), s]);
  }

  lemma DeadlineBegins(s: State, r: RegistrationId, o: OperationId, k: Kind)
    requires k.DeadlineOp? && Idle(s, r, o, k)
    ensures var f := s.regs[r].conn.fence;
            var held := f.(deadlineActive := true, operations := f.operations + 1);
            && f.phase == NotStarted
            && Begin(s, r, o, k) == (Stepped(s, r, o, held, Operation(r, k, Permitted)), Accepted)
  {
  }

  /** A permitted deadline update on a live connection sets exactly the deadline asked for,
      on the side asked for, and gives its permit and the mutex back. */
  lemma DeadlineTakesEffect(s: State, r: RegistrationId, o: OperationId, until: Deadline, side: Side)
    requires Idle(s, r, o, DeadlineOp(until, side))
    ensures var k := DeadlineOp(until, side);
            && Begin(s, r, o, k).1 == Accepted
            && Run(Begin(s, r, o, k).0, Steps(o, 6)) == SetFence(s, r, WithDeadline(s.regs[r].conn.fence, until, side))
  {
    hide Begin, Stepped, OperationStep, FenceLive, Run;
    var k, f := DeadlineOp(until, side), s.regs[r].conn.fence;
    var op := Operation(r, k, Permitted);
    var held := f.(deadlineActive := true, operations := f.operations + 1);
    var inside := held.(holder := Some(o));
    var done := WithDeadline(inside, until, side);
    var left, free := done.(holder := None), done.(holder := None, deadlineActive := false);
    DeadlineBegins(s, r, o, k);
    StepsTo(s, r, o, held, op, inside, Locked);
    StepsTo(s, r, o, inside, op.(stage := Locked), inside, Checked);
    StepsTo(s, r, o, inside, op.(stage := Checked), done, Updated);
    StepsTo(s, r, o, done, op.(stage := Updated), left, Finished);
    StepsTo(s, r, o, left, op.(stage := Finished), free, Cleared);
    StepsOut(s, r, o, free, op.(stage := Cleared));
    assert free.(operations := free.operations - 1) == WithDeadline(f, until, side);
    hide OpNext, WithDeadline, SetFence;
    StepsAre(Stepped(s, r, o, held, op), o,
             [Stepped(s, r, o, held, op), Stepped(s, r, o, inside, op.(stage := Locked)),
              Stepped(s, r, o, inside, op.(stage := Checked)), Stepped(s, r, o, done, op.(stage := Updated)),
              Stepped(s, r, o, left, op.(stage := Finished)), Stepped(s, r, o, free, op.(stage := Cleared)),
              SetFence(s, r, WithDeadline(f, until, side))]);
  }

  /** A deadline update leaves the mutex on a live connection, or with both deadlines forced
      into the past: none survives the end of its scope. */
  lemma UpdateEndsSafely(s: State, o: OperationId)
    requires o in s.ops && s.ops[o].kind.DeadlineOp? && HasFence(s, s.ops[o].reg) && InLock(s.ops[o].stage)
    requires var t := OperationStep(s, o); o in t.ops && t.ops[o].stage == Finished
    ensures var t := OperationStep(s, o);
            var r := s.ops[o].reg;
            && t.regs[r].conn.fence.holder == None
            && (!FenceLive(s, r) ==>
                  t.regs[r].conn.fence.readDeadline == At(s.now) && t.regs[r].conn.fence.writeDeadline == At(s.now))
  {
    hide FenceLive;
  }

  lemma RevocationBegins(s: State, r: RegistrationId, o: OperationId, k: Kind)
    requires HasFence(s, r) && !s.regs[r].conn.fence.Closed() && o !in s.ops && k.RevokeOp? && k.past <= s.now
    requires !s.regs[r].conn.fence.revokerActive
    ensures var f := s.regs[r].conn.fence;
            var held := f.(revokerActive := true, operations := f.operations + 1);
            && f.phase == NotStarted
            && Begin(s, r, o, k) == (Stepped(s, r, o, held, Operation(r, k, Permitted)), Accepted)
  {
    hide FenceLive;
  }

  /** A revocation needs no live scope: until Close has begun it is accepted, sets exactly the
      past deadline asked for, and gives its permit back. */
  lemma RevocationTakesEffect(s: State, r: RegistrationId, o: OperationId, past: nat, side: Side)
    requires HasFence(s, r) && !s.regs[r].conn.fence.Closed() && o !in s.ops && past <= s.now
    requires !s.regs[r].conn.fence.revokerActive && s.regs[r].conn.fence.holder == None
    ensures var k := RevokeOp(past, side);
            && Begin(s, r, o, k).1 == Accepted
            && Run(Begin(s, r, o, k).0, Steps(o, 3))
               == SetFence(s, r, WithDeadline(s.regs[r].conn.fence, At(past), side))
  {
    hide Begin, Stepped, OperationStep, FenceLive, Run;
    var k, f := RevokeOp(past, side), s.regs[r].conn.fence;
    var op := Operation(r, k, Permitted);
    var held := f.(revokerActive := true, operations := f.operations + 1);
    var done := WithDeadline(held, At(past), side);
    var free := done.(revokerActive := false);
    RevocationBegins(s, r, o, k);
    StepsTo(s, r, o, held, op, done, Finished);
    StepsTo(s, r, o, done, op.(stage := Finished), free, Cleared);
    StepsOut(s, r, o, free, op.(stage := Cleared));
    assert free.(operations := free.operations - 1) == WithDeadline(f, At(past), side);
    hide OpNext, WithDeadline, SetFence;
    StepsAre(Stepped(s, r, o, held, op), o,
             [Stepped(s, r, o, held, op), Stepped(s, r, o, done, op.(stage := Finished)),
              Stepped(s, r, o, free, op.(stage := Cleared)),
              SetFence(s, r, free.(operations := free.operations - 1))]);
  }

  // ---------------------------------------------------------------- one session at a time

  lemma OwnerStays(s: State, e: Event)
    requires s.owner != ""
    ensures Apply(s, e).owner == s.owner || Apply(s, e).owner == ""
  {
    hide OpNext, FenceLive, CloseNext, Doomed, BatchDone, Admit;
  }

  /** A session that owns the gate keeps it until the gate is invalidated: no other session
      gets it without the gate having been without an owner in between. */
  lemma {:induction false} SessionsDoNotOverlap(s: State, events: seq<Event>)
    requires forall i | 0 <= i <= |events| :: Run(s, events[..i]).owner != ""
    ensures Run(s, events).owner == s.owner
  {
    hide Apply;
    if events != [] {
      var n := |events| - 1;
      forall i | 0 <= i <= n ensures Run(s, events[..n][..i]).owner != "" {
        assert events[..n][..i] == events[..i];
      }
      SessionsDoNotOverlap(s, events[..n]);
      assert events[..|events|] == events;
      OwnerStays(Run(s, events[..n]), events[n]);
    }
  }

  // ---------------------------------------------------------------- a finished request

  /** The request was released, and stays so. */
  predicate Over(s: State, a: AdmissionId) { a in s.adms && s.adms[a].released }

  lemma ReleasingOver(s: State, e: Event, a: AdmissionId)
    requires Over(s, a) && (e.EAbort? || e.ERelease? || e.EReleaseAdmission? || e.EWorkerRelease? || e.ECloseStep?)
    ensures Over(Apply(s, e), a)
  {
    hide CloseNext;
  }

  lemma ClosingOver(s: State, e: Event, a: AdmissionId)
    requires Over(s, a) && (e.EAcquire? || e.EReserve? || e.ECloseFor? || e.ELateInvalidate? || e.EFinishCleanup?)
    ensures Over(Apply(s, e), a)
  {
    hide Doomed, BatchDone;
  }

  lemma ApplyOver(s: State, e: Event, a: AdmissionId)
    requires Over(s, a)
    ensures Over(Apply(s, e), a)
  {
    if e.EAbort? || e.ERelease? || e.EReleaseAdmission? || e.EWorkerRelease? || e.ECloseStep? {
      hide Apply, Over;
      ReleasingOver(s, e, a);
    } else if e.EAcquire? || e.EReserve? || e.ECloseFor? || e.ELateInvalidate? || e.EFinishCleanup? {
      hide Apply, Over;
      ClosingOver(s, e, a);
    } else {
      hide OpNext, FenceLive;
    }
  }

  lemma {:induction false} RunOver(s: State, events: seq<Event>, a: AdmissionId)
    requires Over(s, a) && Inv(s)
    ensures Over(Run(s, events), a) && Inv(Run(s, events))
  {
    if events != [] {
      hide Over, Apply, Inv;
      RunOver(s, events[..|events| - 1], a);
      ApplyOver(Run(s, events[..|events| - 1]), events[|events| - 1], a);
      ApplyKeeps(Run(s, events[..|events| - 1]), events[|events| - 1]);
    }
  }

  /** After a request is released, nothing more is written through any of its connections, no
      deadline is set and no upstream is reserved for it, in any later state. */
  lemma NothingAfterRelease(before: seq<Event>, a: AdmissionId, after: seq<Event>, r: RegistrationId,
                            o: OperationId, k: Kind)
    requires a in Run(INITIAL, before).adms && !k.RevokeOp?
    ensures var t := Run(ReleaseAdmission(Run(INITIAL, before), a), after);
            && (r in t.regs && t.regs[r].admission == a ==> Begin(t, r, o, k).1 != Accepted)
            && Reserve(t, a, r).1 != Accepted
  {
    hide Inv, Run, Invalidate;
    var s := Run(INITIAL, before);
    RunKeeps(before);
    ReleaseAdmissionKeeps(s, a);
    HasOwnClient(s, a);
    assert Over(ReleaseAdmission(s, a), a);
    hide ReleaseAdmission;
    RunOver(ReleaseAdmission(s, a), after, a);
  }

  lemma HasOwnClient(s: State, a: AdmissionId)
    requires Inv(s) && a in s.adms
    ensures s.adms[a].client in s.regs
  {
    hide Structure, Activations, Quarantine, Connections, Permits, Bounded;
  }

  /** The cleanup needs nobody's help: in every run, when its workers are done the last section
      leaves a gate without a single request, which any session may own. */
  lemma FinishedCleanupIsEmpty(history: seq<Event>, session: string)
    requires var s := Run(INITIAL, history); s.cleaning && BatchDone(s)
    ensures var t := FinishCleanup(Run(INITIAL, history));
            t.admissions == {} && !t.cleaning && Own(t, session).1 == Accepted
  {
    ReachableSound(history);
    hide Run, Sound;
    CleanupEmpties(Run(INITIAL, history));
  }

  lemma CleanupEmpties(s: State)
    requires Sound(s) && s.cleaning && BatchDone(s)
    ensures FinishCleanup(s).admissions == {} && !FinishCleanup(s).cleaning && s.owner == ""
  {
    forall a | a in s.admissions ensures Spent(s, a) {
      assert a in s.adms && TidyAt(s, a);
      AllReaped(s, a);
    }
    assert Quarantine(s);
    hide Sound;
  }

  lemma AllReleased(s: State)
    requires Inv(s) && s.cleaning && BatchDone(s)
    ensures forall r | r in s.regs :: s.regs[r].released
  {
    hide Structure, Clients, Activations, Permits, Bounded;
    forall r | r in s.regs ensures s.regs[r].released { assert RegOk(s.regs[r]); }
  }

  lemma AllReaped(s: State, a: AdmissionId)
    requires Inv(s) && s.cleaning && BatchDone(s) && a in s.adms
    ensures s.adms[a].registrations == {}
  {
    AllReleased(s);
    hide Clients, Activations, Quarantine, Connections, Permits, Bounded;
    forall r | r in s.regs ensures r !in s.adms[a].registrations { assert Filed(s, r); }
  }
}
