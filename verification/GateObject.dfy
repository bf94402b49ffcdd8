/** The gate as the source writes it: an object whose methods are the critical sections
    of its mutex. Each is proved to be the corresponding transition and to keep the
    gate's whole invariant, so that any sequence of calls is a run. */
module GateObject {
  import opened Prelude
  import opened GateModel
  import opened GateInvariants

  class Gate {
    var owner: string
    var expires: nat
    var admissions: set<AdmissionId>
    var cleaning: bool
    var adms: map<AdmissionId, Admission>
    var regs: map<RegistrationId, Registration>
    var ops: map<OperationId, Operation>
    var activation: nat
    var tasks: nat

    ghost function View(now: nat): State
      reads this
    {
      State(now, owner, expires, admissions, cleaning, adms, regs, ops, activation, tasks)
    }

    ghost predicate Valid(now: nat)
      reads this
    {
      Inv(View(now))
    }

    constructor ()
      ensures Valid(1) && View(1) == INITIAL
    {
      owner, expires, admissions, cleaning := "", 0, {}, false;
      adms, regs, ops, activation, tasks := map[], map[], map[], 0, 0;
      new;
      hide Inv;
      RunKeeps([]);
      assert Run(INITIAL, []) == INITIAL;
    }

    /** Time passing between two calls keeps the invariant. */
    lemma LaterValid(now: nat, later: nat)
      requires Valid(now) && now <= later
      ensures Valid(later)
    {
      hide Inv;
      TickKeeps(View(now), later - now);
      assert View(later) == View(now).(now := now + (later - now));
    }

    /** The inner loop of beginInvalidateLocked: quarantine what one admission still holds. */
    method QuarantineAll(a: AdmissionId, batch: set<RegistrationId>) returns (more: set<RegistrationId>)
      requires a in adms && forall r | r in adms[a].registrations :: r in regs
      modifies this`regs
      ensures regs == Queue(old(regs), Unreleased(old(regs), adms[a].registrations))
      ensures more == batch + Unreleased(old(regs), adms[a].registrations)
    {
      more := batch;
      ghost var was := regs;
      var todo := adms[a].registrations;
      assert Queue(was, {}) == was;
      while todo != {}
        invariant todo <= adms[a].registrations
        invariant regs == Queue(was, Unreleased(was, adms[a].registrations - todo))
        invariant more == batch + Unreleased(was, adms[a].registrations - todo)
      {
        var r :| r in todo;
        QueueOne(was, adms[a].registrations - todo, r);
        assert adms[a].registrations - (todo - {r}) == (adms[a].registrations - todo) + {r};
        todo := todo - {r};
        if !regs[r].released {
          regs := regs[r := regs[r].(reap := Queued)];
          more := more + {r};
        }
      }
      assert adms[a].registrations - todo == adms[a].registrations;
    }

    /** beginInvalidateLocked: the single atomic rejection decision. */
    method BeginInvalidate(who: string, ghost now: nat) returns (batch: set<RegistrationId>)
      requires Valid(now)
      modifies this
      ensures Valid(now) && View(now) == Invalidate(old(View(now)), who)
      ensures batch == (if (who != "" && old(owner) != who) || old(cleaning) then {} else Doomed(old(View(now))))
    {
      hide Inv, Structure, Cancel, Queue, Reached, Invalidate;
      InvalidateKeeps(View(now), who);
      Consistent(View(now));
      batch := {};
      InvalidateIdle(View(now), who);
      if who != "" && owner != who { return; }
      owner, expires := "", 0;
      if cleaning { return; }
      var todo := admissions;
      ghost var was := old(View(now));
      ReachedNone(was);
      ghost var done: set<AdmissionId> := {};
      while todo != {}
        invariant todo <= admissions && done == admissions - todo
        invariant View(now) == was.(owner := "", expires := 0, adms := Cancel(was.adms, done),
                                    regs := Queue(was.regs, batch))
        invariant batch == Reached(was, done)
      {
        var a :| a in todo;
        todo := todo - {a};
        Tracked(was, a);
        CancelOne(was.adms, done, a);
        adms := adms[a := adms[a].(cancelled := true)];
        QueueMore(was, done, a);
        batch := QuarantineAll(a, batch);
        done := done + {a};
      }
      assert done == admissions;
      InvalidateIs(was, who);
      cleaning := batch != {};
    }

    /** AcquireSource for a managed source; a and r are the freshly allocated objects. */
    method AcquireSource(a: AdmissionId, r: RegistrationId, now: nat) returns (o: Outcome)
      requires Valid(now) && a !in adms && r !in regs
      modifies this
      ensures Valid(now) && (View(now), o) == Acquire(old(View(now)), a, r)
    {
      hide Inv, Invalidate;
      AcquireKeeps(View(now), a, r);
      if cleaning || owner == "" || !(now < expires) { return ErrClosed; }
      if |admissions| >= MAX_ADMISSIONS {
        var _ := BeginInvalidate("", now);
        return ErrCapacity;
      }
      var client := Registration(a, true, activation, NotAttached, false, 0, false, false, NotQueued, NoConn);
      adms := adms[a := Admission({r}, r, activation, false, false)];
      regs := regs[r := client];
      admissions := admissions + {a};
      o := Accepted;
    }

    method ReserveFor(a: AdmissionId, r: RegistrationId, now: nat) returns (o: Outcome)
      requires Valid(now) && a in adms && r !in regs
      modifies this
      ensures Valid(now) && (View(now), o) == Reserve(old(View(now)), a, r)
    {
      hide Inv, Invalidate;
      ReserveKeeps(View(now), a, r);
      var ad := adms[a];
      if ad.released || ad.cancelled || cleaning || owner == "" || !(now < expires) { return ErrClosed; }
      if |ad.registrations| >= MAX_TRACKED {
        var _ := BeginInvalidate("", now);
        return ErrCapacity;
      }
      adms := adms[a := ad.(registrations := ad.registrations + {r})];
      regs := regs[r := Registration(a, false, ad.activation, NotAttached, false, 0, false, false, NotQueued, NoConn)];
      o := Accepted;
    }

    /** Removes a released registration from its admission and a spent admission from the gate. */
    method Drop(r: RegistrationId, ghost now: nat)
      requires r in regs && regs[r].admission in adms
      modifies this`adms, this`admissions
      ensures View(now) == Forget(old(View(now)), r)
    {
      var a := regs[r].admission;
      adms := adms[a := adms[a].(registrations := adms[a].registrations - {r})];
      if adms[a].released && adms[a].registrations == {} {
        admissions := admissions - {a};
      }
    }

    method AbortRegistration(r: RegistrationId, ghost now: nat)
      requires Valid(now) && r in regs
      modifies this
      ensures Valid(now) && View(now) == Abort(old(View(now)), r)
    {
      hide Inv;
      Belongs(View(now), r);
      AbortKeeps(View(now), r);
      var reg := regs[r];
      if reg.IsAttached() || reg.aborted || reg.released { return; }
      regs := regs[r := reg.(aborted := true, readyCloses := reg.readyCloses + 1)];
      if !reg.Quarantined() {
        regs := regs[r := regs[r].(released := true)];
        Drop(r, now);
      }
    }

    method ReleaseRegistration(r: RegistrationId, ghost now: nat)
      requires Valid(now) && r in regs
      modifies this
      ensures Valid(now) && View(now) == Release(old(View(now)), r)
    {
      hide Inv;
      Belongs(View(now), r);
      ReleaseKeeps(View(now), r);
      var reg := regs[r];
      if reg.Quarantined() || reg.released { return; }
      if reg.conn.Fenced? && !reg.conn.fence.IsCompleted() { return; }
      if !reg.IsAttached() && !reg.aborted { return; }
      regs := regs[r := reg.(released := true)];
      Drop(r, now);
    }

    method ReleaseRequest(a: AdmissionId, ghost now: nat)
      requires Valid(now) && a in adms
      modifies this
      ensures Valid(now) && View(now) == ReleaseAdmission(old(View(now)), a)
    {
      hide Inv;
      HasClient(View(now), a);
      ReleaseAdmissionKeeps(View(now), a);
      if adms[a].released { return; }
      var c := adms[a].client;
      var client := regs[c];
      var left := adms[a].registrations;
      if !client.IsAttached() && !client.aborted && !client.released {
        client := client.(aborted := true, readyCloses := client.readyCloses + 1);
      }
      if !client.Quarantined() && !client.released {
        client := client.(released := true);
        left := left - {c};
      }
      regs := regs[c := client];
      adms := adms[a := adms[a].(released := true, cancelled := true, registrations := left)];
      if left == {} { admissions := admissions - {a}; }
    }

    /** The last section of finishCleanup, once every worker has returned. */
    method CompleteCleanup(ghost now: nat)
      requires Valid(now) && cleaning && BatchDone(View(now))
      modifies this
      ensures Valid(now) && View(now) == FinishCleanup(old(View(now)))
    {
      hide Inv, Structure, Retire, SpentOf, FinishCleanup;
      FinishCleanupKeeps(View(now));
      Consistent(View(now));
      ghost var was := old(View(now));
      var todo := admissions;
      ghost var done: set<AdmissionId> := {};
      RetireNone(was);
      while todo != {}
        invariant todo <= was.admissions && done == was.admissions - todo
        invariant View(now) == was.(adms := Retire(was, done), admissions := was.admissions - SpentOf(was, done))
      {
        var a :| a in todo;
        todo := todo - {a};
        RetireOne(was, done, a);
        if adms[a].cancelled && adms[a].registrations == {} {
          adms := adms[a := adms[a].(released := true)];
          admissions := admissions - {a};
        }
        done := done + {a};
      }
      assert done == was.admissions;
      RetireAll(was);
      cleaning, tasks := false, tasks + 1;
    }

    method TakeOwnership(session: string, ghost now: nat) returns (o: Outcome)
      requires Valid(now)
      modifies this
      ensures Valid(now) && (View(now), o) == Own(old(View(now)), session)
    {
      hide Inv;
      OwnKeeps(View(now), session);
      if cleaning || admissions != {} { return ErrCleanupUnknown; }
      if owner != "" && owner != session { return ErrClosed; }
      owner, expires, activation := session, 0, activation + 1;
      o := Accepted;
    }

    method GrantLease(session: string, until: nat, checkedAt: nat, now: nat) returns (o: Outcome)
      requires Valid(now) && checkedAt <= now
      modifies this`expires
      ensures Valid(now) && (View(now), o) == Grant(old(View(now)), session, until, checkedAt)
    {
      hide Inv;
      GrantKeeps(View(now), session, until, checkedAt);
      if !(until > checkedAt) || until > checkedAt + MAX_LEASE { return ErrProtocol; }
      if cleaning || owner != session || session == "" { return ErrClosed; }
      expires := until;
      o := Accepted;
    }

    /** writeFencedConn.liveLocked */
    method IsLive(r: RegistrationId, now: nat) returns (live: bool)
      requires r in regs && regs[r].conn.Fenced? && regs[r].admission in adms
      ensures live == FenceLive(View(now), r)
    {
      var reg := regs[r];
      var a := adms[reg.admission];
      live := !reg.conn.fence.Closed() && !reg.released && !reg.aborted && !reg.Quarantined()
        && !a.released && !a.cancelled && !cleaning && owner != "" && now < expires;
    }

    /** The first critical section of AttachFenced. */
    method AttachUpstream(r: RegistrationId, now: nat) returns (o: Outcome)
      requires Valid(now) && r in regs && !regs[r].client
      modifies this`regs
      ensures Valid(now) && (View(now), o) == AttachFenced(old(View(now)), r)
    {
      hide Inv;
      Belongs(View(now), r);
      AttachFencedKeeps(View(now), r);
      var reg := regs[r];
      if reg.IsAttached() || reg.aborted || reg.released { return ErrProtocol; }
      regs := regs[r := reg.(conn := Fenced(FRESH_FENCE))];
      var live := IsLive(r, now);
      if live {
        regs := regs[r := regs[r].(attach := Attached, handedOut := true, readyCloses := reg.readyCloses + 1)];
        o := Accepted;
      } else {
        regs := regs[r := regs[r].(attach := LateClose(owner, reg.Quarantined()))];
        o := ErrClosed;
      }
      assert regs == old(regs)[r := regs[r]];
    }

    /** begin, and the permit section of a revocation. */
    method BeginOperation(r: RegistrationId, op: OperationId, k: Kind, now: nat) returns (o: Outcome)
      requires Valid(now) && r in regs && regs[r].conn.Fenced? && op !in ops
      requires k.RevokeOp? ==> k.past <= now
      modifies this`regs, this`ops
      ensures Valid(now) && (View(now), o) == Begin(old(View(now)), r, op, k)
    {
      hide Inv;
      Belongs(View(now), r);
      BeginKeeps(View(now), r, op, k);
      var f := regs[r].conn.fence;
      var live := IsLive(r, now);
      if (if k.RevokeOp? then f.Closed() else !live) { return ErrClosed; }
      if PermitTaken(f, k) { return ErrCapacity; }
      f := SetPermit(f, k, true);
      regs := regs[r := regs[r].(conn := Fenced(f.(operations := f.operations + 1)))];
      ops := ops[op := Operation(r, k, Permitted)];
      o := Accepted;
    }
  }

  // ---------------------------------------------------------------- what the loops have done so far

  lemma Consistent(s: State)
    requires Inv(s)
    ensures Structure(s)
  {
  }

  lemma Belongs(s: State, r: RegistrationId)
    requires Inv(s) && r in s.regs
    ensures s.regs[r].admission in s.adms
  {
    assert Filed(s, r);
  }

  lemma HasClient(s: State, a: AdmissionId)
    requires Inv(s) && a in s.adms
    ensures s.adms[a].client in s.regs
  {
  }

  lemma Tracked(s: State, a: AdmissionId)
    requires Structure(s) && a in s.admissions
    ensures a in s.adms
  {
  }

  lemma ReachedNone(s: State)
    ensures Reached(s, {}) == {} && Queue(s.regs, {}) == s.regs && Cancel(s.adms, {}) == s.adms
  {
  }

  lemma InvalidateIdle(s: State, who: string)
    ensures who != "" && s.owner != who ==> Invalidate(s, who) == s
    ensures (who == "" || s.owner == who) && s.cleaning ==> Invalidate(s, who) == s.(owner := "", expires := 0)
  {
  }

  ghost function Queue(m: map<RegistrationId, Registration>, batch: set<RegistrationId>)
    : map<RegistrationId, Registration>
  {
    map r | r in m :: if r in batch then m[r].(reap := Queued) else m[r]
  }

  ghost function Unreleased(m: map<RegistrationId, Registration>, among: set<RegistrationId>): set<RegistrationId> {
    set r | r in among && r in m && !m[r].released
  }

  lemma QueueOne(m: map<RegistrationId, Registration>, done: set<RegistrationId>, r: RegistrationId)
    requires r in m && r !in done
    ensures var q := Queue(m, Unreleased(m, done));
            && q[r] == m[r]
            && Queue(m, Unreleased(m, done + {r})) == (if m[r].released then q else q[r := q[r].(reap := Queued)])
            && Unreleased(m, done + {r}) == (if m[r].released then Unreleased(m, done) else Unreleased(m, done) + {r})
  {
  }

  ghost function Cancel(m: map<AdmissionId, Admission>, among: set<AdmissionId>): map<AdmissionId, Admission> {
    map a | a in m :: if a in among then m[a].(cancelled := true) else m[a]
  }

  lemma CancelOne(m: map<AdmissionId, Admission>, done: set<AdmissionId>, a: AdmissionId)
    requires a in m && a !in done
    ensures a in Cancel(m, done) && Cancel(m, done)[a] == m[a]
    ensures Cancel(m, done + {a}) == Cancel(m, done)[a := m[a].(cancelled := true)]
  {
  }

  /** The live registrations of some of the gate's admissions. */
  ghost function Reached(s: State, among: set<AdmissionId>): set<RegistrationId> {
    set a, r | a in among && a in s.adms && r in s.adms[a].registrations && r in s.regs && !s.regs[r].released :: r
  }

  lemma QueueMore(s: State, done: set<AdmissionId>, a: AdmissionId)
    requires Structure(s) && a in s.adms && a !in done
    ensures var q := Queue(s.regs, Reached(s, done));
            && (forall r | r in s.adms[a].registrations :: r in q)
            && Reached(s, done + {a}) == Reached(s, done) + Unreleased(q, s.adms[a].registrations)
            && Queue(s.regs, Reached(s, done + {a})) == Queue(q, Unreleased(q, s.adms[a].registrations))
  {
    var q := Queue(s.regs, Reached(s, done));
    assert Unreleased(q, s.adms[a].registrations) == Unreleased(s.regs, s.adms[a].registrations);
    assert Reached(s, done + {a}) == Reached(s, done) + Unreleased(s.regs, s.adms[a].registrations);
    QueueTwice(s.regs, Reached(s, done), Unreleased(q, s.adms[a].registrations));
  }

  lemma QueueTwice(m: map<RegistrationId, Registration>, a: set<RegistrationId>, b: set<RegistrationId>)
    ensures Queue(Queue(m, a), b) == Queue(m, a + b)
  {
  }

  lemma InvalidateIs(s: State, who: string)
    requires Structure(s) && !s.cleaning && (who == "" || who == s.owner)
    ensures Reached(s, s.admissions) == Doomed(s)
    ensures Invalidate(s, who) == s.(owner := "", expires := 0, adms := Cancel(s.adms, s.admissions),
                                     regs := Queue(s.regs, Doomed(s)), cleaning := Doomed(s) != {})
  {
  }

  ghost function SpentOf(s: State, among: set<AdmissionId>): set<AdmissionId> {
    set a | a in among && Spent(s, a)
  }

  ghost function Retire(s: State, among: set<AdmissionId>): map<AdmissionId, Admission> {
    map a | a in s.adms :: if a in among && Spent(s, a) then s.adms[a].(released := true) else s.adms[a]
  }

  lemma RetireNone(s: State)
    ensures Retire(s, {}) == s.adms && s.admissions - SpentOf(s, {}) == s.admissions
  {
  }

  lemma RetireOne(s: State, done: set<AdmissionId>, a: AdmissionId)
    requires Structure(s) && a in s.admissions && a !in done
    ensures a in s.adms && a in Retire(s, done) && Retire(s, done)[a] == s.adms[a]
    ensures Spent(s, a) == (s.adms[a].cancelled && s.adms[a].registrations == {})
    ensures Retire(s, done + {a}) == if Spent(s, a) then Retire(s, done)[a := s.adms[a].(released := true)]
            else Retire(s, done)
    ensures SpentOf(s, done + {a}) == if Spent(s, a) then SpentOf(s, done) + {a} else SpentOf(s, done)
  {
  }

  lemma RetireAll(s: State)
    requires s.cleaning && BatchDone(s)
    ensures FinishCleanup(s) == s.(adms := Retire(s, s.admissions),
                                   admissions := s.admissions - SpentOf(s, s.admissions),
                                   cleaning := false, tasks := s.tasks + 1)
  {
  }
}
