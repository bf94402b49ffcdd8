/** What the lease protocol gives an honest controller: exactly which frames are followed, that
    CLOSED can always be acknowledged, and that a grant opens the gate until its deadline. */
module ControlService {
  import opened Prelude
  import opened GateModel
  import opened GateInvariants
  import opened GateDrain
  import opened ControlProtocol
  import GateAdmission

  function Go(s: Sys, steps: seq<Step>): Sys {
    if steps == [] then s else Take(Go(s, steps[..|steps| - 1]), steps[|steps| - 1])
  }

  lemma GoSnoc(s: Sys, steps: seq<Step>, e: Step)
    ensures Go(s, steps + [e]) == Take(Go(s, steps), e)
  {
    assert (steps + [e])[..|steps|] == steps;
    hide Take;
  }

  predicate Ready(s: Sys) { s.c.Session? && s.c.pc == Reading }

  /** A session goes on with a frame if and only if it is healthy, in its lease, bound to the
      policy, addressed to it under the next number, and a CLOSED without a deadline or,
      after an acknowledged CLOSED, a grant with one. */
  lemma FramesExactly(s: Sys, m: Message, healthy: bool)
    requires Ready(s)
    ensures Take(s, Receive(m, healthy)).c.pc != Exiting <==>
              && healthy && (s.c.expires == 0 || s.g.now < s.c.expires)
              && m.binding == s.binding && m.session == s.c.id && m.nonce == s.c.nonce
              && m.sequence == s.c.sequence + 1 && m.sequence <= 9007199254740991
              && ((m.action == Closed && m.until == 0) || (m.action == GrantUntil && m.until > 0 && s.c.acked))
    ensures Take(s, Receive(m, healthy)).g == s.g
  {
  }

  /** Leaving a session closes what it owned, at once and for everything in flight. */
  lemma ExitCloses(s: Sys, ok: bool)
    requires Whole(s) && s.c.Session? && s.c.pc == Exiting
    ensures var t := Take(s, Advance(ok)); t.c == Idle && t.g.owner == "" && GateTheorems.Barrier(t.g, s.g.activation)
  {
    hide Clients, Activations, Connections, Permits, Bounded;
    if s.g.owner == s.c.id {
      GateTheorems.InvalidateRaisesBarrier(s.g, s.c.id);
    } else {
      ClosedBarrier(s.g);
    }
    hide Inv, GateTheorems.Barrier, Doomed;
  }

  /** A session whose time is up while it waits, or whose answer does not get through, leaves
      and closes what it owned. */
  lemma FailureCloses(s: Sys, ok: bool)
    requires Whole(s) && s.c.Session? && (s.c.pc.Awaiting? || s.c.pc == Acking)
    ensures var t := Take(Take(s, Advance(false)), Advance(ok));
            t.c == Idle && t.g.owner == "" && GateTheorems.Barrier(t.g, s.g.activation)
  {
    hide Inv, Invalidate, GateTheorems.Barrier;
    var u := s.(c := s.c.(pc := Exiting));
    assert Whole(u) && Take(s, Advance(false)) == u;
    hide Whole, Take;
    ExitCloses(u, ok);
  }

  lemma ClosedBarrier(g: State)
    requires Inv(g) && g.owner == ""
    ensures GateTheorems.Barrier(g, g.activation)
  {
    hide Structure, Clients, Activations, Connections, Permits, Bounded;
  }

  // ---------------------------------------------------------------- a grant takes effect

  function GrantSteps(m: Message): seq<Step> { [Receive(m, true), Advance(true), Advance(true), Advance(true)] }

  lemma GoFour(s: Sys, a: Step, b: Step, c: Step, d: Step)
    ensures Go(s, [a, b, c, d]) == Take(Take(Take(Take(s, a), b), c), d)
  {
    hide Take;
    assert [a, b, c, d] == [] + [a] + [b] + [c] + [d];
    GoNone(s);
    hide Go;
    GoSnoc(s, [], a);
    GoSnoc(s, [] + [a], b);
    GoSnoc(s, [] + [a] + [b], c);
    GoSnoc(s, [] + [a] + [b] + [c], d);
  }

  lemma GoNone(s: Sys)
    ensures Go(s, []) == s
  {
  }

  /** The gate still is the session's, and the deadline ahead by no more than five seconds. */
  predicate Grantable(s: Sys, m: Message) {
    s.c.Session? && s.g.owner == s.c.id != "" && s.g.now < m.until <= s.g.now + 5_000_000_000
  }

  function Granted(s: Sys, m: Message): Sys
    requires s.c.Session?
  {
    s.(g := s.g.(expires := m.until), c := s.c.(sequence := m.sequence, expires := m.until, pc := Reading))
  }

  /** An acknowledged session that is sent its next grant ends with the gate open until
      exactly that deadline, if it still owns the gate and the deadline is ahead by no more
      than five seconds; otherwise it leaves, and the gate is closed. */
  lemma GrantOpens(binding: string, history: seq<Step>, m: Message)
    requires var s := RunTo(binding, history);
             Ready(s) && s.c.acked && Fits(s, m, true) && m.action == GrantUntil && m.until > 0
    ensures var s := RunTo(binding, history);
            var t := Go(s, GrantSteps(m));
            if Grantable(s, m) then t == Granted(s, m) && t.g.Open() else t.c == Idle && t.g.owner == ""
  {
    RunWhole(binding, history);
    var s := RunTo(binding, history);
    hide Go, RunTo, Take, Whole;
    OwnerClean(s);
    GoFour(s, Receive(m, true), Advance(true), Advance(true), Advance(true));
    GrantGoes(s, m);
    RefusedLeaves(s, m);
  }

  lemma OwnerClean(s: Sys)
    requires Whole(s)
    ensures s.g.owner != "" ==> !s.g.cleaning
    ensures s.g.owner != "" ==> s.c.Session? && s.c.id == s.g.owner
  {
    hide Structure, Clients, Activations, Connections, Permits, Bounded;
  }

  lemma GrantGoes(s: Sys, m: Message)
    requires Ready(s) && s.c.acked && Fits(s, m, true) && m.action == GrantUntil && m.until > 0
    requires s.g.owner != "" ==> !s.g.cleaning
    ensures var t := Take(Take(Take(Take(s, Receive(m, true)), Advance(true)), Advance(true)), Advance(true));
            t == if Grantable(s, m) then Granted(s, m) else s.(g := Invalidate(s.g, s.c.id), c := Idle)
  {
    hide Invalidate;
    var s1 := s.(c := s.c.(pc := Checking(m)));
    var s2 := s.(c := s.c.(pc := Granting(m, s.g.now)));
    assert Take(s, Receive(m, true)) == s1;
    assert Take(s1, Advance(true)) == s2;
    if Grantable(s, m) {
      var s3 := s.(g := s.g.(expires := m.until), c := s.c.(sequence := m.sequence, expires := m.until, pc := Acking));
      assert Take(s2, Advance(true)) == s3;
      assert Take(s3, Advance(true)) == Granted(s, m);
    } else {
      var s3 := s.(c := s.c.(pc := Exiting));
      assert Take(s2, Advance(true)) == s3;
      assert Take(s3, Advance(true)) == s.(g := Invalidate(s.g, s.c.id), c := Idle);
    }
    hide Take;
  }

  lemma RefusedLeaves(s: Sys, m: Message)
    requires s.c.Session? && (s.g.owner != "" ==> s.c.id == s.g.owner)
    ensures Invalidate(s.g, s.c.id).owner == ""
  {
  }

  // ---------------------------------------------------------------- CLOSED can be acknowledged

  function AtGate(events: seq<Event>): (r: seq<Step>)
    ensures |r| == |events| && forall i | 0 <= i < |r| :: r[i] == GateStep(events[i])
  {
    seq(|events|, i requires 0 <= i < |events| => GateStep(events[i]))
  }

  lemma GateStepTakes(s: Sys, e: Event)
    requires Finishes(e)
    ensures Take(s, GateStep(e)) == s.(g := Apply(s.g, e))
  {
    hide Apply;
  }

  lemma {:induction false} GateGoes(s: Sys, events: seq<Event>)
    requires Winding(events)
    ensures Go(s, AtGate(events)) == s.(g := Run(s.g, events))
  {
    hide Apply, Take;
    if events == [] {
      assert AtGate(events) == [];
    } else {
      var n := |events| - 1;
      GateGoes(s, events[..n]);
      assert AtGate(events) == AtGate(events[..n]) + [GateStep(events[n])];
      GoSnoc(s, AtGate(events[..n]), GateStep(events[n]));
      hide Go;
      GateStepTakes(s.(g := Run(s.g, events[..n])), events[n]);
    }
  }

  lemma {:induction false} GoJoin(s: Sys, xs: seq<Step>, ys: seq<Step>)
    ensures Go(s, xs + ys) == Go(Go(s, xs), ys)
  {
    if ys == [] {
      assert xs + ys == xs;
    } else {
      var n := |ys| - 1;
      GoJoin(s, xs, ys[..n]);
      assert (xs + ys)[..|xs + ys| - 1] == xs + ys[..n];
      hide Take;
    }
  }

  /** What the session's own steps do at the gate are gate events too. */
  lemma TakeSoundGate(s: Sys, e: Step)
    requires Sound(s.g)
    ensures Sound(Take(s, e).g)
  {
    hide Sound, Invalidate, Own, Grant;
    match e {
      case GateStep(x) => ApplySound(s.g, x); hide Apply;
      case OpenSession(id, nonce) => ApplySound(s.g, EOwn(id));
      case Receive(_, _) =>
      case Advance(ok) =>
        if s.c.Session? {
          ApplySound(s.g, ECloseFor(s.c.id));
          ApplySound(s.g, EOwn(s.c.id));
          if s.c.pc.Granting? { ApplySound(s.g, EGrant(s.c.id, s.c.pc.m.until, s.c.pc.at)); }
        }
    }
  }

  lemma {:induction false} RunSoundGate(binding: string, steps: seq<Step>)
    ensures Sound(RunTo(binding, steps).g)
  {
    if steps == [] {
      ReachableSound([]);
      assert Run(INITIAL, []) == INITIAL;
    } else {
      hide Sound, Take;
      RunSoundGate(binding, steps[..|steps| - 1]);
      TakeSoundGate(RunTo(binding, steps[..|steps| - 1]), steps[|steps| - 1]);
    }
  }

  /** The steps of a CLOSED command around the wind-down of the gate. */
  function ClosedSteps(m: Message, events: seq<Event>): seq<Step> {
    [Receive(m, true), Advance(true)] + AtGate(events) + [Advance(true), Advance(true), Advance(true)]
  }

  /** The gate is the session's again, closed and with nothing in flight. */
  predicate Reset(g: State, id: string) {
    g.owner == id && g.expires == 0 && g.admissions == {} && !g.cleaning
  }

  lemma CloseStarts(s: Sys, m: Message)
    requires Ready(s) && Fits(s, m, true) && m.action == Closed && m.until == 0
    ensures Take(Take(s, Receive(m, true)), Advance(true))
         == s.(g := Invalidate(s.g, s.c.id), c := s.c.(pc := AwaitStart(m)))
  {
    hide Invalidate;
  }

  lemma CloseEnds(s: Sys, m: Message)
    requires s.c.Session? && s.c.pc == AwaitStart(m) && s.g.owner == "" && s.g.admissions == {} && !s.g.cleaning
    ensures var t := Take(Take(Take(s, Advance(true)), Advance(true)), Advance(true));
            && t.c == s.c.(sequence := m.sequence, expires := 0, acked := true, pc := Reading)
            && Reset(t.g, s.c.id) && t.g.activation == s.g.activation + 1
  {
    var s1 := s.(c := s.c.(pc := Owning(m)));
    assert Take(s, Advance(true)) == s1;
    var s2 := s.(g := Own(s.g, s.c.id).0, c := s.c.(sequence := m.sequence, expires := 0, acked := true, pc := Acking));
    assert Take(s1, Advance(true)) == s2;
    assert Take(s2, Advance(true)) == s2.(c := s2.c.(pc := Reading));
    hide Take;
  }

  lemma GoTwo(s: Sys, a: Step, b: Step)
    ensures Go(s, [a, b]) == Take(Take(s, a), b)
  {
    hide Take;
    assert [a, b] == [] + [a] + [b];
    GoNone(s);
    hide Go;
    GoSnoc(s, [], a);
    GoSnoc(s, [] + [a], b);
  }

  lemma GoThree(s: Sys, a: Step, b: Step, c: Step)
    ensures Go(s, [a, b, c]) == Take(Take(Take(s, a), b), c)
  {
    hide Take, Go;
    GoTwo(s, a, b);
    assert [a, b, c] == [a, b] + [c];
    GoSnoc(s, [a, b], c);
  }

  /** In every run, a session's next CLOSED can be acknowledged: what is in flight at the gate
      can be finished, with nobody newly admitted, so that the session owns it anew, closed. */
  lemma ClosedCanBeAcked(binding: string, history: seq<Step>, m: Message) returns (events: seq<Event>)
    requires var s := RunTo(binding, history);
             Ready(s) && Fits(s, m, true) && m.action == Closed && m.until == 0
    ensures var s := RunTo(binding, history);
            var t := Go(s, ClosedSteps(m, events));
            && Winding(events) && Reset(t.g, s.c.id)
            && t.c == s.c.(sequence := m.sequence, expires := 0, acked := true, pc := Reading)
  {
    RunSoundGate(binding, history);
    var s := RunTo(binding, history);
    hide Sound, RunTo, Take, Run, Go, Invalidate, Spared;
    var first, last := [Receive(m, true), Advance(true)], [Advance(true), Advance(true), Advance(true)];
    GoTwo(s, Receive(m, true), Advance(true));
    CloseStarts(s, m);
    var s2 := Go(s, first);
    ApplySound(s.g, ECloseFor(s.c.id));
    var t;
    events, t := Drain(s2.g);
    GateGoes(s2, events);
    var s3 := s2.(g := t);
    GoJoin(s, first, AtGate(events));
    GoThree(s3, Advance(true), Advance(true), Advance(true));
    CloseEnds(s3, m);
    GoJoin(s, first + AtGate(events), last);
  }

  // ---------------------------------------------------------------- the wait for a cleanup

  /** Nobody owns the gate and nothing is left of what it served. */
  predicate Vacant(g: State) { g.owner == "" && !g.cleaning && g.admissions == {} }

  predicate Cleaning(g: State) { g.owner == "" && g.cleaning }

  lemma VacantStays(g: State, e: Event)
    requires Inv(g) && Vacant(g) && External(e)
    ensures Vacant(Apply(g, e)) && Apply(g, e).tasks == g.tasks
  {
    if e.ECloseFor? || e.ELateInvalidate? {
      NothingDoomed(g);
      hide Inv, Doomed;
    } else if e.EReserve? || e.EAcquire? || e.EReleaseAdmission? {
      hide Inv, Invalidate;
    } else {
      VacantElse(g, e);
      hide Apply;
    }
  }

  lemma VacantElse(g: State, e: Event)
    requires Vacant(g) && External(e) && !e.ECloseFor? && !e.ELateInvalidate? && !e.EReserve? && !e.EAcquire?
    requires !e.EReleaseAdmission?
    ensures Vacant(Apply(g, e)) && Apply(g, e).tasks == g.tasks
  {
    hide OpNext, CloseNext, FenceLive, BatchDone;
  }

  lemma NothingDoomed(g: State)
    requires g.admissions == {}
    ensures Doomed(g) == {}
  {
  }

  lemma CleaningGoesOn(g: State, e: Event)
    requires Cleaning(g) && External(e) && !(e.EFinishCleanup? && BatchDone(g))
    ensures Cleaning(Apply(g, e)) && Apply(g, e).tasks == g.tasks
  {
    hide OpNext, CloseNext, FenceLive, Doomed, BatchDone;
  }

  /** A cleanup ends in one way only: with the gate vacant. */
  lemma CleaningEnds(g: State, e: Event)
    requires Sound(g) && Cleaning(g) && External(e)
    ensures var t := Apply(g, e);
            (Cleaning(t) && t.tasks == g.tasks) || (Vacant(t) && t.tasks == g.tasks + 1)
  {
    if e.EFinishCleanup? && BatchDone(g) {
      hide Sound, BatchDone;
      GateAdmission.CleanupEmpties(g);
    } else {
      hide Sound, Apply;
      CleaningGoesOn(g, e);
    }
  }

  /** What a session that has closed the gate finds while it waits. */
  predicate Waits(s: Sys) {
    s.c.Session? ==>
      match s.c.pc
      case AwaitStart(_) => s.g.owner == ""
      case Awaiting(_, task) => if s.g.tasks <= task then Cleaning(s.g) && s.g.tasks == task else Vacant(s.g)
      case Owning(_) => Vacant(s.g)
      case _ => true
  }

  lemma NoOwnerStays(g: State, e: Event)
    requires g.owner == "" && External(e)
    ensures Apply(g, e).owner == ""
  {
    hide OpNext, CloseNext, FenceLive, Doomed, BatchDone;
  }

  lemma CloseLeavesNoOwner(s: Sys)
    requires Whole(s) && s.c.Session?
    ensures Invalidate(s.g, s.c.id).owner == ""
  {
    hide Inv, Doomed;
  }

  lemma GateWaits(s: Sys, e: Event)
    requires Sound(s.g) && Inv(s.g) && Waits(s) && External(e)
    ensures Waits(s.(g := Apply(s.g, e)))
  {
    hide Sound, Apply, Inv;
    if s.c.Session? && (s.c.pc.Awaiting? || s.c.pc.Owning?) {
      if Cleaning(s.g) { CleaningEnds(s.g, e); } else { VacantStays(s.g, e); }
    } else if s.c.Session? && s.c.pc.AwaitStart? {
      NoOwnerStays(s.g, e);
    }
  }

  lemma ProgressWaits(s: Sys, ok: bool)
    requires Whole(s) && Waits(s) && s.c.Session? && (s.g.cleaning ==> s.g.owner == "")
    ensures Waits(Progress(s, ok))
  {
    hide Whole, Invalidate, Own, Grant;
    if s.c.pc.CloseNow? { CloseLeavesNoOwner(s); }
  }

  lemma TakeWaits(s: Sys, e: Step)
    requires Whole(s) && Sound(s.g) && Waits(s)
    ensures Waits(Take(s, e))
  {
    hide Progress, Apply;
    if e.GateStep? && External(e.e) {
      assert Inv(s.g);
      hide Whole, Sound, Waits, Inv;
      GateWaits(s, e.e);
    } else if e.Advance? && s.c.Session? {
      assert Quarantine(s.g);
      hide Whole, Sound, Waits;
      ProgressWaits(s, e.ok);
    } else {
      hide Whole, Sound, Own;
    }
  }

  lemma {:induction false} RunWaits(binding: string, steps: seq<Step>)
    ensures Waits(RunTo(binding, steps))
  {
    if steps != [] {
      hide Sound, Take, Whole;
      var before := steps[..|steps| - 1];
      RunWaits(binding, before);
      RunWhole(binding, before);
      RunSoundGate(binding, before);
      TakeWaits(RunTo(binding, before), steps[|steps| - 1]);
    }
  }

  /** In every run, a session that waits for the cleanup of its CLOSED is not turned away: it
      waits while the cleanup runs, and unless its time is up it owns the gate, vacant, next. */
  lemma WaitingIsRewarded(binding: string, history: seq<Step>)
    requires var s := RunTo(binding, history); s.c.Session? && s.c.pc.Awaiting?
    ensures var s := RunTo(binding, history);
            var t := Take(s, Advance(true));
            if s.g.cleaning then t == s
            else t.c.pc == Owning(s.c.pc.m) && Reset(Take(t, Advance(true)).g, s.c.id)
                 && Take(t, Advance(true)).c.acked
  {
    RunWaits(binding, history);
    hide RunTo;
  }
}
