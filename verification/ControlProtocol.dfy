/** The sequenced lease protocol of ControlServer.session (shared/proxygate/control.go)
    running against the gate. Frames may be replayed, dropped, reordered or forged: a
    Receive event carries any message at all. */
module ControlProtocol {
  import opened Prelude
  import opened GateModel
  import opened GateInvariants
  import GateTheorems

  const MAX_SEQUENCE: nat := 9007199254740991

  datatype Action = Hello | Closed | GrantUntil | Ack

  datatype Message = Message(binding: string, session: string, nonce: string, sequence: nat, action: Action, until: nat)

  /** Where the session loop stands between two critical sections. */
  datatype Pc =
    | Reading
    | CloseNow(m: Message)               // closed: closeFor comes next
    | AwaitStart(m: Message)            // closed: AwaitClosed reads the gate next
    | Awaiting(m: Message, task: nat)   // closed: waiting for that cleanup task
    | Owning(m: Message)                // closed: own comes next
    | Checking(m: Message)              // grant: bounds are checked next
    | Granting(m: Message, at: nat)     // grant: the locked part comes next
    | Acking
    | Exiting

  datatype Control =
    | Idle
    | Session(id: string, nonce: string, serial: nat, sequence: nat, expires: nat, acked: bool, pc: Pc)

  datatype Sys = Sys(g: State, c: Control, sessions: nat, binding: string)

  datatype Step =
    | GateStep(e: Event)
    | OpenSession(id: string, nonce: string)
    | Receive(m: Message, healthy: bool)  // healthy: read, context and namespace checks passed
    | Advance(ok: bool)                   // ok: no timeout, the acknowledgement was written

  /** Only the session itself owns, grants or closes for a session. */
  predicate External(e: Event) {
    !e.EOwn? && !e.EGrant? && (e.ECloseFor? ==> e.owner == "")
  }

  predicate Fits(s: Sys, m: Message, healthy: bool)
    requires s.c.Session?
  {
    && healthy && (s.c.expires != 0 ==> s.g.now < s.c.expires)
    && m.binding == s.binding && m.session == s.c.id && m.nonce == s.c.nonce
    && m.sequence == s.c.sequence + 1 && m.sequence <= MAX_SEQUENCE
  }

  function OnFrame(c: Control, m: Message): Pc
    requires c.Session?
  {
    match m.action
    case Closed => if m.until != 0 then Exiting else CloseNow(m)
    case GrantUntil => if !c.acked || m.until == 0 then Exiting else Checking(m)
    case _ => Exiting
  }

  function Progress(s: Sys, ok: bool): Sys
    requires s.c.Session?
  {
    var c := s.c;
    match c.pc
    case Reading => s
    case CloseNow(m) => s.(g := Invalidate(s.g, c.id), c := c.(pc := AwaitStart(m)))
    case AwaitStart(m) =>
      if s.g.Open() || (!s.g.cleaning && s.g.admissions != {}) then s.(c := c.(pc := Exiting))
      else s.(c := c.(pc := if s.g.cleaning then Awaiting(m, s.g.tasks) else Owning(m)))
    case Awaiting(m, task) =>
      if !ok then s.(c := c.(pc := Exiting))
      else if s.g.tasks <= task then s
      else s.(c := c.(pc := if s.g.Open() then Exiting else Owning(m)))
    case Owning(m) =>
      var r := Own(s.g, c.id);
      if r.1 == Accepted then s.(g := r.0, c := c.(sequence := m.sequence, expires := 0, acked := true, pc := Acking))
      else s.(c := c.(pc := Exiting))
    case Checking(m) => s.(c := c.(pc := Granting(m, s.g.now)))
    case Granting(m, at) =>
      var r := Grant(s.g, c.id, m.until, at);
      if r.1 == Accepted then s.(g := r.0, c := c.(sequence := m.sequence, expires := m.until, pc := Acking))
      else s.(c := c.(pc := Exiting))
    case Acking => s.(c := c.(pc := if ok then Reading else Exiting))
    case Exiting => s.(g := Invalidate(s.g, c.id), c := Idle)
  }

  function Take(s: Sys, e: Step): Sys {
    match e
    case GateStep(e) => if External(e) then s.(g := Apply(s.g, e)) else s
    case OpenSession(id, nonce) =>
      if s.c.Session? || id == "" then s
      else
        var r := Own(s.g, id);
        if r.1 == Accepted then s.(g := r.0, c := Session(id, nonce, s.sessions, 0, 0, false, Reading),
                                   sessions := s.sessions + 1)
        else s
    case Receive(m, healthy) =>
      if s.c.Session? && s.c.pc == Reading
      then s.(c := s.c.(pc := if Fits(s, m, healthy) then OnFrame(s.c, m) else Exiting)) else s
    case Advance(ok) => if s.c.Session? then Progress(s, ok) else s
  }

  function Start(binding: string): Sys { Sys(INITIAL, Idle, 0, binding) }

  function RunTo(binding: string, steps: seq<Step>): Sys {
    if steps == [] then Start(binding)
    else Take(RunTo(binding, steps[..|steps| - 1]), steps[|steps| - 1])
  }

  function StateAt(binding: string, steps: seq<Step>, i: nat): Sys
    requires i <= |steps|
  {
    RunTo(binding, steps[..i])
  }

  lemma StateNext(binding: string, steps: seq<Step>, i: nat)
    requires i < |steps|
    ensures StateAt(binding, steps, i + 1) == Take(StateAt(binding, steps, i), steps[i])
  {
    assert steps[..i + 1][..i] == steps[..i];
  }

  // ---------------------------------------------------------------- what a run keeps

  /** The frame a session is acting on is its own and the next in line; a grant in
      progress follows a closed acknowledgement. */
  predicate FrameOk(c: Control, binding: string, m: Message)
    requires c.Session?
  {
    && m.binding == binding && m.session == c.id && m.nonce == c.nonce
    && m.sequence == c.sequence + 1 <= 9007199254740991
  }

  predicate PcOk(c: Control, binding: string)
    requires c.Session?
  {
    match c.pc
    case CloseNow(m) => FrameOk(c, binding, m) && m.action == Closed && m.until == 0
    case AwaitStart(m) => FrameOk(c, binding, m) && m.action == Closed && m.until == 0
    case Awaiting(m, _) => FrameOk(c, binding, m) && m.action == Closed && m.until == 0
    case Owning(m) => FrameOk(c, binding, m) && m.action == Closed && m.until == 0
    case Checking(m) => FrameOk(c, binding, m) && m.action == GrantUntil && m.until > 0 && c.acked
    case Granting(m, at) => FrameOk(c, binding, m) && m.action == GrantUntil && m.until > 0 && c.acked
    case _ => true
  }

  ghost predicate Whole(s: Sys) {
    && Inv(s.g)
    && (s.g.owner != "" ==> s.c.Session? && s.c.id == s.g.owner)
    && (s.c.Session? ==> PcOk(s.c, s.binding) && s.c.serial < s.sessions)
  }

  lemma ExternalLease(s: State, e: Event)
    requires External(e)
    ensures var t := Apply(s, e);
            t.owner == "" || (t.owner == s.owner && t.expires == s.expires && t.activation == s.activation)
  {
    hide OpNext, CloseNext, FenceLive, GateModel.Doomed, BatchDone, Spent, Forget;
    if e.EAbort? || e.ERelease? || e.ECloseStep? {
      ReleaseLease(s, e);
      hide Apply;
    }
  }

  lemma ReleaseLease(s: State, e: Event)
    requires e.EAbort? || e.ERelease? || e.ECloseStep?
    ensures var t := Apply(s, e); t.owner == s.owner && t.expires == s.expires && t.activation == s.activation
  {
    hide CloseNext;
  }

  lemma ProgressWhole(s: Sys, ok: bool)
    requires Whole(s) && s.c.Session?
    ensures Whole(Progress(s, ok))
  {
    hide Inv, GateModel.Doomed;
    InvalidateKeeps(s.g, s.c.id);
    OwnKeeps(s.g, s.c.id);
    if s.c.pc.Granting? { GrantKeeps(s.g, s.c.id, s.c.pc.m.until, s.c.pc.at); }
  }

  lemma TakeWhole(s: Sys, e: Step)
    requires Whole(s)
    ensures Whole(Take(s, e))
  {
    hide Inv;
    match e {
      case GateStep(x) =>
        if External(x) { ApplyKeeps(s.g, x); ExternalLease(s.g, x); hide Apply; }
      case OpenSession(id, nonce) => OwnKeeps(s.g, id);
      case Receive(m, healthy) =>
      case Advance(ok) => if s.c.Session? { ProgressWhole(s, ok); hide Progress, Whole; }
    }
  }

  lemma {:induction false} RunWhole(binding: string, steps: seq<Step>)
    ensures Whole(RunTo(binding, steps))
  {
    if steps == [] {
      assert Inv(INITIAL);
    } else {
      RunWhole(binding, steps[..|steps| - 1]);
      hide Whole, Take;
      TakeWhole(RunTo(binding, steps[..|steps| - 1]), steps[|steps| - 1]);
    }
  }

  // ---------------------------------------------------------------- admission only under a grant

  /** Step `k` is a session's CLOSED command taking effect: the gate was owned anew. */
  predicate ClosedAt(binding: string, steps: seq<Step>, k: nat)
    requires k < |steps|
  {
    var s := StateAt(binding, steps, k);
    steps[k].Advance? && s.c.Session? && s.c.pc.Owning? && Own(s.g, s.c.id).1 == Accepted
  }

  /** Step `j` is a session's grant taking effect. */
  predicate GrantAt(binding: string, steps: seq<Step>, j: nat)
    requires j < |steps|
  {
    var s := StateAt(binding, steps, j);
    && steps[j].Advance? && s.c.Session? && s.c.pc.Granting?
    && Grant(s.g, s.c.id, s.c.pc.m.until, s.c.pc.at).1 == Accepted
  }

  /** The grant at `j` is what the gate runs on at `n`: same session, same activation, and
      in every state since then nobody invalidated it or changed its deadline. */
  predicate Sustains(binding: string, steps: seq<Step>, j: nat, n: nat)
    requires j < n <= |steps|
  {
    && GrantAt(binding, steps, j)
    && (var s := StateAt(binding, steps, j);
        && s.c.pc.m.until <= s.g.now + MAX_LEASE
        && s.c.acked
        && forall m | j < m <= n :: Stands(StateAt(binding, steps, m), s))
  }

  predicate Stands(t: Sys, s: Sys)
    requires s.c.Session? && s.c.pc.Granting?
  {
    && t.g.owner == s.c.id && t.g.expires == s.c.pc.m.until && t.g.activation == s.g.activation
    && t.c.Session? && t.c.serial == s.c.serial
  }

  lemma ProgressLease(s: Sys, ok: bool)
    requires Whole(s) && s.c.Session?
    ensures var t := Progress(s, ok);
            || t.g.owner == "" || t.g.expires == 0
            || (t.g.owner == s.g.owner && t.g.expires == s.g.expires && t.g.activation == s.g.activation
                && t.c.Session? && t.c.serial == s.c.serial)
            || (s.c.pc.Granting? && Grant(s.g, s.c.id, s.c.pc.m.until, s.c.pc.at).1 == Accepted)
  {
    hide Inv, GateModel.Doomed;
  }

  lemma TakeLease(s: Sys, e: Step)
    requires Whole(s)
    ensures var t := Take(s, e);
            || t.g.owner == "" || t.g.expires == 0
            || (t.g.owner == s.g.owner && t.g.expires == s.g.expires && t.g.activation == s.g.activation
                && s.c.Session? && t.c.Session? && t.c.serial == s.c.serial)
            || (e.Advance? && s.c.Session? && s.c.pc.Granting?
                && Grant(s.g, s.c.id, s.c.pc.m.until, s.c.pc.at).1 == Accepted)
  {
    hide Inv;
    match e {
      case GateStep(x) => if External(x) { ExternalLease(s.g, x); } hide Apply;
      case Advance(ok) => if s.c.Session? { ProgressLease(s, ok); } hide Progress;
      case _ =>
    }
  }

  lemma GrantStands(s: Sys, ok: bool)
    requires s.c.Session? && s.c.pc.Granting? && Grant(s.g, s.c.id, s.c.pc.m.until, s.c.pc.at).1 == Accepted
    ensures Stands(Progress(s, ok), s) && s.c.pc.m.until <= s.g.now + MAX_LEASE
  {
  }

  lemma GrantSustains(binding: string, steps: seq<Step>, p: nat)
    requires p < |steps| && Whole(StateAt(binding, steps, p)) && steps[p].Advance?
    requires var s := StateAt(binding, steps, p);
             s.c.Session? && s.c.pc.Granting? && Grant(s.g, s.c.id, s.c.pc.m.until, s.c.pc.at).1 == Accepted
    ensures Sustains(binding, steps, p, p + 1)
  {
    var s := StateAt(binding, steps, p);
    StateNext(binding, steps, p);
    hide Whole, StateAt, Progress, Grant;
    GrantStands(s, steps[p].ok);
    WholeAcked(s);
  }

  /** Whoever owns the gate with a running lease was granted it by the current session. */
  lemma {:induction false} LeaseHasGrant(binding: string, steps: seq<Step>, n: nat)
    requires n <= |steps|
    requires var s := StateAt(binding, steps, n); s.g.owner != "" && s.g.expires != 0
    ensures exists j :: 0 <= j < n && Sustains(binding, steps, j, n)
  {
    assert n > 0;
    var p := n - 1;
    var s := StateAt(binding, steps, p);
    var t := StateAt(binding, steps, n);
    RunWhole(binding, steps[..p]);
    StateNext(binding, steps, p);
    hide Whole, Take, Progress, StateAt, RunTo, Grant;
    TakeLease(s, steps[p]);
    if steps[p].Advance? && s.c.Session? && s.c.pc.Granting?
       && Grant(s.g, s.c.id, s.c.pc.m.until, s.c.pc.at).1 == Accepted {
      GrantSustains(binding, steps, p);
    } else {
      LeaseHasGrant(binding, steps, p);
      var j :| 0 <= j < p && Sustains(binding, steps, j, p);
      ExtendStands(binding, steps, j, p);
    }
  }

  lemma WholeAcked(s: Sys)
    requires Whole(s) && s.c.Session? && s.c.pc.Granting?
    ensures s.c.acked
  {
    hide Inv;
  }

  lemma ExtendStands(binding: string, steps: seq<Step>, j: nat, p: nat)
    requires j < p < |steps| && Sustains(binding, steps, j, p)
    requires var s := StateAt(binding, steps, p); var t := StateAt(binding, steps, p + 1);
             && t.g.owner == s.g.owner && t.g.expires == s.g.expires && t.g.activation == s.g.activation
             && t.c.Session? && s.c.Session? && t.c.serial == s.c.serial
    ensures Sustains(binding, steps, j, p + 1)
  {
    hide StateAt;
    var g := StateAt(binding, steps, j);
    assert Stands(StateAt(binding, steps, p), g);
    forall m | j < m <= p + 1 ensures Stands(StateAt(binding, steps, m), g) {
      if m == p + 1 { assert Stands(StateAt(binding, steps, p + 1), g); }
    }
  }

  /** A session counts as acknowledged only after its CLOSED command took effect. */
  lemma {:induction false} AckedWasClosed(binding: string, steps: seq<Step>, n: nat)
    requires n <= |steps|
    requires var s := StateAt(binding, steps, n); s.c.Session? && s.c.acked
    ensures exists k :: 0 <= k < n && ClosedAt(binding, steps, k)
              && StateAt(binding, steps, k).c.serial == StateAt(binding, steps, n).c.serial
  {
    assert n > 0;
    var p := n - 1;
    var s := StateAt(binding, steps, p);
    StateNext(binding, steps, p);
    TakeAcked(s, steps[p]);
    hide Take;
    if s.c.Session? && s.c.acked {
      AckedWasClosed(binding, steps, p);
    } else {
      assert ClosedAt(binding, steps, p);
    }
  }

  lemma TakeAcked(s: Sys, e: Step)
    requires Take(s, e).c.Session? && Take(s, e).c.acked
    ensures s.c.Session? && s.c.serial == Take(s, e).c.serial
    ensures s.c.acked || (e.Advance? && s.c.pc.Owning? && Own(s.g, s.c.id).1 == Accepted)
  {
    hide Apply, Invalidate;
  }

  /** A managed source is admitted at time t only if the current session accepted, after
      its CLOSED acknowledgement and with no invalidation since, a grant whose deadline
      is later than t and was at most MaxLease ahead. */
  lemma AdmittedOnlyUnderGrant(binding: string, steps: seq<Step>, a: AdmissionId, r: RegistrationId)
    requires Acquire(RunTo(binding, steps).g, a, r).1 == Accepted
    ensures var n := |steps|; var s := RunTo(binding, steps);
            exists k, j :: 0 <= k < j < n
              && ClosedAt(binding, steps, k) && Sustains(binding, steps, j, n) && s.c.Session?
              && StateAt(binding, steps, k).c.serial == StateAt(binding, steps, j).c.serial == s.c.serial
              && s.g.now < StateAt(binding, steps, j).c.pc.m.until
  {
    var n := |steps|;
    assert steps[..n] == steps;
    LeaseHasGrant(binding, steps, n);
    var j :| 0 <= j < n && Sustains(binding, steps, j, n);
    assert Stands(StateAt(binding, steps, n), StateAt(binding, steps, j));
    AckedWasClosed(binding, steps, j);
    hide RunTo, Acquire;
  }

  /** A CLOSED command takes effect, and so is acknowledged, only after everything reserved
      under any earlier activation has been reaped. */
  lemma ClosedAfterReaping(binding: string, steps: seq<Step>, k: nat)
    requires k < |steps| && ClosedAt(binding, steps, k)
    ensures var g := StateAt(binding, steps, k).g; forall r | r in g.regs :: GateTheorems.ReapedFor(g, r)
  {
    RunWhole(binding, steps[..k]);
    var s := StateAt(binding, steps, k);
    hide Inv, RunTo;
    GateTheorems.ReapedAtOwn(s.g, s.c.id);
  }

  // ---------------------------------------------------------------- each number once

  /** The frame whose command takes effect at step `i`. */
  function EffectAt(binding: string, steps: seq<Step>, i: nat): Option<Message>
    requires i < |steps|
  {
    if ClosedAt(binding, steps, i) || GrantAt(binding, steps, i)
    then Some(StateAt(binding, steps, i).c.pc.m) else None
  }

  lemma TakeSequence(s: Sys, e: Step)
    requires Whole(s)
    ensures Take(s, e).sessions >= s.sessions
    ensures s.c.Session? && Take(s, e).c.Session? && Take(s, e).c.serial == s.c.serial
            ==> Take(s, e).c.sequence >= s.c.sequence
    ensures Take(s, e).c.Session? ==>
              Take(s, e).c.serial >= s.sessions || (s.c.Session? && Take(s, e).c.serial == s.c.serial)
  {
    hide Inv, Apply, Invalidate;
  }

  /** Sequence numbers never go back within a session, and no closed session returns. */
  lemma {:induction false} SequenceGrows(binding: string, steps: seq<Step>, i: nat, j: nat)
    requires i <= j <= |steps|
    ensures var s := StateAt(binding, steps, i); var t := StateAt(binding, steps, j);
            && s.sessions <= t.sessions
            && (s.c.Session? && t.c.Session? && s.c.serial == t.c.serial ==> s.c.sequence <= t.c.sequence)
            && (t.c.Session? && t.c.serial < s.sessions ==> s.c.Session? && s.c.serial == t.c.serial)
  {
    hide Take, Whole, RunTo;
    SerialBelow(binding, steps, i);
    if i < j {
      SequenceGrows(binding, steps, i, j - 1);
      StateNext(binding, steps, j - 1);
      SerialBelow(binding, steps, j - 1);
      RunWhole(binding, steps[..j - 1]);
      TakeSequence(StateAt(binding, steps, j - 1), steps[j - 1]);
      hide StateAt;
    }
  }

  lemma SerialBelow(binding: string, steps: seq<Step>, i: nat)
    requires i <= |steps|
    ensures var s := StateAt(binding, steps, i); s.c.Session? ==> s.c.serial < s.sessions
  {
    RunWhole(binding, steps[..i]);
    hide Inv;
  }

  lemma EffectAdvances(s: Sys, e: Step)
    requires Whole(s) && e.Advance? && s.c.Session?
    requires (s.c.pc.Owning? && Own(s.g, s.c.id).1 == Accepted)
          || (s.c.pc.Granting? && Grant(s.g, s.c.id, s.c.pc.m.until, s.c.pc.at).1 == Accepted)
    ensures var t := Take(s, e);
            t.c.Session? && t.c.serial == s.c.serial && t.c.sequence == s.c.sequence + 1 == s.c.pc.m.sequence
    ensures s.c.pc.m.session == s.c.id && s.c.pc.m.nonce == s.c.nonce && s.c.pc.m.binding == s.binding
    ensures s.c.pc.m.action == if s.c.pc.Owning? then Closed else GrantUntil
  {
    hide Inv;
  }

  /** Every frame that ever takes effect is bound to the server's policy and was addressed to
      the very session, under its nonce and its next number, and does what it says. */
  lemma EffectsAreBound(binding: string, steps: seq<Step>, i: nat)
    requires i < |steps| && EffectAt(binding, steps, i).Some?
    ensures var s, m := StateAt(binding, steps, i), EffectAt(binding, steps, i).value;
            && m.binding == binding && m.session == s.c.id && m.nonce == s.c.nonce
            && m.sequence == s.c.sequence + 1 <= 9007199254740991
            && m.action == (if ClosedAt(binding, steps, i) then Closed else GrantUntil)
            && (GrantAt(binding, steps, i) ==> StateAt(binding, steps, i + 1).g.expires == m.until)
            && (ClosedAt(binding, steps, i) ==> StateAt(binding, steps, i + 1).g.expires == 0)
  {
    RunWhole(binding, steps[..i]);
    StateNext(binding, steps, i);
    BindingStays(binding, steps[..i]);
    hide RunTo, Inv;
  }

  lemma {:induction false} BindingStays(binding: string, steps: seq<Step>)
    ensures RunTo(binding, steps).binding == binding
  {
    if steps != [] {
      BindingStays(binding, steps[..|steps| - 1]);
      TakeBinding(RunTo(binding, steps[..|steps| - 1]), steps[|steps| - 1]);
    }
  }

  lemma TakeBinding(s: Sys, e: Step)
    ensures Take(s, e).binding == s.binding
  {
    hide Apply, Invalidate, Own, Grant;
  }

  /** Within one session, commands take effect under strictly increasing numbers, so no
      number takes effect twice. */
  lemma NumbersTakeEffectOnce(binding: string, steps: seq<Step>, i: nat, j: nat)
    requires i < j < |steps|
    requires EffectAt(binding, steps, i).Some? && EffectAt(binding, steps, j).Some?
    requires StateAt(binding, steps, i).c.serial == StateAt(binding, steps, j).c.serial
    ensures EffectAt(binding, steps, i).value.sequence < EffectAt(binding, steps, j).value.sequence
  {
    RunWhole(binding, steps[..i]);
    RunWhole(binding, steps[..j]);
    StateNext(binding, steps, i);
    EffectAdvances(StateAt(binding, steps, i), steps[i]);
    EffectAdvances(StateAt(binding, steps, j), steps[j]);
    hide Take, Whole;
    SequenceGrows(binding, steps, i + 1, j);
  }

  /** As long as the receiver never issues the same session and nonce twice, no frame takes
      effect twice in the whole run, however often it is replayed. */
  lemma FramesTakeEffectOnce(binding: string, steps: seq<Step>, i: nat, j: nat)
    requires i < j < |steps|
    requires EffectAt(binding, steps, i).Some? && EffectAt(binding, steps, j).Some?
    requires forall x, y | 0 <= x <= |steps| && 0 <= y <= |steps| && StateAt(binding, steps, x).c.Session?
             && StateAt(binding, steps, y).c.Session?
               && StateAt(binding, steps, x).c.id == StateAt(binding, steps, y).c.id
               && StateAt(binding, steps, x).c.nonce == StateAt(binding, steps, y).c.nonce
             :: StateAt(binding, steps, x).c.serial == StateAt(binding, steps, y).c.serial
    ensures EffectAt(binding, steps, i) != EffectAt(binding, steps, j)
  {
    RunWhole(binding, steps[..i]);
    RunWhole(binding, steps[..j]);
    EffectAdvances(StateAt(binding, steps, i), steps[i]);
    EffectAdvances(StateAt(binding, steps, j), steps[j]);
    hide Take, Whole;
    if EffectAt(binding, steps, i) == EffectAt(binding, steps, j) {
      NumbersTakeEffectOnce(binding, steps, i, j);
    }
  }
}
