/** TLS first-flight replay (egress/reverse/main.go): a target that stays silent is redialed
    and the client's bytes are sent to it again. The client loop, the target loop and
    closing are interleaved at every release of the state lock; network writes lie between
    a step that starts them and one that ends them, as in the secure mode. The plain mode
    keeps the lock throughout, so its runs are among these. */
module HandshakeRelay {
  import opened Prelude

  const MAX_DIALS: nat := 3
  const REPLAY_LIMIT: nat := 16 * 1024

  predicate LooksLikeClientHello(p: Bytes) {
    |p| >= 6 && p[0] == 0x16 && p[1] == 0x03 && p[5] == 0x01
  }

  // ---------------------------------------------------------------- the relay's fields

  datatype Fields = Fields(replay: Bytes, replayOk: bool, seenClient: bool, armed: bool, settled: bool, closed: bool)

  const FRESH := Fields([], true, false, false, false, false)

  /** The bookkeeping of writeToTarget, before the write itself. */
  function Offer(f: Fields, p: Bytes): Fields {
    if f.closed || !f.replayOk || f.settled then f
    else
      var hello := f.seenClient || LooksLikeClientHello(p);
      if !hello then f.(seenClient := true, replayOk := false, replay := [])
      else
        var g := f.(seenClient := true, armed := f.armed || !f.seenClient);
        if |f.replay| + |p| > REPLAY_LIMIT then g.(replayOk := false, replay := []) else g.(replay := f.replay + p)
  }

  predicate Retryable(f: Fields) {
    f.armed && f.replayOk && !f.settled && !f.closed && |f.replay| > 0
  }

  /** A failed write is kept quiet when the bytes can still be replayed. */
  predicate Forgiven(f: Fields) {
    f.armed && f.replayOk && !f.settled && !f.closed
  }

  function Settled(f: Fields): Fields { f.(settled := true, replayOk := false, replay := []) }

  predicate Disarmable(f: Fields) { f.armed && !f.settled && !f.closed }

  function Disarmed(f: Fields): Fields { f.(armed := false, replayOk := false, replay := []) }

  predicate Swappable(f: Fields) { !f.closed && f.replayOk && !f.settled }

  class Relay {
    var replay: Bytes
    var replayOk: bool
    var seenClient: bool
    var armed: bool
    var settled: bool
    var closed: bool
    var target: nat
    ghost var stream: Bytes      // every payload handed to a write

    ghost function View(): Fields
      reads this
    {
      Fields(replay, replayOk, seenClient, armed, settled, closed)
    }

    /** As long as the buffer is good for anything it holds all that was ever handed on. */
    ghost predicate Valid()
      reads this
    {
      replayOk ==> replay == stream && !settled
    }

    /** There will be no replay any more. */
    ghost predicate Over()
      reads this
    {
      !replayOk
    }

    constructor (conn: nat)
      ensures Valid() && View() == FRESH && target == conn && stream == []
    {
      replay, replayOk, seenClient, armed, settled, closed, target := [], true, false, false, false, false, conn;
      stream := [];
    }

    /** writeToTarget up to the write: whether to write, and to which connection. */
    method BeginWrite(p: Bytes) returns (write: bool, conn: nat)
      requires Valid()
      modifies this
      ensures Valid() && (old(Over()) ==> Over())
      ensures View() == Offer(old(View()), p) && target == old(target)
      ensures write == !closed && conn == target && stream == if write then old(stream) + p else old(stream)
    {
      if closed { return false, target; }
      if replayOk && !settled {
        if !seenClient {
          seenClient := true;
          if LooksLikeClientHello(p) {
            armed := true;
          } else {
            replayOk, replay := false, [];
          }
        }
        if replayOk {
          if |replay| + |p| > REPLAY_LIMIT {
            replayOk, replay := false, [];
          } else {
            replay := replay + p;
          }
        }
      }
      stream := stream + p;
      return true, target;
    }

    /** writeToTarget after the write: whether the client loop goes on. It does so after a
        failure only while the next target can still be sent every byte, the failed ones
        included. */
    method EndWrite(failed: bool) returns (goOn: bool)
      requires Valid()
      ensures goOn == (!failed || Forgiven(View()))
      ensures goOn && failed ==> replay == stream && !Over()
      ensures Over() ==> goOn == !failed
    {
      return !failed || (armed && replayOk && !settled && !closed);
    }

    /** A target has answered: no failure is forgiven and no swap happens from now on. */
    method Settle()
      modifies this
      ensures Valid() && Over() && !Retryable(View()) && !Forgiven(View()) && !Swappable(View())
      ensures View() == Settled(old(View())) && target == old(target) && stream == old(stream)
    {
      settled, replayOk, replay := true, false, [];
    }

    /** The watchdog gives up: the target in use is kept, and replay is over; or it was not
        for the watchdog to decide any more. */
    method Disarm() returns (done: bool)
      requires Valid()
      modifies this
      ensures Valid() && target == old(target) && stream == old(stream)
      ensures done == Disarmable(old(View())) && (old(Over()) ==> Over())
      ensures if done then View() == Disarmed(old(View())) && Over() && !Disarmable(View()) else View() == old(View())
    {
      if !armed || settled || closed { return false; }
      armed, replayOk, replay := false, false, [];
      return true;
    }

    /** swapTarget up to the replay: the bytes to send to the new connection, if any. */
    method BeginSwap(conn: nat) returns (bytes: Option<Bytes>)
      requires Valid()
      modifies this
      ensures Valid() && View() == old(View()) && stream == old(stream)
      ensures if Swappable(View()) then bytes == Some(stream) && target == conn
              else bytes == None && target == old(target)
      ensures Over() ==> bytes == None
    {
      if closed || !replayOk || settled { return None; }
      target := conn;
      return Some(replay);
    }
  }

  // ---------------------------------------------------------------- both loops together

  /** A connection: what the other end has been sent, and whether a write to it failed. */
  datatype Conn = Conn(received: Bytes, failed: bool)

  datatype ClientPc = ClientReading | ClientWriting(payload: Bytes) | ClientStopped

  datatype TargetPc =
    | TargetReading
    | Disarming
    | Dialing
    | Dialed(conn: nat)
    | Replaying(bytes: Bytes)
    | TargetStopped

  datatype Sys = Sys(
    relay: Fields,
    target: nat,
    conns: seq<Conn>,            // one per dial
    client: ClientPc,
    loop: TargetPc,
    stream: Bytes,               // everything read from the client
    first: Option<Bytes>,        // its first payload
    heard: Option<nat>)          // whose bytes the client has been given

  const START := Sys(FRESH, 0, [Conn([], false)], ClientReading, TargetReading, [], None, None)

  datatype Step =
    | ClientPayload(p: Bytes)
    | ClientWrote(accepted: nat, ok: bool)
    | ClientEnd
    | TargetBytes
    | TargetFailed(timeout: bool)
    | Disarm
    | Redial(ok: bool)
    | Swap
    | Replayed(accepted: nat, ok: bool)
    | Close

  /** A write of `p`: a success takes all of it, a failure any part, and a connection whose
      write has failed takes nothing more. */
  predicate Possible(c: Conn, p: Bytes, accepted: nat, ok: bool) {
    accepted <= |p| && (ok ==> accepted == |p|) && (c.failed ==> !ok && accepted == 0)
  }

  function Wrote(c: Conn, p: Bytes, accepted: nat, ok: bool): Conn
    requires accepted <= |p|
  {
    Conn(c.received + p[..accepted], c.failed || !ok)
  }

  function Take(s: Sys, e: Step): Sys {
    match e
    case ClientPayload(p) =>
      // the write lock is held by a replay
      if s.client != ClientReading || s.loop.Replaying? || p == [] then s
      else if s.relay.closed then s.(client := ClientStopped)
      else s.(relay := Offer(s.relay, p), client := ClientWriting(p), stream := s.stream + p,
              first := if s.first.None? then Some(p) else s.first)
    case ClientWrote(accepted, ok) =>
      if !s.client.ClientWriting? || s.target >= |s.conns|
         || !Possible(s.conns[s.target], s.client.payload, accepted, ok) then s
      else s.(conns := s.conns[s.target := Wrote(s.conns[s.target], s.client.payload, accepted, ok)],
              client := if ok || Forgiven(s.relay) then ClientReading else ClientStopped)
    case ClientEnd => if s.client == ClientReading then s.(client := ClientStopped) else s
    case TargetBytes =>
      if s.loop != TargetReading then s
      else s.(relay := if s.relay.settled then s.relay else Settled(s.relay), heard := Some(s.target))
    case TargetFailed(timeout) =>
      if s.loop != TargetReading then s
      else if !s.relay.settled && Retryable(s.relay) && |s.conns| < MAX_DIALS then s.(loop := Dialing)
      else s.(loop := if !s.relay.settled && timeout then Disarming else TargetStopped)
    case Disarm =>
      if s.loop != Disarming then s
      else if Disarmable(s.relay) then s.(relay := Disarmed(s.relay), loop := TargetReading)
      else s.(loop := TargetStopped)
    case Redial(ok) =>
      if s.loop != Dialing then s
      else if !ok then s.(loop := TargetStopped)
      else s.(conns := s.conns + [Conn([], false)], loop := Dialed(|s.conns|))
    case Swap =>
      if !s.loop.Dialed? || s.client.ClientWriting? || s.loop.conn >= |s.conns| || s.target >= |s.conns| then s
      else if !Swappable(s.relay) then s.(loop := TargetStopped)
      else s.(target := s.loop.conn, loop := Replaying(s.relay.replay),
              conns := s.conns[s.target := s.conns[s.target].(failed := true)])
    case Replayed(accepted, ok) =>
      if !s.loop.Replaying? || s.target >= |s.conns| || !Possible(s.conns[s.target], s.loop.bytes, accepted, ok) then s
      else s.(conns := s.conns[s.target := Wrote(s.conns[s.target], s.loop.bytes, accepted, ok)],
              loop := if ok then TargetReading else TargetStopped)
    case Close => s.(relay := s.relay.(closed := true))
  }

  function Run(s: Sys, steps: seq<Step>): Sys {
    if steps == [] then s else Take(Run(s, steps[..|steps| - 1]), steps[|steps| - 1])
  }

  // ---------------------------------------------------------------- invariant

  /** What has been handed to writes already. */
  function Sent(s: Sys): Bytes {
    if s.client.ClientWriting? && |s.client.payload| <= |s.stream|
    then s.stream[..|s.stream| - |s.client.payload|] else s.stream
  }

  predicate ConnOk(s: Sys, c: nat)
    requires c < |s.conns|
  {
    s.conns[c].received <= Sent(s)
  }

  predicate InFlight(s: Sys)
    requires s.client.ClientWriting?
  {
    && s.client.payload != [] && |s.client.payload| <= |s.stream| && !s.loop.Replaying?
    && s.stream[|s.stream| - |s.client.payload|..] == s.client.payload
  }

  ghost predicate Inv(s: Sys) {
    && s.target < |s.conns| <= MAX_DIALS
    && (forall c: nat | c < |s.conns| :: ConnOk(s, c))
    && (s.client.ClientWriting? ==> InFlight(s))
    // the replay buffer is the whole stream as long as it is good for anything
    && (s.relay.replayOk ==> s.relay.replay == s.stream && !s.relay.settled)
    && (s.relay.seenClient ==> s.first.Some?) && (s.relay.replayOk && !s.relay.seenClient ==> s.first.None?)
    && (s.first.None? ==> s.stream == [] && !s.client.ClientWriting?)
    && (s.relay.armed ==> s.first.Some? && LooksLikeClientHello(s.first.value))
    // the connection in use has it all, unless it failed or is being caught up
    && (if s.loop.Replaying?
        then s.conns[s.target].received == [] && s.loop.bytes == s.stream && !s.conns[s.target].failed
        else s.conns[s.target].failed || s.conns[s.target].received == Sent(s))
    // a redial is under way only while nothing was heard
    && (s.loop.Dialing? ==> |s.conns| < MAX_DIALS)
    && (s.loop.Dialed? ==> s.loop.conn == |s.conns| - 1 && s.target < s.loop.conn
                           && s.conns[s.loop.conn] == Conn([], false))
    && (s.loop.Dialing? || s.loop.Dialed? || s.loop.Replaying? || s.loop.Disarming? ==> s.heard.None?)
    && (s.loop.Dialing? || s.loop.Dialed? || |s.conns| > 1 ==> s.first.Some? && LooksLikeClientHello(s.first.value))
    && (s.heard.Some? <==> s.relay.settled) && (s.heard.Some? ==> s.heard.value == s.target)
  }

  lemma StartInv()
    ensures Inv(START)
  {
  }

  lemma PayloadInv(s: Sys, p: Bytes)
    requires Inv(s)
    ensures Inv(Take(s, ClientPayload(p)))
  {
    var t := Take(s, ClientPayload(p));
    assert Sent(t) == Sent(s);
    forall c: nat | c < |t.conns| ensures ConnOk(t, c) { assert ConnOk(s, c); }
  }

  lemma WroteInv(s: Sys, accepted: nat, ok: bool)
    requires Inv(s)
    ensures Inv(Take(s, ClientWrote(accepted, ok)))
  {
    var t := Take(s, ClientWrote(accepted, ok));
    if t != s {
      assert s.stream == Sent(s) + s.client.payload;
      forall c: nat | c < |t.conns| ensures ConnOk(t, c) { assert ConnOk(s, c); }
    }
  }

  lemma SwapInv(s: Sys)
    requires Inv(s)
    ensures Inv(Take(s, Swap))
  {
    var t := Take(s, Swap);
    forall c: nat | c < |t.conns| ensures ConnOk(t, c) { assert ConnOk(s, c); }
  }

  lemma ReplayedInv(s: Sys, accepted: nat, ok: bool)
    requires Inv(s)
    ensures Inv(Take(s, Replayed(accepted, ok)))
  {
    var t := Take(s, Replayed(accepted, ok));
    forall c: nat | c < |t.conns| ensures ConnOk(t, c) { assert ConnOk(s, c); }
  }

  lemma RedialInv(s: Sys, ok: bool)
    requires Inv(s)
    ensures Inv(Take(s, Redial(ok)))
  {
    var t := Take(s, Redial(ok));
    forall c: nat | c < |t.conns| ensures ConnOk(t, c) { if c < |s.conns| { assert ConnOk(s, c); } }
  }

  lemma StateInv(s: Sys, e: Step)
    requires Inv(s) && (e.TargetBytes? || e.TargetFailed? || e.Disarm?)
    ensures Inv(Take(s, e))
  {
    var t := Take(s, e);
    assert Sent(t) == Sent(s);
    forall c: nat | c < |t.conns| ensures ConnOk(t, c) { assert ConnOk(s, c); }
  }

  lemma EndInv(s: Sys, e: Step)
    requires Inv(s) && (e.ClientEnd? || e.Close?)
    ensures Inv(Take(s, e))
  {
    var t := Take(s, e);
    assert Sent(t) == Sent(s);
    forall c: nat | c < |t.conns| ensures ConnOk(t, c) { assert ConnOk(s, c); }
  }

  lemma TakeInv(s: Sys, e: Step)
    requires Inv(s)
    ensures Inv(Take(s, e))
  {
    hide Inv, Take;
    match e {
      case ClientPayload(p) => PayloadInv(s, p);
      case ClientWrote(accepted, ok) => WroteInv(s, accepted, ok);
      case Swap => SwapInv(s);
      case Replayed(accepted, ok) => ReplayedInv(s, accepted, ok);
      case Redial(ok) => RedialInv(s, ok);
      case ClientEnd => EndInv(s, e);
      case Close => EndInv(s, e);
      case _ => StateInv(s, e);
    }
  }

  lemma {:induction false} RunInv(steps: seq<Step>)
    ensures Inv(Run(START, steps))
  {
    if steps == [] {
      StartInv();
    } else {
      RunInv(steps[..|steps| - 1]);
      TakeInv(Run(START, steps[..|steps| - 1]), steps[|steps| - 1]);
    }
  }

  // ---------------------------------------------------------------- what the relay promises

  /** Neither loop is inside a write. */
  predicate Quiet(s: Sys) { s.client == ClientReading && s.loop == TargetReading }

  /** In every run, each target dialed so far has received a prefix of the client's stream
      from its first byte, and the one in use has received all that was handed on unless a
      write to it failed; at most three dials; and a second dial only for a stream whose
      first payload is a ClientHello. */
  lemma TargetsReceivePrefixes(steps: seq<Step>, c: nat)
    requires c < |Run(START, steps).conns|
    ensures var s := Run(START, steps);
            && s.conns[c].received <= s.stream
            && |s.conns| <= 3 && s.target < |s.conns|
            && (Quiet(s) && !s.conns[s.target].failed ==> s.conns[s.target].received == s.stream)
            && (|s.conns| > 1 ==>
                  && s.first.Some? && s.first.value <= s.stream && |s.first.value| >= 6
                  && s.first.value[0] == 0x16 && s.first.value[1] == 0x03 && s.first.value[5] == 0x01)
  {
    var s := Run(START, steps);
    RunInv(steps);
    FirstIsFirst(steps);
    assert ConnOk(s, c);
    assert Sent(s) <= s.stream;
  }

  lemma {:induction false} FirstIsFirst(steps: seq<Step>)
    ensures var s := Run(START, steps);
            (s.first.Some? ==> s.first.value <= s.stream) && (s.first.None? ==> s.stream == [])
  {
    if steps != [] { FirstIsFirst(steps[..|steps| - 1]); }
  }

  /** Once a target has answered, no further connection is dialed or switched to: all the
      client ever hears comes from that one target. */
  lemma {:induction false} AnsweredForGood(before: seq<Step>, after: seq<Step>)
    requires Run(START, before).heard.Some?
    ensures var s := Run(START, before);
            var t := Run(s, after);
            Inv(t) && t.heard == s.heard && t.target == s.target == s.heard.value && |t.conns| == |s.conns|
  {
    RunInv(before);
    if after != [] {
      var s := Run(START, before);
      var t := Run(s, after[..|after| - 1]);
      AnsweredForGood(before, after[..|after| - 1]);
      TakeInv(t, after[|after| - 1]);
    }
  }

  /** When a redial starts, no target byte has reached the client, and the new connection is
      caught up with exactly the client's stream before anything else is sent to it. */
  lemma ReplayIsTheStream(steps: seq<Step>)
    requires Run(START, steps).loop.Replaying?
    ensures var s := Run(START, steps);
            var t := Take(s, Replayed(|s.loop.bytes|, true));
            && s.heard.None? && t.target < |t.conns|
            && t.conns[t.target].received == t.stream == s.stream && t.loop == TargetReading
  {
    RunInv(steps);
  }

  /** A failed write that the client loop carries on from is not lost: the buffer holds the
      client's stream to its last byte, the failed payload at its end. */
  lemma ForgivenIsBuffered(steps: seq<Step>, accepted: nat)
    requires var s := Run(START, steps);
             && s.client.ClientWriting? && s.target < |s.conns|
             && Possible(s.conns[s.target], s.client.payload, accepted, false)
    ensures var s := Run(START, steps);
            var t := Take(s, ClientWrote(accepted, false));
            && (t.client == ClientReading ==>
                  && t.relay.replay == t.stream == s.stream && |s.client.payload| <= |t.relay.replay|
                  && t.relay.replay[|t.relay.replay| - |s.client.payload|..] == s.client.payload)
            && (t.client == ClientReading <==> s.relay.armed && s.relay.replayOk && !s.relay.closed)
  {
    RunInv(steps);
  }

  function DialsUnderWay(s: Sys): nat { if s.loop.Dialing? then 1 else 0 }

  lemma OverStep(s: Sys, e: Step)
    requires !s.relay.replayOk
    ensures var t := Take(s, e);
            && !t.relay.replayOk && t.target == s.target && |s.conns| <= |t.conns|
            && |t.conns| + DialsUnderWay(t) <= |s.conns| + DialsUnderWay(s)
  {
  }

  /** Once replay is over, by an answer, a disarm, a stream that is no handshake or one too
      long, it stays over: no other target is ever switched to, and at most the dial under
      way is completed. */
  lemma {:induction false} OverForGood(s: Sys, after: seq<Step>)
    requires !s.relay.replayOk
    ensures var t := Run(s, after);
            && !t.relay.replayOk && t.target == s.target && |s.conns| <= |t.conns|
            && |t.conns| + DialsUnderWay(t) <= |s.conns| + DialsUnderWay(s)
  {
    if after != [] {
      hide Take, DialsUnderWay;
      var n := |after| - 1;
      OverForGood(s, after[..n]);
      OverStep(Run(s, after[..n]), after[n]);
    }
  }

  /** A watchdog that gives up leaves the client with the target it has, for good. */
  lemma DisarmedForGood(before: seq<Step>, after: seq<Step>)
    requires var s := Run(START, before); s.loop == Disarming && Disarmable(s.relay)
    ensures var s := Run(START, before);
            var t := Run(Take(s, Disarm), after);
            t.target == s.target && |t.conns| == |s.conns| && !t.relay.replayOk
  {
    OverForGood(Take(Run(START, before), Disarm), after);
  }

  // ---------------------------------------------------------------- a silent target is replaced

  /** What the client has sent is a handshake's first flight of at most 16 KiB, unanswered on
      an open relay. */
  predicate FirstFlight(s: Sys) {
    && s.first.Some? && |s.first.value| >= 6 && s.first.value[0] == 0x16 && s.first.value[1] == 0x03
    && s.first.value[5] == 0x01 && |s.stream| <= 16384 && s.heard.None? && !s.relay.closed
  }

  /** As long as nobody gave up, such a flight is buffered and may be replayed. */
  predicate Buffered(s: Sys) {
    && (FirstFlight(s) ==> s.relay.armed && s.relay.replayOk && s.relay.seenClient && !s.relay.settled)
    && (s.first.None? && s.heard.None? ==> s.relay.replayOk && !s.relay.seenClient && !s.relay.settled)
  }

  lemma TakeBuffers(s: Sys, e: Step)
    requires Inv(s) && Buffered(s) && !e.Disarm?
    ensures Buffered(Take(s, e))
  {
    hide ConnOk, InFlight;
  }

  lemma {:induction false} FlightIsBuffered(steps: seq<Step>)
    requires Disarm !in steps
    ensures Buffered(Run(START, steps))
  {
    if steps != [] {
      var before, e := steps[..|steps| - 1], steps[|steps| - 1];
      assert e in steps;
      assert Disarm !in before by { assert forall x | x in before :: x in steps; }
      FlightIsBuffered(before);
      RunInv(before);
      hide Inv, Take, Buffered;
      TakeBuffers(Run(START, before), e);
    }
  }

  /** The target loop's way to the next target, the dial and the replay succeeding. */
  function Redialed(s: Sys, timeout: bool): Sys {
    Take(Take(Take(Take(s, TargetFailed(timeout)), Redial(true)), Swap), Replayed(|s.stream|, true))
  }

  /** In every run in which nobody gave up: when a target fails or stays silent after a first
      flight, with fewer than three dials so far and no write in flight, the next one is
      dialed, switched to, and sent the whole stream from its first byte. */
  lemma SilentTargetIsReplaced(steps: seq<Step>, timeout: bool)
    requires Disarm !in steps
    requires var s := Run(START, steps);
             FirstFlight(s) && s.loop == TargetReading && !s.client.ClientWriting? && |s.conns| < 3
    ensures var s := Run(START, steps);
            var t := Redialed(s, timeout);
            && t.target == |s.conns| && |t.conns| == |s.conns| + 1 && t.conns[t.target] == Conn(s.stream, false)
            && t.loop == TargetReading && t.relay == s.relay && t.stream == s.stream && t.heard.None?
            && (forall c: nat | c < |s.conns| :: t.conns[c].received == s.conns[c].received)
  {
    hide Run, Inv, Take;
    FlightIsBuffered(steps);
    RunInv(steps);
    var s := Run(START, steps);
    FirstIsFirst(steps);
    InvReplay(s);
    Replaces(s, timeout);
  }

  lemma InvReplay(s: Sys)
    requires Inv(s) && s.relay.replayOk
    ensures s.relay.replay == s.stream && s.target < |s.conns|
  {
    hide ConnOk;
  }

  lemma Replaces(s: Sys, timeout: bool)
    requires Retryable(s.relay) && s.relay.replay == s.stream && s.target < |s.conns| < 3 && s.heard.None?
    requires s.loop == TargetReading && !s.client.ClientWriting?
    ensures var t := Redialed(s, timeout);
            t == s.(target := |s.conns|,
                    conns := s.conns[s.target := s.conns[s.target].(failed := true)] + [Conn(s.stream, false)])
  {
    var blank, lost := Conn([], false), s.conns[s.target].(failed := true);
    var s1 := s.(loop := Dialing);
    assert Take(s, TargetFailed(timeout)) == s1;
    var s2 := s.(conns := s.conns + [blank], loop := Dialed(|s.conns|));
    assert Take(s1, Redial(true)) == s2;
    assert (s.conns + [blank])[s.target := lost] == s.conns[s.target := lost] + [blank];
    var s3 := s.(target := |s.conns|, loop := Replaying(s.stream), conns := s.conns[s.target := lost] + [blank]);
    assert Take(s2, Swap) == s3;
    assert Wrote(blank, s.stream, |s.stream|, true) == Conn(s.stream, false) by {
      assert s.stream[..|s.stream|] == s.stream && [] + s.stream == s.stream;
    }
    assert s3.conns[|s.conns| := Conn(s.stream, false)] == s.conns[s.target := lost] + [Conn(s.stream, false)];
  }
}
