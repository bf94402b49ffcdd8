/** Striped transfer end to end: sender, lanes cut anywhere, any schedule, receiver. */
module StripeTransfer {
  import opened Prelude
  import opened StripeCodec
  import opened Stripe
  import opened StripeReceiver

  function LaneBytes(pieces: seq<Bytes>, lanes: nat, i: nat): Bytes
    requires lanes > 0
  {
    EncodeAll(Dealt(NonEmpty(pieces), lanes, i, 0))
  }

  /** What the readers report when lane i was cut after cuts[i] bytes. */
  function Reported(pieces: seq<Bytes>, lanes: nat, cuts: seq<nat>): seq<seq<Arrival>>
    requires lanes > 0 && |cuts| == lanes && forall i: nat | i < lanes :: cuts[i] <= |LaneBytes(pieces, lanes, i)|
  {
    seq(lanes, i requires 0 <= i < lanes => ReadAll(LaneBytes(pieces, lanes, i)[..cuts[i]]))
  }

  predicate Pieces(pieces: seq<Bytes>) {
    |pieces| < Pow256(8) && forall j | 0 <= j < |pieces| :: |pieces[j]| <= CHUNK_SIZE
  }

  lemma StartTracks(chunks: seq<Bytes>, lanes: nat)
    ensures Waiting(chunks, {}, START.(active := lanes))
  {
    var rx := START.(active := lanes);
    NothingBuffered(chunks, 0);
    assert chunks[..0] == [];
    forall n: nat ensures Holds(chunks, {}, rx, n) {}
  }

  lemma {:induction false} NothingBuffered(chunks: seq<Bytes>, lo: nat)
    ensures Backlog(chunks, {}, lo) == 0
    decreases |chunks| - lo
  {
    if lo < |chunks| { NothingBuffered(chunks, lo + 1); }
  }

  lemma ReportedOk(pieces: seq<Bytes>, lanes: nat, cuts: seq<nat>)
    requires lanes > 0 && |cuts| == lanes && forall i: nat | i < lanes :: cuts[i] <= |LaneBytes(pieces, lanes, i)|
    requires Pieces(pieces)
    ensures LanesOk(NonEmpty(pieces), Reported(pieces, lanes, cuts))
  {
    NonEmptyChunks(pieces);
    var chunks, got := NonEmpty(pieces), Reported(pieces, lanes, cuts);
    forall i: nat | i < lanes ensures LaneOk(chunks, lanes, i, got[i]) { CutLaneOk(chunks, lanes, i, cuts[i]); }
  }

  /** For every chunking of the target stream, wherever each lane breaks off, in whatever
      order the readers hand over, and whenever the client refuses a write: the client gets
      a prefix of the target stream, and exactly the stream if no error is returned. */
  lemma TransferIsPrefix(pieces: seq<Bytes>, lanes: nat, cuts: seq<nat>, picks: seq<nat>, refusal: Option<Refusal>)
    requires lanes > 0 && |cuts| == lanes && forall i: nat | i < lanes :: cuts[i] <= |LaneBytes(pieces, lanes, i)|
    requires Pieces(pieces)
    ensures var out := Receive(START.(active := lanes), Deliver(Reported(pieces, lanes, cuts), picks), refusal);
            out.0 <= Concat(pieces) && (out.1.None? ==> out.0 == Concat(pieces))
  {
    var chunks := NonEmpty(pieces);
    NonEmptyChunks(pieces);
    ReportedOk(pieces, lanes, cuts);
    DeliverFaithful(chunks, Reported(pieces, lanes, cuts), picks);
    StartTracks(chunks, lanes);
    ReceivesPrefix(chunks, {}, START.(active := lanes), Deliver(Reported(pieces, lanes, cuts), picks), refusal);
  }

  // ---------------------------------------------------------------- nothing lost, nothing cut

  /** What a schedule leaves undelivered. */
  function Left(lanes: seq<seq<Arrival>>, picks: seq<nat>): (r: seq<seq<Arrival>>)
    ensures |r| == |lanes|
    decreases |picks|
  {
    if picks == [] then lanes
    else if picks[0] < |lanes| && lanes[picks[0]] != []
    then Left(lanes[picks[0] := lanes[picks[0]][1..]], picks[1..])
    else Left(lanes, picks[1..])
  }

  lemma {:induction false} AllDelivered(lanes: seq<seq<Arrival>>, picks: seq<nat>, i: nat, a: Arrival)
    requires i < |lanes| && a in lanes[i] && a !in Left(lanes, picks)[i]
    ensures a in Deliver(lanes, picks)
    decreases |picks|
  {
    if picks != [] {
      var l := picks[0];
      if l < |lanes| && lanes[l] != [] {
        var next := lanes[l := lanes[l][1..]];
        if l != i || a != lanes[l][0] { AllDelivered(next, picks[1..], i, a); }
      } else {
        AllDelivered(lanes, picks[1..], i, a);
      }
    }
  }

  lemma {:induction false} InArrived(frames: seq<Arrival>, a: Arrival)
    requires a in frames
    ensures (a.Data? ==> a.number in Arrived(frames)) && (a.End? ==> HasEnd(frames))
    decreases |frames|
  {
    if frames[0] != a { InArrived(frames[1..], a); }
  }

  function CountStops(lane: seq<Arrival>): nat {
    if lane == [] then 0 else (if lane[0].Stop? then 1 else 0) + CountStops(lane[1..])
  }

  function Total(lanes: seq<seq<Arrival>>, upTo: nat): nat
    requires upTo <= |lanes|
  {
    if upTo == 0 then 0 else Total(lanes, upTo - 1) + CountStops(lanes[upTo - 1])
  }

  lemma {:induction false} TotalDrops(lanes: seq<seq<Arrival>>, i: nat, upTo: nat)
    requires upTo <= |lanes| && i < |lanes| && lanes[i] != []
    ensures Total(lanes, upTo)
         == Total(lanes[i := lanes[i][1..]], upTo) + if i < upTo && lanes[i][0].Stop? then 1 else 0
    decreases upTo
  {
    if upTo > 0 { TotalDrops(lanes, i, upTo - 1); }
  }

  predicate CleanStops(lane: seq<Arrival>) {
    forall j | 0 <= j < |lane| && lane[j].Stop? :: lane[j].error == CleanEof
  }

  lemma {:induction false} DeliverStops(lanes: seq<seq<Arrival>>, picks: seq<nat>, n: int)
    requires forall i | 0 <= i < |lanes| :: CleanStops(lanes[i])
    requires Total(lanes, |lanes|) < n
    ensures Stops(Deliver(lanes, picks), n)
    decreases |picks|
  {
    if picks != [] {
      var l := picks[0];
      if l < |lanes| && lanes[l] != [] {
        var next := lanes[l := lanes[l][1..]];
        TotalDrops(lanes, l, |lanes|);
        assert CleanStops(lanes[l]);
        forall i | 0 <= i < |next| ensures CleanStops(next[i]) { assert CleanStops(lanes[i]); }
        DeliverStops(next, picks[1..], if lanes[l][0].Stop? then n - 1 else n);
      } else {
        DeliverStops(lanes, picks[1..], n);
      }
    }
  }

  lemma {:induction false} DealtHas(chunks: seq<Bytes>, lanes: nat, n: nat, at: nat)
    requires lanes > 0 && at <= n <= |chunks|
    ensures Frame(n, if n < |chunks| then chunks[n] else []) in Dealt(chunks, lanes, LaneOf(n, lanes), at)
    decreases |chunks| - at
  {
    if at < n { DealtHas(chunks, lanes, n, at + 1); }
  }

  lemma {:induction false} DealtEnds(chunks: seq<Bytes>, lanes: nat, i: nat, at: nat)
    requires lanes > 0 && at <= |chunks| && Chunked(chunks)
    ensures Ends(Dealt(chunks, lanes, i, at)) <==> i == LaneOf(|chunks|, lanes)
    decreases |chunks| - at
  {
    if at < |chunks| { DealtEnds(chunks, lanes, i, at + 1); }
  }

  lemma {:induction false} NoStops(frames: seq<Frame>)
    ensures CountStops(Outcomes(frames)) == 0 && CountStops(Outcomes(frames) + [Stop(CleanEof)]) == 1
    decreases |frames|
  {
    if frames != [] {
      NoStops(frames[1..]);
      assert Outcomes(frames)[1..] == Outcomes(frames[1..]);
      assert (Outcomes(frames) + [Stop(CleanEof)])[1..] == Outcomes(frames[1..]) + [Stop(CleanEof)];
    }
  }

  /** An uncut lane reports its frames, then a clean end unless it carries the end marker. */
  lemma UncutLane(chunks: seq<Bytes>, lanes: nat, i: nat)
    requires lanes > 0 && i < lanes && Chunked(chunks) && |chunks| < Pow256(8)
    ensures var f := Dealt(chunks, lanes, i, 0);
            ReadAll(EncodeAll(f)) == if i == LaneOf(|chunks|, lanes) then Outcomes(f)
              else Outcomes(f) + [Stop(CleanEof)]
  {
    var f := Dealt(chunks, lanes, i, 0);
    DealtShape(chunks, lanes, i, 0);
    DealtEnds(chunks, lanes, i, 0);
    hide Dealt;
    if Ends(f) {
      CutLane(f, |EncodeAll(f)|);
      assert EncodeAll(f)[..|EncodeAll(f)|] == EncodeAll(f);
    } else {
      RoundTrip(f);
    }
  }

  function Uncut(pieces: seq<Bytes>, lanes: nat): seq<seq<Arrival>>
    requires lanes > 0
  {
    seq(lanes, i requires 0 <= i < lanes => ReadAll(LaneBytes(pieces, lanes, i)))
  }

  lemma UncutCount(pieces: seq<Bytes>, lanes: nat, i: nat)
    requires i < lanes && Pieces(pieces)
    ensures CountStops(Uncut(pieces, lanes)[i]) == if i == LaneOf(|NonEmpty(pieces)|, lanes) then 0 else 1
  {
    NonEmptyChunks(pieces);
    UncutLane(NonEmpty(pieces), lanes, i);
    NoStops(Dealt(NonEmpty(pieces), lanes, i, 0));
    hide ReadAll, EncodeAll, Dealt, NonEmpty, LaneOf, CountStops;
  }

  lemma {:induction false} UncutTotal(pieces: seq<Bytes>, lanes: nat, upTo: nat)
    requires lanes > 0 && upTo <= lanes && Pieces(pieces)
    ensures Total(Uncut(pieces, lanes), upTo) == if LaneOf(|NonEmpty(pieces)|, lanes) < upTo then upTo - 1 else upTo
    decreases upTo
  {
    hide Pieces, CountStops, LaneOf, NonEmpty;
    if upTo > 0 {
      UncutCount(pieces, lanes, upTo - 1);
      UncutTotal(pieces, lanes, upTo - 1);
      hide Uncut;
    }
  }

  lemma UncutArrives(pieces: seq<Bytes>, lanes: nat, picks: seq<nat>, n: nat)
    requires lanes > 0 && Pieces(pieces) && n <= |NonEmpty(pieces)|
    requires forall i: nat | i < lanes :: Left(Uncut(pieces, lanes), picks)[i] == []
    ensures var frames := Deliver(Uncut(pieces, lanes), picks);
            if n < |NonEmpty(pieces)| then n in Arrived(frames) else HasEnd(frames)
  {
    NonEmptyChunks(pieces);
    var chunks, i := NonEmpty(pieces), LaneOf(n, lanes);
    UncutLane(chunks, lanes, i);
    DealtHas(chunks, lanes, n, 0);
    var f := Dealt(chunks, lanes, i, 0);
    var j :| 0 <= j < |f| && f[j] == Frame(n, if n < |chunks| then chunks[n] else []);
    var a := Outcome(f[j]);
    assert a == Outcomes(f)[j];
    assert a in Uncut(pieces, lanes)[i];
    AllDelivered(Uncut(pieces, lanes), picks, i, a);
    InArrived(Deliver(Uncut(pieces, lanes), picks), a);
  }

  lemma UncutStops(pieces: seq<Bytes>, lanes: nat, picks: seq<nat>)
    requires lanes > 0 && Pieces(pieces)
    ensures Stops(Deliver(Uncut(pieces, lanes), picks), lanes)
  {
    NonEmptyChunks(pieces);
    var got := Uncut(pieces, lanes);
    UncutTotal(pieces, lanes, lanes);
    forall i | 0 <= i < |got| ensures CleanStops(got[i]) { UncutLane(NonEmpty(pieces), lanes, i); }
    DeliverStops(got, picks, lanes);
  }

  lemma UncutFaithful(pieces: seq<Bytes>, lanes: nat, picks: seq<nat>)
    requires lanes > 0 && Pieces(pieces)
    ensures Faithful(NonEmpty(pieces), Deliver(Uncut(pieces, lanes), picks))
  {
    var cuts := seq(lanes, i requires 0 <= i < lanes => |LaneBytes(pieces, lanes, i)|);
    var got := Reported(pieces, lanes, cuts);
    forall i: nat | i < lanes ensures got[i] == Uncut(pieces, lanes)[i] {
      assert LaneBytes(pieces, lanes, i)[..cuts[i]] == LaneBytes(pieces, lanes, i);
    }
    assert got == Uncut(pieces, lanes);
    ReportedOk(pieces, lanes, cuts);
    DeliverFaithful(NonEmpty(pieces), got, picks);
  }

  /** When every lane is read to its end, in any order, by a client that takes every write,
      the transfer ends without error exactly when the reorder window is never exceeded. */
  lemma TransferCompletes(pieces: seq<Bytes>, lanes: nat, picks: seq<nat>)
    requires lanes > 0 && Pieces(pieces)
    requires forall i: nat | i < lanes :: Left(Uncut(pieces, lanes), picks)[i] == []
    ensures var frames := Deliver(Uncut(pieces, lanes), picks);
            var out := Receive(START.(active := lanes), frames, None);
            && out.1 == (if Fits(NonEmpty(pieces), {}, 0, frames) then None else Some(WindowExceeded))
            && (|Concat(pieces)| <= WINDOW ==> out == (Concat(pieces), None))
  {
    NonEmptyChunks(pieces);
    var chunks, frames := NonEmpty(pieces), Deliver(Uncut(pieces, lanes), picks);
    forall n: nat | n < |chunks| ensures n in Arrived(frames) { UncutArrives(pieces, lanes, picks, n); }
    UncutArrives(pieces, lanes, picks, |chunks|);
    UncutStops(pieces, lanes, picks);
    UncutFaithful(pieces, lanes, picks);
    hide Uncut, Deliver, Receive, Fits, Left, Stops;
    StartTracks(chunks, lanes);
    SucceedsExactly(chunks, {}, START.(active := lanes), frames);
    ReceivesPrefix(chunks, {}, START.(active := lanes), frames, None);
    if |Concat(pieces)| <= WINDOW { ShortFits(chunks, {}, 0, frames); }
  }

  // ---------------------------------------------------------------- a lane that lags behind

  /** Lane 1 is read to its end before lane 0 is read at all. */
  function Lagging(lanes: seq<seq<Arrival>>): seq<nat>
    requires |lanes| == 2
  {
    seq(|lanes[1]|, _ => 1) + seq(|lanes[0]|, _ => 0)
  }

  lemma {:induction false} WholeLane(lanes: seq<seq<Arrival>>, l: nat, n: nat, rest: seq<nat>)
    requires l < |lanes| && n == |lanes[l]|
    ensures Deliver(lanes, seq(n, _ => l) + rest) == lanes[l] + Deliver(lanes[l := []], rest)
    ensures Left(lanes, seq(n, _ => l) + rest) == Left(lanes[l := []], rest)
    decreases n
  {
    var picks := seq(n, _ => l) + rest;
    if n == 0 {
      assert picks == rest && lanes[l := []] == lanes;
    } else {
      var next := lanes[l := lanes[l][1..]];
      assert picks[0] == l && picks[1..] == seq(n - 1, _ => l) + rest;
      WholeLane(next, l, n - 1, rest);
      assert next[l := []] == lanes[l := []];
      assert lanes[l] == [lanes[l][0]] + lanes[l][1..];
    }
  }

  lemma LaggingDelivers(lanes: seq<seq<Arrival>>)
    requires |lanes| == 2
    ensures Deliver(lanes, Lagging(lanes)) == lanes[1] + lanes[0]
    ensures Left(lanes, Lagging(lanes)) == [[], []]
  {
    var rest, half := seq(|lanes[0]|, _ => 0), lanes[1 := []];
    WholeLane(lanes, 1, |lanes[1]|, rest);
    WholeLane(half, 0, |half[0]|, []);
    assert rest + [] == rest;
    assert half[0 := []] == [[], []];
    assert lanes[0] + [] == lanes[0];
  }

  lemma {:induction false} TwoLanes(n: nat)
    ensures LaneOf(n, 2) == n % 2
  {
    if n > 0 { TwoLanes(n - 1); }
  }

  /** While chunk 0 is missing, everything that arrives has to fit the window. */
  lemma {:induction false} StuckFits(chunks: seq<Bytes>, got: set<nat>, frames: seq<Arrival>, rest: seq<Arrival>)
    requires Fits(chunks, got, 0, frames + rest) && 0 !in got + Arrived(frames) && Backlog(chunks, got, 0) <= WINDOW
    ensures Backlog(chunks, got + Arrived(frames), 0) <= WINDOW
    decreases |frames|
  {
    if frames == [] {
      assert got + Arrived(frames) == got;
    } else {
      var more := if frames[0].Data? then got + {frames[0].number} else got;
      assert (frames + rest)[0] == frames[0] && (frames + rest)[1..] == frames[1..] + rest;
      assert got + Arrived(frames) == more + Arrived(frames[1..]);
      StuckFits(chunks, more, frames[1..], rest);
    }
  }

  /** Half of the chunks, rounded down, are odd. */
  lemma {:induction false} OddBacklog(chunks: seq<Bytes>, got: set<nat>, lo: nat)
    requires lo <= |chunks| && forall n: nat | n < |chunks| :: |chunks[n]| == CHUNK_SIZE && (n % 2 == 1 ==> n in got)
    ensures 2 * Backlog(chunks, got, lo) >= CHUNK_SIZE * (|chunks| - lo - 1 + lo % 2)
    decreases |chunks| - lo
  {
    if lo < |chunks| { OddBacklog(chunks, got, lo + 1); }
  }

  lemma {:induction false} ArrivedFrom(frames: seq<Arrival>, n: nat)
    requires n in Arrived(frames)
    ensures exists j :: 0 <= j < |frames| && frames[j].Data? && frames[j].number == n
    decreases |frames|
  {
    if frames[0].Data? && frames[0].number == n {
      assert 0 <= 0 < |frames|;
    } else {
      ArrivedFrom(frames[1..], n);
      var j :| 0 <= j < |frames[1..]| && frames[1..][j].Data? && frames[1..][j].number == n;
      assert frames[j + 1] == frames[1..][j];
    }
  }

  lemma {:induction false} DealtOwn(chunks: seq<Bytes>, lanes: nat, i: nat, at: nat)
    requires lanes > 0 && at <= |chunks|
    ensures forall j | 0 <= j < |Dealt(chunks, lanes, i, at)| ::
              LaneOf(Dealt(chunks, lanes, i, at)[j].number, lanes) == i
    decreases |chunks| - at
  {
    if at < |chunks| { DealtOwn(chunks, lanes, i, at + 1); }
  }

  /** A lane brings no chunk that was not dealt to it. */
  lemma OnlyOwnArrive(f: seq<Frame>, got: seq<Arrival>, n: nat)
    requires got == Outcomes(f) || got == Outcomes(f) + [Stop(CleanEof)]
    requires forall j | 0 <= j < |f| :: f[j].number != n
    ensures n !in Arrived(got)
  {
    if n in Arrived(got) { ArrivedFrom(got, n); }
  }

  lemma OwnArrives(f: seq<Frame>, got: seq<Arrival>, x: Frame)
    requires got == Outcomes(f) || got == Outcomes(f) + [Stop(CleanEof)]
    requires x in f && x.data != []
    ensures x.number in Arrived(got)
  {
    var j :| 0 <= j < |f| && f[j] == x;
    assert got[j] == Data(x.number, x.data);
    InArrived(got, got[j]);
  }

  /** Of two lanes, lane 1 brings the odd chunks and not chunk 0. */
  lemma LaneOneArrives(pieces: seq<Bytes>, n: nat)
    requires Pieces(pieces) && n < |NonEmpty(pieces)|
    ensures n % 2 == 1 ==> n in Arrived(Uncut(pieces, 2)[1])
    ensures 0 !in Arrived(Uncut(pieces, 2)[1])
  {
    var chunks, got := NonEmpty(pieces), Uncut(pieces, 2)[1];
    assert got == ReadAll(LaneBytes(pieces, 2, 1));
    hide NonEmpty, ReadAll, EncodeAll, Dealt, Arrived, Outcomes, Uncut;
    NonEmptyChunks(pieces);
    var f := Dealt(chunks, 2, 1, 0);
    UncutLane(chunks, 2, 1);
    DealtOwn(chunks, 2, 1, 0);
    OnlyOwnArrive(f, got, 0);
    if n % 2 == 1 {
      TwoLanes(n);
      DealtHas(chunks, 2, n, 0);
      OwnArrives(f, got, Frame(n, chunks[n]));
    }
  }

  lemma {:induction false} NonEmptyFull(pieces: seq<Bytes>)
    requires forall j | 0 <= j < |pieces| :: pieces[j] != []
    ensures NonEmpty(pieces) == pieces
    decreases |pieces|
  {
    if pieces != [] { NonEmptyFull(pieces[..|pieces| - 1]); }
  }

  lemma OddChunksExceed(pieces: seq<Bytes>, odd: set<nat>, frames: seq<Arrival>, rest: seq<Arrival>)
    requires |pieces| >= 514 && forall n: nat | n < |pieces| :: |pieces[n]| == CHUNK_SIZE && (n % 2 == 1 ==> n in odd)
    requires Arrived(frames) == odd && 0 !in odd
    ensures !Fits(pieces, {}, 0, frames + rest)
  {
    hide Fits, Arrived;
    NothingBuffered(pieces, 0);
    OddBacklog(pieces, odd, 0);
    assert {} + odd == odd;
    if Fits(pieces, {}, 0, frames + rest) { StuckFits(pieces, {}, frames, rest); }
  }

  /** A long transfer of full chunks over two lanes, one of which lags: every frame is
      read, nothing is cut, no write is refused, and the transfer is given up. */
  lemma LaggingLaneExceeds(pieces: seq<Bytes>)
    requires Pieces(pieces) && |pieces| >= 514 && forall j | 0 <= j < |pieces| :: |pieces[j]| == CHUNK_SIZE
    ensures var got := Uncut(pieces, 2);
            && (forall i: nat | i < 2 :: Left(got, Lagging(got))[i] == [])
            && Receive(START.(active := 2), Deliver(got, Lagging(got)), None).1 == Some(WindowExceeded)
  {
    var got := Uncut(pieces, 2);
    hide Receive, Deliver, Left, Lagging, NonEmpty, Uncut, Fits, Arrived;
    LaggingDelivers(got);
    NonEmptyFull(pieces);
    TransferCompletes(pieces, 2, Lagging(got));
    var odd := Arrived(got[1]);
    forall n: nat | n < |pieces| ensures n % 2 == 1 ==> n in odd { LaneOneArrives(pieces, n); }
    LaneOneArrives(pieces, 0);
    OddChunksExceed(pieces, odd, got[1], got[0]);
  }

  /** There is such a transfer. */
  lemma WindowCanBeExceeded()
    ensures var pieces := seq(514, _ => seq(CHUNK_SIZE, _ => 0 as Byte));
            var got := Uncut(pieces, 2);
            && Pieces(pieces) && |Concat(pieces)| > WINDOW
            && Receive(START.(active := 2), Deliver(got, Lagging(got)), None).1 == Some(WindowExceeded)
  {
    var pieces: seq<Bytes> := seq(514, _ => seq(CHUNK_SIZE, _ => 0 as Byte));
    LaggingLaneExceeds(pieces);
    var got := Uncut(pieces, 2);
    LaggingDelivers(got);
    TransferCompletes(pieces, 2, Lagging(got));
  }
}
