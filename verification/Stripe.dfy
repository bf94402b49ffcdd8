/** Striped transfer (egress/reverse/main.go): the target stream is cut into chunks, dealt
    over the lanes, and put together again by the receiver in whatever order frames come. */
module Stripe {
  import opened Prelude
  import opened StripeCodec

  const WINDOW: nat := 8 * 1024 * 1024

  function Concat(chunks: seq<Bytes>): Bytes {
    if chunks == [] then [] else Concat(chunks[..|chunks| - 1]) + chunks[|chunks| - 1]
  }

  lemma {:induction false} ConcatPrefix(chunks: seq<Bytes>, n: nat)
    requires n <= |chunks|
    ensures Concat(chunks[..n]) <= Concat(chunks)
    ensures forall m: nat {:trigger Concat(chunks[..n]) + chunks[n][..m]} | n < |chunks| && m <= |chunks[n]| ::
              Concat(chunks[..n]) + chunks[n][..m] <= Concat(chunks)
  {
    if n == |chunks| {
      assert chunks[..n] == chunks;
    } else {
      var last := |chunks| - 1;
      if n < last {
        ConcatPrefix(chunks[..last], n);
        assert chunks[..last][..n] == chunks[..n];
        assert chunks[..last][n] == chunks[n];
      }
    }
  }

  // ---------------------------------------------------------------- sender

  function NextLane(lane: nat, lanes: nat): (r: nat)
    requires lanes > 0
    ensures r < lanes
  {
    (lane + 1) % lanes
  }

  /** The round robin over the lanes. */
  function LaneOf(number: nat, lanes: nat): (r: nat)
    requires lanes > 0
    ensures r < lanes
  {
    if number == 0 then 0 else NextLane(LaneOf(number - 1, lanes), lanes)
  }

  /** The frames lane i is given, from chunk `at` on; the end marker follows the last. */
  function Dealt(chunks: seq<Bytes>, lanes: nat, i: nat, at: nat): seq<Frame>
    requires lanes > 0 && at <= |chunks|
    decreases |chunks| - at
  {
    if at == |chunks| then (if LaneOf(at, lanes) == i then [Frame(at, [])] else [])
    else (if LaneOf(at, lanes) == i then [Frame(at, chunks[at])] else []) + Dealt(chunks, lanes, i, at + 1)
  }

  function NonEmpty(pieces: seq<Bytes>): seq<Bytes> {
    if pieces == [] then []
    else
      var r := pieces[|pieces| - 1];
      var before := NonEmpty(pieces[..|pieces| - 1]);
      if r == [] then before else before + [r]
  }

  lemma {:induction false} NonEmptyChunks(pieces: seq<Bytes>)
    requires forall j | 0 <= j < |pieces| :: |pieces[j]| <= CHUNK_SIZE
    ensures Chunked(NonEmpty(pieces)) && Concat(NonEmpty(pieces)) == Concat(pieces) && |NonEmpty(pieces)| <= |pieces|
  {
    if pieces != [] {
      NonEmptyChunks(pieces[..|pieces| - 1]);
      var r := pieces[|pieces| - 1];
      var before := NonEmpty(pieces[..|pieces| - 1]);
      if r != [] {
        assert (before + [r])[..|before|] == before;
      }
    }
  }

  predicate Chunked(chunks: seq<Bytes>) {
    forall j | 0 <= j < |chunks| :: 0 < |chunks[j]| <= CHUNK_SIZE
  }

  lemma {:induction false} EncodeAppend(a: seq<Frame>, b: seq<Frame>)
    ensures EncodeAll(a + b) == EncodeAll(a) + EncodeAll(b)
  {
    if a == [] {
      assert a + b == b;
    } else {
      EncodeAppend(a[1..], b);
      assert (a + b)[1..] == a[1..] + b;
    }
  }

  lemma NonEmptyStep(pieces: seq<Bytes>, k: nat)
    requires k < |pieces|
    ensures NonEmpty(pieces[..k + 1]) == if pieces[k] == [] then NonEmpty(pieces[..k])
            else NonEmpty(pieces[..k]) + [pieces[k]]
  {
    assert pieces[..k + 1][..k] == pieces[..k];
  }

  /** The frames dealt so far, before the end marker. */
  function DealtUpTo(chunks: seq<Bytes>, lanes: nat, i: nat): seq<Frame>
    requires lanes > 0
  {
    if chunks == [] then []
    else
      var last := |chunks| - 1;
      DealtUpTo(chunks[..last], lanes, i) + if LaneOf(last, lanes) == i then [Frame(last, chunks[last])] else []
  }

  lemma {:induction false} DealtJoins(chunks: seq<Bytes>, lanes: nat, i: nat, at: nat)
    requires lanes > 0 && at <= |chunks|
    ensures DealtUpTo(chunks[..at], lanes, i) + Dealt(chunks, lanes, i, at) == Dealt(chunks, lanes, i, 0)
  {
    if at == 0 {
      assert chunks[..0] == [];
    } else {
      DealtJoins(chunks, lanes, i, at - 1);
      assert chunks[..at][..at - 1] == chunks[..at - 1];
    }
  }

  ghost predicate Sent(out: seq<Bytes>, chunks: seq<Bytes>, lanes: nat)
    requires lanes > 0
  {
    |out| == lanes && forall i: nat | i < lanes :: out[i] == EncodeAll(DealtUpTo(chunks, lanes, i))
  }

  lemma SendChunk(out: seq<Bytes>, chunks: seq<Bytes>, c: Bytes, lanes: nat)
    requires lanes > 0 && Sent(out, chunks, lanes)
    ensures var lane := LaneOf(|chunks|, lanes);
            |out| == lanes && Sent(out[lane := out[lane] + Encode(Frame(|chunks|, c))], chunks + [c], lanes)
  {
    var f := Frame(|chunks|, c);
    EncodeOne(f);
    hide Encode, EncodeAll;
    forall i: nat | i < lanes
      ensures EncodeAll(DealtUpTo(chunks + [c], lanes, i)) == out[i] + if i == LaneOf(|chunks|, lanes)
              then Encode(f) else []
    {
      assert (chunks + [c])[..|chunks|] == chunks;
      if i == LaneOf(|chunks|, lanes) {
        EncodeAppend(DealtUpTo(chunks, lanes, i), [f]);
      } else {
        assert DealtUpTo(chunks + [c], lanes, i) == DealtUpTo(chunks, lanes, i);
      }
    }
  }

  lemma SendEnd(out: seq<Bytes>, chunks: seq<Bytes>, lanes: nat, i: nat)
    requires lanes > 0 && Sent(out, chunks, lanes) && i < lanes
    ensures |out| == lanes && EncodeAll(Dealt(chunks, lanes, i, 0))
         == out[i] + if i == LaneOf(|chunks|, lanes) then Encode(Frame(|chunks|, [])) else []
  {
    EncodeOne(Frame(|chunks|, []));
    assert EncodeAll([]) == [];
    hide Encode, EncodeAll;
    assert chunks[..|chunks|] == chunks;
    DealtJoins(chunks, lanes, i, |chunks|);
    EncodeAppend(DealtUpTo(chunks, lanes, i), Dealt(chunks, lanes, i, |chunks|));
  }

  /** The sender's loop: every non-empty read becomes the next frame of the next lane. */
  method SendChunks(pieces: seq<Bytes>, lanes: nat) returns (out: seq<Bytes>, number: nat, lane: nat)
    requires lanes > 0
    ensures |out| == lanes && number == |NonEmpty(pieces)| && lane == LaneOf(number, lanes)
            && Sent(out, NonEmpty(pieces), lanes)
  {
    out := seq(lanes, _ => []);
    SendNothing(out, lanes);
    assert pieces[..0] == [];
    assert LaneOf(0, lanes) == 0;
    hide Sent, Encode, EncodeAll, NextLane, LaneOf, NonEmpty;
    number, lane := 0, 0;
    ghost var chunks: seq<Bytes> := [];
    for k := 0 to |pieces|
      invariant chunks == NonEmpty(pieces[..k]) && number == |chunks| && lane == LaneOf(number, lanes) && |out| == lanes
      invariant Sent(out, chunks, lanes)
    {
      NonEmptyStep(pieces, k);
      if pieces[k] != [] {
        SendChunk(out, chunks, pieces[k], lanes);
        LaneStep(number, lanes);
        out := out[lane := out[lane] + Encode(Frame(number, pieces[k]))];
        number, lane := number + 1, NextLane(lane, lanes);
        chunks := chunks + [pieces[k]];
      }
    }
    assert pieces[..|pieces|] == pieces;
  }

  /** The whole sender: the read error that ends the loop sends the end marker. */
  method Send(pieces: seq<Bytes>, lanes: nat) returns (out: seq<Bytes>)
    requires lanes > 0
    ensures |out| == lanes
    ensures forall i | 0 <= i < lanes :: out[i] == EncodeAll(Dealt(NonEmpty(pieces), lanes, i, 0))
  {
    hide Sent, Encode, EncodeAll, Dealt, DealtUpTo, LaneOf;
    var number, lane;
    out, number, lane := SendChunks(pieces, lanes);
    forall i | 0 <= i < lanes { SendEnd(out, NonEmpty(pieces), lanes, i); }
    out := out[lane := out[lane] + Encode(Frame(number, []))];
  }

  lemma LaneStep(number: nat, lanes: nat)
    requires lanes > 0
    ensures LaneOf(number + 1, lanes) == NextLane(LaneOf(number, lanes), lanes)
  {
  }

  lemma SendNothing(out: seq<Bytes>, lanes: nat)
    requires lanes > 0 && out == seq(lanes, _ => [])
    ensures Sent(out, [], lanes)
  {
  }

  lemma EncodeOne(f: Frame)
    ensures EncodeAll([f]) == Encode(f)
  {
    assert [f][1..] == [];
  }

  // ---------------------------------------------------------------- what the lanes deliver

  /** Lane i yields only its own chunks, in order, and the end marker at the right place. */
  predicate LaneOk(chunks: seq<Bytes>, lanes: nat, i: nat, got: seq<Arrival>)
    requires lanes > 0
  {
    && (forall j | 0 <= j < |got| && got[j].Data? ::
          got[j].number < |chunks| && got[j].data == chunks[got[j].number] && LaneOf(got[j].number, lanes) == i)
    && (forall j | 0 <= j < |got| && got[j].End? :: got[j].number == |chunks|)
    && (forall j, k | 0 <= j < k < |got| && got[j].Data? && got[k].Data? :: got[j].number < got[k].number)
  }

  /** One schedule: whose reader hands over its next result. */
  function Deliver(lanes: seq<seq<Arrival>>, picks: seq<nat>): seq<Arrival>
    decreases |picks|
  {
    if picks == [] then []
    else if picks[0] < |lanes| && lanes[picks[0]] != []
    then [lanes[picks[0]][0]] + Deliver(lanes[picks[0] := lanes[picks[0]][1..]], picks[1..])
    else Deliver(lanes, picks[1..])
  }

  /** What the receiver may rely on. */
  predicate Faithful(chunks: seq<Bytes>, frames: seq<Arrival>) {
    && (forall j | 0 <= j < |frames| && frames[j].Data? ::
          frames[j].number < |chunks| && frames[j].data == chunks[frames[j].number])
    && (forall j | 0 <= j < |frames| && frames[j].End? :: frames[j].number == |chunks|)
    && (forall j, k | 0 <= j < k < |frames| && frames[j].Data? && frames[k].Data? ::
          frames[j].number != frames[k].number)
  }

  predicate LanesOk(chunks: seq<Bytes>, lanes: seq<seq<Arrival>>) {
    |lanes| > 0 && forall i | 0 <= i < |lanes| :: LaneOk(chunks, |lanes|, i, lanes[i])
  }

  lemma TailOk(chunks: seq<Bytes>, lanes: seq<seq<Arrival>>, i: nat)
    requires LanesOk(chunks, lanes) && i < |lanes| && lanes[i] != []
    ensures LanesOk(chunks, lanes[i := lanes[i][1..]])
  {
    var next := lanes[i := lanes[i][1..]];
    forall j | 0 <= j < |next| ensures LaneOk(chunks, |next|, j, next[j]) {
      assert LaneOk(chunks, |lanes|, j, lanes[j]);
    }
  }

  predicate InLane(lanes: seq<seq<Arrival>>, i: nat, a: Arrival) { i < |lanes| && a in lanes[i] }

  /** Every schedule delivers each chunk at most once and unaltered. */
  lemma {:induction false} DeliverFaithful(chunks: seq<Bytes>, lanes: seq<seq<Arrival>>, picks: seq<nat>)
    requires LanesOk(chunks, lanes)
    ensures Faithful(chunks, Deliver(lanes, picks))
    ensures forall a | a in Deliver(lanes, picks) :: exists i: nat :: InLane(lanes, i, a)
    decreases |picks|
  {
    if picks != [] {
      var i := picks[0];
      if i < |lanes| && lanes[i] != [] {
        var next := lanes[i := lanes[i][1..]];
        TailOk(chunks, lanes, i);
        DeliverFaithful(chunks, next, picks[1..]);
        var rest := Deliver(next, picks[1..]);
        var a := lanes[i][0];
        assert LaneOk(chunks, |lanes|, i, lanes[i]);
        forall j | 0 <= j < |rest| && a.Data? && rest[j].Data? ensures rest[j].number != a.number {
          assert rest[j] in rest;
          var l: nat :| InLane(next, l, rest[j]);
          assert LaneOk(chunks, |lanes|, l, lanes[l]);
        }
        forall b | b in Deliver(lanes, picks) ensures exists l: nat :: InLane(lanes, l, b) {
          if b == a {
            assert InLane(lanes, i, a);
          } else {
            assert b in rest;
            var l: nat :| InLane(next, l, b);
            assert InLane(lanes, l, b);
          }
        }
      } else {
        DeliverFaithful(chunks, lanes, picks[1..]);
      }
    }
  }

  lemma {:induction false} DealtShape(chunks: seq<Bytes>, lanes: nat, i: nat, at: nat)
    requires lanes > 0 && at <= |chunks| && Chunked(chunks) && |chunks| < Pow256(8)
    ensures var f := Dealt(chunks, lanes, i, at);
            && LaneShape(f)
            && (forall j | 0 <= j < |f| :: at <= f[j].number <= |chunks| && LaneOf(f[j].number, lanes) == i
                  && f[j].data == if f[j].number == |chunks| then [] else chunks[f[j].number])
            && (forall j, k | 0 <= j < k < |f| :: f[j].number < f[k].number)
    decreases |chunks| - at
  {
    if at < |chunks| { DealtShape(chunks, lanes, i, at + 1); }
  }

  lemma CutFramesOnly(frames: seq<Frame>, n: nat, j: nat)
    requires LaneShape(frames) && n <= |EncodeAll(frames)|
    requires j < |ReadAll(EncodeAll(frames)[..n])| && !ReadAll(EncodeAll(frames)[..n])[j].Stop?
    ensures j < |frames| && ReadAll(EncodeAll(frames)[..n])[j] == Outcome(frames[j])
  {
    CutLane(frames, n);
    var got, k := ReadAll(EncodeAll(frames)[..n]), Whole(frames, n);
    hide ReadAll, EncodeAll;
    if !(k == |frames| && Ends(frames)) { assert got[j] == got[..k][j]; }
  }

  /** However a lane's bytes were cut, what its reader reports are that lane's chunks. */
  lemma CutLaneOk(chunks: seq<Bytes>, lanes: nat, i: nat, n: nat)
    requires lanes > 0 && i < lanes && Chunked(chunks) && |chunks| < Pow256(8)
    requires n <= |EncodeAll(Dealt(chunks, lanes, i, 0))|
    ensures LaneOk(chunks, lanes, i, ReadAll(EncodeAll(Dealt(chunks, lanes, i, 0))[..n]))
  {
    var f := Dealt(chunks, lanes, i, 0);
    DealtShape(chunks, lanes, i, 0);
    var got := ReadAll(EncodeAll(f)[..n]);
    hide Dealt, ReadAll, EncodeAll;
    forall j: nat | j < |got| && !got[j].Stop? ensures j < |f| && got[j] == Outcome(f[j]) {
      CutFramesOnly(f, n, j);
    }
    hide LaneShape;
  }
}
