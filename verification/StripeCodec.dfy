/** The striped lane format of egress/reverse/main.go: an eight-byte sequence number and a
    four-byte length, both big-endian, then the data; length zero marks the end. */
module StripeCodec {
  import opened Prelude

  const CHUNK_SIZE: nat := 32 * 1024
  const HEADER_SIZE: nat := 12

  // ---------------------------------------------------------------- big-endian integers

  function Pow256(width: nat): (r: nat)
    ensures r > 0
  {
    if width == 0 then 1 else 256 * Pow256(width - 1)
  }

  function Put(n: nat, width: nat): (r: Bytes)
    ensures |r| == width
  {
    if width == 0 then [] else Put(n / 256, width - 1) + [n % 256]
  }

  function Get(bytes: Bytes): (r: nat)
    ensures r < Pow256(|bytes|)
  {
    if bytes == [] then 0 else Get(bytes[..|bytes| - 1]) * 256 + bytes[|bytes| - 1]
  }

  lemma {:induction false} GetPut(n: nat, width: nat)
    requires n < Pow256(width)
    ensures Get(Put(n, width)) == n
  {
    if width > 0 {
      GetPut(n / 256, width - 1);
      assert Put(n, width)[..width - 1] == Put(n / 256, width - 1);
    }
  }

  // ---------------------------------------------------------------- frames

  /** A frame as the sender queues it; empty data is the end marker. */
  datatype Frame = Frame(number: nat, data: Bytes)

  predicate Sendable(f: Frame) {
    f.number < Pow256(8) && |f.data| <= CHUNK_SIZE
  }

  datatype ReadError = CleanEof | UnexpectedEof | TooLarge

  /** One result a lane reader passes on. */
  datatype Arrival =
    | Data(number: nat, data: Bytes)
    | End(number: nat)
    | Stop(error: ReadError)

  function Encode(f: Frame): Bytes {
    Put(f.number, 8) + Put(|f.data|, 4) + f.data
  }

  function EncodeAll(frames: seq<Frame>): Bytes {
    if frames == [] then [] else Encode(frames[0]) + EncodeAll(frames[1..])
  }

  /** io.ReadFull of `need` bytes from a lane that holds `have` more before it ends. */
  function Shortfall(have: nat): ReadError {
    if have == 0 then CleanEof else UnexpectedEof
  }

  /** readStripedFrame: the result and how many bytes it used. A lane that ends right after
      a header reports a clean end, as io.ReadFull does for zero bytes read. */
  function ReadFrame(bytes: Bytes): (r: (Arrival, nat))
    ensures r.1 <= |bytes| && (r.0.Data? ==> r.1 > 0)
  {
    if |bytes| < HEADER_SIZE then (Stop(Shortfall(|bytes|)), |bytes|)
    else
      var number := Get(bytes[..8]);
      var length := Get(bytes[8..HEADER_SIZE]);
      if length == 0 then (End(number), HEADER_SIZE)
      else if length > CHUNK_SIZE then (Stop(TooLarge), HEADER_SIZE)
      else if |bytes| - HEADER_SIZE < length then (Stop(Shortfall(|bytes| - HEADER_SIZE)), |bytes|)
      else (Data(number, bytes[HEADER_SIZE..HEADER_SIZE + length]), HEADER_SIZE + length)
  }

  function ReadAll(bytes: Bytes): seq<Arrival>
    decreases |bytes|
  {
    var r := ReadFrame(bytes);
    if r.0.Data? then [r.0] + ReadAll(bytes[r.1..]) else [r.0]
  }

  /** readStripedFrames: one lane reader's loop. */
  method ReadFrames(bytes: Bytes) returns (out: seq<Arrival>)
    ensures out == ReadAll(bytes)
  {
    out := [];
    var at := 0;
    while true
      invariant 0 <= at <= |bytes|
      invariant out + ReadAll(bytes[at..]) == ReadAll(bytes)
      decreases |bytes| - at
    {
      var r := ReadFrame(bytes[at..]);
      assert bytes[at..][r.1..] == bytes[at + r.1..];
      out := out + [r.0];
      if !r.0.Data? { return; }
      at := at + r.1;
    }
  }

  // ---------------------------------------------------------------- a lane cut anywhere

  /** End markers only at the end of a lane. */
  predicate LaneShape(frames: seq<Frame>) {
    && (forall j | 0 <= j < |frames| :: Sendable(frames[j]))
    && (forall j | 0 <= j < |frames| - 1 :: frames[j].data != [])
  }

  function Outcome(f: Frame): Arrival {
    if f.data == [] then End(f.number) else Data(f.number, f.data)
  }

  function Outcomes(frames: seq<Frame>): (r: seq<Arrival>)
    ensures |r| == |frames| && forall j | 0 <= j < |r| :: r[j] == Outcome(frames[j])
  {
    seq(|frames|, j requires 0 <= j < |frames| => Outcome(frames[j]))
  }

  /** How many whole frames lie within the first n bytes. */
  function Whole(frames: seq<Frame>, n: nat): (k: nat)
    ensures k <= |frames|
  {
    if frames == [] || n < |Encode(frames[0])| then 0 else 1 + Whole(frames[1..], n - |Encode(frames[0])|)
  }

  predicate Ends(frames: seq<Frame>) {
    frames != [] && frames[|frames| - 1].data == []
  }

  lemma HeaderRead(f: Frame, rest: Bytes)
    requires Sendable(f)
    ensures var b := Encode(f) + rest;
            && |b| >= HEADER_SIZE && Get(b[..8]) == f.number && Get(b[8..HEADER_SIZE]) == |f.data|
            && b[HEADER_SIZE..HEADER_SIZE + |f.data|] == f.data && b[HEADER_SIZE + |f.data|..] == rest
  {
    var b := Encode(f) + rest;
    assert b[..8] == Put(f.number, 8);
    assert b[8..HEADER_SIZE] == Put(|f.data|, 4);
    GetPut(f.number, 8);
    assert |f.data| < Pow256(4);
    GetPut(|f.data|, 4);
  }

  lemma ReadWhole(f: Frame, rest: Bytes)
    requires Sendable(f)
    ensures ReadFrame(Encode(f) + rest) == (Outcome(f), HEADER_SIZE + |f.data|)
  {
    HeaderRead(f, rest);
  }

  /** A frame that was cut short is never read as a frame. */
  lemma ReadPart(f: Frame, n: nat)
    requires Sendable(f) && n < |Encode(f)|
    ensures ReadFrame(Encode(f)[..n]).0.Stop? && ReadFrame(Encode(f)[..n]).0.error != TooLarge
  {
    if n >= HEADER_SIZE {
      HeaderRead(f, []);
      assert Encode(f) + [] == Encode(f);
      assert Encode(f)[..n][..8] == Encode(f)[..8] && Encode(f)[..n][8..HEADER_SIZE] == Encode(f)[8..HEADER_SIZE];
    }
  }

  lemma ReadOn(f: Frame, rest: Bytes)
    requires Sendable(f)
    ensures ReadAll(Encode(f) + rest) == if f.data == [] then [Outcome(f)] else [Outcome(f)] + ReadAll(rest)
  {
    ReadWhole(f, rest);
    assert (Encode(f) + rest)[HEADER_SIZE + |f.data|..] == rest;
    hide ReadFrame, Encode;
  }

  /** What a lane cut after n bytes is read as, frame by frame. */
  function ReadCut(frames: seq<Frame>, n: nat): seq<Arrival>
    requires n <= |EncodeAll(frames)|
  {
    if frames == [] then [Stop(CleanEof)]
    else if n < |Encode(frames[0])| then [ReadFrame(Encode(frames[0])[..n]).0]
    else if frames[0].data == [] then [Outcome(frames[0])]
    else [Outcome(frames[0])] + ReadCut(frames[1..], n - |Encode(frames[0])|)
  }

  lemma SplitAt(head: Bytes, rest: Bytes, n: nat)
    requires n <= |head| + |rest|
    ensures (head + rest)[..n] == if n < |head| then head[..n] else head + rest[..n - |head|]
  {
  }

  lemma {:induction false} CutIsRead(frames: seq<Frame>, n: nat)
    requires LaneShape(frames) && n <= |EncodeAll(frames)|
    ensures ReadAll(EncodeAll(frames)[..n]) == ReadCut(frames, n)
    decreases |frames|
  {
    hide Put, Get;
    if frames == [] {
      assert EncodeAll(frames)[..n] == [];
    } else {
      hide ReadFrame;
      var f, rest := frames[0], EncodeAll(frames[1..]);
      var size := |Encode(f)|;
      SplitAt(Encode(f), rest, n);
      if n < size {
        ReadPart(f, n);
        hide Encode;
      } else {
        ReadOn(f, rest[..n - size]);
        hide ReadAll, Encode;
        if f.data != [] { CutIsRead(frames[1..], n - size); }
      }
    }
  }

  /** What CutLane promises of the frames read from n bytes. */
  predicate CutTo(frames: seq<Frame>, n: nat, got: seq<Arrival>) {
    var k := Whole(frames, n);
    if k == |frames| && Ends(frames) then got == Outcomes(frames)
    else |got| == k + 1 && got[..k] == Outcomes(frames[..k]) && got[k].Stop? && got[k].error != TooLarge
  }

  lemma CutOn(frames: seq<Frame>, n: nat, got: seq<Arrival>)
    requires LaneShape(frames) && frames != [] && frames[0].data != [] && |Encode(frames[0])| <= n
    requires CutTo(frames[1..], n - |Encode(frames[0])|, got)
    ensures CutTo(frames, n, [Outcome(frames[0])] + got)
  {
    var k := Whole(frames[1..], n - |Encode(frames[0])|);
    hide Encode;
    assert Whole(frames, n) == k + 1;
    assert frames[1..][..k] == frames[..k + 1][1..];
    OutcomesOn(frames[..k + 1]);
    OutcomesOn(frames);
    hide Whole;
  }

  lemma {:induction false} CutFrames(frames: seq<Frame>, n: nat)
    requires LaneShape(frames) && n <= |EncodeAll(frames)|
    ensures CutTo(frames, n, ReadCut(frames, n))
    ensures Whole(frames, n) == |frames| <==> n == |EncodeAll(frames)|
    decreases |frames|
  {
    if frames != [] {
      var f := frames[0];
      var size := |Encode(f)|;
      if n < size {
        ReadPart(f, n);
        hide ReadFrame, Encode;
      } else if f.data == [] {
        hide ReadFrame, Encode;
        assert frames == [f];
      } else {
        CutFrames(frames[1..], n - size);
        CutOn(frames, n, ReadCut(frames[1..], n - size));
        hide ReadFrame, Encode, CutTo;
      }
    }
  }

  /** Reading back a lane that was cut at any byte yields exactly the frames that fit, then
      an end of file unless the end marker itself got through. */
  lemma CutLane(frames: seq<Frame>, n: nat)
    requires LaneShape(frames) && n <= |EncodeAll(frames)|
    ensures CutTo(frames, n, ReadAll(EncodeAll(frames)[..n]))
    ensures Whole(frames, n) == |frames| <==> n == |EncodeAll(frames)|
  {
    CutIsRead(frames, n);
    CutFrames(frames, n);
  }

  lemma OutcomesOn(frames: seq<Frame>)
    requires frames != []
    ensures Outcomes(frames) == [Outcome(frames[0])] + Outcomes(frames[1..])
  {
  }

  lemma ShapeOn(frames: seq<Frame>)
    requires LaneShape(frames) && !Ends(frames) && frames != []
    ensures Sendable(frames[0]) && frames[0].data != [] && LaneShape(frames[1..]) && !Ends(frames[1..])
  {
  }

  /** Concatenated frames decode back to themselves. */
  lemma {:induction false} RoundTrip(frames: seq<Frame>)
    requires LaneShape(frames) && !Ends(frames)
    ensures ReadAll(EncodeAll(frames)) == Outcomes(frames) + [Stop(CleanEof)]
    decreases |frames|
  {
    if frames != [] {
      ShapeOn(frames);
      hide LaneShape, Sendable, Ends;
      ReadOn(frames[0], EncodeAll(frames[1..]));
      hide ReadAll, ReadFrame, Encode;
      RoundTrip(frames[1..]);
      OutcomesOn(frames);
      assert [Outcome(frames[0])] + (Outcomes(frames[1..]) + [Stop(CleanEof)])
          == [Outcome(frames[0])] + Outcomes(frames[1..]) + [Stop(CleanEof)];
    }
  }
}
