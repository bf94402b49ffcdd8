/** The ordered writer of a striped transfer and what it promises the client. */
module StripeReceiver {
  import opened Prelude
  import opened StripeCodec
  import opened Stripe

  datatype TransferError = Truncated | LaneFailed(error: ReadError) | WindowExceeded | WriteFailed

  /** The first write the client refuses, and how many of its bytes it still took. */
  datatype Refusal = Refusal(at: nat, taken: nat)

  /** The loop's variables: next, live lanes, buffered chunks and their size, end marker. */
  datatype Rx = Rx(next: nat, active: int, pending: map<nat, Bytes>, held: int, end: Option<nat>, written: Bytes,
                   writes: nat)

  /** Go on, or return with an error or none. */
  datatype Turn = On(rx: Rx) | Done(written: Bytes, error: Option<TransferError>)

  const START := Rx(0, 0, map[], 0, None, [], 0)

  function Successor(n: nat): nat {
    if n + 1 == Pow256(8) then 0 else n + 1
  }

  function Taken(data: Bytes, r: Refusal): Bytes {
    data[..if r.taken < |data| then r.taken else |data|]
  }

  function Drain(rx: Rx, refusal: Option<Refusal>): Turn
    decreases |rx.pending|
  {
    if rx.end == Some(rx.next) then Done(rx.written, None)
    else if rx.next !in rx.pending then On(rx)
    else
      var data := rx.pending[rx.next];
      if refusal.Some? && refusal.value.at == rx.writes
      then Done(rx.written + Taken(data, refusal.value), Some(WriteFailed))
      else
        var rest := rx.pending - {rx.next};
        Drained(rx.pending, rx.next);
        Drain(rx.(written := rx.written + data, pending := rest, held := rx.held - |data|,
                  next := Successor(rx.next), writes := rx.writes + 1), refusal)
  }

  lemma Drained<T>(m: map<nat, T>, k: nat)
    requires k in m
    ensures |m - {k}| < |m|
  {
    assert (m - {k}).Keys == m.Keys - {k};
    assert |m.Keys - {k}| < |m.Keys|;
    assert |m - {k}| == |(m - {k}).Keys| && |m| == |m.Keys|;
  }

  function Buffer(rx: Rx, number: nat, data: Bytes): Rx {
    rx.(pending := rx.pending[number := data], held := rx.held + |data|)
  }

  /** One turn of the loop on one arrival. */
  function Take(rx: Rx, a: Arrival, refusal: Option<Refusal>): Turn {
    match a
    case Stop(e) => if e == CleanEof then On(rx.(active := rx.active - 1)) else Done(rx.written, Some(LaneFailed(e)))
    case End(n) => Drain(rx.(end := Some(n)), refusal)
    case Data(n, data) =>
      var next := Buffer(rx, n, data);
      if next.held > WINDOW then Done(rx.written, Some(WindowExceeded)) else Drain(next, refusal)
  }

  function Finish(rx: Rx): (Bytes, Option<TransferError>) {
    (rx.written, if rx.end == Some(rx.next) then None else Some(Truncated))
  }

  /** The channel delivers `frames` and is then closed. */
  function Receive(rx: Rx, frames: seq<Arrival>, refusal: Option<Refusal>): (Bytes, Option<TransferError>)
    decreases |frames|
  {
    if rx.active <= 0 || frames == [] then Finish(rx)
    else match Take(rx, frames[0], refusal)
      case Done(w, e) => (w, e)
      case On(next) => Receive(next, frames[1..], refusal)
  }

  /** writeOrderedStripedFrames. */
  method WriteOrdered(frames: seq<Arrival>, lanes: nat, refusal: Option<Refusal>)
    returns (written: Bytes, error: Option<TransferError>)
    ensures (written, error) == Receive(START.(active := lanes), frames, refusal)
  {
    var rx := START.(active := lanes);
    var at := 0;
    while rx.active > 0
      invariant 0 <= at <= |frames|
      invariant Receive(rx, frames[at..], refusal) == Receive(START.(active := lanes), frames, refusal)
      decreases |frames| - at, rx.active
    {
      if at == |frames| {
        return rx.written, if rx.end == Some(rx.next) then None else Some(Truncated);
      }
      var a := frames[at];
      assert frames[at..][0] == a && frames[at..][1..] == frames[at + 1..];
      at := at + 1;
      if a.Stop? {
        if a.error != CleanEof { return rx.written, Some(LaneFailed(a.error)); }
        rx := rx.(active := rx.active - 1);
        continue;
      }
      if a.End? {
        rx := rx.(end := Some(a.number));
      } else {
        ghost var was := rx;
        rx := rx.(pending := rx.pending[a.number := a.data], held := rx.held + |a.data|);
        assert rx == Buffer(was, a.number, a.data);
        if rx.held > WINDOW { return rx.written, Some(WindowExceeded); }
      }
      ghost var turn := Drain(rx, refusal);
      while true
        invariant Drain(rx, refusal) == turn
        decreases |rx.pending|
      {
        if rx.end == Some(rx.next) { return rx.written, None; }
        if rx.next !in rx.pending { break; }
        var data := rx.pending[rx.next];
        if refusal.Some? && refusal.value.at == rx.writes {
          return rx.written + data[..if refusal.value.taken < |data| then refusal.value.taken else |data|],
            Some(WriteFailed);
        }
        Drained(rx.pending, rx.next);
        rx := rx.(written := rx.written + data, pending := rx.pending - {rx.next}, held := rx.held - |data|,
                  next := Successor(rx.next), writes := rx.writes + 1);
      }
    }
    return rx.written, if rx.end == Some(rx.next) then None else Some(Truncated);
  }

  // ---------------------------------------------------------------- what the variables mean

  /** The bytes of the chunks from `lo` on that have arrived. */
  function Backlog(chunks: seq<Bytes>, got: set<nat>, lo: nat): nat
    decreases |chunks| - lo
  {
    if lo >= |chunks| then 0 else (if lo in got then |chunks[lo]| else 0) + Backlog(chunks, got, lo + 1)
  }

  lemma {:induction false} BacklogAdds(chunks: seq<Bytes>, got: set<nat>, lo: nat, n: nat)
    requires n < |chunks| && n !in got
    ensures Backlog(chunks, got + {n}, lo) == Backlog(chunks, got, lo) + if n >= lo then |chunks[n]| else 0
    decreases |chunks| - lo
  {
    if lo < |chunks| { BacklogAdds(chunks, got, lo + 1, n); }
  }

  predicate Holds(chunks: seq<Bytes>, got: set<nat>, rx: Rx, n: nat) {
    && (n in rx.pending <==> n in got && n >= rx.next)
    && (n in rx.pending ==> n < |chunks| && rx.pending[n] == chunks[n])
    && (n < rx.next ==> n in got)
  }

  /** `got` is the set of chunks that have arrived. */
  ghost predicate Tracks(chunks: seq<Bytes>, got: set<nat>, rx: Rx) {
    && rx.next <= |chunks|
    && rx.written == Concat(chunks[..rx.next])
    && (forall n: nat :: Holds(chunks, got, rx, n))
    && (forall n | n in got :: n < |chunks|)
    && rx.held == Backlog(chunks, got, rx.next)
    && (rx.end.Some? ==> rx.end.value == |chunks|)
  }

  /** The first chunk from `lo` on that is missing. */
  function Missing(chunks: seq<Bytes>, got: set<nat>, lo: nat): (r: nat)
    requires lo <= |chunks|
    ensures lo <= r <= |chunks|
    decreases |chunks| - lo
  {
    if lo < |chunks| && lo in got then Missing(chunks, got, lo + 1) else lo
  }

  ghost predicate Prefixed(chunks: seq<Bytes>, t: (Bytes, Option<TransferError>)) {
    t.0 <= Concat(chunks) && (t.1.None? ==> t.0 == Concat(chunks))
  }

  /** A drain writes exactly the run of chunks that is there, keeping the count of buffered
      bytes; it returns without error only at the end of the stream. */
  lemma {:induction false} DrainTracks(chunks: seq<Bytes>, got: set<nat>, rx: Rx, refusal: Option<Refusal>)
    requires Tracks(chunks, got, rx) && |chunks| < Pow256(8)
    ensures match Drain(rx, refusal)
            case On(t) => Tracks(chunks, got, t) && t.next == Missing(chunks, got, rx.next) && t.end == rx.end
                          && t.active == rx.active && t.end != Some(t.next)
            case Done(w, e) => Prefixed(chunks, (w, e))
                               && (refusal.None? ==> e.None? && rx.end.Some?
                                                     && Missing(chunks, got, rx.next) == |chunks|)
    decreases |rx.pending|
  {
    assert chunks[..|chunks|] == chunks;
    assert Holds(chunks, got, rx, rx.next);
    if rx.end != Some(rx.next) && rx.next in rx.pending {
      var data := rx.pending[rx.next];
      ConcatPrefix(chunks, rx.next);
      if refusal.Some? && refusal.value.at == rx.writes {
        var m := |Taken(data, refusal.value)|;
        assert Taken(data, refusal.value) == chunks[rx.next][..m];
        assert rx.written + Taken(data, refusal.value) == Concat(chunks[..rx.next]) + chunks[rx.next][..m];
      } else {
        var t := rx.(written := rx.written + data, pending := rx.pending - {rx.next}, held := rx.held - |data|,
                     next := rx.next + 1, writes := rx.writes + 1);
        Drained(rx.pending, rx.next);
        assert chunks[..rx.next + 1][..rx.next] == chunks[..rx.next];
        forall n: nat ensures Holds(chunks, got, t, n) { assert Holds(chunks, got, rx, n); }
        DrainTracks(chunks, got, t, refusal);
      }
    }
  }

  // ---------------------------------------------------------------- whole transfers

  function Arrived(frames: seq<Arrival>): set<nat> {
    if frames == [] then {} else (if frames[0].Data? then {frames[0].number} else {}) + Arrived(frames[1..])
  }

  function HasEnd(frames: seq<Arrival>): bool {
    frames != [] && (frames[0].End? || HasEnd(frames[1..]))
  }

  /** How many lanes ended, if all of them ended cleanly. */
  predicate Stops(frames: seq<Arrival>, fewerThan: int) {
    if frames == [] then fewerThan > 0
    else if frames[0].Stop? then frames[0].error == CleanEof && Stops(frames[1..], fewerThan - 1)
    else Stops(frames[1..], fewerThan)
  }

  /** At every arrival the chunks buffered behind the first missing one fit the window. */
  predicate Fits(chunks: seq<Bytes>, got: set<nat>, next: nat, frames: seq<Arrival>)
    requires next <= |chunks|
    decreases |frames|
  {
    if frames == [] then true
    else if !frames[0].Data? then Fits(chunks, got, next, frames[1..])
    else
      var more := got + {frames[0].number};
      Backlog(chunks, more, next) <= WINDOW && Fits(chunks, more, Missing(chunks, more, next), frames[1..])
  }

  ghost predicate Expected(chunks: seq<Bytes>, got: set<nat>, frames: seq<Arrival>) {
    Faithful(chunks, frames) && forall j | 0 <= j < |frames| && frames[j].Data? :: frames[j].number !in got
  }

  lemma BufferTracks(chunks: seq<Bytes>, got: set<nat>, rx: Rx, n: nat)
    requires Tracks(chunks, got, rx) && n < |chunks| && n !in got
    ensures Tracks(chunks, got + {n}, Buffer(rx, n, chunks[n]))
  {
    BacklogAdds(chunks, got, rx.next, n);
    assert Holds(chunks, got, rx, n);
    var t := Buffer(rx, n, chunks[n]);
    forall m: nat ensures Holds(chunks, got + {n}, t, m) { assert Holds(chunks, got, rx, m); }
  }

  /** One arrival: the state still tracks what has arrived, or the transfer is over with a
      prefix of the stream, the whole of it if there is no error. */
  lemma TakeTracks(chunks: seq<Bytes>, got: set<nat>, rx: Rx, frames: seq<Arrival>, refusal: Option<Refusal>)
    requires Tracks(chunks, got, rx) && frames != [] && Expected(chunks, got, frames) && |chunks| < Pow256(8)
    ensures var a := frames[0];
            var more := if a.Data? then got + {a.number} else got;
            && Expected(chunks, more, frames[1..])
            && match Take(rx, a, refusal)
               case On(t) => Tracks(chunks, more, t)
               case Done(w, e) => Prefixed(chunks, (w, e))
  {
    var a := frames[0];
    ConcatPrefix(chunks, rx.next);
    if a.Data? {
      assert a == Data(a.number, chunks[a.number]);
      BufferTracks(chunks, got, rx, a.number);
      DrainTracks(chunks, got + {a.number}, Buffer(rx, a.number, a.data), refusal);
    } else if a.End? {
      var t := rx.(end := Some(a.number));
      assert Tracks(chunks, got, t) by {
        forall n: nat ensures Holds(chunks, got, t, n) { assert Holds(chunks, got, rx, n); }
      }
      DrainTracks(chunks, got, t, refusal);
    } else {
      var t := rx.(active := rx.active - 1);
      forall n: nat ensures Holds(chunks, got, t, n) { assert Holds(chunks, got, rx, n); }
    }
  }

  /** Whatever order the frames come in, and wherever the lanes or the client fail, the
      client receives a prefix of the stream, and all of it when no error is reported. */
  lemma {:induction false} ReceivesPrefix(chunks: seq<Bytes>, got: set<nat>, rx: Rx, frames: seq<Arrival>,
                                          refusal: Option<Refusal>)
    requires Tracks(chunks, got, rx) && Expected(chunks, got, frames) && |chunks| < Pow256(8)
    ensures Prefixed(chunks, Receive(rx, frames, refusal))
    decreases |frames|
  {
    assert chunks[..|chunks|] == chunks;
    ConcatPrefix(chunks, rx.next);
    if rx.active > 0 && frames != [] {
      TakeTracks(chunks, got, rx, frames, refusal);
      var turn := Take(rx, frames[0], refusal);
      hide Take, Tracks, Expected;
      if turn.On? {
        var more := if frames[0].Data? then got + {frames[0].number} else got;
        ReceivesPrefix(chunks, more, turn.rx, frames[1..], refusal);
      }
    }
  }

  // ---------------------------------------------------------------- exactly when it succeeds

  predicate All(chunks: seq<Bytes>, got: set<nat>) {
    forall n: nat | n < |chunks| :: n in got
  }

  predicate Complete(chunks: seq<Bytes>, got: set<nat>, ended: bool, frames: seq<Arrival>) {
    && All(chunks, got + Arrived(frames))
    && (ended || HasEnd(frames))
  }

  /** Between two arrivals the loop waits for a chunk that has not come. */
  ghost predicate Waiting(chunks: seq<Bytes>, got: set<nat>, rx: Rx) {
    Tracks(chunks, got, rx) && rx.next == Missing(chunks, got, rx.next) && rx.end != Some(rx.next)
  }

  lemma {:induction false} NoneLeft(chunks: seq<Bytes>, got: set<nat>, next: nat, frames: seq<Arrival>)
    requires Expected(chunks, got, frames) && next <= |chunks| && All(chunks, got)
    ensures Fits(chunks, got, next, frames)
    decreases |frames|
  {
    if frames != [] { NoneLeft(chunks, got, next, frames[1..]); }
  }

  lemma {:induction false} MissingIs(chunks: seq<Bytes>, got: set<nat>, lo: nat)
    requires lo <= |chunks|
    ensures var m := Missing(chunks, got, lo);
            && (m < |chunks| ==> m !in got) && (forall n | lo <= n < m :: n in got) && Missing(chunks, got, m) == m
    decreases |chunks| - lo
  {
    if lo < |chunks| && lo in got { MissingIs(chunks, got, lo + 1); }
  }

  lemma AllThere(chunks: seq<Bytes>, got: set<nat>, rx: Rx)
    requires Tracks(chunks, got, rx) && Missing(chunks, got, rx.next) == |chunks|
    ensures All(chunks, got)
  {
    MissingIs(chunks, got, rx.next);
    forall n: nat | n < |chunks| ensures n in got { assert Holds(chunks, got, rx, n); }
  }

  lemma TakeEnd(chunks: seq<Bytes>, got: set<nat>, rx: Rx)
    requires Waiting(chunks, got, rx) && |chunks| < Pow256(8)
    ensures var turn := Take(rx, End(|chunks|), None);
            if turn.On? then Waiting(chunks, got, turn.rx) && turn.rx.end.Some? && turn.rx.active == rx.active
                             && turn.rx.next == rx.next
            else turn.error.None? && All(chunks, got)
  {
    var t := rx.(end := Some(|chunks|));
    assert Tracks(chunks, got, t) by {
      forall n: nat ensures Holds(chunks, got, t, n) { assert Holds(chunks, got, rx, n); }
    }
    DrainTracks(chunks, got, t, None);
    if Missing(chunks, got, t.next) == |chunks| { AllThere(chunks, got, t); }
  }

  lemma TakeData(chunks: seq<Bytes>, got: set<nat>, rx: Rx, n: nat)
    requires Waiting(chunks, got, rx) && |chunks| < Pow256(8) && n < |chunks| && n !in got
    ensures var more := got + {n};
            var turn := Take(rx, Data(n, chunks[n]), None);
            if Backlog(chunks, more, rx.next) > WINDOW then turn.Done? && turn.error == Some(WindowExceeded)
            else if turn.On? then Waiting(chunks, more, turn.rx) && turn.rx.next == Missing(chunks, more, rx.next)
                                  && turn.rx.end == rx.end && turn.rx.active == rx.active
            else turn.error.None? && rx.end.Some? && All(chunks, more)
  {
    var more, t := got + {n}, Buffer(rx, n, chunks[n]);
    BufferTracks(chunks, got, rx, n);
    DrainTracks(chunks, more, t, None);
    MissingIs(chunks, more, t.next);
    if Missing(chunks, more, t.next) == |chunks| { AllThere(chunks, more, t); }
  }

  /** With a client that takes every write and lanes that end cleanly, the transfer succeeds
      exactly when every chunk and the end marker arrive and the window is never exceeded;
      with everything there, the window is the only error. */
  lemma {:induction false} SucceedsExactly(chunks: seq<Bytes>, got: set<nat>, rx: Rx, frames: seq<Arrival>)
    requires Waiting(chunks, got, rx) && Expected(chunks, got, frames) && |chunks| < Pow256(8)
             && Stops(frames, rx.active)
    ensures Receive(rx, frames, None).1.None?
       <==> Complete(chunks, got, rx.end.Some?, frames) && Fits(chunks, got, rx.next, frames)
    ensures !Fits(chunks, got, rx.next, frames) && Complete(chunks, got, rx.end.Some?, frames) ==>
              Receive(rx, frames, None).1 == Some(WindowExceeded)
    decreases |frames|
  {
    StopsLive(frames, rx.active);
    if frames == [] {
      MissingIs(chunks, got, rx.next);
    } else {
      var a, rest := frames[0], frames[1..];
      var more := if a.Data? then got + {a.number} else got;
      var turn := Take(rx, a, None);
      assert Expected(chunks, more, rest);
      CompleteStep(chunks, got, rx.end.Some?, frames);
      if a.Data? {
        assert a == Data(a.number, chunks[a.number]);
        TakeData(chunks, got, rx, a.number);
      } else if a.End? {
        TakeEnd(chunks, got, rx);
      } else {
        StopTracks(chunks, got, rx);
      }
      hide Take, Waiting, Complete;
      if turn.On? {
        SucceedsExactly(chunks, more, turn.rx, rest);
      } else if turn.error.None? {
        hide Expected, Faithful;
        CompleteAll(chunks, more, rest);
        NoneLeft(chunks, more, Missing(chunks, more, rx.next), rest);
      }
    }
  }

  lemma {:induction false} StopsLive(frames: seq<Arrival>, n: int)
    requires Stops(frames, n)
    ensures n > 0
    decreases |frames|
  {
    if frames != [] { StopsLive(frames[1..], if frames[0].Stop? then n - 1 else n); }
  }

  lemma StopTracks(chunks: seq<Bytes>, got: set<nat>, rx: Rx)
    requires Waiting(chunks, got, rx)
    ensures Waiting(chunks, got, rx.(active := rx.active - 1))
  {
    var t := rx.(active := rx.active - 1);
    forall n: nat ensures Holds(chunks, got, t, n) { assert Holds(chunks, got, rx, n); }
  }

  lemma CompleteStep(chunks: seq<Bytes>, got: set<nat>, ended: bool, frames: seq<Arrival>)
    requires frames != []
    ensures var more := if frames[0].Data? then got + {frames[0].number} else got;
            Complete(chunks, got, ended, frames) <==>
              Complete(chunks, more, ended || frames[0].End?, frames[1..])
  {
    var more := if frames[0].Data? then got + {frames[0].number} else got;
    assert got + Arrived(frames) == more + Arrived(frames[1..]);
  }

  lemma CompleteAll(chunks: seq<Bytes>, got: set<nat>, frames: seq<Arrival>)
    requires All(chunks, got)
    ensures Complete(chunks, got, true, frames)
  {
  }

  /** A stream no longer than the window always fits it. */
  lemma {:induction false} ShortFits(chunks: seq<Bytes>, got: set<nat>, next: nat, frames: seq<Arrival>)
    requires next <= |chunks| && |Concat(chunks)| <= WINDOW
    ensures Fits(chunks, got, next, frames)
    decreases |frames|
  {
    if frames != [] {
      if frames[0].Data? {
        var more := got + {frames[0].number};
        BacklogBound(chunks, more, next);
        ConcatPrefix(chunks, next);
        assert chunks[..|chunks|] == chunks;
        ShortFits(chunks, more, Missing(chunks, more, next), frames[1..]);
      } else {
        ShortFits(chunks, got, next, frames[1..]);
      }
    }
  }

  lemma {:induction false} BacklogBound(chunks: seq<Bytes>, got: set<nat>, lo: nat)
    requires lo <= |chunks|
    ensures Backlog(chunks, got, lo) + |Concat(chunks[..lo])| <= |Concat(chunks)|
    decreases |chunks| - lo
  {
    if lo == |chunks| {
      assert chunks[..lo] == chunks;
    } else {
      BacklogBound(chunks, got, lo + 1);
      assert chunks[..lo + 1][..lo] == chunks[..lo];
    }
  }

  // ---------------------------------------------------------------- a failed lane

  function LanesEnded(frames: seq<Arrival>): nat {
    if frames == [] then 0 else (if frames[0].Stop? then 1 else 0) + LanesEnded(frames[1..])
  }

  lemma DrainKeepsLanes(rx: Rx, refusal: Option<Refusal>)
    ensures Drain(rx, refusal).On? ==> Drain(rx, refusal).rx.active == rx.active
    decreases |rx.pending|
  {
    if rx.end != Some(rx.next) && rx.next in rx.pending {
      Drained(rx.pending, rx.next);
      var data := rx.pending[rx.next];
      DrainKeepsLanes(rx.(written := rx.written + data, pending := rx.pending - {rx.next}, held := rx.held - |data|,
                          next := Successor(rx.next), writes := rx.writes + 1), refusal);
    }
  }

  lemma DrainNotTruncated(rx: Rx, refusal: Option<Refusal>)
    ensures Drain(rx, refusal).Done? ==> Drain(rx, refusal).error != Some(Truncated)
    decreases |rx.pending|
  {
    if rx.end != Some(rx.next) && rx.next in rx.pending {
      Drained(rx.pending, rx.next);
      var data := rx.pending[rx.next];
      DrainNotTruncated(rx.(written := rx.written + data, pending := rx.pending - {rx.next}, held := rx.held - |data|,
                            next := Successor(rx.next), writes := rx.writes + 1), refusal);
    }
  }

  /** A transfer that still lacks data when a lane fails, with lanes left, ends with that lane's
      error and whatever the client has, however much may still come on the others. */
  lemma {:induction false} FailedLaneIsReported(rx: Rx, before: seq<Arrival>, e: ReadError, after: seq<Arrival>,
                                                refusal: Option<Refusal>)
    requires e != CleanEof && LanesEnded(before) < rx.active
    requires Receive(rx, before, refusal).1 == Some(Truncated)
    ensures Receive(rx, before + [Stop(e)] + after, refusal) == (Receive(rx, before, refusal).0, Some(LaneFailed(e)))
    decreases |before|
  {
    var all := before + [Stop(e)] + after;
    if before == [] {
      assert all[0] == Stop(e);
    } else {
      assert all[0] == before[0] && all[1..] == before[1..] + [Stop(e)] + after;
      var turn := Take(rx, before[0], refusal);
      match before[0] {
        case Stop(_) =>
        case End(n) => DrainKeepsLanes(rx.(end := Some(n)), refusal); DrainNotTruncated(rx.(end := Some(n)), refusal);
        case Data(n, data) =>
          DrainKeepsLanes(Buffer(rx, n, data), refusal);
          DrainNotTruncated(Buffer(rx, n, data), refusal);
      }
      hide Drain;
      FailedLaneIsReported(turn.rx, before[1..], e, after, refusal);
    }
  }
}
