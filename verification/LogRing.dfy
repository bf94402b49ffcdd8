/** The four-slot ring of the engine event log (shared/proxy/engine_log.go) over appends,
    rotations, failures at any byte, and reopening. */
module LogRing {
  import opened Prelude
  import opened LogSlots

  const MARKER_BYTES: nat := 256
  const NAMESPACE_BYTES: nat := 1024 * 1024

  datatype Slot = Slot(cycle: nat, records: seq<Record>)

  /** What the writer keeps of the files: their complete records, where it writes, and the
      last sequence number. */
  datatype Log = Log(slots: seq<Slot>, current: nat, sequence: nat)

  predicate Shaped(log: Log) { |log.slots| == SLOTS && log.current < SLOTS }

  function NextSlot(i: nat): nat { if i + 1 == SLOTS then 0 else i + 1 }

  /** The retained records, oldest slot first. */
  function Ring(log: Log): seq<Record>
    requires Shaped(log)
  {
    var a := NextSlot(log.current);
    var b := NextSlot(a);
    var c := NextSlot(b);
    log.slots[a].records + log.slots[b].records + log.slots[c].records + log.slots[log.current].records
  }

  function RenderSlot(c: Codec, i: nat, s: Slot): Bytes { Render(c, i, s.cycle, s.records) }

  function RenderAll(c: Codec, log: Log): seq<Bytes>
    requires Shaped(log)
  {
    seq(SLOTS, i requires 0 <= i < SLOTS => RenderSlot(c, i, log.slots[i]))
  }

  // ---------------------------------------------------------------- Append

  function Candidate(log: Log, payload: string): Record { Record(log.sequence + 1, payload) }

  predicate Fits(c: Codec, log: Log, payload: string)
    requires Shaped(log)
  {
    |RenderSlot(c, log.current, log.slots[log.current])| + |Line(c, Candidate(log, payload))| <= SLOT_LIMIT
  }

  predicate Appendable(c: Codec, log: Log, payload: string)
    requires Shaped(log)
  {
    var s := log.slots[log.current];
    && c.valid(payload) && log.sequence < MAX_SEQUENCE
    && |Line(c, Candidate(log, payload))| <= RECORD_BYTES
    && |HeaderLine(c, Header(log.current, s.cycle))| + |Line(c, Candidate(log, payload))| <= SLOT_LIMIT
    && (Fits(c, log, payload) || s.cycle + 1 <= MAX_SEQUENCE)
  }

  /** The oldest slot is emptied and given the next cycle's header. */
  function Rotated(log: Log): Log
    requires Shaped(log)
  {
    log.(slots := log.slots[NextSlot(log.current) := Slot(log.slots[log.current].cycle + 1, [])])
  }

  function Written(log: Log, i: nat, r: Record): Log
    requires Shaped(log) && i < SLOTS
  {
    Log(log.slots[i := log.slots[i].(records := log.slots[i].records + [r])], i, r.sequence)
  }

  function Appended(c: Codec, log: Log, payload: string): Log
    requires Shaped(log)
  {
    if Fits(c, log, payload) then Written(log, log.current, Candidate(log, payload))
    else Written(Rotated(log), NextSlot(log.current), Candidate(log, payload))
  }

  // ---------------------------------------------------------------- open

  /** Which slot is current and what the last sequence is, from the first n slots. */
  function Pick(slots: seq<Slot>, n: nat): (r: (nat, nat))
    requires n <= |slots|
    ensures r.0 < n || r.0 == 0
  {
    if n == 0 then (0, 0)
    else
      var (cur, top) := Pick(slots, n - 1);
      var s := slots[n - 1];
      if Last(s.records) > top then (n - 1, Last(s.records))
      else if top == 0 && s.cycle > slots[cur].cycle then (n - 1, top)
      else (cur, top)
  }

  predicate Readable(c: Codec, disk: seq<Bytes>) {
    |disk| == SLOTS && forall i | 0 <= i < SLOTS :: ReadSlot(c, i, disk[i]).Some?
  }

  function SlotsRead(c: Codec, disk: seq<Bytes>): (r: seq<Slot>)
    requires Readable(c, disk)
    ensures |r| == SLOTS
  {
    seq(SLOTS, i requires 0 <= i < SLOTS =>
      var k := ReadSlot(c, i, disk[i]).value; Slot(k.cycle, k.records))
  }

  /** The files without their torn tails. */
  function Trimmed(c: Codec, disk: seq<Bytes>): (r: seq<Bytes>)
    requires Readable(c, disk)
    ensures |r| == SLOTS
  {
    seq(SLOTS, i requires 0 <= i < SLOTS => disk[i][..|disk[i]| - ReadSlot(c, i, disk[i]).value.torn])
  }

  /** openEngineLog on an existing namespace: all slots are read before any is repaired. */
  function Open(c: Codec, disk: seq<Bytes>): Option<Log> {
    if !Readable(c, disk) then None
    else
      var slots := SlotsRead(c, disk);
      var (cur, top) := Pick(slots, SLOTS);
      Some(Log(slots, cur, top))
  }

  // ---------------------------------------------------------------- runs

  /** Where a failed or killed append stopped. */
  datatype Cut = Truncated | HeaderPart(n: nat) | HeaderWhole | RecordPart(n: nat)

  /** `log` is what the complete lines on the disk say; `history` every record that ever
      became complete. A writer that failed is no longer live: failure is sticky. */
  datatype World = World(live: bool, disk: seq<Bytes>, log: Log, history: seq<Record>)

  datatype Step = Write(payload: string) | Break(payload: string, cut: Cut) | Kill | Reopen

  function Start(c: Codec): World {
    var log := Log(seq(SLOTS, _ => Slot(1, [])), 0, 0);
    World(true, RenderAll(c, log), log, [])
  }

  /** The slot the next record goes to, and what is in its file just before. */
  function Target(c: Codec, log: Log, payload: string): (r: nat)
    requires Shaped(log)
    ensures r < SLOTS
  {
    if Fits(c, log, payload) then log.current else NextSlot(log.current)
  }

  function Base(c: Codec, w: World, payload: string): Bytes
    requires Shaped(w.log) && |w.disk| == SLOTS
  {
    if Fits(c, w.log, payload) then w.disk[w.log.current]
    else HeaderLine(c, Header(NextSlot(w.log.current), w.log.slots[w.log.current].cycle + 1))
  }

  /** The log while the record is being written. */
  function Prepared(c: Codec, log: Log, payload: string): Log
    requires Shaped(log)
  {
    if Fits(c, log, payload) then log else Rotated(log)
  }

  /** The first n bytes of the record's line reach the file. */
  function Landed(c: Codec, w: World, payload: string, n: nat): World
    requires Shaped(w.log) && |w.disk| == SLOTS
  {
    var r := Candidate(w.log, payload);
    var line := Line(c, r);
    var i := Target(c, w.log, payload);
    if n >= |line|
    then w.(disk := w.disk[i := Base(c, w, payload) + line], log := Appended(c, w.log, payload),
            history := w.history + [r])
    else w.(disk := w.disk[i := Base(c, w, payload) + line[..n]], log := Prepared(c, w.log, payload))
  }

  function Interrupted(c: Codec, w: World, payload: string, cut: Cut): World
    requires Shaped(w.log) && |w.disk| == SLOTS
  {
    var next := NextSlot(w.log.current);
    if cut.RecordPart? then Landed(c, w, payload, cut.n)
    else if Fits(c, w.log, payload) then w
    else match cut
      case Truncated => w.(disk := w.disk[next := []])
      case HeaderPart(n) =>
        var header := Base(c, w, payload);
        if n < |header| then w.(disk := w.disk[next := header[..n]]) else w
      case _ => w.(disk := w.disk[next := Base(c, w, payload)], log := Rotated(w.log))
  }

  function Next(c: Codec, w: World, e: Step): (r: World)
    requires Shaped(w.log) && |w.disk| == SLOTS
    ensures Shaped(r.log) && |r.disk| == SLOTS
  {
    match e
    case Write(payload) =>
      if !w.live then w
      else if !Appendable(c, w.log, payload) then w.(live := false)
      else Landed(c, w, payload, |Line(c, Candidate(w.log, payload))|)
    case Break(payload, cut) =>
      if !w.live then w
      else if !Appendable(c, w.log, payload) then w.(live := false)
      else Interrupted(c, w, payload, cut).(live := false)
    case Kill => w.(live := false)
    case Reopen =>
      if w.live || !Readable(c, w.disk) then w
      else w.(live := true, log := Open(c, w.disk).value, disk := Trimmed(c, w.disk))
  }

  function Run(c: Codec, steps: seq<Step>): (w: World)
    ensures Shaped(w.log) && |w.disk| == SLOTS
  {
    if steps == [] then Start(c) else Next(c, Run(c, steps[..|steps| - 1]), steps[|steps| - 1])
  }

  // ---------------------------------------------------------------- the ring's invariant

  /** The n-th record ever completed has sequence n. */
  ghost predicate Numbered(c: Codec, history: seq<Record>) {
    forall i | 0 <= i < |history| ::
      history[i].sequence == i + 1 && RecordOk(c, history[i]) && |Line(c, history[i])| <= RECORD_BYTES
  }

  predicate Suffix(s: seq<Record>, history: seq<Record>) {
    |s| <= |history| && s == history[|history| - |s|..]
  }

  predicate SlotOk(c: Codec, i: nat, s: Slot) {
    0 < s.cycle <= MAX_SEQUENCE && |RenderSlot(c, i, s)| <= SLOT_LIMIT
  }

  ghost predicate LogOk(c: Codec, log: Log, history: seq<Record>) {
    && Shaped(log) && Numbered(c, history) && Suffix(Ring(log), history) && log.sequence == |history|
    && (history != [] ==> log.slots[log.current].records != [])
    && (forall i: nat | i < SLOTS :: SlotOk(c, i, log.slots[i]))
  }

  lemma Cycle(i: nat)
    requires i < SLOTS
    ensures var a := NextSlot(i);
            var b := NextSlot(a);
            var c := NextSlot(b);
            && NextSlot(c) == i && a < SLOTS && b < SLOTS && c < SLOTS && a != b && a != c && a != i && b != c
            && b != i && c != i
  {
  }

  lemma Joins(x: seq<Record>, y: seq<Record>, z: seq<Record>, u: seq<Record>, r: Record)
    ensures x + y + z + (u + [r]) == x + y + z + u + [r]
    ensures y + z + u + ([] + [r]) == (x + y + z + u)[|x|..] + [r]
    ensures [] + y + z + u == (x + y + z + u)[|x|..]
  {
    assert (x + y + z + u)[|x|..] == y + z + u;
  }

  lemma Rings(log: Log, r: Record)
    requires Shaped(log)
    ensures Ring(Written(log, log.current, r)) == Ring(log) + [r]
    ensures Ring(Written(Rotated(log), NextSlot(log.current), r))
         == Ring(log)[|log.slots[NextSlot(log.current)].records|..] + [r]
    ensures Ring(Rotated(log)) == Ring(log)[|log.slots[NextSlot(log.current)].records|..]
  {
    Cycle(log.current);
    hide NextSlot;
    var a := NextSlot(log.current);
    var b := NextSlot(a);
    var c := NextSlot(b);
    Joins(log.slots[a].records, log.slots[b].records, log.slots[c].records, log.slots[log.current].records, r);
  }

  lemma SuffixDrops(s: seq<Record>, history: seq<Record>, n: nat, r: Record)
    requires Suffix(s, history) && n <= |s|
    ensures Suffix(s[n..], history) && Suffix(s[n..] + [r], history + [r])
  {
  }

  lemma HeaderFits(c: Codec, i: nat, cycle: nat)
    requires Lawful(c) && i < SLOTS && 0 < cycle <= MAX_SEQUENCE
    ensures |HeaderLine(c, Header(i, cycle))| <= HEADER_BYTES + 1
            && RenderSlot(c, i, Slot(cycle, [])) == HeaderLine(c, Header(i, cycle))
  {
    assert ReadsHeader(c, Header(i, cycle));
  }

  lemma RecordAdds(c: Codec, i: nat, s: Slot, r: Record)
    ensures RenderSlot(c, i, s.(records := s.records + [r])) == RenderSlot(c, i, s) + Line(c, r)
  {
    LinesAppend(c, s.records, r);
    hide Lines, Line;
  }

  lemma RotatedOk(c: Codec, log: Log, history: seq<Record>, payload: string)
    requires Lawful(c) && LogOk(c, log, history) && Appendable(c, log, payload) && !Fits(c, log, payload)
    ensures LogOk(c, Rotated(log), history)
  {
    var t, next := Rotated(log), NextSlot(log.current);
    Rings(log, Candidate(log, payload));
    SuffixDrops(Ring(log), history, |log.slots[next].records|, Candidate(log, payload));
    HeaderFits(c, next, log.slots[log.current].cycle + 1);
    hide Lawful, RenderSlot, Ring, Numbered, Suffix;
    forall i: nat | i < SLOTS ensures SlotOk(c, i, t.slots[i]) { assert SlotOk(c, i, log.slots[i]); }
  }

  lemma WrittenOk(c: Codec, log: Log, history: seq<Record>, i: nat, r: Record)
    requires Shaped(log) && i < SLOTS && Numbered(c, history) && Suffix(Ring(Written(log, i, r)), history + [r])
    requires r.sequence == |history| + 1 && RecordOk(c, r) && |Line(c, r)| <= RECORD_BYTES
    requires forall j: nat | j < SLOTS :: SlotOk(c, j, log.slots[j])
    requires |RenderSlot(c, i, log.slots[i])| + |Line(c, r)| <= SLOT_LIMIT
    ensures LogOk(c, Written(log, i, r), history + [r])
  {
    var t := Written(log, i, r);
    RecordAdds(c, i, log.slots[i], r);
    hide RenderSlot, Ring, Suffix;
    forall j: nat | j < SLOTS ensures SlotOk(c, j, t.slots[j]) { assert SlotOk(c, j, log.slots[j]); }
  }

  lemma AppendedOk(c: Codec, log: Log, history: seq<Record>, payload: string)
    requires Lawful(c) && LogOk(c, log, history) && Appendable(c, log, payload)
    ensures LogOk(c, Appended(c, log, payload), history + [Candidate(log, payload)])
  {
    var r, next := Candidate(log, payload), NextSlot(log.current);
    Rings(log, r);
    if Fits(c, log, payload) {
      SuffixDrops(Ring(log), history, 0, r);
      assert Ring(log)[0..] == Ring(log);
      hide Ring, Suffix, Numbered, RenderSlot, Line;
      WrittenOk(c, log, history, log.current, r);
    } else {
      SuffixDrops(Ring(log), history, |log.slots[next].records|, r);
      RotatedOk(c, log, history, payload);
      HeaderFits(c, next, log.slots[log.current].cycle + 1);
      hide Ring, Suffix, Numbered, RenderSlot, Line, Lawful;
      WrittenOk(c, Rotated(log), history, next, r);
    }
  }

  // ---------------------------------------------------------------- the disk

  /** The files are the log's slots, slot t with a torn line after it. */
  ghost predicate DiskIs(c: Codec, log: Log, disk: seq<Bytes>, t: nat, torn: Bytes) {
    && Shaped(log) && |disk| == SLOTS && t < SLOTS && Torn(torn)
    && forall i: nat | i < SLOTS :: FileIs(c, log, disk, t, torn, i)
  }

  predicate FileIs(c: Codec, log: Log, disk: seq<Bytes>, t: nat, torn: Bytes, i: nat)
    requires Shaped(log) && |disk| == SLOTS && i < SLOTS
  {
    && disk[i] == (if i == t then RenderSlot(c, i, log.slots[i]) + torn else RenderSlot(c, i, log.slots[i]))
    && |disk[i]| <= SLOT_LIMIT
  }

  lemma SmallIs(c: Codec, log: Log, disk: seq<Bytes>, t: nat, torn: Bytes)
    requires DiskIs(c, log, disk, t, torn)
    ensures Small(disk)
  {
    forall i | 0 <= i < |disk| ensures |disk[i]| <= SLOT_LIMIT { assert FileIs(c, log, disk, t, torn, i); }
  }

  predicate Broken(disk: seq<Bytes>) {
    exists i | 0 <= i < |disk| :: NEWLINE !in disk[i]
  }

  predicate Small(disk: seq<Bytes>) {
    forall i | 0 <= i < |disk| :: |disk[i]| <= SLOT_LIMIT
  }

  ghost predicate Sound(c: Codec, w: World) {
    && LogOk(c, w.log, w.history) && |w.disk| == SLOTS && Small(w.disk)
    && (if w.live then w.disk == RenderAll(c, w.log)
        else Broken(w.disk) || exists t, torn :: DiskIs(c, w.log, w.disk, t, torn))
  }

  lemma PartOfLine(c: Codec, r: Record, n: nat)
    requires Lawful(c) && RecordOk(c, r) && |Line(c, r)| <= RECORD_BYTES && n < |Line(c, r)|
    ensures Torn(Line(c, r)[..n])
  {
    assert Reads(c, r);
    assert Line(c, r)[..n] == c.record(r)[..n];
  }

  lemma RenderedIs(c: Codec, log: Log, history: seq<Record>)
    requires LogOk(c, log, history)
    ensures DiskIs(c, log, RenderAll(c, log), 0, []) && Small(RenderAll(c, log))
  {
    hide Numbered, Suffix, Ring, RenderSlot;
    forall i: nat | i < SLOTS ensures FileIs(c, log, RenderAll(c, log), 0, [], i) {
      assert SlotOk(c, i, log.slots[i]);
      assert RenderSlot(c, i, log.slots[i]) + [] == RenderSlot(c, i, log.slots[i]);
    }
  }

  lemma HeaderOnly(c: Codec, i: nat, cycle: nat)
    ensures RenderSlot(c, i, Slot(cycle, [])) == HeaderLine(c, Header(i, cycle))
  {
  }

  /** A whole record on the disk is the appended log's rendering. */
  lemma LandedWhole(c: Codec, w: World, payload: string)
    requires Shaped(w.log) && w.disk == RenderAll(c, w.log)
    ensures Landed(c, w, payload, |Line(c, Candidate(w.log, payload))|).disk
            == RenderAll(c, Appended(c, w.log, payload))
  {
    var r, next := Candidate(w.log, payload), NextSlot(w.log.current);
    if Fits(c, w.log, payload) {
      RecordAdds(c, w.log.current, w.log.slots[w.log.current], r);
    } else {
      HeaderOnly(c, next, w.log.slots[w.log.current].cycle + 1);
      RecordAdds(c, next, Rotated(w.log).slots[next], r);
    }
    hide RenderSlot, Line;
  }

  /** A part of it leaves the complete records and a torn line. */
  lemma LandedPart(c: Codec, w: World, payload: string, n: nat)
    requires Lawful(c) && LogOk(c, w.log, w.history) && w.disk == RenderAll(c, w.log) && Appendable(c, w.log, payload)
    requires n < |Line(c, Candidate(w.log, payload))|
    ensures var v := Landed(c, w, payload, n);
            v.log == Prepared(c, w.log, payload) && v.history == w.history && Small(v.disk)
            && DiskIs(c, v.log, v.disk, Target(c, w.log, payload), Line(c, Candidate(w.log, payload))[..n])
  {
    var r, next := Candidate(w.log, payload), NextSlot(w.log.current);
    var v := Landed(c, w, payload, n);
    PartOfLine(c, r, n);
    if !Fits(c, w.log, payload) { HeaderFits(c, next, w.log.slots[w.log.current].cycle + 1); }
    hide Ring, Numbered, Suffix, RenderSlot, Line, Lawful, Torn;
    forall i: nat | i < SLOTS ensures FileIs(c, v.log, v.disk, Target(c, w.log, payload), Line(c, r)[..n], i) {
      assert SlotOk(c, i, w.log.slots[i]);
    }
    SmallIs(c, v.log, v.disk, Target(c, w.log, payload), Line(c, r)[..n]);
  }

  // ---------------------------------------------------------------- reopening

  /** Where a slot's records lie in the history. */
  ghost predicate Lies(log: Log, history: seq<Record>, i: nat, p: nat)
    requires Shaped(log) && i < SLOTS
  {
    var n := |log.slots[i].records|;
    && p + n <= |history| && log.slots[i].records == history[p..p + n]
    && (if i == log.current then p + n == |history| else p + n <= |history| - |log.slots[log.current].records|)
  }

  lemma FourPieces(x: seq<Record>, y: seq<Record>, z: seq<Record>, u: seq<Record>)
    ensures var all := x + y + z + u;
            && all[..|x|] == x && all[|x|..|x| + |y|] == y && all[|x| + |y|..|x| + |y| + |z|] == z
            && all[|x| + |y| + |z|..] == u
  {
  }

  lemma SubPiece(history: seq<Record>, start: nat, o: nat, n: nat)
    requires start + o + n <= |history|
    ensures history[start..][o..o + n] == history[start + o..start + o + n]
  {
  }

  lemma PieceOfRing(log: Log, i: nat) returns (o: nat)
    requires Shaped(log) && i < SLOTS
    ensures var n := |log.slots[i].records|;
            && o + n <= |Ring(log)| && log.slots[i].records == Ring(log)[o..o + n]
            && (if i == log.current then o + n == |Ring(log)|
                else o + n <= |Ring(log)| - |log.slots[log.current].records|)
  {
    Cycle(log.current);
    var a := NextSlot(log.current);
    var b := NextSlot(a);
    var c := NextSlot(b);
    var x, y, z, u := log.slots[a].records, log.slots[b].records, log.slots[c].records, log.slots[log.current].records;
    FourPieces(x, y, z, u);
    assert i == a || i == b || i == c || i == log.current;
    hide NextSlot;
    o := if i == a then 0 else if i == b then |x| else if i == c then |x| + |y| else |x| + |y| + |z|;
  }

  lemma SlotLies(log: Log, history: seq<Record>, i: nat) returns (p: nat)
    requires Shaped(log) && Suffix(Ring(log), history) && i < SLOTS
    ensures Lies(log, history, i, p)
  {
    var o := PieceOfRing(log, i);
    hide Ring;
    var start := |history| - |Ring(log)|;
    SubPiece(history, start, o, |log.slots[i].records|);
    p := start + o;
  }

  lemma SlotWritable(c: Codec, log: Log, history: seq<Record>, i: nat)
    requires LogOk(c, log, history) && i < SLOTS
    ensures Writable(c, log.slots[i].records, 0)
    ensures Last(log.slots[i].records) <= |history|
    ensures history != [] ==> (Last(log.slots[i].records) == |history| <==> i == log.current)
  {
    var p := SlotLies(log, history, i);
    hide Ring, Suffix, RecordOk, Line;
    var rs := log.slots[i].records;
    forall k | 0 <= k < |rs| ensures rs[k] == history[p + k] {}
  }

  /** The scan finds the one slot that holds the highest sequence. */
  lemma {:induction false} PickIs(slots: seq<Slot>, n: nat, m: nat, top: nat)
    requires n <= |slots| && m < |slots| && top > 0 && Last(slots[m].records) == top
    requires forall i | 0 <= i < |slots| && i != m :: Last(slots[i].records) < top
    ensures if m < n then Pick(slots, n) == (m, top) else Pick(slots, n).1 < top
  {
    if n > 0 { PickIs(slots, n - 1, m, top); }
  }

  lemma {:induction false} PickNothing(slots: seq<Slot>, n: nat)
    requires n <= |slots| && forall i | 0 <= i < |slots| :: Last(slots[i].records) == 0
    ensures Pick(slots, n).1 == 0
  {
    if n > 0 { PickNothing(slots, n - 1); }
  }

  lemma SlotBack(c: Codec, log: Log, history: seq<Record>, disk: seq<Bytes>, t: nat, torn: Bytes, i: nat)
    requires Lawful(c) && LogOk(c, log, history) && DiskIs(c, log, disk, t, torn) && i < SLOTS
    ensures var s := log.slots[i];
            && ReadSlot(c, i, disk[i]) == Some(Content(s.cycle, s.records, if i == t then |torn| else 0))
            && disk[i][..|disk[i]| - if i == t then |torn| else 0] == RenderSlot(c, i, s)
  {
    assert FileIs(c, log, disk, t, torn, i) && SlotOk(c, i, log.slots[i]);
    SlotWritable(c, log, history, i);
    hide LogOk, DiskIs, Writable, Lawful, ReadSlot, Render;
    var s := log.slots[i];
    if i == t {
      SlotReadBack(c, i, s.cycle, s.records, torn);
    } else {
      assert RenderSlot(c, i, s) + [] == RenderSlot(c, i, s);
      SlotReadBack(c, i, s.cycle, s.records, []);
    }
  }

  /** Slot i of the disk is read as slot i of the log, and cut back to its rendering. */
  predicate BackAt(c: Codec, log: Log, disk: seq<Bytes>, i: nat)
    requires Shaped(log) && |disk| == SLOTS && i < SLOTS
  {
    var r := ReadSlot(c, i, disk[i]);
    r.Some? && Slot(r.value.cycle, r.value.records) == log.slots[i]
      && disk[i][..|disk[i]| - r.value.torn] == RenderSlot(c, i, log.slots[i])
  }

  lemma AllBack(c: Codec, log: Log, disk: seq<Bytes>)
    requires Shaped(log) && |disk| == SLOTS && forall i: nat | i < SLOTS :: BackAt(c, log, disk, i)
    ensures Readable(c, disk) && SlotsRead(c, disk) == log.slots && Trimmed(c, disk) == RenderAll(c, log)
  {
    hide ReadSlot, RenderSlot;
    forall i: nat | i < SLOTS ensures ReadSlot(c, i, disk[i]).Some? { assert BackAt(c, log, disk, i); }
    assert Readable(c, disk);
    forall i: nat | i < SLOTS ensures SlotsRead(c, disk)[i] == log.slots[i]
      && Trimmed(c, disk)[i] == RenderAll(c, log)[i] {
      assert BackAt(c, log, disk, i);
    }
  }

  /** Reopening reads back every complete record and drops only the torn tail. */
  lemma ReadsBack(c: Codec, log: Log, history: seq<Record>, disk: seq<Bytes>, t: nat, torn: Bytes)
    requires Lawful(c) && LogOk(c, log, history) && DiskIs(c, log, disk, t, torn)
    ensures Readable(c, disk) && SlotsRead(c, disk) == log.slots && Trimmed(c, disk) == RenderAll(c, log)
  {
    assert Shaped(log) && |disk| == SLOTS;
    hide LogOk, Lawful, ReadSlot, RenderSlot, DiskIs, Readable, SlotsRead, Trimmed, RenderAll;
    forall i: nat | i < SLOTS ensures BackAt(c, log, disk, i) { SlotBack(c, log, history, disk, t, torn, i); }
    AllBack(c, log, disk);
  }

  lemma OpenOk(c: Codec, log: Log, history: seq<Record>, disk: seq<Bytes>, t: nat, torn: Bytes)
    requires Lawful(c) && LogOk(c, log, history) && DiskIs(c, log, disk, t, torn)
    ensures Readable(c, disk) && Open(c, disk).Some?
    ensures var o := Open(c, disk).value;
            && LogOk(c, o, history) && o.slots == log.slots && o.sequence == log.sequence
            && (history != [] ==> o.current == log.current)
            && Trimmed(c, disk) == RenderAll(c, o)
  {
    ReadsBack(c, log, history, disk, t, torn);
    forall i: nat | i < SLOTS
      ensures Last(log.slots[i].records) <= |history|
      ensures history != [] ==> (Last(log.slots[i].records) == |history| <==> i == log.current)
    {
      SlotWritable(c, log, history, i);
    }
    assert Shaped(log) && log.sequence == |history|;
    hide Lawful, DiskIs, Readable, SlotsRead, Trimmed, RenderSlot, Last, LogOk;
    if history == [] {
      PickNothing(log.slots, SLOTS);
      Emptied(c, log, Pick(log.slots, SLOTS).0);
    } else {
      PickIs(log.slots, SLOTS, log.current, |history|);
    }
  }

  lemma Emptied(c: Codec, log: Log, cur: nat)
    requires LogOk(c, log, []) && cur < SLOTS
    ensures LogOk(c, log.(current := cur), [])
  {
    hide RenderSlot;
    assert |log.slots[0].records| + |log.slots[1].records| + |log.slots[2].records| + |log.slots[3].records|
      == |Ring(log)|;
  }

  /** What a successful open leaves on the disk is exactly the log it found. */
  lemma TrimmedIsRendered(c: Codec, disk: seq<Bytes>)
    requires Lawful(c) && Readable(c, disk)
    ensures Trimmed(c, disk) == RenderAll(c, Open(c, disk).value)
  {
    forall i: nat | i < SLOTS ensures Trimmed(c, disk)[i] == RenderAll(c, Open(c, disk).value)[i] {
      SlotIsWritten(c, i, disk[i]);
      hide Lawful, ReadSlot, Render, Pick;
    }
  }

  lemma {:induction false} PickPrefix(a: seq<Slot>, b: seq<Slot>, n: nat)
    requires n <= |a| && n <= |b| && a[..n] == b[..n]
    ensures Pick(a, n) == Pick(b, n)
  {
    if n > 0 {
      assert a[..n][..n - 1] == a[..n - 1] && b[..n][..n - 1] == b[..n - 1];
      assert a[n - 1] == a[..n][n - 1] && b[n - 1] == b[..n][n - 1];
      PickPrefix(a, b, n - 1);
      var cur := Pick(a, n - 1).0;
      assert a[cur] == a[..n][cur] && b[cur] == b[..n][cur];
    }
  }

  lemma BrokenStays(c: Codec, disk: seq<Bytes>)
    requires |disk| == SLOTS && Broken(disk)
    ensures !Readable(c, disk)
  {
    var i :| 0 <= i < |disk| && NEWLINE !in disk[i];
    NoHeaderRefused(c, i, disk[i]);
  }

  // ---------------------------------------------------------------- every run

  lemma WriteSound(c: Codec, w: World, payload: string)
    requires Lawful(c) && Sound(c, w) && w.live && Appendable(c, w.log, payload)
    ensures Sound(c, Landed(c, w, payload, |Line(c, Candidate(w.log, payload))|))
  {
    AppendedOk(c, w.log, w.history, payload);
    assert Shaped(w.log);
    LandedWhole(c, w, payload);
    hide Lawful, Appendable, RenderAll, LogOk, Appended;
    RenderedIs(c, Appended(c, w.log, payload), w.history + [Candidate(w.log, payload)]);
  }

  lemma DeadSound(c: Codec, w: World)
    requires Sound(c, w) && w.live
    ensures Sound(c, w.(live := false))
  {
    RenderedIs(c, w.log, w.history);
    hide LogOk;
    assert DiskIs(c, w.log, w.disk, 0, []);
  }

  lemma PartSound(c: Codec, w: World, payload: string, n: nat)
    requires Lawful(c) && Sound(c, w) && w.live && Appendable(c, w.log, payload)
    ensures Sound(c, Landed(c, w, payload, n).(live := false))
  {
    var line := Line(c, Candidate(w.log, payload));
    if n >= |line| {
      WriteSound(c, w, payload);
      var v := Landed(c, w, payload, |line|);
      assert v == Landed(c, w, payload, n);
      hide Sound, Landed;
      DeadSound(c, v);
    } else {
      var v := Landed(c, w, payload, n);
      LandedPart(c, w, payload, n);
      if !Fits(c, w.log, payload) { RotatedOk(c, w.log, w.history, payload); }
      hide Lawful, Appendable, RenderAll, LogOk, Landed;
      assert DiskIs(c, v.log, v.disk, Target(c, w.log, payload), line[..n]);
    }
  }

  lemma HeaderCutSound(c: Codec, w: World, payload: string, cut: Cut)
    requires Lawful(c) && Sound(c, w) && w.live && Appendable(c, w.log, payload) && !cut.RecordPart?
             && !Fits(c, w.log, payload)
    ensures Sound(c, Interrupted(c, w, payload, cut).(live := false))
  {
    var next, v := NextSlot(w.log.current), Interrupted(c, w, payload, cut).(live := false);
    var h := Header(next, w.log.slots[w.log.current].cycle + 1);
    assert ReadsHeader(c, h);
    HeaderFits(c, next, h.cycle);
    RenderedIs(c, w.log, w.history);
    RotatedOk(c, w.log, w.history, payload);
    match cut {
      case HeaderWhole =>
        RenderedIs(c, Rotated(w.log), w.history);
        hide LogOk, Lawful, Appendable, RenderSlot;
        assert v.disk == RenderAll(c, Rotated(w.log));
      case HeaderPart(n) =>
        if n < |HeaderLine(c, h)| {
          hide LogOk, Lawful, Appendable, RenderAll;
          assert HeaderLine(c, h)[..n] == c.header(h)[..n];
          assert NEWLINE !in v.disk[next];
        } else {
          DeadSound(c, w);
        }
      case Truncated =>
        hide LogOk, Lawful, Appendable, RenderAll;
        assert NEWLINE !in v.disk[next];
    }
  }

  lemma DeadDisk(c: Codec, w: World) returns (t: nat, torn: Bytes)
    requires Sound(c, w) && !w.live && !Broken(w.disk)
    ensures LogOk(c, w.log, w.history) && DiskIs(c, w.log, w.disk, t, torn)
  {
    hide LogOk;
    t, torn :| DiskIs(c, w.log, w.disk, t, torn);
  }

  lemma ReopenSound(c: Codec, w: World)
    requires Lawful(c) && Sound(c, w) && !w.live && Shaped(w.log) && |w.disk| == SLOTS
    ensures Sound(c, Next(c, w, Reopen))
  {
    hide Sound, LogOk, Lawful, Trimmed, RenderAll, DiskIs, Readable, Open;
    if Broken(w.disk) {
      BrokenStays(c, w.disk);
    } else {
      var t, torn := DeadDisk(c, w);
      OpenOk(c, w.log, w.history, w.disk, t, torn);
      OpenedSound(c, w, Open(c, w.disk).value);
    }
  }

  lemma OpenedSound(c: Codec, w: World, log: Log)
    requires LogOk(c, log, w.history)
    ensures Sound(c, w.(live := true, log := log, disk := RenderAll(c, log)))
  {
    hide LogOk;
    RenderedIs(c, log, w.history);
  }

  lemma NextSound(c: Codec, w: World, e: Step)
    requires Lawful(c) && Sound(c, w) && Shaped(w.log) && |w.disk| == SLOTS
    ensures Sound(c, Next(c, w, e))
  {
    hide Sound, Landed, Appendable, Lawful, Fits;
    match e {
      case Write(payload) =>
        if w.live { if Appendable(c, w.log, payload) { WriteSound(c, w, payload); } else { DeadSound(c, w); } }
      case Break(payload, cut) =>
        if w.live {
          if !Appendable(c, w.log, payload) { DeadSound(c, w); }
          else if cut.RecordPart? { PartSound(c, w, payload, cut.n); }
          else if Fits(c, w.log, payload) { DeadSound(c, w); }
          else { HeaderCutSound(c, w, payload, cut); }
        }
      case Kill => if w.live { DeadSound(c, w); }
      case Reopen => if !w.live { ReopenSound(c, w); }
    }
  }

  lemma StartSound(c: Codec)
    requires Lawful(c)
    ensures Sound(c, Start(c))
  {
    var log := Start(c).log;
    forall i: nat | i < SLOTS ensures SlotOk(c, i, log.slots[i]) { HeaderFits(c, i, 1); }
    assert LogOk(c, log, []);
    RenderedIs(c, log, []);
  }

  lemma {:induction false} RunSound(c: Codec, steps: seq<Step>)
    requires Lawful(c)
    ensures Sound(c, Run(c, steps))
  {
    if steps == [] {
      StartSound(c);
    } else {
      hide Sound, Next, Lawful;
      RunSound(c, steps[..|steps| - 1]);
      NextSound(c, Run(c, steps[..|steps| - 1]), steps[|steps| - 1]);
    }
  }

  /** In every run, what a live log retains is, in ring order, the unbroken end of everything
      ever recorded: consecutive sequence numbers up to the last one, below the next. */
  lemma RetainedIsContiguous(c: Codec, steps: seq<Step>, i: nat)
    requires Lawful(c) && Run(c, steps).live && i < |Ring(Run(c, steps).log)|
    ensures var w := Run(c, steps);
            var ring := Ring(w.log);
            && Suffix(ring, w.history)
            && ring[i].sequence == w.log.sequence - (|ring| - 1 - i)
            && Candidate(w.log, "").sequence > ring[i].sequence
            && w.disk == RenderAll(c, w.log)
  {
    RunSound(c, steps);
    hide Run, Ring, RenderAll, Small;
  }

  /** A failed or killed writer leaves either a slot without a header, which a reopen refuses,
      or complete records that a reopen brings back without exception. */
  lemma ReopenLosesNothing(c: Codec, steps: seq<Step>)
    requires Lawful(c) && !Run(c, steps).live
    ensures var w := Run(c, steps);
            if Broken(w.disk) then Open(c, w.disk) == None
            else Open(c, w.disk).Some? && Open(c, w.disk).value.slots == w.log.slots
                 && Open(c, w.disk).value.sequence == |w.history|
  {
    var w := Run(c, steps);
    RunSound(c, steps);
    hide Run, RenderAll;
    if Broken(w.disk) {
      BrokenStays(c, w.disk);
    } else {
      var t, torn := DeadDisk(c, w);
      hide Sound, DiskIs, Readable;
      OpenOk(c, w.log, w.history, w.disk, t, torn);
    }
  }

  /** Each file stays within its slot budget, and the namespace with its markers within one MiB. */
  lemma WithinBudget(c: Codec, steps: seq<Step>)
    requires Lawful(c)
    ensures var disk := Run(c, steps).disk;
            && Small(disk) && |disk[0]| + |disk[1]| + |disk[2]| + |disk[3]| + MARKER_BYTES <= NAMESPACE_BYTES
  {
    RunSound(c, steps);
    hide Run, LogOk, RenderAll;
  }
}
