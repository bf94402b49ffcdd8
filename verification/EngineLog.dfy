/** The event log's writer as it runs (shared/proxy/engine_log.go): fields updated in place
    and slot files changed by truncate and write, any of which may fail part way. */
module EngineLog {
  import opened Prelude
  import opened LogSlots
  import opened LogRing

  datatype Code = OpenCode | WriteCode | RotateCode | SyncCode | NamespaceCode | CodecCode | ClosedCode | QueueCode
                | ShutdownCode | OtherCode(text: string)

  predicate IsHealthCode(code: Code) { !code.OtherCode? }

  /** What the file system does during one Append: None is success; a failed truncate may
      have emptied the file, a failed write may have written part of its bytes. */
  datatype Io = Io(namespace: bool, truncate: Option<bool>, header: Option<nat>, headerSync: bool,
                   record: Option<nat>, recordSync: bool)

  /** The per-slot fields agree with the log they stand for. */
  predicate Caches(c: Codec, l: Log, sizes: seq<nat>, cycles: seq<nat>, lasts: seq<nat>) {
    && Shaped(l) && |sizes| == |cycles| == |lasts| == SLOTS
    && forall i: nat | i < SLOTS :: CachedAt(c, l, sizes, cycles, lasts, i)
  }

  predicate CachedAt(c: Codec, l: Log, sizes: seq<nat>, cycles: seq<nat>, lasts: seq<nat>, i: nat)
    requires Shaped(l) && |sizes| == |cycles| == |lasts| == SLOTS && i < SLOTS
  {
    cycles[i] == l.slots[i].cycle && sizes[i] == |RenderSlot(c, i, l.slots[i])| && lasts[i] == Last(l.slots[i].records)
  }

  lemma CachesRotated(c: Codec, l: Log, sizes: seq<nat>, cycles: seq<nat>, lasts: seq<nat>)
    requires Caches(c, l, sizes, cycles, lasts)
    ensures var next := NextSlot(l.current);
            var cycle := cycles[l.current] + 1;
            && cycles[l.current] == l.slots[l.current].cycle
            && sizes[l.current] == |RenderSlot(c, l.current, l.slots[l.current])|
            && Caches(c, Rotated(l), sizes[next := |HeaderLine(c, Header(next, cycle))|], cycles[next := cycle],
                      lasts[next := 0])
  {
    assert CachedAt(c, l, sizes, cycles, lasts, l.current);
    var next, cycle := NextSlot(l.current), cycles[l.current] + 1;
    HeaderOnly(c, next, cycle);
    var m, ss, cs, ls := Rotated(l), sizes[next := |HeaderLine(c, Header(next, cycle))|], cycles[next := cycle],
      lasts[next := 0];
    hide RenderSlot;
    forall i: nat | i < SLOTS ensures CachedAt(c, m, ss, cs, ls, i) { assert CachedAt(c, l, sizes, cycles, lasts, i); }
  }

  lemma CachesWritten(c: Codec, l: Log, sizes: seq<nat>, cycles: seq<nat>, lasts: seq<nat>, k: nat, r: Record)
    requires Caches(c, l, sizes, cycles, lasts) && k < SLOTS
    ensures Caches(c, Written(l, k, r), sizes[k := sizes[k] + |Line(c, r)|], cycles, lasts[k := r.sequence])
  {
    RecordAdds(c, k, l.slots[k], r);
    var m, ss, ls := Written(l, k, r), sizes[k := sizes[k] + |Line(c, r)|], lasts[k := r.sequence];
    hide RenderSlot, Line;
    forall i: nat | i < SLOTS ensures CachedAt(c, m, ss, cycles, ls, i) {
      assert CachedAt(c, l, sizes, cycles, lasts, i);
    }
  }

  /** The file of the next slot after a rotation that went as `io` says. */
  function AfterRotation(was: Bytes, header: Bytes, io: Io): Bytes {
    if io.truncate == Some(false) then was
    else if io.truncate == Some(true) then []
    else if io.header.Some? && io.header.value < |header| then header[..io.header.value]
    else header
  }

  predicate RotationWorks(io: Io) { io.truncate.None? && io.header.None? && io.headerSync }

  function NewHeader(c: Codec, l: Log): Bytes
    requires Shaped(l)
  {
    HeaderLine(c, Header(NextSlot(l.current), l.slots[l.current].cycle + 1))
  }

  function RotationStep(payload: string, header: Bytes, io: Io): Step {
    if io.truncate == Some(false) then Kill
    else if io.truncate == Some(true) then Break(payload, Truncated)
    else if io.header.Some? && io.header.value < |header| then Break(payload, HeaderPart(io.header.value))
    else Break(payload, HeaderWhole)
  }

  function RecordStep(payload: string, line: Bytes, io: Io): Step {
    if io.record.Some? then Break(payload, RecordPart(io.record.value))
    else if !io.recordSync then Break(payload, RecordPart(|line|))
    else Write(payload)
  }

  /** A rotation that stops part way is the model's interrupted append. */
  lemma RotationStops(c: Codec, w: World, payload: string, io: Io)
    requires Shaped(w.log) && |w.disk| == SLOTS && w.live && Appendable(c, w.log, payload) && !Fits(c, w.log, payload)
    ensures var v := Next(c, w, RotationStep(payload, NewHeader(c, w.log), io));
            var next := NextSlot(w.log.current);
            && !v.live && v.history == w.history
            && v.disk == w.disk[next := AfterRotation(w.disk[next], NewHeader(c, w.log), io)]
  {
    assert w.disk == w.disk[NextSlot(w.log.current) := w.disk[NextSlot(w.log.current)]];
    hide Appendable, Fits, HeaderLine;
  }

  /** The record write, whole or in part, is the model's. */
  lemma RecordLands(c: Codec, w: World, payload: string, io: Io)
    requires Shaped(w.log) && |w.disk| == SLOTS && w.live && Appendable(c, w.log, payload)
    ensures var line := Line(c, Candidate(w.log, payload));
            var v := Next(c, w, RecordStep(payload, line, io));
            var i := Target(c, w.log, payload);
            && v.live == (io.record.None? && io.recordSync)
            && v.disk == w.disk[i := Base(c, w, payload) + line[..Reached(line, io)]]
            && (v.live ==> v.log == Appended(c, w.log, payload))
  {
    var line := Line(c, Candidate(w.log, payload));
    assert line[..|line|] == line;
    hide Appendable, Fits, Line, Base, Appended, Prepared, Target;
  }

  function Reached(line: Bytes, io: Io): (n: nat)
    ensures n <= |line|
  {
    if io.record.Some? && io.record.value < |line| then io.record.value else |line|
  }

  function Report(health: Option<Code>, code: Code): Option<Code> {
    if health.Some? then health else Some(if IsHealthCode(code) then code else CodecCode)
  }

  /** The health published after a writer's reports so far. */
  function Health(reports: seq<Code>): Option<Code> {
    if reports == [] then None else Report(Health(reports[..|reports| - 1]), reports[|reports| - 1])
  }

  /** However many failures are reported, the writer publishes the first one and never
      changes or withdraws it; a code that is not a health code counts as a codec failure. */
  lemma {:induction false} FirstFailureKept(reports: seq<Code>, later: seq<Code>)
    requires reports != []
    ensures Health(reports + later) == Health(reports)
            == Some(if IsHealthCode(reports[0]) then reports[0] else CodecCode)
    decreases |reports| + |later|
  {
    if later != [] {
      var n := |later| - 1;
      FirstFailureKept(reports, later[..n]);
      assert (reports + later)[..|reports + later| - 1] == reports + later[..n];
    } else {
      assert reports + later == reports;
      if |reports| > 1 { FirstFailureKept(reports[..|reports| - 1], []); }
    }
  }

  class Writer {
    const codec: Codec
    var files: seq<Bytes>
    var sizes: seq<nat>
    var cycles: seq<nat>
    var lasts: seq<nat>
    var current: nat
    var sequence: nat
    var degraded: Option<Code>
    var closed: bool
    ghost var log: Log
    ghost var history: seq<Record>

    ghost function View(): World
      reads this
    {
      World(degraded.None?, files, log, history)
    }

    ghost predicate Valid()
      reads this
    {
      && Shaped(log) && |files| == |sizes| == |cycles| == |lasts| == SLOTS
      && (degraded.None? ==> current == log.current && sequence == log.sequence && files == RenderAll(codec, log)
                             && Caches(codec, log, sizes, cycles, lasts))
    }

    constructor (codec: Codec, files: seq<Bytes>, slots: seq<Content>, sizes: seq<nat>, lasts: seq<nat>, current: nat,
                 sequence: nat,
                 ghost log: Log, ghost history: seq<Record>)
      requires Shaped(log) && |files| == |sizes| == |lasts| == |slots| == SLOTS && files == RenderAll(codec, log)
      requires current == log.current && sequence == log.sequence
      requires forall i: nat | i < SLOTS :: slots[i].cycle == log.slots[i].cycle
                 && sizes[i] == |RenderSlot(codec, i, log.slots[i])| && lasts[i] == Last(log.slots[i].records)
      ensures Valid() && this.codec == codec && !closed && View() == World(true, files, log, history)
    {
      var starts := seq(SLOTS, i requires 0 <= i < SLOTS => slots[i].cycle);
      assert Caches(codec, log, sizes, starts, lasts) by {
        forall i: nat | i < SLOTS ensures CachedAt(codec, log, sizes, starts, lasts, i) {}
      }
      this.codec, this.files, this.sizes, this.lasts := codec, files, sizes, lasts;
      this.cycles := starts;
      this.current, this.sequence, this.degraded, this.closed := current, sequence, None, false;
      this.log, this.history := log, history;
    }

    /** MarkDegraded: one more report. */
    method MarkDegraded(code: Code)
      modifies this`degraded
      ensures degraded == Report(old(degraded), code)
    {
      if degraded.None? { degraded := Some(if IsHealthCode(code) then code else CodecCode); }
    }

    /** What the Append amounts to in the model. */
    ghost function StepOf(payload: string, io: Io): Step
      requires Shaped(log)
      reads this
    {
      if closed || !io.namespace then Kill
      else if !Fits(codec, log, payload) && !RotationWorks(io) then RotationStep(payload, NewHeader(codec, log), io)
      else RecordStep(payload, Line(codec, Candidate(log, payload)), io)
    }

    /** The rotation inside Append: true when the emptied slot has its new header. */
    method Rotate(io: Io) returns (ok: bool)
      requires |files| == |sizes| == |cycles| == |lasts| == SLOTS && current < SLOTS && degraded.None?
      modifies this`files, this`sizes, this`cycles, this`lasts, this`current, this`degraded
      ensures |files| == |sizes| == |cycles| == |lasts| == SLOTS
      ensures ok == RotationWorks(io) == degraded.None?
      ensures var next := NextSlot(old(current));
              var header := HeaderLine(codec, Header(next, old(cycles)[old(current)] + 1));
              && files == old(files)[next := AfterRotation(old(files)[next], header, io)]
              && (ok ==> current == next && cycles == old(cycles)[next := old(cycles)[old(current)] + 1]
                         && sizes == old(sizes)[next := |header|] && lasts == old(lasts)[next := 0])
    {
      var next := (current + 1) % SLOTS;
      var cycle := cycles[current] + 1;
      if io.truncate.Some? {
        if io.truncate.value { files := files[next := []]; }
        assert old(files) == old(files)[next := old(files)[next]];
        MarkDegraded(RotateCode);
        return false;
      }
      var header := HeaderLine(codec, Header(next, cycle));
      cycles := cycles[next := cycle];
      if io.header.Some? {
        assert header[..|header|] == header;
        files := files[next := header[..if io.header.value < |header| then io.header.value else |header|]];
        MarkDegraded(RotateCode);
        return false;
      }
      files := files[next := header];
      sizes, lasts := sizes[next := |header|], lasts[next := 0];
      if !io.headerSync {
        MarkDegraded(SyncCode);
        return false;
      }
      current := next;
      return true;
    }
  
    /** The checks of Append before any byte is written. */
    method Admit(payload: string, io: Io) returns (line: Option<Bytes>)
      requires Valid() && degraded.None?
      modifies this`degraded
      ensures Valid() && (line.Some? <==> degraded.None?)
      ensures line.Some? <==> !closed && io.namespace && Appendable(codec, log, payload)
      ensures line.Some? ==> line.value == Line(codec, Candidate(log, payload))
    {
      line := None;
      if closed { MarkDegraded(ClosedCode); return; }
      if !codec.valid(payload) || sequence >= MAX_SEQUENCE { MarkDegraded(CodecCode); return; }
      if !io.namespace { MarkDegraded(NamespaceCode); return; }
      var bytes := codec.record(Record(sequence + 1, payload)) + [NEWLINE];
      if |bytes| > RECORD_BYTES { MarkDegraded(CodecCode); return; }
      assert CachedAt(codec, log, sizes, cycles, lasts, current);
      if |HeaderLine(codec, Header(current, cycles[current]))| + |bytes| > SLOT_LIMIT {
        MarkDegraded(CodecCode);
        return;
      }
      if sizes[current] + |bytes| > SLOT_LIMIT && cycles[current] + 1 > MAX_SEQUENCE {
        MarkDegraded(RotateCode);
        return;
      }
      line := Some(bytes);
    }

    /** The record write and its sync. */
    method WriteRecord(line: Bytes, io: Io) returns (ok: bool)
      requires |files| == |sizes| == |lasts| == SLOTS && current < SLOTS && degraded.None?
      modifies this`files, this`sizes, this`lasts, this`sequence, this`degraded
      ensures |sizes| == |lasts| == SLOTS
      ensures ok == (io.record.None? && io.recordSync) == degraded.None?
      ensures files == old(files)[current := old(files)[current] + line[..Reached(line, io)]]
      ensures ok ==> sizes == old(sizes)[current := old(sizes)[current] + |line|]
                     && lasts == old(lasts)[current := old(sequence) + 1] && sequence == old(sequence) + 1
    {
      files := files[current := files[current] + line[..Reached(line, io)]];
      if io.record.Some? {
        MarkDegraded(WriteCode);
        return false;
      }
      sizes := sizes[current := sizes[current] + |line|];
      lasts, sequence := lasts[current := sequence + 1], sequence + 1;
      if !io.recordSync {
        MarkDegraded(SyncCode);
        return false;
      }
      return true;
    }

    /** Writing the record into the prepared slot leads to `v`. */
    method Finish(line: Bytes, io: Io, ghost v: World, ghost prepared: Log, ghost r: Record) returns (ok: bool)
      requires |files| == SLOTS && current < SLOTS && degraded.None? && Caches(codec, prepared, sizes, cycles, lasts)
      requires r.sequence == sequence + 1 && line == Line(codec, r)
      requires Shaped(v.log) && v.live == (io.record.None? && io.recordSync)
      requires v.disk == files[current := files[current] + line[..Reached(line, io)]]
      requires v.live ==> v.log == Written(prepared, current, r) && v.disk == RenderAll(codec, v.log)
      modifies this
      ensures Valid() && View() == v && closed == old(closed) && ok == v.live
    {
      CachesWritten(codec, prepared, sizes, cycles, lasts, current, r);
      hide Caches, Line, RenderAll;
      ok := WriteRecord(line, io);
      log, history := v.log, v.history;
    }

    /** The append into the current slot. */
    method AppendHere(payload: string, line: Bytes, io: Io) returns (ok: bool)
      requires Valid() && degraded.None? && Appendable(codec, log, payload) && Fits(codec, log, payload)
      requires line == Line(codec, Candidate(log, payload))
      modifies this
      ensures Valid() && closed == old(closed) && ok == degraded.None?
      ensures View() == Next(codec, old(View()), RecordStep(payload, line, io))
    {
      ghost var w := View();
      RecordLands(codec, w, payload, io);
      LandedWhole(codec, w, payload);
      ghost var v := Next(codec, w, RecordStep(payload, line, io));
      assert v.live ==> v.disk == RenderAll(codec, v.log) by { hide RenderAll, Line, Appended; }
      hide Next, RecordStep, RenderAll, Line, Appendable, Caches;
      ok := Finish(line, io, v, w.log, Candidate(w.log, payload));
    }

    /** The append after a rotation. */
    method AppendNext(payload: string, line: Bytes, io: Io) returns (ok: bool)
      requires Valid() && degraded.None? && Appendable(codec, log, payload) && !Fits(codec, log, payload)
      requires line == Line(codec, Candidate(log, payload))
      modifies this
      ensures Valid() && closed == old(closed) && ok == degraded.None?
      ensures View() == Next(codec, old(View()), if RotationWorks(io) then RecordStep(payload, line, io)
                                                 else RotationStep(payload, NewHeader(codec, old(log)), io))
    {
      ghost var w := View();
      ghost var step := if RotationWorks(io) then RecordStep(payload, line, io)
        else RotationStep(payload, NewHeader(codec, log), io);
      ghost var v := Next(codec, w, step);
      RotationStops(codec, w, payload, io);
      RecordLands(codec, w, payload, io);
      LandedWhole(codec, w, payload);
      CachesRotated(codec, log, sizes, cycles, lasts);
      assert RotationWorks(io) && v.live ==> v.disk == RenderAll(codec, v.log) by { hide RenderAll, Line, Appended; }
      hide Next, RecordStep, RotationStep, RenderAll, Line, HeaderLine, Appendable, Caches, RenderSlot;
      var rotated := Rotate(io);
      if !rotated {
        log, history := v.log, v.history;
        return false;
      }
      assert AfterRotation(w.disk[current], NewHeader(codec, w.log), io) == NewHeader(codec, w.log);
      hide AfterRotation;
      ok := Finish(line, io, v, Rotated(w.log), Candidate(w.log, payload));
    }

    /** Append: the log moves exactly as the model's next world, whatever the file system does,
        and a writer that has failed changes nothing any more. */
    method Append(payload: string, io: Io) returns (ok: bool)
      requires Valid()
      modifies this
      ensures Valid() && closed == old(closed)
      ensures old(degraded).Some? ==> !ok && View() == old(View()) && degraded == old(degraded)
      ensures old(degraded).None? ==> View() == Next(codec, old(View()), old(StepOf(payload, io)))
      ensures ok <==> degraded.None?
    {
      if degraded.Some? { return false; }
      var line := Admit(payload, io);
      if line.None? { return false; }
      assert sizes[current] == |RenderSlot(codec, current, log.slots[current])| by {
        CachesRotated(codec, log, sizes, cycles, lasts);
      }
      hide Next, RecordStep, RotationStep, RenderAll, Line, HeaderLine, Appendable, Caches, RenderSlot, NewHeader;
      if sizes[current] + |line.value| > SLOT_LIMIT {
        ok := AppendNext(payload, line.value, io);
      } else {
        ok := AppendHere(payload, line.value, io);
      }
    }
  }

  function SlotOf(k: Content): Slot { Slot(k.cycle, k.records) }

  function SlotsOf(contents: seq<Content>): (r: seq<Slot>)
    ensures |r| == |contents| && forall i | 0 <= i < |r| :: r[i] == SlotOf(contents[i])
  {
    seq(|contents|, i requires 0 <= i < |contents| => SlotOf(contents[i]))
  }

  predicate AllRead(c: Codec, disk: seq<Bytes>, n: nat, contents: seq<Content>, sizes: seq<nat>, lasts: seq<nat>) {
    && |contents| == |sizes| == |lasts| == n <= |disk|
    && forall k: nat | k < n :: Read(c, disk, k, contents[k], sizes[k], lasts[k])
  }

  /** The scan of the slots, and the choice of the current one on the way. */
  method ReadAllSlots(codec: Codec, disk: seq<Bytes>)
    returns (ok: bool, contents: seq<Content>, sizes: seq<nat>, lasts: seq<nat>, current: nat, sequence: nat)
    requires |disk| == SLOTS
    ensures ok <==> Readable(codec, disk)
    ensures ok ==> AllRead(codec, disk, SLOTS, contents, sizes, lasts)
                   && (current, sequence) == Pick(SlotsOf(contents), SLOTS)
  {
    hide ReadSlot, Read, Last;
    contents, sizes, lasts, current, sequence := [], [], [], 0, 0;
    for i := 0 to SLOTS
      invariant AllRead(codec, disk, i, contents, sizes, lasts)
      invariant current < SLOTS && (i > 0 ==> current < i) && (current, sequence) == Pick(SlotsOf(contents), i)
    {
      var content, size, last := ReadSlotFile(codec, i, disk[i]);
      if content.None? { return false, [], [], [], 0, 0; }
      OneMore(codec, disk, i, contents, sizes, lasts, content.value, size, last);
      PickMore(contents, content.value);
      contents, sizes, lasts := contents + [content.value], sizes + [size], lasts + [last];
      hide AllRead, Pick;
      if last > sequence {
        current, sequence := i, last;
      } else if sequence == 0 && content.value.cycle > contents[current].cycle {
        current := i;
      }
    }
    AllReadable(codec, disk, contents, sizes, lasts);
    ok := true;
  }

  lemma AllReadable(c: Codec, disk: seq<Bytes>, contents: seq<Content>, sizes: seq<nat>, lasts: seq<nat>)
    requires |disk| == SLOTS && AllRead(c, disk, SLOTS, contents, sizes, lasts)
    ensures Readable(c, disk)
  {
    hide ReadSlot;
    forall k: nat | k < SLOTS ensures ReadSlot(c, k, disk[k]).Some? {
      assert Read(c, disk, k, contents[k], sizes[k], lasts[k]);
    }
  }

  lemma OneMore(c: Codec, disk: seq<Bytes>, i: nat, contents: seq<Content>, sizes: seq<nat>, lasts: seq<nat>,
                content: Content, size: nat, last: nat)
    requires i < |disk| && AllRead(c, disk, i, contents, sizes, lasts) && ReadSlot(c, i, disk[i]) == Some(content)
    requires size == |disk[i]| - content.torn && last == Last(content.records)
    ensures AllRead(c, disk, i + 1, contents + [content], sizes + [size], lasts + [last])
  {
    assert Read(c, disk, i, content, size, last);
    hide ReadSlot, Last, Read;
  }

  /** One more slot: the choice is made as the scan makes it. */
  lemma PickMore(contents: seq<Content>, content: Content)
    ensures var i := |contents|;
            var (cur, top) := Pick(SlotsOf(contents), i);
            var last := Last(content.records);
            var start := (contents + [content])[cur].cycle;
            Pick(SlotsOf(contents + [content]), i + 1)
              == if last > top then (i, last) else if top == 0 && content.cycle > start then (i, top) else (cur, top)
  {
    var i, more := |contents|, SlotsOf(contents + [content]);
    assert more[..i] == SlotsOf(contents)[..i];
    PickPrefix(SlotsOf(contents), more, i);
    hide Last;
  }

  lemma OpenedCaches(c: Codec, disk: seq<Bytes>, contents: seq<Content>, sizes: seq<nat>, lasts: seq<nat>, k: nat)
    requires Lawful(c) && Readable(c, disk) && AllRead(c, disk, SLOTS, contents, sizes, lasts) && k < SLOTS
    ensures var log := Open(c, disk).value;
            && sizes[k] <= |disk[k]| && disk[k][..sizes[k]] == Trimmed(c, disk)[k]
            && SlotOf(contents[k]) == log.slots[k] && sizes[k] == |RenderSlot(c, k, log.slots[k])|
            && lasts[k] == Last(log.slots[k].records)
  {
    assert Read(c, disk, k, contents[k], sizes[k], lasts[k]);
    SlotIsWritten(c, k, disk[k]);
    hide ReadSlot, Lawful, Pick, Render;
  }

  /** openEngineLog on existing files: every slot is read before any tail is cut off; the
      current slot is the one with the highest sequence. */
  method OpenFiles(codec: Codec, disk: seq<Bytes>, ghost history: seq<Record>) returns (writer: Writer?)
    requires Lawful(codec) && |disk| == SLOTS
    ensures writer == null <==> Open(codec, disk).None?
    ensures writer != null ==> fresh(writer) && writer.Valid() && writer.codec == codec
                               && writer.View() == World(true, Trimmed(codec, disk), Open(codec, disk).value, history)
  {
    hide Lawful;
    var ok, contents, sizes, lasts, current, sequence := ReadAllSlots(codec, disk);
    if !ok { return null; }
    TrimmedIsRendered(codec, disk);
    ghost var log := Open(codec, disk).value;
    forall k: nat | k < SLOTS
      ensures sizes[k] <= |disk[k]| && disk[k][..sizes[k]] == Trimmed(codec, disk)[k]
              && SlotOf(contents[k]) == log.slots[k] && sizes[k] == |RenderSlot(codec, k, log.slots[k])|
              && lasts[k] == Last(log.slots[k].records)
    {
      OpenedCaches(codec, disk, contents, sizes, lasts, k);
    }
    assert SlotsOf(contents) == log.slots;
    hide Pick, RenderSlot, Readable, AllRead, Trimmed, RenderAll, Last;
    var files := seq(SLOTS, i requires 0 <= i < SLOTS => disk[i][..sizes[i]]);
    assert files == Trimmed(codec, disk);
    writer := new Writer(codec, files, contents, sizes, lasts, current, sequence, log, history);
  }

  predicate Read(c: Codec, disk: seq<Bytes>, k: nat, content: Content, size: nat, last: nat) {
    && k < |disk| && ReadSlot(c, k, disk[k]) == Some(content) && size == |disk[k]| - content.torn
    && last == Last(content.records)
  }
}
