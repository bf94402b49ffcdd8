/** How much the engine event log keeps: an append drops nothing while its line fits, a
    rotation drops only the oldest slot, and what has been dropped is always older than two
    full slots of later records. */
module LogRetention {
  import opened Prelude
  import opened LogSlots
  import opened LogRing

  /** An append keeps everything if its line fits the current slot, and otherwise drops
      exactly the records of the oldest one. */
  lemma AppendDrops(c: Codec, log: Log, payload: string)
    requires Shaped(log)
    ensures var r := Record(log.sequence + 1, payload);
            var size := |Render(c, log.current, log.slots[log.current].cycle, log.slots[log.current].records)|;
            var ring := Ring(Appended(c, log, payload));
            if size + |c.record(r)| + 1 <= 256 * 1024 - 64 then ring == Ring(log) + [r]
            else ring == Ring(log)[|log.slots[(log.current + 1) % 4].records|..] + [r]
  {
    Rings(log, Candidate(log, payload));
    hide Ring, Render;
  }

  /** An event is recordable: valid, its line within 2048 bytes, and numbers left for it. */
  predicate Recordable(c: Codec, w: World, payload: string)
    requires Shaped(w.log)
  {
    && c.valid(payload) && |c.record(Record(|w.history| + 1, payload))| + 1 <= 2048
    && |w.history| < 0x1f_ffff_ffff_ffff
    && (Fits(c, w.log, payload) || w.log.slots[w.log.current].cycle < 0x1f_ffff_ffff_ffff)
  }

  lemma AppendableIs(c: Codec, w: World, payload: string)
    requires Lawful(c) && Shaped(w.log) && LogOk(c, w.log, w.history)
    ensures Appendable(c, w.log, payload) <==> Recordable(c, w, payload)
  {
    hide Ring, Fits, Numbered, Suffix;
    assert SlotOk(c, w.log.current, w.log.slots[w.log.current]);
    HeaderFits(c, w.log.current, w.log.slots[w.log.current].cycle);
    hide Lawful, SlotOk;
  }

  lemma NewestIs(c: Codec, log: Log, payload: string)
    requires Shaped(log)
    ensures var ring := Ring(Appended(c, log, payload)); ring != [] && ring[|ring| - 1] == Candidate(log, payload)
  {
    Rings(log, Candidate(log, payload));
    hide Ring, Fits;
  }

  /** A live writer records an event if and only if it is recordable, as the newest one;
      otherwise it stops and nothing on the disk changes. */
  lemma RecordsExactly(c: Codec, steps: seq<Step>, payload: string)
    requires Lawful(c) && Run(c, steps).live
    ensures var w := Run(c, steps);
            var v := Run(c, steps + [Write(payload)]);
            var r := Record(|w.history| + 1, payload);
            && (v.live <==> Recordable(c, w, payload))
            && (v.live ==> v.history == w.history + [r] && Ring(v.log) != [] && Ring(v.log)[|Ring(v.log)| - 1] == r)
            && (!v.live ==> v.history == w.history && v.disk == w.disk)
  {
    hide Lawful, Ring, Run, Appendable, Recordable, Next;
    var w := Run(c, steps);
    RunSound(c, steps);
    RunSnoc(c, steps, Write(payload));
    AppendableIs(c, w, payload);
    assert w.log.sequence == |w.history| by { SoundCounts(c, w); }
    NewestIs(c, w.log, payload);
    WriteIs(c, w, payload);
  }

  lemma SoundCounts(c: Codec, w: World)
    requires Sound(c, w)
    ensures w.log.sequence == |w.history|
  {
  }

  lemma WriteIs(c: Codec, w: World, payload: string)
    requires Shaped(w.log) && |w.disk| == SLOTS && w.live
    ensures var v := Next(c, w, Write(payload));
            if Appendable(c, w.log, payload)
            then v.live && v.log == Appended(c, w.log, payload) && v.history == w.history + [Candidate(w.log, payload)]
            else v == w.(live := false)
  {
    hide Appendable, Appended, Fits;
  }

  lemma RunSnoc(c: Codec, steps: seq<Step>, e: Step)
    ensures Run(c, steps + [e]) == Next(c, Run(c, steps), e)
  {
    assert (steps + [e])[..|steps|] == steps;
    hide Next;
  }

  // ---------------------------------------------------------------- full slots

  /** No record of the greatest length fits any more. */
  predicate Full(c: Codec, i: nat, s: Slot) { |RenderSlot(c, i, s)| + RECORD_BYTES > SLOT_LIMIT }

  /** In ring order the slots fill up one after the other: the two before the current one are
      full or, with all older ones, still unused. */
  predicate Filled(c: Codec, log: Log)
    requires Shaped(log)
  {
    var a := NextSlot(log.current);
    var b := NextSlot(a);
    var d := NextSlot(b);
    && (Full(c, b, log.slots[b]) || (log.slots[b].records == [] && log.slots[a].records == []))
    && (Full(c, d, log.slots[d])
        || (log.slots[d].records == [] && log.slots[b].records == [] && log.slots[a].records == []))
  }

  /** Once a record has been dropped, both are full. */
  predicate Dropping(c: Codec, log: Log, history: seq<Record>)
    requires Shaped(log)
  {
    var b := NextSlot(NextSlot(log.current));
    |Ring(log)| < |history| ==> Full(c, b, log.slots[b]) && Full(c, NextSlot(b), log.slots[NextSlot(b)])
  }

  ghost predicate Retaining(c: Codec, log: Log, history: seq<Record>) {
    Shaped(log) && Filled(c, log) && Dropping(c, log, history)
  }

  lemma EmptyNotFull(c: Codec, i: nat, s: Slot)
    requires Lawful(c) && i < SLOTS && 0 < s.cycle <= MAX_SEQUENCE && s.records == []
    ensures !Full(c, i, s)
  {
    HeaderFits(c, i, s.cycle);
    hide Lawful;
  }

  lemma NoLines(c: Codec)
    ensures Lines(c, []) == []
  {
  }

  /** A slot the next record does not fit is full, and holds some. */
  lemma UnfitIsFull(c: Codec, log: Log, payload: string)
    requires Shaped(log) && Appendable(c, log, payload) && !Fits(c, log, payload)
    ensures Full(c, log.current, log.slots[log.current]) && log.slots[log.current].records != []
  {
    NoLines(c);
    hide Lines;
  }

  /** Emptying the oldest slot loses records only when both middle slots are full. */
  lemma RotatedRetains(c: Codec, log: Log, history: seq<Record>)
    requires Retaining(c, log, history) && Suffix(Ring(log), history)
    ensures Retaining(c, Rotated(log), history)
  {
    var a := NextSlot(log.current);
    Cycle(log.current);
    Rings(log, Record(0, ""));
    hide NextSlot, Full;
    var t := Rotated(log);
    assert t.slots[NextSlot(a)] == log.slots[NextSlot(a)];
    assert t.slots[NextSlot(NextSlot(a))] == log.slots[NextSlot(NextSlot(a))];
    if |log.slots[a].records| > 0 {
      assert Full(c, NextSlot(a), log.slots[NextSlot(a)]);
    } else {
      assert Ring(log)[0..] == Ring(log);
    }
    hide Ring;
  }

  lemma WrittenRetains(c: Codec, log: Log, history: seq<Record>, r: Record)
    requires Retaining(c, log, history)
    ensures Retaining(c, Written(log, log.current, r), history + [r])
  {
    Cycle(log.current);
    Rings(log, r);
    hide NextSlot, Full, Ring;
  }

  lemma MovedRetains(c: Codec, log: Log, history: seq<Record>, r: Record)
    requires Retaining(c, log, history) && Suffix(Ring(log), history)
    requires Full(c, log.current, log.slots[log.current])
    ensures Retaining(c, Written(Rotated(log), NextSlot(log.current), r), history + [r])
  {
    var a := NextSlot(log.current);
    var b := NextSlot(a);
    var d := NextSlot(b);
    Cycle(log.current);
    Cycle(a);
    Rings(log, r);
    hide NextSlot, Full;
    var t := Written(Rotated(log), a, r);
    assert t.slots[b] == log.slots[b] && t.slots[d] == log.slots[d];
    assert t.slots[log.current] == log.slots[log.current];
    hide Ring, Rotated, Written;
    if |log.slots[a].records| == 0 { assert Ring(log)[0..] == Ring(log); }
  }

  lemma AppendedRetains(c: Codec, log: Log, history: seq<Record>, payload: string)
    requires Retaining(c, log, history) && Suffix(Ring(log), history) && Appendable(c, log, payload)
    ensures Retaining(c, Appended(c, log, payload), history + [Candidate(log, payload)])
    ensures Retaining(c, Prepared(c, log, payload), history)
  {
    assert Shaped(log);
    hide Retaining, Suffix, Ring;
    if Fits(c, log, payload) {
      WrittenRetains(c, log, history, Candidate(log, payload));
    } else {
      UnfitIsFull(c, log, payload);
      MovedRetains(c, log, history, Candidate(log, payload));
      RotatedRetains(c, log, history);
      hide Appendable, Full;
    }
  }

  // ---------------------------------------------------------------- every run

  lemma LandedRetains(c: Codec, w: World, payload: string, n: nat)
    requires Shaped(w.log) && |w.disk| == SLOTS && Retaining(c, w.log, w.history)
    requires Suffix(Ring(w.log), w.history) && Appendable(c, w.log, payload)
    ensures var v := Landed(c, w, payload, n); Retaining(c, v.log, v.history)
  {
    hide Retaining, Suffix, Ring, Appendable, Appended, Prepared;
    AppendedRetains(c, w.log, w.history, payload);
  }

  lemma InterruptedRetains(c: Codec, w: World, payload: string, cut: Cut)
    requires Shaped(w.log) && |w.disk| == SLOTS && Retaining(c, w.log, w.history)
    requires Suffix(Ring(w.log), w.history) && Appendable(c, w.log, payload)
    ensures var v := Interrupted(c, w, payload, cut); Retaining(c, v.log, v.history)
  {
    hide Retaining, Suffix, Ring, Appendable, Landed;
    if cut.RecordPart? {
      LandedRetains(c, w, payload, cut.n);
    } else {
      RotatedRetains(c, w.log, w.history);
    }
  }

  lemma ReopenRetains(c: Codec, w: World)
    requires Lawful(c) && Sound(c, w) && !w.live && Readable(c, w.disk) && Retaining(c, w.log, w.history)
    ensures Retaining(c, Open(c, w.disk).value, w.history)
  {
    if Broken(w.disk) {
      BrokenStays(c, w.disk);
    } else {
      hide Lawful, Sound, Readable, Open;
      var t, torn := DeadDisk(c, w);
      OpenOk(c, w.log, w.history, w.disk, t, torn);
      var o := Open(c, w.disk).value;
      if w.history == [] {
        NothingRetained(c, o);
      } else {
        assert o.current == w.log.current && o.slots == w.log.slots;
        hide LogOk;
        SameRing(o, w.log);
        hide Ring;
      }
    }
  }

  lemma SameRing(x: Log, y: Log)
    requires Shaped(x) && Shaped(y) && x.slots == y.slots && x.current == y.current
    ensures Ring(x) == Ring(y)
  {
  }

  /** A log without history is unused throughout. */
  lemma NothingRetained(c: Codec, log: Log)
    requires LogOk(c, log, [])
    ensures Retaining(c, log, [])
  {
    assert Ring(log) == [];
    hide NextSlot, Full, RenderSlot;
    var a := NextSlot(log.current);
    assert log.slots[a].records == [] && log.slots[NextSlot(a)].records == [];
    assert log.slots[NextSlot(NextSlot(a))].records == [];
  }

  lemma NextRetains(c: Codec, w: World, e: Step)
    requires Lawful(c) && Sound(c, w) && Shaped(w.log) && |w.disk| == SLOTS && Retaining(c, w.log, w.history)
    ensures var v := Next(c, w, e); Retaining(c, v.log, v.history)
  {
    assert Suffix(Ring(w.log), w.history);
    hide Lawful, Sound, Retaining, Suffix, Ring, Appendable, Landed, Interrupted, Readable, Open, Trimmed;
    match e {
      case Write(payload) =>
        if w.live && Appendable(c, w.log, payload) {
          LandedRetains(c, w, payload, |Line(c, Candidate(w.log, payload))|);
        }
      case Break(payload, cut) =>
        if w.live && Appendable(c, w.log, payload) { InterruptedRetains(c, w, payload, cut); }
      case Kill =>
      case Reopen => if !w.live && Readable(c, w.disk) { ReopenRetains(c, w); }
    }
  }

  lemma {:induction false} RunRetains(c: Codec, steps: seq<Step>)
    requires Lawful(c)
    ensures var w := Run(c, steps); Retaining(c, w.log, w.history)
  {
    if steps == [] {
      StartSound(c);
      NothingRetained(c, Start(c).log);
    } else {
      hide Lawful, Next, Retaining;
      var before := steps[..|steps| - 1];
      RunRetains(c, before);
      RunSound(c, before);
      NextRetains(c, Run(c, before), steps[|steps| - 1]);
    }
  }

  /** The bytes of the retained records. */
  function RetainedBytes(c: Codec, log: Log): nat
    requires Shaped(log)
  {
    |Lines(c, Ring(log))|
  }

  lemma {:induction false} LinesJoin(c: Codec, x: seq<Record>, y: seq<Record>)
    ensures Lines(c, x + y) == Lines(c, x) + Lines(c, y)
  {
    if x == [] {
      assert x + y == y;
    } else {
      hide Line;
      LinesJoin(c, x[1..], y);
      assert (x + y)[1..] == x[1..] + y && (x + y)[0] == x[0];
      Regroup(Line(c, x[0]), Lines(c, x[1..]), Lines(c, y));
    }
  }

  lemma Regroup(x: Bytes, y: Bytes, z: Bytes)
    ensures x + (y + z) == x + y + z
  {
  }

  lemma FullBytes(c: Codec, i: nat, s: Slot)
    requires Lawful(c) && i < SLOTS && SlotOk(c, i, s) && Full(c, i, s)
    ensures |Lines(c, s.records)| > SLOT_LIMIT - RECORD_BYTES - HEADER_BYTES - 1
  {
    HeaderFits(c, i, s.cycle);
    hide Lawful, Lines;
  }

  /** In every run, once anything has been dropped the log retains more than two slots' worth
      of the latest records: no record is lost before half of the space holds later ones. */
  lemma RetainsTwoSlots(c: Codec, steps: seq<Step>)
    requires Lawful(c)
    ensures var w := Run(c, steps);
            |Ring(w.log)| < |w.history| ==> RetainedBytes(c, w.log) > 2 * (256 * 1024 - 64 - 2048 - 257)
  {
    RunRetains(c, steps);
    RunSound(c, steps);
    var w := Run(c, steps);
    hide Run;
    if |Ring(w.log)| < |w.history| {
      var a := NextSlot(w.log.current);
      var b := NextSlot(a);
      var d := NextSlot(b);
      Cycle(w.log.current);
      assert SlotOk(c, b, w.log.slots[b]) && SlotOk(c, d, w.log.slots[d]);
      FullBytes(c, b, w.log.slots[b]);
      FullBytes(c, d, w.log.slots[d]);
      var x, y, z, u := w.log.slots[a].records, w.log.slots[b].records, w.log.slots[d].records,
        w.log.slots[w.log.current].records;
      assert Ring(w.log) == x + y + z + u;
      hide Lawful, Sound, Retaining, Full, Lines, Ring, NextSlot, SlotOk;
      LinesJoin(c, x + y + z, u);
      LinesJoin(c, x + y, z);
      LinesJoin(c, x, y);
    }
  }
}
