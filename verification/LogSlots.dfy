/** One slot file of the engine event log (shared/proxy/engine_log.go): a header line, record
    lines, and possibly a torn last line. The JSON encoding is a parameter with its laws. */
module LogSlots {
  import opened Prelude

  const SLOTS: nat := 4
  const NEWLINE: Byte := 10
  const RECORD_BYTES: nat := 2048
  const HEADER_BYTES: nat := 256
  const SLOT_LIMIT: nat := 256 * 1024 - 64
  const MAX_SEQUENCE: nat := 0x1f_ffff_ffff_ffff

  datatype Record = Record(sequence: nat, payload: string)
  datatype Header = Header(slot: nat, cycle: nat)

  /** How records and headers are written for one namespace and build. */
  datatype Codec = Codec(
    valid: string -> bool,                 // the event rules
    record: Record -> Bytes,
    readRecord: Bytes -> Option<Record>,
    header: Header -> Bytes,
    readHeader: Bytes -> Option<Header>)

  predicate RecordOk(c: Codec, r: Record) { 0 < r.sequence <= MAX_SEQUENCE && c.valid(r.payload) }

  predicate HeaderOk(h: Header) { h.slot < SLOTS && 0 < h.cycle <= MAX_SEQUENCE }

  predicate Reads(c: Codec, r: Record) {
    c.record(r) != [] && NEWLINE !in c.record(r) && c.readRecord(c.record(r)) == Some(r)
  }

  predicate ReadsHeader(c: Codec, h: Header) {
    |c.header(h)| <= HEADER_BYTES && NEWLINE !in c.header(h) && c.readHeader(c.header(h)) == Some(h)
  }

  /** Canonical one-line encodings that decode to what was encoded. */
  ghost predicate Lawful(c: Codec) {
    && (forall r | RecordOk(c, r) :: Reads(c, r))
    && (forall h | HeaderOk(h) :: ReadsHeader(c, h))
    && (forall b: Bytes :: c.readRecord(b).Some? ==> c.record(c.readRecord(b).value) == b)
    && (forall b: Bytes :: c.readHeader(b).Some? ==> c.header(c.readHeader(b).value) == b)
  }

  function Line(c: Codec, r: Record): Bytes { c.record(r) + [NEWLINE] }

  function Lines(c: Codec, records: seq<Record>): Bytes {
    if records == [] then [] else Line(c, records[0]) + Lines(c, records[1..])
  }

  function HeaderLine(c: Codec, h: Header): Bytes { c.header(h) + [NEWLINE] }

  function Find(bytes: Bytes): (r: nat)
    ensures r <= |bytes| && NEWLINE !in bytes[..r] && (r < |bytes| ==> bytes[r] == NEWLINE)
  {
    if bytes == [] || bytes[0] == NEWLINE then 0
    else
      var r := Find(bytes[1..]) + 1;
      assert bytes[..r] == [bytes[0]] + bytes[1..][..r - 1];
      r
  }

  lemma {:induction false} FindIs(line: Bytes, rest: Bytes)
    requires NEWLINE !in line
    ensures Find(line) == |line| && Find(line + [NEWLINE] + rest) == |line|
  {
    if line != [] {
      FindIs(line[1..], rest);
      assert (line + [NEWLINE] + rest)[1..] == line[1..] + [NEWLINE] + rest;
    }
  }

  /** What a slot file holds: its cycle, its complete records, and the torn bytes after. */
  datatype Content = Content(cycle: nat, records: seq<Record>, torn: nat)

  function Last(records: seq<Record>): nat {
    if records == [] then 0 else records[|records| - 1].sequence
  }

  /** DecodeEngineLogRecord, after the bounds the reader adds. */
  function Decode(c: Codec, line: Bytes): Option<Record> {
    if line == [] || |line| + 1 > RECORD_BYTES then None
    else
      var r := c.readRecord(line);
      if r.None? || !RecordOk(c, r.value) then None else r
  }

  function ReadRecords(c: Codec, bytes: Bytes, last: nat): (r: Option<(seq<Record>, nat)>)
    ensures r.Some? ==> r.value.1 <= |bytes|
    decreases |bytes|
  {
    if bytes == [] then Some(([], 0))
    else
      var end := Find(bytes);
      if end == |bytes| then if |bytes| >= RECORD_BYTES then None else Some(([], |bytes|))
      else
        var r := Decode(c, bytes[..end]);
        if r.None? || r.value.sequence <= last then None
        else
          var rest := ReadRecords(c, bytes[end + 1..], r.value.sequence);
          if rest.None? then None else Some(([r.value] + rest.value.0, rest.value.1))
  }

  /** readEngineLogSlot. */
  function ReadSlot(c: Codec, index: nat, bytes: Bytes): (r: Option<Content>)
    ensures r.Some? ==> r.value.torn <= |bytes|
  {
    if |bytes| > SLOT_LIMIT then None
    else
      var end := Find(bytes);
      if end == |bytes| || end > HEADER_BYTES then None
      else
        var h := c.readHeader(bytes[..end]);
        if h.None? || h.value.slot != index || !HeaderOk(h.value) then None
        else
          var rs := ReadRecords(c, bytes[end + 1..], 0);
          if rs.None? then None else Some(Content(h.value.cycle, rs.value.0, rs.value.1))
  }

  /** The same with the records already read in front. */
  function After(records: seq<Record>, rest: Option<(seq<Record>, nat)>): Option<(seq<Record>, nat)> {
    if rest.None? then None else Some((records + rest.value.0, rest.value.1))
  }

  lemma AfterNothing(rest: Option<(seq<Record>, nat)>)
    ensures After([], rest) == rest
  {
    if rest.Some? { assert [] + rest.value.0 == rest.value.0; }
  }

  lemma AfterStep(c: Codec, bytes: Bytes, last: nat, records: seq<Record>)
    requires bytes != [] && Find(bytes) < |bytes|
    requires Decode(c, bytes[..Find(bytes)]).Some? && Decode(c, bytes[..Find(bytes)]).value.sequence > last
    ensures var r := Decode(c, bytes[..Find(bytes)]).value;
            var rest := ReadRecords(c, bytes[Find(bytes) + 1..], r.sequence);
            After(records, ReadRecords(c, bytes, last)) == After(records + [r], rest)
  {
    var r := Decode(c, bytes[..Find(bytes)]).value;
    var rest := ReadRecords(c, bytes[Find(bytes) + 1..], r.sequence);
    if rest.Some? { assert records + ([r] + rest.value.0) == records + [r] + rest.value.0; }
  }

  lemma ReadEnds(c: Codec, bytes: Bytes, last: nat, records: seq<Record>)
    requires bytes == [] || Find(bytes) == |bytes|
    ensures After(records, ReadRecords(c, bytes, last)) == if |bytes| >= RECORD_BYTES then None
            else Some((records, |bytes|))
  {
    assert records + [] == records;
  }

  lemma ReadRefuses(c: Codec, bytes: Bytes, last: nat, records: seq<Record>)
    requires bytes != [] && Find(bytes) < |bytes|
    requires Decode(c, bytes[..Find(bytes)]).None? || Decode(c, bytes[..Find(bytes)]).value.sequence <= last
    ensures After(records, ReadRecords(c, bytes, last)) == None
  {
  }

  /** The reader's loop over the record lines. */
  method ReadLines(c: Codec, bytes: Bytes) returns (r: Option<(seq<Record>, nat)>, size: nat, last: nat)
    ensures r == ReadRecords(c, bytes, 0)
    ensures r.Some? ==> size == |bytes| - r.value.1 && last == Last(r.value.0)
  {
    size, last := 0, 0;
    var b, records := bytes, [];
    AfterNothing(ReadRecords(c, bytes, 0));
    hide ReadRecords, After, Decode;
    while b != []
      invariant size == |bytes| - |b| && last == Last(records)
      invariant After(records, ReadRecords(c, b, last)) == ReadRecords(c, bytes, 0)
      decreases |b|
    {
      var end := Find(b);
      if end == |b| {
        ReadEnds(c, b, last, records);
        return if |b| >= RECORD_BYTES then None else Some((records, |b|)), size, last;
      }
      var d := Decode(c, b[..end]);
      if d.None? || d.value.sequence <= last {
        ReadRefuses(c, b, last, records);
        return None, 0, 0;
      }
      AfterStep(c, b, last, records);
      last, size, records, b := d.value.sequence, size + end + 1, records + [d.value], b[end + 1..];
    }
    ReadEnds(c, b, last, records);
    r := Some((records, 0));
  }

  /** The whole reader. */
  method ReadSlotFile(c: Codec, index: nat, bytes: Bytes) returns (r: Option<Content>, size: nat, last: nat)
    ensures r == ReadSlot(c, index, bytes)
    ensures r.Some? ==> size == |bytes| - r.value.torn && last == Last(r.value.records)
  {
    hide ReadRecords;
    if |bytes| > SLOT_LIMIT { return None, 0, 0; }
    var end := Find(bytes);
    if end == |bytes| || end > HEADER_BYTES { return None, 0, 0; }
    var h := c.readHeader(bytes[..end]);
    if h.None? || h.value.slot != index || !HeaderOk(h.value) { return None, 0, 0; }
    var rs, n, l := ReadLines(c, bytes[end + 1..]);
    if rs.None? { return None, 0, 0; }
    return Some(Content(h.value.cycle, rs.value.0, rs.value.1)), end + 1 + n, l;
  }

  // ---------------------------------------------------------------- reading back what was written

  /** Records of one slot: valid, increasing, each within the line bound. */
  ghost predicate Writable(c: Codec, records: seq<Record>, last: nat) {
    && (forall i | 0 <= i < |records| :: RecordOk(c, records[i]) && |Line(c, records[i])| <= RECORD_BYTES)
    && (forall i | 0 <= i < |records| :: records[i].sequence > last)
    && (forall i, j | 0 <= i < j < |records| :: records[i].sequence < records[j].sequence)
  }

  ghost predicate Torn(torn: Bytes) { NEWLINE !in torn && |torn| < RECORD_BYTES }

  lemma LineReadBack(c: Codec, r: Record, rest: Bytes, last: nat)
    requires Reads(c, r) && RecordOk(c, r) && |Line(c, r)| <= RECORD_BYTES && r.sequence > last
    ensures ReadRecords(c, Line(c, r) + rest, last) == After([r], ReadRecords(c, rest, r.sequence))
  {
    var all := Line(c, r) + rest;
    assert all == c.record(r) + [NEWLINE] + rest;
    FindIs(c.record(r), rest);
    assert all[..|c.record(r)|] == c.record(r) && all[|c.record(r)| + 1..] == rest;
  }

  /** Every complete record is read back and only the torn tail is left aside. */
  lemma {:induction false} RecordsReadBack(c: Codec, records: seq<Record>, torn: Bytes, last: nat)
    requires Lawful(c) && Writable(c, records, last) && Torn(torn)
    ensures ReadRecords(c, Lines(c, records) + torn, last) == Some((records, |torn|))
    decreases |records|
  {
    if records == [] {
      assert Lines(c, records) + torn == torn;
      FindIs(torn, []);
    } else {
      var r := records[0];
      var rest := Lines(c, records[1..]) + torn;
      assert Lines(c, records) + torn == Line(c, r) + rest;
      assert Reads(c, r) && RecordOk(c, r);
      LineReadBack(c, r, rest, last);
      RecordsReadBack(c, records[1..], torn, r.sequence);
      hide Lawful, Lines, ReadRecords, Reads;
      assert records == [r] + records[1..];
    }
  }

  function Render(c: Codec, index: nat, cycle: nat, records: seq<Record>): Bytes {
    HeaderLine(c, Header(index, cycle)) + Lines(c, records)
  }

  lemma SlotReadBack(c: Codec, index: nat, cycle: nat, records: seq<Record>, torn: Bytes)
    requires Lawful(c) && Writable(c, records, 0) && Torn(torn) && HeaderOk(Header(index, cycle))
    requires |Render(c, index, cycle, records) + torn| <= SLOT_LIMIT
    ensures ReadSlot(c, index, Render(c, index, cycle, records) + torn) == Some(Content(cycle, records, |torn|))
  {
    var h := Header(index, cycle);
    var rest := Lines(c, records) + torn;
    var all := Render(c, index, cycle, records) + torn;
    assert ReadsHeader(c, h);
    assert all == c.header(h) + [NEWLINE] + rest;
    FindIs(c.header(h), rest);
    assert all[..|c.header(h)|] == c.header(h) && all[|c.header(h)| + 1..] == rest;
    RecordsReadBack(c, records, torn, 0);
    hide Lawful, ReadRecords, Lines, Render;
  }

  /** A file without a complete header line is refused. */
  lemma NoHeaderRefused(c: Codec, index: nat, bytes: Bytes)
    requires NEWLINE !in bytes
    ensures ReadSlot(c, index, bytes) == None
  {
    FindIs(bytes, []);
  }

  lemma {:induction false} LinesAppend(c: Codec, records: seq<Record>, r: Record)
    ensures Lines(c, records + [r]) == Lines(c, records) + Line(c, r)
    decreases |records|
  {
    if records == [] {
      assert [r][1..] == [];
    } else {
      LinesAppend(c, records[1..], r);
      assert (records + [r])[1..] == records[1..] + [r];
    }
  }

  /** The other way round: whatever is read was written so, torn tail aside. */
  lemma {:induction false} ReadIsWritten(c: Codec, bytes: Bytes, last: nat)
    requires Lawful(c) && ReadRecords(c, bytes, last).Some?
    ensures var (records, torn) := ReadRecords(c, bytes, last).value;
            bytes[..|bytes| - torn] == Lines(c, records)
    decreases |bytes|
  {
    if bytes != [] && Find(bytes) < |bytes| {
      hide Lawful, Decode;
      var end := Find(bytes);
      var r := Decode(c, bytes[..end]).value;
      var (rest, torn) := ReadRecords(c, bytes[end + 1..], r.sequence).value;
      DecodedIs(c, bytes[..end]);
      ReadIsWritten(c, bytes[end + 1..], r.sequence);
      hide ReadRecords;
      assert ([r] + rest)[1..] == rest;
      Joined(bytes, end, torn);
    }
  }

  lemma DecodedIs(c: Codec, line: Bytes)
    requires Lawful(c) && Decode(c, line).Some?
    ensures c.record(Decode(c, line).value) == line
  {
  }

  lemma SlotIsWritten(c: Codec, index: nat, bytes: Bytes)
    requires Lawful(c) && ReadSlot(c, index, bytes).Some?
    ensures var k := ReadSlot(c, index, bytes).value;
            bytes[..|bytes| - k.torn] == Render(c, index, k.cycle, k.records)
  {
    var end := Find(bytes);
    var h := c.readHeader(bytes[..end]).value;
    assert c.header(h) == bytes[..end];
    hide Lawful;
    ReadIsWritten(c, bytes[end + 1..], 0);
    hide ReadRecords;
    var k := ReadSlot(c, index, bytes).value;
    assert Header(index, k.cycle) == h;
    hide ReadSlot, Lines;
    Joined(bytes, end, k.torn);
  }

  lemma Joined(bytes: Bytes, end: nat, torn: nat)
    requires end < |bytes| && bytes[end] == NEWLINE && torn <= |bytes| - end - 1
    ensures bytes[..|bytes| - torn] == bytes[..end] + [NEWLINE] + bytes[end + 1..][..|bytes| - end - 1 - torn]
  {
  }

  // ---------------------------------------------------------------- the laws can be met

  function Pow128(width: nat): nat {
    if width == 0 then 1 else 128 * Pow128(width - 1)
  }

  /** Fixed-width digits that avoid the newline. */
  function Digits(n: nat, width: nat): (r: Bytes)
    ensures |r| == width && NEWLINE !in r
  {
    if width == 0 then [] else Digits(n / 128, width - 1) + [11 + n % 128]
  }

  lemma {:induction false} DigitsInjective(a: nat, b: nat, width: nat)
    requires a < Pow128(width) && b < Pow128(width) && Digits(a, width) == Digits(b, width)
    ensures a == b
  {
    if width > 0 {
      var x, y := Digits(a, width), Digits(b, width);
      assert x[..width - 1] == Digits(a / 128, width - 1) && y[..width - 1] == Digits(b / 128, width - 1);
      assert x[width - 1] == y[width - 1];
      DigitsInjective(a / 128, b / 128, width - 1);
    }
  }

  function TextBytes(s: string): (r: Bytes)
    ensures |r| == 3 * |s| && NEWLINE !in r
  {
    if s == "" then [] else Digits(s[0] as int, 3) + TextBytes(s[1..])
  }

  lemma {:induction false} TextInjective(s: string, t: string)
    requires TextBytes(s) == TextBytes(t)
    ensures s == t
  {
    if s != "" && t != "" {
      assert TextBytes(s)[..3] == Digits(s[0] as int, 3) && TextBytes(s)[3..] == TextBytes(s[1..]);
      assert TextBytes(t)[..3] == Digits(t[0] as int, 3) && TextBytes(t)[3..] == TextBytes(t[1..]);
      assert Pow128(3) == 128 * 128 * 128;
      DigitsInjective(s[0] as int, t[0] as int, 3);
      TextInjective(s[1..], t[1..]);
      assert s == [s[0]] + s[1..] && t == [t[0]] + t[1..];
    }
  }

  function RecordBytes(r: Record): Bytes { Digits(r.sequence, 8) + TextBytes(r.payload) }

  function HeaderBytes(h: Header): Bytes { Digits(h.slot, 1) + Digits(h.cycle, 8) }

  predicate Spells(r: Record, b: Bytes) { 0 < r.sequence <= MAX_SEQUENCE && RecordBytes(r) == b }

  predicate SpellsHeader(h: Header, b: Bytes) { HeaderOk(h) && HeaderBytes(h) == b }

  ghost function ReadBack(b: Bytes): Option<Record> {
    if r :| Spells(r, b) then Some(r) else None
  }

  ghost function ReadHeaderBack(b: Bytes): Option<Header> {
    if h :| SpellsHeader(h, b) then Some(h) else None
  }

  ghost function Sample(): Codec {
    Codec(p => true, r => RecordBytes(r), b => ReadBack(b), h => HeaderBytes(h), b => ReadHeaderBack(b))
  }

  lemma SpelledOnce(r: Record, q: Record)
    requires Spells(r, RecordBytes(q)) && Spells(q, RecordBytes(q))
    ensures r == q
  {
    hide Digits, TextBytes;
    assert RecordBytes(r)[..8] == Digits(r.sequence, 8) && RecordBytes(r)[8..] == TextBytes(r.payload);
    assert RecordBytes(q)[..8] == Digits(q.sequence, 8) && RecordBytes(q)[8..] == TextBytes(q.payload);
    DigitsInjective(r.sequence, q.sequence, 8);
    TextInjective(r.payload, q.payload);
  }

  lemma HeaderSpelledOnce(h: Header, g: Header)
    requires SpellsHeader(h, HeaderBytes(g)) && SpellsHeader(g, HeaderBytes(g))
    ensures h == g
  {
    hide Digits;
    assert HeaderBytes(h)[..1] == Digits(h.slot, 1) && HeaderBytes(h)[1..] == Digits(h.cycle, 8);
    assert HeaderBytes(g)[..1] == Digits(g.slot, 1) && HeaderBytes(g)[1..] == Digits(g.cycle, 8);
    DigitsInjective(h.slot, g.slot, 1);
    DigitsInjective(h.cycle, g.cycle, 8);
  }

  /** There is an encoding with the stated laws, and one that admits every payload. */
  lemma LawfulCodecExists()
    ensures exists c: Codec :: Lawful(c) && forall p :: c.valid(p)
  {
    var c := Sample();
    hide Digits, TextBytes;
    forall r | RecordOk(c, r) ensures Reads(c, r) {
      assert Spells(r, RecordBytes(r));
      SpelledOnce(ReadBack(RecordBytes(r)).value, r);
    }
    forall h | HeaderOk(h) ensures ReadsHeader(c, h) {
      assert SpellsHeader(h, HeaderBytes(h));
      HeaderSpelledOnce(ReadHeaderBack(HeaderBytes(h)).value, h);
    }
    assert Lawful(c) && forall p :: c.valid(p);
  }
}
