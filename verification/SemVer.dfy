/** Version precedence of the update verifier (shared/updateverify/semver.go) against
    section 11 of Semantic Versioning 2.0.0. */
module SemVer {
  import opened Prelude

  const MAX_LENGTH: nat := 128
  const MAX_IDS: nat := 8
  const MAX_ID_LENGTH: nat := 64

  datatype Version = Version(major: nat, minor: nat, patch: nat, pre: seq<string>)

  // ---------------------------------------------------------------- parsing

  predicate Digit(c: char) { '0' <= c <= '9' }

  predicate Numeric(s: string) { s != "" && forall i | 0 <= i < |s| :: Digit(s[i]) }

  predicate Plain(s: string) { s != "" && (Numeric(s) && |s| > 1 ==> s[0] != '0') }

  predicate IdChar(c: char) { Digit(c) || 'A' <= c <= 'Z' || 'a' <= c <= 'z' || c == '-' }

  /** The decimal value, of any length. */
  function Value(s: string): nat
    requires forall i | 0 <= i < |s| :: Digit(s[i])
  {
    if s == "" then 0 else assert Digit(s[|s| - 1]); 10 * Value(s[..|s| - 1]) + (s[|s| - 1] as int - '0' as int)
  }

  /** Position of the first separator, or the length. */
  function Find(s: string, sep: char): (r: nat)
    ensures r <= |s| && sep !in s[..r] && (r < |s| ==> s[r] == sep)
  {
    if s == "" || s[0] == sep then 0 else
      var r := Find(s[1..], sep) + 1;
      assert s[..r] == [s[0]] + s[1..][..r - 1];
      r
  }

  function Split(s: string, sep: char): (r: seq<string>)
    ensures |r| > 0
    decreases |s|
  {
    var at := Find(s, sep);
    if at == |s| then [s] else [s[..at]] + Split(s[at + 1..], sep)
  }

  predicate IdOk(id: string, prerelease: bool) {
    0 < |id| <= MAX_ID_LENGTH && (prerelease ==> Plain(id)) && forall i | 0 <= i < |id| :: IdChar(id[i])
  }

  predicate IdsOk(s: string, prerelease: bool) {
    var ids := Split(s, '.');
    |ids| <= MAX_IDS && forall i | 0 <= i < |ids| :: IdOk(ids[i], prerelease)
  }

  predicate CoreOk(item: string) { Numeric(item) && Plain(item) && Value(item) < 0x1_0000_0000 }

  /** The part of a version before its build metadata. */
  function ParseRelease(s: string): Option<Version> {
    var dash := Find(s, '-');
    if dash < |s| && !IdsOk(s[dash + 1..], true) then None
    else
      var core := Split(s[..dash], '.');
      if |core| != 3 || !CoreOk(core[0]) || !CoreOk(core[1]) || !CoreOk(core[2]) then None
      else
        var pre := if dash < |s| then Split(s[dash + 1..], '.') else [];
        Some(Version(Value(core[0]), Value(core[1]), Value(core[2]), pre))
  }

  /** parseVersion. */
  function Parse(s: string): Option<Version> {
    if s == "" || |s| > MAX_LENGTH then None
    else
      var parts := Split(s, '+');
      if |parts| > 2 || (|parts| == 2 && !IdsOk(parts[1], false)) then None
      else ParseRelease(parts[0])
  }

  /** What every parsed version satisfies. */
  predicate Parsed(v: Version) { forall i | 0 <= i < |v.pre| :: Plain(v.pre[i]) }

  lemma ParseGivesParsed(s: string)
    requires Parse(s).Some?
    ensures Parsed(Parse(s).value)
  {
  }

  /** parseVersion's own loop over the three core items. */
  method ParseVersion(s: string) returns (result: Option<Version>)
    ensures result == Parse(s)
  {
    if s == "" || |s| > MAX_LENGTH { return None; }
    var parts := Split(s, '+');
    if |parts| > 2 || (|parts| == 2 && !IdsOk(parts[1], false)) { return None; }
    var dash := Find(parts[0], '-');
    var pre := [];
    if dash < |parts[0]| {
      if !IdsOk(parts[0][dash + 1..], true) { return None; }
      pre := Split(parts[0][dash + 1..], '.');
    }
    var core := Split(parts[0][..dash], '.');
    if |core| != 3 { return None; }
    var numbers: seq<nat> := [];
    for i := 0 to 3
      invariant |numbers| == i
      invariant forall k | 0 <= k < i :: CoreOk(core[k]) && numbers[k] == Value(core[k])
    {
      if !Numeric(core[i]) || (|core[i]| > 1 && core[i][0] == '0') { return None; }
      if Value(core[i]) >= 0x1_0000_0000 { return None; }
      numbers := numbers + [Value(core[i])];
    }
    return Some(Version(numbers[0], numbers[1], numbers[2], pre));
  }

  // ---------------------------------------------------------------- rendering

  function Digits(n: nat): (r: string)
    ensures Numeric(r) && Plain(r) && Value(r) == n && (n > 0 ==> r[0] != '0')
  {
    var last := ('0' as int + n % 10) as char;
    if n < 10 then
      assert [last][..0] == "";
      [last]
    else
      var r := Digits(n / 10) + [last];
      assert r[..|r| - 1] == Digits(n / 10);
      r
  }

  function Join(ids: seq<string>): string
    requires ids != []
  {
    if |ids| == 1 then ids[0] else ids[0] + "." + Join(ids[1..])
  }

  function Core(v: Version): string {
    Digits(v.major) + "." + (Digits(v.minor) + "." + Digits(v.patch))
  }

  function Release(v: Version): string {
    if v.pre == [] then Core(v) else Core(v) + "-" + Join(v.pre)
  }

  function Render(v: Version, build: seq<string>): string {
    if build == [] then Release(v) else Release(v) + "+" + Join(build)
  }

  lemma {:induction false} FindIn(a: string, sep: char, rest: string)
    requires sep !in a
    ensures Find(a, sep) == |a| && Find(a + [sep] + rest, sep) == |a|
  {
    if a != "" {
      FindIn(a[1..], sep, rest);
      assert (a + [sep] + rest)[1..] == a[1..] + [sep] + rest;
    }
  }

  lemma SplitOnce(a: string, sep: char, rest: string)
    requires sep !in a
    ensures Split(a, sep) == [a] && Split(a + [sep] + rest, sep) == [a] + Split(rest, sep)
  {
    FindIn(a, sep, rest);
    assert (a + [sep] + rest)[..|a|] == a && (a + [sep] + rest)[|a| + 1..] == rest;
  }

  lemma {:induction false} SplitJoin(ids: seq<string>)
    requires ids != [] && forall i | 0 <= i < |ids| :: '.' !in ids[i]
    ensures Split(Join(ids), '.') == ids
  {
    if |ids| == 1 {
      SplitOnce(ids[0], '.', "");
    } else {
      SplitOnce(ids[0], '.', Join(ids[1..]));
      SplitJoin(ids[1..]);
    }
  }

  lemma {:induction false} JoinHas(ids: seq<string>, c: char)
    requires ids != [] && c != '.' && forall i | 0 <= i < |ids| :: c !in ids[i]
    ensures c !in Join(ids)
  {
    if |ids| > 1 { JoinHas(ids[1..], c); }
  }

  predicate Identifiers(ids: seq<string>, prerelease: bool) {
    |ids| <= MAX_IDS && forall i | 0 <= i < |ids| :: IdOk(ids[i], prerelease)
  }

  lemma JoinOk(ids: seq<string>, prerelease: bool)
    requires ids != [] && Identifiers(ids, prerelease)
    ensures IdsOk(Join(ids), prerelease) && Split(Join(ids), '.') == ids && '+' !in Join(ids)
  {
    forall i, j | 0 <= i < |ids| && 0 <= j < |ids[i]| ensures ids[i][j] != '.' && ids[i][j] != '+' {
      assert IdOk(ids[i], prerelease);
      assert IdChar(ids[i][j]);
    }
    SplitJoin(ids);
    JoinHas(ids, '+');
  }

  lemma CoreSplits(v: Version)
    ensures Split(Core(v), '.') == [Digits(v.major), Digits(v.minor), Digits(v.patch)]
    ensures '-' !in Core(v) && '+' !in Core(v)
  {
    var a, b, c := Digits(v.major), Digits(v.minor), Digits(v.patch);
    DigitsOnly(a);
    DigitsOnly(b);
    DigitsOnly(c);
    hide Digits, Split;
    SplitOnce(a, '.', b + "." + c);
    SplitOnce(b, '.', c);
    SplitOnce(c, '.', "");
  }

  lemma DigitsOnly(s: string)
    requires Numeric(s)
    ensures '.' !in s && '-' !in s && '+' !in s
  {
  }

  predicate WellFormed(v: Version) {
    v.major < 0x1_0000_0000 && v.minor < 0x1_0000_0000 && v.patch < 0x1_0000_0000 && Identifiers(v.pre, true)
  }

  lemma ReleaseSplits(v: Version)
    requires WellFormed(v)
    ensures var m := Release(v);
            var dash := Find(m, '-');
            && '+' !in m && m != "" && m[..dash] == Core(v)
            && (dash < |m| <==> v.pre != []) && (v.pre != [] ==> m[dash + 1..] == Join(v.pre))
  {
    CoreSplits(v);
    hide Split;
    if v.pre == [] {
      FindIn(Core(v), '-', "");
    } else {
      FindIn(Core(v), '-', Join(v.pre));
      JoinOk(v.pre, true);
      assert Release(v)[..|Core(v)|] == Core(v) && Release(v)[|Core(v)| + 1..] == Join(v.pre);
    }
  }

  lemma ReleaseParses(v: Version)
    requires WellFormed(v)
    ensures ParseRelease(Release(v)) == Some(v)
  {
    ReleaseSplits(v);
    CoreSplits(v);
    if v.pre != [] { JoinOk(v.pre, true); }
    hide Release, Core, Find, Split, Join, Digits;
  }

  /** Every well-formed version, rendered with any well-formed build metadata within the
      length bound, parses back to itself; the build metadata leaves no trace. */
  lemma RenderParses(v: Version, build: seq<string>)
    requires WellFormed(v) && Identifiers(build, false) && |Render(v, build)| <= MAX_LENGTH
    ensures Parse(Render(v, build)) == Some(v)
  {
    ReleaseSplits(v);
    ReleaseParses(v);
    hide Release, Find, ParseRelease, Split, Join, IdsOk, WellFormed;
    if build == [] {
      SplitOnce(Release(v), '+', "");
    } else {
      JoinOk(build, false);
      SplitTwo(Release(v), '+', Join(build));
    }
  }

  lemma SplitTwo(a: string, sep: char, b: string)
    requires sep !in a && sep !in b
    ensures Split(a + [sep] + b, sep) == [a, b]
  {
    SplitOnce(a, sep, b);
    SplitOnce(b, sep, "");
    hide Split;
  }

  // ---------------------------------------------------------------- the standard's precedence

  datatype Identifier = Number(value: nat) | Text(text: string)

  function Meaning(id: string): Identifier {
    if Numeric(id) then Number(Value(id)) else Text(id)
  }

  function Sign(a: int, b: int): int { if a < b then -1 else if a > b then 1 else 0 }

  /** ASCII order of texts. */
  function Lexical(a: string, b: string): int {
    if a == "" || b == "" then Sign(|a|, |b|)
    else if a[0] != b[0] then Sign(a[0] as int, b[0] as int)
    else Lexical(a[1..], b[1..])
  }

  function IdOrder(a: Identifier, b: Identifier): int {
    if a.Number? && b.Number? then Sign(a.value, b.value)
    else if a.Number? then -1
    else if b.Number? then 1
    else Lexical(a.text, b.text)
  }

  function PreOrder(a: seq<string>, b: seq<string>): int {
    if a == [] || b == [] then Sign(|a|, |b|)
    else
      var c := IdOrder(Meaning(a[0]), Meaning(b[0]));
      if c != 0 then c else PreOrder(a[1..], b[1..])
  }

  /** Section 11: the core numerically, a pre-release below its release, then identifier by
      identifier. */
  function Precedence(a: Version, b: Version): int {
    if a.major != b.major then Sign(a.major, b.major)
    else if a.minor != b.minor then Sign(a.minor, b.minor)
    else if a.patch != b.patch then Sign(a.patch, b.patch)
    else if a.pre == [] || b.pre == [] then Sign(if a.pre == [] then 1 else 0, if b.pre == [] then 1 else 0)
    else PreOrder(a.pre, b.pre)
  }

  // ---------------------------------------------------------------- length and text are numeric order

  lemma {:induction false} ValueBounds(s: string)
    requires Numeric(s)
    ensures Value(s) < Pow10(|s|) && (s[0] != '0' ==> Pow10(|s| - 1) <= Value(s))
  {
    if |s| > 1 {
      ValueBounds(s[..|s| - 1]);
    } else {
      assert s[..0] == "";
    }
  }

  function Pow10(n: nat): (r: nat)
    ensures r > 0
  {
    if n == 0 then 1 else 10 * Pow10(n - 1)
  }

  lemma {:induction false} Pow10Grows(a: nat, b: nat)
    requires a <= b
    ensures Pow10(a) <= Pow10(b)
  {
    if a < b { Pow10Grows(a, b - 1); }
  }

  lemma TenTimes(d: int, p: int)
    ensures d * (10 * p) == 10 * (d * p)
  {
  }

  lemma ValueLast(s: string)
    requires Numeric(s)
    ensures Value(s) == 10 * Value(s[..|s| - 1]) + (s[|s| - 1] as int - '0' as int)
  {
  }

  lemma {:induction false} ValueSplit(s: string)
    requires Numeric(s)
    ensures Value(s) == (s[0] as int - '0' as int) * Pow10(|s| - 1) + Value(s[1..])
  {
    if |s| > 1 {
      var t := s[..|s| - 1];
      ValueSplit(t);
      assert t[1..] == s[1..][..|s| - 2];
      ValueLast(s);
      ValueLast(s[1..]);
      TenTimes(s[0] as int - '0' as int, Pow10(|s| - 2));
      hide Value;
    } else {
      assert s[..0] == "" && s[1..] == "";
    }
  }

  lemma {:induction false} LeadDecides(d: int, e: int, p: nat, x: nat, y: nat)
    requires d < e && x < p
    ensures d * p + x < e * p + y
    decreases e - d
  {
    assert e * p == (e - 1) * p + p;
    if d < e - 1 { LeadDecides(d, e - 1, p, x, y); }
  }

  /** Texts of one length: their order is that of the numbers. */
  lemma {:induction false} SameLengthOrder(a: string, b: string)
    requires |a| == |b| && (forall i | 0 <= i < |a| :: Digit(a[i]) && Digit(b[i]))
    ensures Lexical(a, b) == Sign(Value(a), Value(b))
  {
    if a != "" {
      ValueSplit(a);
      ValueSplit(b);
      var d, e, p := a[0] as int - '0' as int, b[0] as int - '0' as int, Pow10(|a| - 1);
      TailBound(a[1..]);
      TailBound(b[1..]);
      if d < e {
        LeadDecides(d, e, p, Value(a[1..]), Value(b[1..]));
      } else if d > e {
        LeadDecides(e, d, p, Value(b[1..]), Value(a[1..]));
      } else {
        SameLengthOrder(a[1..], b[1..]);
      }
    }
  }

  lemma TailBound(s: string)
    requires forall i | 0 <= i < |s| :: Digit(s[i])
    ensures Value(s) < Pow10(|s|)
  {
    if s != "" { ValueBounds(s); }
  }

  lemma ShorterIsSmaller(a: string, b: string)
    requires Numeric(a) && Numeric(b) && Plain(b) && |a| < |b|
    ensures Value(a) < Value(b)
  {
    ValueBounds(a);
    ValueBounds(b);
    Pow10Grows(|a|, |b| - 1);
  }

  lemma {:induction false} LexicalZero(a: string, b: string)
    ensures Lexical(a, b) == 0 <==> a == b
  {
    if a != "" && b != "" {
      LexicalZero(a[1..], b[1..]);
      assert a == [a[0]] + a[1..] && b == [b[0]] + b[1..];
    }
  }

  /** What compareVersion answers for two identifiers that differ. */
  function Compared(x: string, y: string): int {
    if Numeric(x) && !Numeric(y) then -1
    else if !Numeric(x) && Numeric(y) then 1
    else if Numeric(x) && |x| != |y| then Sign(|x|, |y|)
    else Lexical(x, y)
  }

  /** Digit strings of any length need no number type: length, then text, is their order. */
  lemma ComparedIsOrder(x: string, y: string)
    requires Plain(x) && Plain(y)
    ensures Compared(x, y) == IdOrder(Meaning(x), Meaning(y))
    ensures Compared(x, y) == 0 <==> x == y
  {
    LexicalZero(x, y);
    if Numeric(x) && Numeric(y) {
      if |x| < |y| {
        ShorterIsSmaller(x, y);
      } else if |x| > |y| {
        ShorterIsSmaller(y, x);
      } else {
        SameLengthOrder(x, y);
      }
    }
  }

  // ---------------------------------------------------------------- nothing else parses

  lemma {:induction false} JoinSplit(s: string)
    ensures Join(Split(s, '.')) == s
    decreases |s|
  {
    var at := Find(s, '.');
    if at < |s| {
      JoinSplit(s[at + 1..]);
      assert s == s[..at] + "." + s[at + 1..];
    }
  }

  lemma SplitParts(s: string, sep: char)
    ensures var parts := Split(s, sep);
            && (|parts| == 1 ==> s == parts[0])
            && (|parts| == 2 ==> s == parts[0] + [sep] + parts[1])
  {
    var at := Find(s, sep);
    if at < |s| { assert s == s[..at] + [sep] + s[at + 1..]; }
  }

  lemma SplitThree(s: string)
    requires |Split(s, '.')| == 3
    ensures var p := Split(s, '.'); s == p[0] + "." + (p[1] + "." + p[2])
  {
    var p := Split(s, '.');
    JoinSplit(s);
    hide Split;
    assert Join(p) == p[0] + "." + Join(p[1..]) && Join(p[1..]) == p[1] + "." + Join(p[1..][1..]);
  }

  /** A core number has one spelling. */
  lemma OneSpelling(item: string)
    requires CoreOk(item)
    ensures Digits(Value(item)) == item
  {
    hide Digits;
    ComparedIsOrder(Digits(Value(item)), item);
  }

  lemma ReleaseRenders(s: string)
    requires ParseRelease(s).Some?
    ensures WellFormed(ParseRelease(s).value) && s == Release(ParseRelease(s).value)
  {
    hide Split, Digits, Value, Find, Join, IdOk, Numeric, Plain;
    var v, dash := ParseRelease(s).value, Find(s, '-');
    var core := Split(s[..dash], '.');
    SplitThree(s[..dash]);
    OneSpelling(core[0]);
    OneSpelling(core[1]);
    OneSpelling(core[2]);
    assert s[..dash] == Core(v);
    hide Core;
    if dash < |s| {
      JoinSplit(s[dash + 1..]);
      assert s == s[..dash] + "-" + s[dash + 1..];
    } else {
      assert s[..dash] == s;
    }
  }

  /** The converse: a string that parses is the rendering of a well-formed version, with
      some well-formed build metadata, within the length bound. */
  lemma ParseRenders(s: string)
    requires Parse(s).Some?
    ensures WellFormed(Parse(s).value) && 0 < |s| <= MAX_LENGTH
    ensures exists build :: Identifiers(build, false) && s == Render(Parse(s).value, build)
  {
    var parts := Split(s, '+');
    SplitParts(s, '+');
    ReleaseRenders(parts[0]);
    hide ParseRelease, Release, WellFormed;
    if |parts| == 2 {
      var build := Split(parts[1], '.');
      JoinSplit(parts[1]);
      assert Identifiers(build, false) && s == Render(Parse(s).value, build);
    } else {
      assert Identifiers([], false) && s == Render(Parse(s).value, []);
    }
  }

  /** compareVersion. */
  method Compare(a: Version, b: Version) returns (r: int)
    requires Parsed(a) && Parsed(b)
    ensures r == Precedence(a, b)
  {
    if a.major != b.major { return Sign(a.major, b.major); }
    if a.minor != b.minor { return Sign(a.minor, b.minor); }
    if a.patch != b.patch { return Sign(a.patch, b.patch); }
    if a.pre == [] && b.pre == [] { return 0; }
    if a.pre == [] { return 1; }
    if b.pre == [] { return -1; }
    var i := 0;
    while i < |a.pre| && i < |b.pre|
      invariant i <= |a.pre| && i <= |b.pre|
      invariant PreOrder(a.pre[i..], b.pre[i..]) == PreOrder(a.pre, b.pre)
    {
      var x, y := a.pre[i], b.pre[i];
      ComparedIsOrder(x, y);
      assert a.pre[i..][1..] == a.pre[i + 1..] && b.pre[i..][1..] == b.pre[i + 1..];
      i := i + 1;
      if x == y { continue; }
      var xn, yn := Numeric(x), Numeric(y);
      if xn && !yn { return -1; }
      if !xn && yn { return 1; }
      if xn && |x| != |y| { return if |x| < |y| then -1 else 1; }
      return Lexical(x, y);
    }
    return if |a.pre| < |b.pre| then -1 else if |a.pre| > |b.pre| then 1 else 0;
  }

  // ---------------------------------------------------------------- a total preorder

  lemma {:induction false} LexicalOrder(a: string, b: string, c: string)
    ensures Lexical(a, b) == -Lexical(b, a)
    ensures Lexical(a, b) <= 0 && Lexical(b, c) <= 0 ==> Lexical(a, c) <= 0
    ensures Lexical(a, b) <= 0 && Lexical(b, c) <= 0 && Lexical(a, c) == 0 ==> Lexical(a, b) == 0 && Lexical(b, c) == 0
  {
    if a != "" && b != "" {
      if c != "" { LexicalOrder(a[1..], b[1..], c[1..]); } else { LexicalOrder(a[1..], b[1..], ""); }
    }
  }

  lemma IdOrderOrder(a: Identifier, b: Identifier, c: Identifier)
    ensures IdOrder(a, b) == -IdOrder(b, a)
    ensures IdOrder(a, b) <= 0 && IdOrder(b, c) <= 0 ==> IdOrder(a, c) <= 0
    ensures IdOrder(a, b) <= 0 && IdOrder(b, c) <= 0 && IdOrder(a, c) == 0 ==> IdOrder(a, b) == 0 && IdOrder(b, c) == 0
  {
    if a.Text? && b.Text? {
      LexicalOrder(a.text, b.text, if c.Text? then c.text else "");
    }
  }

  lemma {:induction false} PreOrderOrder(a: seq<string>, b: seq<string>, c: seq<string>)
    ensures PreOrder(a, b) == -PreOrder(b, a)
    ensures PreOrder(a, b) <= 0 && PreOrder(b, c) <= 0 ==> PreOrder(a, c) <= 0
    ensures PreOrder(a, b) <= 0 && PreOrder(b, c) <= 0 && PreOrder(a, c) == 0 ==>
              PreOrder(a, b) == 0 && PreOrder(b, c) == 0
  {
    if a != [] && b != [] {
      hide IdOrder, Meaning;
      if c != [] {
        IdOrderOrder(Meaning(a[0]), Meaning(b[0]), Meaning(c[0]));
        PreOrderOrder(a[1..], b[1..], c[1..]);
      } else {
        IdOrderOrder(Meaning(a[0]), Meaning(b[0]), Meaning(b[0]));
        PreOrderOrder(a[1..], b[1..], []);
      }
    }
  }

  /** Precedence is total, antisymmetric up to equality of precedence, and transitive. */
  lemma PrecedenceOrder(a: Version, b: Version, c: Version)
    ensures Precedence(a, b) == -Precedence(b, a)
    ensures Precedence(a, b) <= 0 && Precedence(b, c) <= 0 ==> Precedence(a, c) <= 0
    ensures Precedence(a, b) <= 0 && Precedence(b, c) <= 0 && Precedence(a, c) == 0 ==>
              Precedence(a, b) == 0 && Precedence(b, c) == 0
  {
    PreOrderOrder(a.pre, b.pre, c.pre);
    hide PreOrder;
  }

  /** Parsed versions of equal precedence are the same version (build metadata aside). */
  lemma EqualPrecedence(a: Version, b: Version)
    requires Parsed(a) && Parsed(b)
    ensures Precedence(a, b) == 0 <==> a == b
  {
    EqualPre(a.pre, b.pre);
  }

  lemma {:induction false} EqualPre(a: seq<string>, b: seq<string>)
    requires forall i | 0 <= i < |a| :: Plain(a[i])
    requires forall i | 0 <= i < |b| :: Plain(b[i])
    ensures PreOrder(a, b) == 0 <==> a == b
  {
    if a != [] && b != [] {
      ComparedIsOrder(a[0], b[0]);
      EqualPre(a[1..], b[1..]);
      assert a == [a[0]] + a[1..] && b == [b[0]] + b[1..];
    }
  }

  // ---------------------------------------------------------------- which way is up

  /** A higher number in the core outranks everything behind it. */
  lemma HigherCoreIsNewer(a: Version, b: Version)
    requires a.major < b.major || (a.major == b.major && a.minor < b.minor)
             || (a.major == b.major && a.minor == b.minor && a.patch < b.patch)
    ensures Precedence(a, b) == -1
  {
  }

  /** Every pre-release is older than its release. */
  lemma PreReleaseIsOlder(v: Version, pre: seq<string>)
    requires pre != []
    ensures Precedence(v.(pre := pre), v.(pre := [])) == -1
  {
  }

  lemma {:induction false} SamePrefix(common: seq<string>, a: seq<string>, b: seq<string>)
    ensures PreOrder(common + a, common + b) == PreOrder(a, b)
    decreases |common|
  {
    if common == [] {
      assert common + a == a && common + b == b;
    } else {
      SamePrefix(common[1..], a, b);
      assert (common + a)[1..] == common[1..] + a && (common + b)[1..] == common[1..] + b;
      SameIdentifier(common[0]);
      hide IdOrder, Meaning;
    }
  }

  lemma SameIdentifier(id: string)
    ensures IdOrder(Meaning(id), Meaning(id)) == 0
  {
    LexicalZero(id, id);
  }

  /** Pre-releases are told apart by their first different identifier: a smaller number is
      older, a number older than a text, an earlier text older, and the shorter list older. */
  lemma FirstDifferenceDecides(v: Version, common: seq<string>, a: seq<string>, b: seq<string>)
    requires common + a != [] && common + b != []
    requires || (a == [] && b != [])
             || (a != [] && b != [] && Numeric(a[0]) && !Numeric(b[0]))
             || (a != [] && b != [] && Numeric(a[0]) && Numeric(b[0]) && Value(a[0]) < Value(b[0]))
             || (a != [] && b != [] && !Numeric(a[0]) && !Numeric(b[0]) && Earlier(a[0], b[0]))
    ensures Precedence(v.(pre := common + a), v.(pre := common + b)) == -1
  {
    SamePrefix(common, a, b);
    if a != [] && b != [] && Earlier(a[0], b[0]) { EarlierIsLower(a[0], b[0]); }
    hide Lexical, Value;
  }

  /** Text order: a proper prefix, or the smaller character at the first difference. */
  predicate Earlier(a: string, b: string) {
    exists n | 0 <= n <= |a| :: n <= |b| && a[..n] == b[..n] && (if n < |a| then n < |b| && a[n] < b[n] else n < |b|)
  }

  lemma EarlierIsLower(a: string, b: string)
    requires Earlier(a, b)
    ensures Lexical(a, b) == -1
  {
    var n :| 0 <= n <= |a| && n <= |b| && a[..n] == b[..n] && (if n < |a| then n < |b| && a[n] < b[n] else n < |b|);
    LowerFrom(a, b, n);
  }

  lemma {:induction false} LowerFrom(a: string, b: string, n: nat)
    requires n <= |a| && n <= |b| && a[..n] == b[..n] && (if n < |a| then n < |b| && a[n] < b[n] else n < |b|)
    ensures Lexical(a, b) == -1
    decreases n
  {
    if n > 0 {
      assert a[0] == a[..n][0] && b[0] == b[..n][0];
      assert a[1..][..n - 1] == a[..n][1..] && b[1..][..n - 1] == b[..n][1..];
      LowerFrom(a[1..], b[1..], n - 1);
    }
  }
}
