/** The proxy gate's source policy (shared/proxygate/policy.go): validation, membership, and
    the interval sweep that decides whether a prefix is managed throughout. */
module SourcePolicy {
  import opened Prelude
  import opened Prefixes

  const MAX_SOURCES: nat := 512
  const IPV4_SPACE: nat := 0x1_0000_0000

  newtype uint64 = x: int | 0 <= x < 0x1_0000_0000_0000_0000

  /** A source text: what it parses to, and whether it is that prefix's own spelling. */
  datatype Source = Source(parsed: Option<Prefix>, canonical: bool)

  /** `header` stands for the checks on version, names, digests and listener. */
  datatype Policy = Policy(header: bool, managed: seq<Source>, retained: Option<seq<Source>>)

  datatype Address = Address(v6: bool, value: nat)

  /** An IPv4-mapped IPv6 address is the IPv4 address. */
  function Unmap(a: Address): Address {
    if a.v6 && a.value / IPV4_SPACE == 0xffff then Address(false, a.value % IPV4_SPACE) else a
  }

  predicate IsValid(p: Prefix) {
    p.bits <= Width(p.v6) && p.base < Pow2(Width(p.v6))
  }

  predicate Masked(p: Prefix) { p.base % Size(p) == 0 }

  predicate SourceOk(s: Source) {
    && s.parsed.Some? && s.canonical
    && (var p := s.parsed.value;
        && IsValid(p) && !p.v6 && Masked(p) && p.base != 0 && p.base / 0x1000_0000 != 14 && p.bits >= 8)
  }

  predicate SourcesOk(sources: seq<Source>) {
    && (forall i | 0 <= i < |sources| :: SourceOk(sources[i]))
    && (forall i, j | 0 <= i < j < |sources| :: !Overlaps(sources[i].parsed.value, sources[j].parsed.value))
  }

  predicate PolicyOk(p: Policy) {
    && p.header && 0 < |p.managed| <= MAX_SOURCES && p.retained.Some? && |p.retained.value| <= MAX_SOURCES
    && SourcesOk(p.managed + p.retained.value)
  }

  predicate InSource(s: Source, a: Address) {
    s.parsed.Some? && Contains(s.parsed.value, a.v6, a.value)
  }

  predicate Managed(p: Policy, a: Address) {
    exists i | 0 <= i < |p.managed| :: InSource(p.managed[i], Unmap(a))
  }

  /** Policy.Validate. */
  method Validate(p: Policy) returns (ok: bool)
    ensures ok <==> PolicyOk(p)
  {
    if !p.header || |p.managed| == 0 || |p.managed| > MAX_SOURCES || p.retained.None?
      || |p.retained.value| > MAX_SOURCES {
      return false;
    }
    var all := p.managed + p.retained.value;
    var prefixes: seq<Prefix> := [];
    for i := 0 to |all|
      invariant |prefixes| == i && SourcesOk(all[..i])
      invariant forall k | 0 <= k < i :: all[k].parsed == Some(prefixes[k])
    {
      var s := all[i];
      if !SourceOk(s) { return false; }
      for k := 0 to i
        invariant forall l | 0 <= l < k :: !Overlaps(prefixes[l], s.parsed.value)
      {
        if Overlaps(prefixes[k], s.parsed.value) {
          assert Overlaps(all[k].parsed.value, all[i].parsed.value);
          return false;
        }
      }
      assert all[..i + 1][..i] == all[..i];
      prefixes := prefixes + [s.parsed.value];
    }
    assert all[..|all|] == all;
    return true;
  }

  /** Policy.IsManaged. */
  method IsManaged(p: Policy, a: Address) returns (yes: bool)
    ensures yes <==> Managed(p, a)
  {
    for i := 0 to |p.managed|
      invariant forall k | 0 <= k < i :: !InSource(p.managed[k], Unmap(a))
    {
      if InSource(p.managed[i], Unmap(a)) { return true; }
    }
    return false;
  }

  // ---------------------------------------------------------------- what a valid policy separates

  lemma {:induction false} Pow2Splits(a: nat, b: nat)
    ensures Pow2(a + b) == Pow2(a) * Pow2(b)
  {
    if b > 0 { Pow2Splits(a, b - 1); }
  }

  lemma {:induction false} LessTimes(a: nat, b: nat, size: nat)
    ensures a < b ==> a * size + size <= b * size
    decreases b
  {
    if a + 1 < b { LessTimes(a, b - 1, size); }
  }

  lemma Quotient(v: nat, block: nat, q: nat, rest: nat)
    requires block > 0 && rest < block && v == q * block + rest
    ensures v / block == q
  {
    var w := v / block;
    assert v == w * block + v % block;
    LessTimes(w, q, block);
    LessTimes(q, w, block);
  }

  /** An aligned span lies within one block of a multiple of its size. */
  lemma SameBlock(k: nat, size: nat, n: nat, v: nat)
    requires size > 0 && n > 0 && k * size <= v < k * size + size
    ensures v / (n * size) == k / n
  {
    var q, r, block := k / n, k % n, n * size;
    LessTimes(r, n, size);
    assert k * size == q * block + r * size by { Distribute(q, n, r, size); }
    Quotient(v, block, q, r * size + (v - k * size));
  }

  lemma Distribute(q: nat, n: nat, r: nat, size: nat)
    ensures (q * n + r) * size == q * (n * size) + r * size
  {
  }

  lemma Whole(base: nat, size: nat)
    requires size > 0 && base % size == 0
    ensures base / size * size == base
  {
  }

  /** All addresses of a prefix are in the same block of 2^n addresses. */
  lemma PrefixInBlock(p: Prefix, n: nat, v: nat)
    requires !p.v6 && p.bits <= 32 && Masked(p) && Contains(p, false, v) && 32 - p.bits <= n
    ensures v / Pow2(n) == p.base / Pow2(n)
  {
    var size := Size(p);
    var m := n - (32 - p.bits);
    Pow2Splits(m, 32 - p.bits);
    Whole(p.base, size);
    SameBlock(p.base / size, size, Pow2(m), v);
    SameBlock(p.base / size, size, Pow2(m), p.base);
  }

  lemma Blocks()
    ensures Pow2(28) == 0x1000_0000 && Pow2(32) == 0x1_0000_0000
  {
    Ipv4Space();
    assert Pow2(32) == 16 * Pow2(28);
  }

  lemma PlainAddress(s: Source, a: Address)
    requires SourceOk(s) && InSource(s, a)
    ensures !a.v6 && 0 < a.value < 0x1_0000_0000 && !(0xE000_0000 <= a.value <= 0xEFFF_FFFF)
  {
    var p := s.parsed.value;
    PrefixInBlock(p, 32, a.value);
    PrefixInBlock(p, 28, a.value);
    Blocks();
    hide Pow2, Masked;
  }

  /** In a valid policy a managed address is a proper IPv4 one, lies in one managed source and
      in no retained one. */
  lemma ManagedIsExclusive(p: Policy, a: Address)
    requires PolicyOk(p) && Managed(p, a)
    ensures var u := Unmap(a);
            && !u.v6 && 0 < u.value < 0x1_0000_0000 && !(0xE000_0000 <= u.value <= 0xEFFF_FFFF)
            && (forall i, j | 0 <= i < |p.managed| && 0 <= j < |p.managed|
                  && InSource(p.managed[i], u) && InSource(p.managed[j], u) :: i == j)
            && (forall j | 0 <= j < |p.retained.value| :: !InSource(p.retained.value[j], u))
  {
    var u := Unmap(a);
    var all := p.managed + p.retained.value;
    var i :| 0 <= i < |p.managed| && InSource(p.managed[i], u);
    assert all[i] == p.managed[i];
    PlainAddress(all[i], u);
    hide SourceOk, Unmap;
    forall j, k | 0 <= j < k < |all| ensures !(InSource(all[j], u) && InSource(all[k], u)) {
      assert !Overlaps(all[j].parsed.value, all[k].parsed.value);
    }
    forall j | 0 <= j < |p.managed| ensures all[j] == p.managed[j] {}
    forall j | 0 <= j < |p.retained.value| ensures !InSource(p.retained.value[j], u) {
      assert all[|p.managed| + j] == p.retained.value[j];
    }
  }

  // ---------------------------------------------------------------- coverage

  datatype Interval = Interval(start: uint64, end: uint64)

  lemma {:induction false} Pow2Grows(a: nat, b: nat)
    requires a <= b
    ensures Pow2(a) <= Pow2(b)
  {
    if a < b { Pow2Grows(a, b - 1); }
  }

  lemma Ipv4Space()
    ensures Pow2(32) == IPV4_SPACE
  {
    assert Pow2(8) == 0x100;
    assert Pow2(16) == 0x1_0000;
    assert Pow2(24) == 0x100_0000;
  }

  /** First and last address, in 64-bit arithmetic that cannot overflow. */
  function Span(p: Prefix): (r: Interval)
    requires IsValid(p) && !p.v6
    ensures r.start as int == p.base && r.end as int == p.base + Size(p) - 1 && r.end < 0x2_0000_0000
  {
    Pow2Grows(32 - p.bits, 32);
    Ipv4Space();
    Interval(p.base as uint64, p.base as uint64 + Pow2(32 - p.bits) as uint64 - 1)
  }

  predicate Inside(r: Interval, a: int) { r.start as int <= a <= r.end as int }

  predicate Sorted(ranges: seq<Interval>) {
    forall i, j | 0 <= i < j < |ranges| :: ranges[i].start <= ranges[j].start
  }

  /** sort.Slice by start: an ordered rearrangement. */
  method SortByStart(ranges: seq<Interval>) returns (sorted: seq<Interval>)
    ensures Sorted(sorted) && multiset(sorted) == multiset(ranges)
  {
    sorted := [];
    for i := 0 to |ranges|
      invariant Sorted(sorted) && multiset(sorted) == multiset(ranges[..i])
    {
      var k := |sorted|;
      while k > 0 && sorted[k - 1].start > ranges[i].start
        invariant 0 <= k <= |sorted|
        invariant forall l | k <= l < |sorted| :: sorted[l].start > ranges[i].start
      {
        k := k - 1;
      }
      Inserted(sorted, k, ranges[i]);
      hide Sorted;
      assert ranges[..i + 1] == ranges[..i] + [ranges[i]];
      sorted := sorted[..k] + [ranges[i]] + sorted[k..];
    }
    assert ranges[..|ranges|] == ranges;
  }

  lemma Inserted(s: seq<Interval>, k: nat, r: Interval)
    requires Sorted(s) && k <= |s| && (k > 0 ==> s[k - 1].start <= r.start)
    requires forall l | k <= l < |s| :: s[l].start > r.start
    ensures var t := s[..k] + [r] + s[k..]; Sorted(t) && multiset(t) == multiset(s) + multiset{r}
  {
    var t := s[..k] + [r] + s[k..];
    InsertedSame(s, k, r);
    forall i, j | 0 <= i < j < |t| ensures t[i].start <= t[j].start { InsertedOrder(s, k, r, i, j); }
  }

  lemma InsertedSame(s: seq<Interval>, k: nat, r: Interval)
    requires k <= |s|
    ensures multiset(s[..k] + [r] + s[k..]) == multiset(s) + multiset{r}
  {
    assert s == s[..k] + s[k..];
  }

  function InsertedAt(s: seq<Interval>, k: nat, r: Interval, i: nat): Interval
    requires k <= |s| && i <= |s|
  {
    if i < k then s[i] else if i == k then r else s[i - 1]
  }

  lemma InsertedOrder(s: seq<Interval>, k: nat, r: Interval, i: nat, j: nat)
    requires Sorted(s) && k <= |s| && (k > 0 ==> s[k - 1].start <= r.start) && i < j <= |s|
    requires forall l | k <= l < |s| :: s[l].start > r.start
    ensures (s[..k] + [r] + s[k..])[i].start <= (s[..k] + [r] + s[k..])[j].start
  {
    var t := s[..k] + [r] + s[k..];
    assert t[i] == InsertedAt(s, k, r, i) && t[j] == InsertedAt(s, k, r, j);
  }

  predicate CoveredBy(ranges: seq<Interval>, a: int) {
    exists r :: r in ranges && Inside(r, a)
  }

  /** The sweep over sorted ranges: true exactly when every address of the target lies in
      one of them, be it in several adjacent ones. */
  method Sweep(ranges: seq<Interval>, target: Interval) returns (covered: bool)
    requires Sorted(ranges) && target.start <= target.end
    requires forall r | r in ranges :: r.end < 0x2_0000_0000
    ensures covered <==> forall a: int | Inside(target, a) :: CoveredBy(ranges, a)
  {
    var next := target.start;
    for i := 0 to |ranges|
      invariant target.start <= next <= target.end
      invariant forall k | 0 <= k < i :: ranges[k].end < next
      invariant forall a: int | target.start as int <= a < next as int :: CoveredBy(ranges, a)
    {
      var r := ranges[i];
      if r.end < next { continue; }
      if r.start > next {
        assert !CoveredBy(ranges, next as int);
        assert Inside(target, next as int);
        return false;
      }
      forall a: int | next as int <= a <= r.end as int ensures CoveredBy(ranges, a) {
        assert r in ranges && Inside(r, a);
      }
      if r.end + 1 > target.end { return true; }
      next := r.end + 1;
    }
    assert !CoveredBy(ranges, next as int);
    assert Inside(target, next as int);
    return false;
  }

  /** Policy.Covers: true exactly for a masked IPv4 prefix, under a valid policy, whose every
      address IsManaged accepts. */
  method Covers(p: Policy, pr: Prefix) returns (covered: bool)
    ensures covered <==> PolicyOk(p) && IsValid(pr) && !pr.v6 && Masked(pr)
                         && forall a: nat | Contains(pr, false, a) :: Managed(p, Address(false, a))
  {
    var ok := Validate(p);
    if !ok || !IsValid(pr) || pr.v6 || !Masked(pr) { return false; }
    var ranges: seq<Interval> := [];
    for i := 0 to |p.managed|
      invariant |ranges| == i
      invariant forall k | 0 <= k < i :: RangeOf(p, k, ranges[k])
    {
      assert SourceOk((p.managed + p.retained.value)[i]);
      ranges := ranges + [Span(p.managed[i].parsed.value)];
    }
    var sorted := SortByStart(ranges);
    SameElements(ranges, sorted);
    var target := Span(pr);
    covered := Sweep(sorted, target);
    CoverageAgrees(p, pr, ranges, sorted);
  }

  ghost predicate RangeOf(p: Policy, k: nat, r: Interval) {
    && k < |p.managed| && p.managed[k].parsed.Some? && r.end < 0x2_0000_0000
    && forall a: nat :: Inside(r, a) <==> InSource(p.managed[k], Address(false, a))
  }

  lemma SameElements(a: seq<Interval>, b: seq<Interval>)
    requires multiset(a) == multiset(b)
    ensures forall r :: r in a <==> r in b
  {
    forall r ensures r in a <==> r in b { assert r in multiset(a) <==> r in multiset(b); }
  }

  lemma CoverageAgrees(p: Policy, pr: Prefix, ranges: seq<Interval>, sorted: seq<Interval>)
    requires IsValid(pr) && !pr.v6 && |ranges| == |p.managed|
             && (forall k | 0 <= k < |ranges| :: RangeOf(p, k, ranges[k]))
    requires forall r :: r in ranges <==> r in sorted
    ensures (forall a: int | Inside(Span(pr), a) :: CoveredBy(sorted, a))
       <==> (forall a: nat | Contains(pr, false, a) :: Managed(p, Address(false, a)))
  {
    forall a: nat ensures CoveredBy(sorted, a) <==> Managed(p, Address(false, a)) {
      if CoveredBy(sorted, a) {
        var r :| r in sorted && Inside(r, a);
        var k :| 0 <= k < |ranges| && ranges[k] == r;
        assert RangeOf(p, k, r);
      }
      if Managed(p, Address(false, a)) {
        var k :| 0 <= k < |p.managed| && InSource(p.managed[k], Address(false, a));
        assert RangeOf(p, k, ranges[k]);
        assert ranges[k] in sorted;
      }
    }
  }
}
