/** IP prefixes by the addresses they span (what net/netip answers for masked prefixes). */
module Prefixes {

  datatype Prefix = Prefix(v6: bool, base: nat, bits: nat)

  function Width(v6: bool): nat { if v6 then 128 else 32 }

  function Pow2(n: nat): (r: nat)
    ensures r >= 1
  {
    if n == 0 then 1 else 2 * Pow2(n - 1)
  }

  /** The number of addresses of a prefix. */
  function Size(p: Prefix): nat {
    if p.bits <= Width(p.v6) then Pow2(Width(p.v6) - p.bits) else 1
  }

  predicate Contains(p: Prefix, v6: bool, address: nat) {
    p.v6 == v6 && p.base <= address < p.base + Size(p)
  }

  /** Two prefixes overlap when their spans meet. */
  predicate Overlaps(p: Prefix, q: Prefix) {
    p.v6 == q.v6 && p.base < q.base + Size(q) && q.base < p.base + Size(p)
  }

  predicate IsHost(p: Prefix) { p.bits == Width(p.v6) }

  lemma HostSpan(p: Prefix)
    requires IsHost(p)
    ensures Size(p) == 1
  {
  }

  /** Two hosts overlap only when they are the same address. */
  lemma HostsOverlap(p: Prefix, q: Prefix)
    requires IsHost(p) && IsHost(q)
    ensures Overlaps(p, q) <==> p == q
  {
    HostSpan(p);
    HostSpan(q);
  }

  lemma OverlapsSelf(p: Prefix)
    ensures Overlaps(p, p)
  {
  }
}
