/** Node identifiers are MAC addresses, compared byte by byte as `memcmp` does. */
module NodeIds {

  type Octet = x: nat | x < 256

  type NodeId = s: seq<Octet> | |s| == 6 witness [0, 0, 0, 0, 0, 0]

  /** The sign of `memcmp` on two byte strings of one length. */
  function Memcmp(a: seq<Octet>, b: seq<Octet>): int
    requires |a| == |b|
  {
    if a == [] then 0
    else if a[0] != b[0] then a[0] - b[0]
    else Memcmp(a[1..], b[1..])
  }

  /** The byte string read as one big-endian number. */
  function Value(a: seq<Octet>): nat {
    if a == [] then 0 else a[0] * Weight(|a| - 1) + Value(a[1..])
  }

  function Weight(n: nat): nat {
    if n == 0 then 1 else 256 * Weight(n - 1)
  }

  lemma HighDigitDecides(x: nat, y: nat, w: nat, u: nat, v: nat)
    requires x < y && u < w
    ensures x * w + u < y * w + v
  {
    assert (y - x - 1) * w >= 0;
    assert y * w == (y - x - 1) * w + x * w + w;
  }

  lemma {:induction false} ValueBelowWeight(a: seq<Octet>)
    ensures Value(a) < Weight(|a|)
  {
    if a != [] {
      ValueBelowWeight(a[1..]);
      HighDigitDecides(a[0], 256, Weight(|a| - 1), Value(a[1..]), 0);
    }
  }

  /** `memcmp` orders addresses exactly as their numeric values. */
  lemma {:induction false} MemcmpOrdersByValue(a: seq<Octet>, b: seq<Octet>)
    requires |a| == |b|
    ensures Memcmp(a, b) < 0 <==> Value(a) < Value(b)
    ensures Memcmp(a, b) == 0 <==> a == b
    ensures Memcmp(a, b) > 0 <==> Value(a) > Value(b)
  {
    if a != [] {
      assert a == [a[0]] + a[1..] && b == [b[0]] + b[1..];
      ValueBelowWeight(a[1..]);
      ValueBelowWeight(b[1..]);
      if a[0] < b[0] {
        HighDigitDecides(a[0], b[0], Weight(|a| - 1), Value(a[1..]), Value(b[1..]));
      } else if b[0] < a[0] {
        HighDigitDecides(b[0], a[0], Weight(|a| - 1), Value(b[1..]), Value(a[1..]));
      } else {
        MemcmpOrdersByValue(a[1..], b[1..]);
      }
    }
  }
}
