/**
 * Completion maps (activity key to done flag), the count of their true
 * flags, and integer half-up rounding of a share, as used by both the
 * itinerary view and the server's progress percentage.
 */
module Progress {

  /** Activity key to done flag. */
  type CompletionMap = map<string, bool>

  /** The checked state the view shows for a key: `checkedItems[key] || false`. */
  predicate IsChecked(m: CompletionMap, k: string)
    ensures k !in m ==> !IsChecked(m, k)
    ensures k in m ==> (IsChecked(m, k) <==> m[k])
  {
    k in m && m[k]
  }

  /** The keys whose flag is true. */
  function TrueKeys(m: CompletionMap): (s: set<string>)
    ensures forall k :: k in s <==> IsChecked(m, k)
    ensures s <= m.Keys
  {
    set k | k in m && m[k]
  }

  lemma {:induction false} SubsetCardinality<T>(a: set<T>, b: set<T>)
    requires a <= b
    ensures |a| <= |b|
  {
    if a != {} {
      var x :| x in a;
      SubsetCardinality(a - {x}, b - {x});
    }
  }

  /** The number of true flags in the whole map, whatever their keys. */
  function CountTrue(m: CompletionMap): (n: nat)
    ensures n <= |m|
    ensures m == map[] ==> n == 0
  {
    SubsetCardinality(TrueKeys(m), m.Keys);
    |TrueKeys(m)|
  }

  /** `Math.round(n / d)` for non-negative `n`: the nearest integer, halves rounded up. */
  function RoundHalfUp(n: nat, d: nat): (r: nat)
    requires d > 0
    ensures 2 * r * d <= 2 * n + d < 2 * (r + 1) * d
  {
    var q := (2 * n + d) / (2 * d);
    assert (2 * n + d) == q * (2 * d) + (2 * n + d) % (2 * d);
    assert q * (2 * d) == 2 * q * d;
    q
  }

  /** A half-up rounding of `scale * c / t` with `c <= t` is at most `scale`. */
  lemma RoundedShareAtMostWhole(p: nat, c: nat, t: nat, scale: nat)
    requires 0 < t && c <= t
    requires 2 * p * t <= 2 * scale * c + t
    ensures p <= scale
  {
    MulMonotone(c, t, 2 * scale);
    assert 2 * p * t <= (2 * scale + 1) * t;
    MulCancel(2 * p, 2 * scale + 1, t);
  }

  lemma MulMonotone(x: nat, y: nat, k: nat)
    requires x <= y
    ensures k * x <= k * y
  {
  }

  lemma MulCancel(x: nat, y: nat, t: nat)
    requires t > 0 && x * t <= y * t
    ensures x <= y
  {
    if x > y {
      MulStrict(x, y, t);
    }
  }

  lemma MulStrict(x: nat, y: nat, t: nat)
    requires x > y && t > 0
    ensures x * t > y * t
  {
    assert x * t == y * t + (x - y) * t;
  }

  /** Rounding a whole multiple gives the multiplier back exactly. */
  lemma RoundWhole(scale: nat, t: nat)
    requires t > 0
    ensures RoundHalfUp(scale * t, t) == scale
  {
    var r := RoundHalfUp(scale * t, t);
    RoundedShareAtMostWhole(r, t, t, scale);
    if r < scale {
      MulMonotone(r + 1, scale, 2 * t);
    }
  }
}
