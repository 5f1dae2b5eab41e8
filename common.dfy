/** Shared vocabulary: optional values, JavaScript's Math.round / Math.ceil on exact
    reals, cent rounding, sequence filtering, and the opaque distance function. */
module Common {

  /** A nullable column or an absent value. */
  datatype Option<+T> = None | Some(value: T)
  {
    /** The value, or `default` when absent. */
    function GetOr(default: T): T
    {
      if Some? then value else default
    }
  }

  /** An ISO-8601 timestamp as the client wrote it; never parsed here. */
  type Timestamp = string

  /** Great-circle distance in km from (lat1, lon1) to (lat2, lon2). Both code paths use the
      haversine formula with Earth radius 6371 km; its trigonometry is not modelled, so every
      result below holds for an arbitrary function of this type. */
  type DistanceFn = (real, real, real, real) -> real

  /** `Math.round(x)`: the nearest integer, halves rounded towards +infinity. */
  function MathRound(x: real): (n: int)
    ensures n as real - 0.5 <= x < n as real + 0.5
  {
    (x + 0.5).Floor
  }

  /** `Math.ceil(x)`: the least integer not below `x`. */
  function MathCeil(x: real): (n: int)
    ensures x <= n as real < x + 1.0
  {
    -((-x).Floor)
  }

  /** `x` is a whole number of cents. */
  predicate WholeCents(x: real)
  {
    (x * 100.0).Floor as real == x * 100.0
  }

  /** `Math.round(x * 100) / 100`: the nearest whole number of cents, halves rounded up. */
  function RoundCents(x: real): (r: real)
    ensures WholeCents(r)
    ensures x - 0.005 < r <= x + 0.005
  {
    MathRound(x * 100.0) as real / 100.0
  }

  lemma RoundCentsMonotone(x: real, y: real)
    requires x <= y
    ensures RoundCents(x) <= RoundCents(y)
  {
    assert (x * 100.0 + 0.5).Floor <= (y * 100.0 + 0.5).Floor;
  }

  /** Rounding leaves an amount that is already in whole cents unchanged. */
  lemma RoundCentsKeepsWholeCents(x: real)
    requires WholeCents(x)
    ensures RoundCents(x) == x
  {
    var k := (x * 100.0).Floor;
    assert (x * 100.0 + 0.5).Floor == k;
  }

  /** `s.filter(p)`: the elements of `s` that satisfy `p`, in their original order. */
  function Filter<T(==,!new)>(s: seq<T>, p: T -> bool): (r: seq<T>)
    ensures |r| <= |s|
    ensures forall i :: 0 <= i < |r| ==> r[i] in s && p(r[i])
    ensures forall i :: 0 <= i < |s| && p(s[i]) ==> s[i] in r
    ensures multiset(r) <= multiset(s)
    ensures forall x :: multiset(r)[x] == if p(x) then multiset(s)[x] else 0
  {
    if s == [] then []
    else
      assert s == [s[0]] + s[1..];
      var rest := Filter(s[1..], p);
      assert multiset(s) == multiset{s[0]} + multiset(s[1..]);
      assert forall x :: x in s <==> x == s[0] || x in s[1..];
      if p(s[0]) then
        assert multiset([s[0]] + rest) == multiset{s[0]} + multiset(rest);
        assert forall x :: x in [s[0]] + rest <==> x == s[0] || x in rest;
        [s[0]] + rest
      else
        rest
  }
}
