/** Types and arithmetic shared by every part of the model. */
module Common {
  datatype Option<+T> = None | Some(value: T)

  datatype Direction = Buy | Sell | Hold

  /** The nearest integer, ties to the even one. */
  function RoundHalfEven(y: real): int {
    var f := y.Floor;
    var d := y - f as real;
    if d < 0.5 then f else if d > 0.5 then f + 1 else if f % 2 == 0 then f else f + 1
  }

  // Python's round() to 2, 4 and 6 decimals, in exact arithmetic.
  function Round2(x: real): real { RoundHalfEven(x * 100.0) as real / 100.0 }
  function Round4(x: real): real { RoundHalfEven(x * 10000.0) as real / 10000.0 }
  function Round6(x: real): real { RoundHalfEven(x * 1000000.0) as real / 1000000.0 }

  /** r is the multiple of 1 / unit nearest to x, the even one where two are. */
  predicate IsRounded(r: real, x: real, unit: real) {
    var k := (r * unit).Floor;
    && r * unit == k as real
    && -0.5 <= x * unit - r * unit <= 0.5
    && (x * unit - r * unit == 0.5 || x * unit - r * unit == -0.5 ==> k % 2 == 0)
  }

  lemma RoundIsNearest(x: real)
    ensures IsRounded(Round2(x), x, 100.0)
    ensures IsRounded(Round4(x), x, 10000.0)
    ensures IsRounded(Round6(x), x, 1000000.0)
  {
    NearestAt(x, 100.0);
    NearestAt(x, 10000.0);
    NearestAt(x, 1000000.0);
    hide RoundHalfEven, IsRounded;
  }

  lemma NearestAt(x: real, unit: real)
    requires unit > 0.0
    ensures IsRounded(RoundHalfEven(x * unit) as real / unit, x, unit)
  {
    var k := RoundHalfEven(x * unit);
    assert (k as real / unit) * unit == k as real;
  }

  /** There is only one. */
  lemma RoundedOnce(q: real, r: real, x: real, unit: real)
    requires unit > 0.0 && IsRounded(q, x, unit) && IsRounded(r, x, unit)
    ensures q == r
  {
    var j, k := (q * unit).Floor, (r * unit).Floor;
    assert j == k;
    assert q == (q * unit) / unit && r == (r * unit) / unit;
  }

  lemma RoundInUnit(x: real)
    requires 0.0 <= x <= 1.0
    ensures 0.0 <= Round4(x) <= 1.0
  {
  }

  /** Some of the indices below n, in order. */
  predicate Picks(ks: seq<nat>, n: nat) {
    (forall i, j | 0 <= i < j < |ks| :: ks[i] < ks[j]) && (forall j | 0 <= j < |ks| :: ks[j] < n)
  }

  lemma PickNext(ks: seq<nat>, n: nat)
    requires Picks(ks, n)
    ensures Picks(ks, n + 1) && Picks(ks + [n], n + 1) && n !in ks
    ensures forall k :: k in ks + [n] <==> k in ks || k == n
  {
  }

  /** A key above all others. */
  lemma {:induction false} FreshNat<T>(m: map<nat, T>) returns (u: nat)
    ensures forall x | x in m :: x < u
    decreases |m|
  {
    if m == map[] {
      u := 0;
    } else {
      var x :| x in m;
      var rest := m - {x};
      assert m.Keys == rest.Keys + {x} && |m| == |m.Keys| && |rest| == |rest.Keys|;
      var v := FreshNat(rest);
      u := if x < v then v else x + 1;
    }
  }
}
