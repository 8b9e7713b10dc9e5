/**
 * The arithmetic the screens perform: sums over lists of meals, `Math.round`
 * of an average of integer scores, and `parseFloat(x.toFixed(1))` for the
 * body-mass index.  All are computed exactly here (no binary floating point).
 */
module Numbers {

  /**
   * `Math.round(total / count)`: the integer nearest to the mean, a half
   * rounding up (toward +infinity).
   */
  function RoundedMean(total: int, count: int): (r: int)
    requires count > 0
    ensures 2 * r * count - count <= 2 * total < 2 * r * count + count
  {
    var q := (2 * total + count) / (2 * count);
    assert 2 * total + count == q * (2 * count) + (2 * total + count) % (2 * count);
    q
  }

  /** The rounded mean of values that all lie in [lo, hi] lies in [lo, hi] too. */
  lemma RoundedMeanWithin(total: int, count: int, lo: int, hi: int)
    requires count > 0
    requires lo * count <= total <= hi * count
    ensures lo <= RoundedMean(total, count) <= hi
  {
    var r := RoundedMean(total, count);
    assert (2 * r - 2 * hi - 1) * count == 2 * r * count - count - 2 * hi * count;
    SignOfProduct(2 * r - 2 * hi - 1, count);
    assert (2 * lo - 2 * r - 1) * count == 2 * lo * count - 2 * r * count - count;
    SignOfProduct(2 * lo - 2 * r - 1, count);
  }

  lemma SignOfProduct(a: int, c: int)
    requires c > 0
    ensures a * c <= 0 ==> a <= 0
    ensures a * c < 0 ==> a < 0
  {
  }

  /** The integer nearest to `x`, a half rounding up. */
  function RoundHalfUp(x: real): (n: int)
    ensures n as real - 0.5 <= x < n as real + 0.5
  {
    (x + 0.5).Floor
  }

  /** At an exact half, rounding half up on either side of zero moves away from zero. */
  lemma TieRoundsAway(t: real)
    ensures t - t.Floor as real == 0.5 ==> RoundHalfUp(t) == t.Floor + 1 && RoundHalfUp(-t) == -t.Floor
  {
    if t - t.Floor as real == 0.5 {
      assert (t + 0.5).Floor == t.Floor + 1;
      assert -t + 0.5 == (-t.Floor) as real;
    }
  }

  /**
   * `parseFloat(x.toFixed(1))`: the multiple of one tenth nearest to `x`;
   * a half rounds away from zero, as `toFixed` does.
   */
  function ToFixed1(x: real): (r: real)
    ensures (r * 10.0).Floor as real == r * 10.0
    ensures -0.5 <= r * 10.0 - x * 10.0 <= 0.5
    ensures x >= 0.0 ==> r >= 0.0
    ensures x <= 0.0 ==> r <= 0.0
    ensures x >= 0.0 && x * 10.0 - (x * 10.0).Floor as real == 0.5 ==> r * 10.0 == ((x * 10.0).Floor + 1) as real
    ensures x < 0.0 && x * 10.0 - (x * 10.0).Floor as real == 0.5 ==> r * 10.0 == (x * 10.0).Floor as real
  {
    var tenths := x * 10.0;
    var n := if tenths >= 0.0 then RoundHalfUp(tenths) else -RoundHalfUp(-tenths);
    TieRoundsAway(tenths);
    assert (n as real / 10.0) * 10.0 == n as real;
    assert (n as real).Floor == n;
    n as real / 10.0
  }

  /** The sum of `f` over a list, added up from the front as `reduce` does. */
  function Sum<T>(xs: seq<T>, f: T -> int): int {
    if xs == [] then 0 else Sum(xs[..|xs| - 1], f) + f(xs[|xs| - 1])
  }

  /** The sum over two lists one after the other is the sum of the two sums. */
  lemma {:induction false} SumAppend<T>(a: seq<T>, b: seq<T>, f: T -> int)
    ensures Sum(a + b, f) == Sum(a, f) + Sum(b, f)
  {
    if b == [] {
      assert a + b == a;
    } else {
      SumAppend(a, b[..|b| - 1], f);
      assert (a + b)[..|a + b| - 1] == a + b[..|b| - 1];
    }
  }

  /** A sum of values that all lie in [lo, hi] lies between |xs|·lo and |xs|·hi. */
  lemma {:induction false} SumWithin<T>(xs: seq<T>, f: T -> int, lo: int, hi: int)
    requires forall x :: x in xs ==> lo <= f(x) <= hi
    ensures lo * |xs| <= Sum(xs, f) <= hi * |xs|
  {
    if xs != [] {
      var init, last := xs[..|xs| - 1], xs[|xs| - 1];
      forall x | x in init
        ensures lo <= f(x) <= hi
      {
        assert x in xs;
      }
      SumWithin(init, f, lo, hi);
      assert last in xs;
      MulSucc(lo, |init|);
      MulSucc(hi, |init|);
    }
  }

  lemma MulSucc(a: int, n: nat)
    ensures a * (n + 1) == a * n + a
  {
  }
}
