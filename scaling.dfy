/**
  Scaling of raw readings. The source divides the raw value by the sensor's
  divisor and rounds with Python's `round` (to 2 decimals in the bridge, to
  0 decimals by the `:.0f` format of the diagnostic script). The model works on
  the exact quotient: it returns the nearest integer number of units (or of
  hundredths), choosing the even neighbour on an exact tie as Python does.
*/
module Scaling {

  type Divisor = d: int | d > 0 witness 1

  /** `r` is within half a unit of `num / den`. */
  ghost predicate Nearest(num: nat, den: Divisor, r: int)
  {
    (2 * r - 1) * den <= 2 * num <= (2 * r + 1) * den
  }

  /** `r` is an integer nearest to `num / den`, and on an exact tie the even one. */
  ghost predicate NearestEven(num: nat, den: Divisor, r: int)
  {
    && Nearest(num, den, r)
    && ((2 * num == (2 * r - 1) * den || 2 * num == (2 * r + 1) * den) ==> r % 2 == 0)
  }

  /** Python's `round(num / den)`, computed on the exact quotient. */
  function RoundRatio(num: nat, den: Divisor): (r: nat)
    ensures NearestEven(num, den, r)
  {
    var q, m := num / den, num % den;
    Expand(num, den, q, m);
    if 2 * m < den then q
    else if 2 * m > den then q + 1
    else if q % 2 == 0 then q
    else q + 1
  }

  /** The products that NearestEven takes at `q` and at `q + 1`, written out
      as sums of `q * den`. */
  lemma Expand(num: nat, den: Divisor, q: int, m: int)
    requires q == num / den && m == num % den
    ensures 2 * num == 2 * (q * den) + 2 * m
    ensures (2 * q - 1) * den == 2 * (q * den) - den
    ensures (2 * q + 1) * den == 2 * (q * den) + den
    ensures (2 * (q + 1) - 1) * den == 2 * (q * den) + den
    ensures (2 * (q + 1) + 1) * den == 2 * (q * den) + 3 * den
  {
  }

  /** The contract of RoundRatio leaves no choice: any integer that is within
      half a unit of `num / den`, and even on a tie, is RoundRatio's result. */
  lemma RoundRatioUnique(num: nat, den: Divisor, r: int)
    requires NearestEven(num, den, r)
    ensures r == RoundRatio(num, den)
  {
    var s := RoundRatio(num, den);
    Apart(num, den, r, s);
    Apart(num, den, s, r);
    if r == s + 1 {
      Tie(num, den, s);
      assert false;
    } else if s == r + 1 {
      Tie(num, den, r);
      assert false;
    }
  }

  /** Two nearest integers are at most one apart. */
  lemma Apart(num: nat, den: Divisor, r: int, s: int)
    requires Nearest(num, den, r) && Nearest(num, den, s)
    ensures r <= s + 1
  {
    assert (2 * r - 1) * den == 2 * (r * den) - den;
    assert (2 * s + 1) * den == 2 * (s * den) + den;
    if r > s + 1 {
      AtLeastOnce(r - s - 1, den);
      assert false;
    }
  }

  lemma AtLeastOnce(k: int, den: Divisor)
    requires k >= 1
    ensures k * den >= den
  {
  }

  /** Neighbours `r` and `r + 1` are both nearest only on an exact tie. */
  lemma Tie(num: nat, den: Divisor, r: int)
    requires Nearest(num, den, r) && Nearest(num, den, r + 1)
    ensures 2 * num == (2 * r + 1) * den
  {
    assert (2 * (r + 1) - 1) * den == (2 * r + 1) * den;
  }

  /** Dividing by one changes nothing. */
  lemma RoundRatioByOne(num: nat)
    ensures RoundRatio(num, 1) == num
  {
  }
}
