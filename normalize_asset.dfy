/**
 * `normalizeAsset(fromScale, toScale, amount)`: re-expresses an integer amount counted in
 * units of 10^-fromScale as one counted in units of 10^-toScale. Going to a finer scale
 * multiplies; going to a coarser one divides as BigInt does, truncating toward zero.
 */
module NormalizeAsset {

  function Pow10(k: nat): (p: nat)
    ensures p >= 1
  {
    if k == 0 then 1 else 10 * Pow10(k - 1)
  }

  lemma {:induction false} Pow10Add(i: nat, j: nat)
    ensures Pow10(i + j) == Pow10(i) * Pow10(j)
    decreases i
  {
    if i > 0 {
      Pow10Add(i - 1, j);
      assert Pow10(i + j) == 10 * Pow10(i - 1 + j);
    }
  }

  /** BigInt `/`: the quotient of a by d rounded toward zero. */
  function TruncDiv(a: int, d: nat): int
    requires d > 0
  {
    if a >= 0 then a / d else -((-a) / d)
  }

  /** Multiplying by a positive factor keeps order. */
  lemma MulMonotone(x: int, y: int, d: int)
    requires x <= y && d > 0
    ensures x * d <= y * d
  {
    assert y * d - x * d == (y - x) * d;
  }

  /** Division on non-negative numbers is the unique quotient with a remainder below the divisor. */
  lemma DivUnique(a: int, d: int, q: int, r: int)
    requires d > 0 && a == q * d + r && 0 <= r < d
    ensures a / d == q && a % d == r
  {
    var q', r' := a / d, a % d;
    assert a == q' * d + r' && 0 <= r' < d;
    assert (q - q') * d == r' - r;
    if q > q' {
      MulMonotone(1, q - q', d);
    } else if q < q' {
      MulMonotone(1, q' - q, d);
    }
  }

  function Normalize(fromScale: nat, toScale: nat, amount: int): int {
    if toScale >= fromScale then amount * Pow10(toScale - fromScale)
    else TruncDiv(amount, Pow10(fromScale - toScale))
  }

  /** From scale 2 to scale 6: 100 becomes 1000000. */
  lemma ScaleUpExample()
    ensures Normalize(2, 6, 100) == 1000000
  {
    assert Pow10(4) == 10 * Pow10(3) == 100 * Pow10(2) == 10000;
  }

  /** From scale 6 to scale 2: 1000000 becomes 100. */
  lemma ScaleDownExample()
    ensures Normalize(6, 2, 1000000) == 100
  {
    assert Pow10(4) == 10 * Pow10(3) == 100 * Pow10(2) == 10000;
  }

  /** Upscaling by k digits and downscaling by the same k digits gives the amount back. */
  lemma RoundTrip(fromScale: nat, toScale: nat, amount: int)
    requires fromScale <= toScale
    ensures Normalize(toScale, fromScale, Normalize(fromScale, toScale, amount)) == amount
  {
    if fromScale < toScale {
      var p := Pow10(toScale - fromScale);
      var up := amount * p;
      assert Normalize(fromScale, toScale, amount) == up;
      if amount >= 0 {
        MulMonotone(0, amount, p);
        DivUnique(up, p, amount, 0);
      } else {
        MulMonotone(amount, 0, p);
        assert -up == (-amount) * p;
        DivUnique(-up, p, -amount, 0);
      }
    }
  }

  /**
   * Downscaling then upscaling never gains: it loses less than one coarse unit, toward
   * zero, and loses nothing exactly when the amount is a whole number of coarse units.
   */
  lemma DownThenUp(fromScale: nat, toScale: nat, amount: int)
    requires toScale < fromScale
    ensures var back := Normalize(toScale, fromScale, Normalize(fromScale, toScale, amount));
      && (amount >= 0 ==> 0 <= amount - back < Pow10(fromScale - toScale))
      && (amount < 0 ==> 0 <= back - amount < Pow10(fromScale - toScale))
      && (back == amount <==> amount % Pow10(fromScale - toScale) == 0)
  {
    var p := Pow10(fromScale - toScale);
    var q := TruncDiv(amount, p);
    assert Normalize(fromScale, toScale, amount) == q;
    assert Normalize(toScale, fromScale, q) == q * p;
    if amount >= 0 {
      assert amount == q * p + amount % p;
    } else {
      var q', r' := (-amount) / p, (-amount) % p;
      assert -amount == q' * p + r' && 0 <= r' < p;
      assert q * p == -(q' * p);
      assert amount - q * p == -r';
      if r' == 0 {
        assert amount == (-q') * p;
        DivUnique(amount, p, -q', 0);
      } else {
        assert amount == (-q' - 1) * p + (p - r');
        DivUnique(amount, p, -q' - 1, p - r');
      }
    }
  }

  /** Two upscales in a row are one upscale over the combined distance. */
  lemma UpscalesCompose(s1: nat, s2: nat, s3: nat, amount: int)
    requires s1 <= s2 <= s3
    ensures Normalize(s2, s3, Normalize(s1, s2, amount)) == Normalize(s1, s3, amount)
  {
    Pow10Add(s2 - s1, s3 - s2);
    assert s3 - s1 == (s2 - s1) + (s3 - s2);
  }

  /** Downscaling keeps the sign and never increases the magnitude. */
  lemma DownscaleShrinks(fromScale: nat, toScale: nat, amount: int)
    requires toScale < fromScale
    ensures var r := Normalize(fromScale, toScale, amount);
      (amount >= 0 ==> 0 <= r <= amount) && (amount < 0 ==> amount <= r <= 0)
  {
    var p := Pow10(fromScale - toScale);
    var m := if amount >= 0 then amount else -amount;
    var q := m / p;
    assert m == q * p + m % p && 0 <= m % p;
    if q > 0 {
      MulMonotone(1, p, q);
      assert q <= q * p;
    } else if q < 0 {
      MulMonotone(q, -1, p);
      assert false;
    }
    assert 0 <= q <= m;
    assert Normalize(fromScale, toScale, amount) == if amount >= 0 then q else -q;
  }
}
