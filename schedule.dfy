/** The learning-rate schedule `get_lr` (naacl/utils.py:112-153).

    The warmup branch is linear interpolation and is modelled exactly over
    `real`. The decay branch computes a cosine, which is not modelled: what is
    modelled is the `progress` it feeds to the cosine, including the division
    by zero that Python raises when the decay phase has length zero. */
module Schedule {

  /** What one call of `get_lr` does. */
  datatype LrValue =
    | Warmup(lr: real)          // the linear ramp, line 146
    | Cosine(progress: real)    // the decay branch, with the argument of its cosine, line 150
    | ZeroDivision              // Python raises ZeroDivisionError

  /** `get_lr(it, num_warmup_steps, num_training_steps, max_lr, min_lr)`:
      the ramp strictly before the warmup length, the decay from it on, and
      a division by zero exactly when the branch taken divides by a zero
      length. */
  function GetLr(it: int, warmup: int, training: int, maxLr: real, minLr: real): (r: LrValue)
    ensures r.Warmup? <==> it < warmup && warmup != 0
    ensures r.Cosine? <==> warmup <= it && training != warmup
    ensures r.ZeroDivision? <==> (it < warmup && warmup == 0) || (warmup <= it && training == warmup)
    ensures r.Cosine? ==> r.progress * (training - warmup) as real == (it - warmup) as real
  {
    if it < warmup then
      // `it / num_warmup_steps`: warmup > it >= 0 in every call, but a negative
      // `it` with warmup 0 would divide by zero as well
      if warmup == 0 then ZeroDivision
      else Warmup(minLr + (maxLr - minLr) * (it as real / warmup as real))
    else if training - warmup == 0 then ZeroDivision
    else Cosine((it - warmup) as real / (training - warmup) as real)
  }

  function Min(a: real, b: real): real { if a <= b then a else b }
  function Max(a: real, b: real): real { if a <= b then b else a }

  /** The ramp starts at `min_lr`. */
  lemma WarmupStartsAtMin(warmup: int, training: int, maxLr: real, minLr: real)
    requires 0 < warmup
    ensures GetLr(0, warmup, training, maxLr, minLr) == Warmup(minLr)
  {
  }

  /** The ramp value times the warmup length is linear in `it`. */
  lemma RampScaled(it: int, warmup: int, training: int, maxLr: real, minLr: real)
    requires 0 <= it < warmup
    ensures GetLr(it, warmup, training, maxLr, minLr).Warmup?
    ensures (GetLr(it, warmup, training, maxLr, minLr).lr - minLr) * warmup as real
            == (maxLr - minLr) * it as real
  {
    var w := warmup as real;
    var f := it as real / w;
    assert f * w == it as real;
    calc {
      (maxLr - minLr) * f * w;
      (maxLr - minLr) * (f * w);
    }
  }

  /** Multiplying by a positive factor preserves and reflects order. */
  lemma ScaleOrder(a: real, b: real, w: real)
    requires 0.0 < w
    ensures a * w <= b * w <==> a <= b
    ensures a * w < b * w <==> a < b
  {
    assert b * w - a * w == (b - a) * w;
  }

  /** The ramp is non-decreasing in `it` when `min_lr <= max_lr`. */
  lemma WarmupMonotone(i: int, j: int, warmup: int, training: int, maxLr: real, minLr: real)
    requires 0 <= i <= j < warmup
    requires minLr <= maxLr
    ensures GetLr(i, warmup, training, maxLr, minLr).Warmup?
    ensures GetLr(j, warmup, training, maxLr, minLr).Warmup?
    ensures GetLr(i, warmup, training, maxLr, minLr).lr <= GetLr(j, warmup, training, maxLr, minLr).lr
  {
    RampScaled(i, warmup, training, maxLr, minLr);
    RampScaled(j, warmup, training, maxLr, minLr);
    var li := GetLr(i, warmup, training, maxLr, minLr).lr;
    var lj := GetLr(j, warmup, training, maxLr, minLr).lr;
    if minLr < maxLr {
      ScaleOrder(i as real, j as real, maxLr - minLr);
    }
    ScaleOrder(li - minLr, lj - minLr, warmup as real);
  }

  /** During warmup the rate lies between the two bounds, and it never
      reaches `max_lr` unless both bounds are equal. */
  lemma WarmupBounds(it: int, warmup: int, training: int, maxLr: real, minLr: real)
    requires 0 <= it < warmup
    ensures GetLr(it, warmup, training, maxLr, minLr).Warmup?
    ensures Min(minLr, maxLr) <= GetLr(it, warmup, training, maxLr, minLr).lr <= Max(minLr, maxLr)
    ensures minLr < maxLr ==> GetLr(it, warmup, training, maxLr, minLr).lr < maxLr
    ensures maxLr < minLr ==> maxLr < GetLr(it, warmup, training, maxLr, minLr).lr
  {
    RampScaled(it, warmup, training, maxLr, minLr);
    var w := warmup as real;
    var l := GetLr(it, warmup, training, maxLr, minLr).lr;
    var d := maxLr - minLr;
    assert (l - minLr) * w == d * it as real;
    if d > 0.0 {
      FractionBounds(l - minLr, d, it as real, w);
    } else if d < 0.0 {
      assert (minLr - l) * w == (-d) * it as real;
      FractionBounds(minLr - l, -d, it as real, w);
    } else {
      ScaleOrder(l - minLr, 0.0, w);
      ScaleOrder(0.0, l - minLr, w);
    }
  }

  /** If `e * w == d * x` with `0 <= x < w` and `d > 0`, then `e` is the
      fraction `x / w` of `d`, so `0 <= e < d`. */
  lemma FractionBounds(e: real, d: real, x: real, w: real)
    requires 0.0 <= x < w && 0.0 < d
    requires e * w == d * x
    ensures 0.0 <= e < d
  {
    ScaleOrder(0.0, x, d);
    ScaleOrder(x, w, d);
    assert 0.0 <= x * d < w * d;
    assert x * d == e * w && w * d == d * w;
    ScaleOrder(0.0, e, w);
    ScaleOrder(e, d, w);
  }

  /** The ramp can be inverted: from the rate one recovers the step. */
  lemma WarmupInverse(it: int, warmup: int, training: int, maxLr: real, minLr: real)
    requires 0 <= it < warmup
    requires minLr != maxLr
    ensures GetLr(it, warmup, training, maxLr, minLr).Warmup?
    ensures (GetLr(it, warmup, training, maxLr, minLr).lr - minLr) * warmup as real / (maxLr - minLr)
            == it as real
  {
    RampScaled(it, warmup, training, maxLr, minLr);
  }

  /** The decay branch starts with progress 0 at `it == num_warmup_steps`
      (the cosine then gives `max_lr`) and has progress 1 at
      `it == num_training_steps` (the cosine gives `min_lr`); beyond it the
      progress exceeds 1. */
  lemma DecayEndpoints(warmup: int, training: int, maxLr: real, minLr: real)
    requires warmup < training
    ensures GetLr(warmup, warmup, training, maxLr, minLr) == Cosine(0.0)
    ensures GetLr(training, warmup, training, maxLr, minLr) == Cosine(1.0)
    ensures GetLr(training + 1, warmup, training, maxLr, minLr).progress > 1.0
  {
    var d := (training - warmup) as real;
    assert (training - warmup) as real / d == 1.0;
    var q := (training + 1 - warmup) as real / d;
    assert q * d == d + 1.0;
    ScaleOrder(q, 1.0, d);
  }

  /** For a non-negative step, `get_lr` raises exactly when the step is past
      the warmup and the decay phase has length zero. */
  lemma ZeroDivisionExactly(it: int, warmup: int, training: int, maxLr: real, minLr: real)
    requires 0 <= it
    ensures GetLr(it, warmup, training, maxLr, minLr) == ZeroDivision
            <==> warmup <= it && warmup == training
  {
  }
}
