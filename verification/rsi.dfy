/**
  Relative Strength Index over a price series, with Wilder smoothing.

  The engine seeds an average gain and an average loss from the first
  PERIOD + 1 prices, emits one value from them, and then folds every later
  price into both averages with Wilder's recurrence, emitting one value per
  price. The pure functions below are the reference definition; `Run`
  mirrors the engine's two loops and is proved equal to it.
 */
module Rsi {
  import opened Indicator

  /** Smoothing window of the engine. */
  const PERIOD: nat := 14
  /** Prices needed for the first value: one more than the window. */
  const REQUIRED: nat := PERIOD + 1
  /**
    The window as the divisor the engine uses. It is written as a real literal
    rather than `PERIOD as real` so that the solver reasons about a constant;
    `PeriodAsReal` ties the two spellings together.
   */
  const P: real := 14.0

  lemma PeriodAsReal()
    ensures P == PERIOD as real
  {
  }

  /** The rise from `prev` to `cur`, or zero when the price did not rise. */
  function Gain(prev: real, cur: real): (g: real)
    ensures g >= 0.0
    ensures g > 0.0 <==> cur > prev
  {
    if cur > prev then cur - prev else 0.0
  }

  /** The drop from `prev` to `cur`, or zero when the price did not drop. */
  function Loss(prev: real, cur: real): (l: real)
    ensures l >= 0.0
    ensures l > 0.0 <==> cur < prev
    ensures Gain(prev, cur) - l == cur - prev
  {
    if cur < prev then prev - cur else 0.0
  }

  /** Sum of the gains between consecutive prices among the first `n` prices. */
  function GainSum(p: seq<real>, n: nat): (s: real)
    requires 1 <= n <= |p|
    ensures s >= 0.0
    decreases n
  {
    if n == 1 then 0.0 else GainSum(p, n - 1) + Gain(p[n - 2], p[n - 1])
  }

  /** Sum of the losses between consecutive prices among the first `n` prices. */
  function LossSum(p: seq<real>, n: nat): (s: real)
    requires 1 <= n <= |p|
    ensures s >= 0.0
    decreases n
  {
    if n == 1 then 0.0 else LossSum(p, n - 1) + Loss(p[n - 2], p[n - 1])
  }

  /** Total gains minus total losses telescope to the net price change. */
  lemma {:induction false} NetChange(p: seq<real>, n: nat)
    requires 1 <= n <= |p|
    ensures GainSum(p, n) - LossSum(p, n) == p[n - 1] - p[0]
    decreases n
  {
    if n > 1 {
      NetChange(p, n - 1);
    }
  }

  /** The first `n` prices all equal the first one. */
  predicate Flat(p: seq<real>, n: nat)
    requires n <= |p|
  {
    forall k :: 0 <= k < n ==> p[k] == p[0]
  }

  lemma FlatExtend(p: seq<real>, n: nat)
    requires 1 <= n < |p|
    ensures Flat(p, n + 1) <==> Flat(p, n) && p[n] == p[n - 1]
  {
  }

  /** Both sums vanish exactly when the first `n` prices are all equal. */
  lemma {:induction false} FlatPrefix(p: seq<real>, n: nat)
    requires 1 <= n <= |p|
    ensures GainSum(p, n) == 0.0 && LossSum(p, n) == 0.0 <==> Flat(p, n)
    decreases n
  {
    if n > 1 {
      FlatPrefix(p, n - 1);
      FlatExtend(p, n - 1);
    }
  }

  /** The two smoothed averages the engine carries from price to price. */
  datatype Averages = Averages(gain: real, loss: real)

  predicate NonNegative(a: Averages) {
    a.gain >= 0.0 && a.loss >= 0.0
  }

  /** The averages after the seeding pass over prices 0 ..= PERIOD. */
  function Seed(p: seq<real>): (a: Averages)
    requires |p| >= REQUIRED
    ensures NonNegative(a)
  {
    Averages(GainSum(p, REQUIRED) / P, LossSum(p, REQUIRED) / P)
  }

  /**
    The seeded averages differ by the net change over the seeding window,
    divided by the window: a zero difference adds to neither sum.
   */
  lemma SeedNetChange(p: seq<real>)
    requires |p| >= REQUIRED
    ensures P * (Seed(p).gain - Seed(p).loss) == p[PERIOD] - p[0]
  {
    var g := GainSum(p, REQUIRED);
    var l := LossSum(p, REQUIRED);
    NetChange(p, REQUIRED);
    assert g - l == p[PERIOD] - p[0];
    assert Seed(p) == Averages(g / P, l / P);
  }

  /**
    One step of the recurrence for a move from `last` to `cur`. An unchanged
    price leaves both averages as they were: the engine has no branch for it.
   */
  function Step(a: Averages, last: real, cur: real): (b: Averages)
    ensures NonNegative(a) ==> NonNegative(b)
    ensures cur == last ==> b == a
    ensures cur != last ==>
              P * b.gain == (P - 1.0) * a.gain + Gain(last, cur) &&
              P * b.loss == (P - 1.0) * a.loss + Loss(last, cur)
  {
    if cur > last then
      Averages((a.gain * (P - 1.0) + (cur - last)) / P, (a.loss * (P - 1.0)) / P)
    else if cur < last then
      Averages((a.gain * (P - 1.0)) / P, (a.loss * (P - 1.0) + (last - cur)) / P)
    else
      a
  }

  predicate Zero(a: Averages) {
    a.gain == 0.0 && a.loss == 0.0
  }

  /**
    A step ends with both averages at zero exactly when it starts there and
    the price does not move.
   */
  lemma StepZero(a: Averages, last: real, cur: real)
    requires NonNegative(a)
    ensures Zero(Step(a, last, cur)) <==> Zero(a) && cur == last
  {
  }

  /** The averages in force once price `i` has been consumed (PERIOD <= i). */
  function AveragesAt(p: seq<real>, i: nat): (a: Averages)
    requires PERIOD <= i < |p|
    ensures NonNegative(a)
    decreases i
  {
    if i == PERIOD then Seed(p) else Step(AveragesAt(p, i - 1), p[i - 1], p[i])
  }

  /**
    The index computed from a pair of averages: 100 - 100 / (1 + gain/loss).
    With no loss and some gain the ratio is infinite and the engine yields
    exactly 100; with neither the ratio is 0/0 and there is no value.
   */
  function Value(a: Averages): (v: Option<real>)
    requires NonNegative(a)
    ensures a.loss > 0.0 || a.gain > 0.0 ==> v == Some(100.0 * a.gain / (a.gain + a.loss))
    ensures v.None? <==> a.gain == 0.0 && a.loss == 0.0
    ensures v.Some? ==> 0.0 <= v.value <= 100.0
  {
    if a.loss != 0.0 then
      RatioForm(a.gain, a.loss);
      Some(100.0 - 100.0 / (1.0 + a.gain / a.loss))
    else if a.gain > 0.0 then
      assert 100.0 * a.gain / (a.gain + a.loss) == 100.0 * a.gain / a.gain == 100.0;
      Some(100.0)
    else
      None
  }

  /** The engine's ratio form equals the share of gains in the total movement. */
  lemma RatioForm(g: real, l: real)
    requires g >= 0.0 && l > 0.0
    ensures 100.0 - 100.0 / (1.0 + g / l) == 100.0 * g / (g + l)
    ensures 0.0 <= 100.0 * g / (g + l) <= 100.0
  {
    var s := g + l;
    var rs := g / l;
    assert rs * l == g;
    var a := 100.0 / (1.0 + rs);
    assert a * (1.0 + rs) == 100.0;
    calc {
      a * s;
      a * ((1.0 + rs) * l);
      (a * (1.0 + rs)) * l;
      100.0 * l;
    }
    var b := 100.0 * g / s;
    assert b * s == 100.0 * g;
    calc {
      a + b;
      ((a + b) * s) / s;
      (a * s + b * s) / s;
      (100.0 * s) / s;
      100.0;
    }
    assert b <= 100.0 by {
      assert b * s <= 100.0 * s;
    }
  }

  /** Reference definition of the whole engine. */
  function RsiSeries(p: seq<real>): (r: Result<seq<Option<real>>>)
    ensures r.Err? <==> |p| < REQUIRED
    ensures r.Err? ==> r.error == InsufficientData(|p|, REQUIRED)
    ensures r.Ok? ==> |r.value| == |p| - PERIOD
  {
    if |p| < REQUIRED then
      Err(InsufficientData(|p|, REQUIRED))
    else
      Ok(seq(|p| - PERIOD, k requires 0 <= k < |p| - PERIOD => Value(AveragesAt(p, k + PERIOD))))
  }

  /**
    The seeding pass of the engine: walks prices 0 ..= PERIOD, summing rises
    and drops, then divides both sums by the window.
   */
  method SeedPass(prices: seq<real>) returns (ag: real, al: real, lastPrice: real)
    requires |prices| >= REQUIRED
    ensures Averages(ag, al) == Seed(prices)
    ensures lastPrice == prices[PERIOD]
  {
    ag := 0.0;
    al := 0.0;
    lastPrice := 0.0;
    for i := 0 to REQUIRED
      invariant i == 0 ==> ag == 0.0 && al == 0.0
      invariant i >= 1 ==> lastPrice == prices[i - 1]
      invariant i >= 1 ==> ag == GainSum(prices, i) && al == LossSum(prices, i)
    {
      if i == 0 {
        assert Get(prices, 0).Some?;
        lastPrice := Get(prices, 0).value;
        continue;
      }
      assert Get(prices, i).Some?;
      var currentPrice := Get(prices, i).value;
      if currentPrice > lastPrice {
        ag := ag + (currentPrice - lastPrice);
      } else if currentPrice < lastPrice {
        al := al + (lastPrice - currentPrice);
      }
      lastPrice := currentPrice;
    }
    ag := ag / P;
    al := al / P;
  }

  /**
    The engine as written: a length check, the seeding pass, the first value,
    and a recurrence loop over the remaining prices.
   */
  method Run(prices: seq<real>) returns (r: Result<seq<Option<real>>>)
    ensures r == RsiSeries(prices)
    ensures r.Err? <==> |prices| < REQUIRED
    ensures r.Err? ==> r.error == InsufficientData(|prices|, REQUIRED)
    ensures r.Ok? ==> |r.value| == |prices| - PERIOD
    ensures r.Ok? ==> forall k :: 0 <= k < |r.value| && r.value[k].Some? ==>
                        0.0 <= r.value[k].value <= 100.0
  {
    if |prices| < REQUIRED {
      return Err(InsufficientData(|prices|, REQUIRED));
    }
    var ag, al, lastPrice := SeedPass(prices);
    var rsis: seq<Option<real>> := [Value(Averages(ag, al))];
    for i := REQUIRED to |prices|
      invariant lastPrice == prices[i - 1]
      invariant Averages(ag, al) == AveragesAt(prices, i - 1)
      invariant |rsis| == i - PERIOD
      invariant forall k :: 0 <= k < |rsis| ==> rsis[k] == Value(AveragesAt(prices, k + PERIOD))
    {
      assert Get(prices, i).Some?;
      var currentPrice := Get(prices, i).value;
      if currentPrice > lastPrice {
        ag := (ag * (P - 1.0) + (currentPrice - lastPrice)) / P;
        al := (al * (P - 1.0)) / P;
      } else if currentPrice < lastPrice {
        ag := (ag * (P - 1.0)) / P;
        al := (al * (P - 1.0) + (lastPrice - currentPrice)) / P;
      }
      assert Averages(ag, al) == AveragesAt(prices, i);
      rsis := rsis + [Value(Averages(ag, al))];
      lastPrice := currentPrice;
    }
    assert rsis == RsiSeries(prices).value;
    return Ok(rsis);
  }

  lemma SeedZero(p: seq<real>)
    requires |p| >= REQUIRED
    ensures Zero(Seed(p)) <==> Flat(p, REQUIRED)
  {
    var g := GainSum(p, REQUIRED);
    var l := LossSum(p, REQUIRED);
    assert Seed(p) == Averages(g / P, l / P);
    assert g / P == 0.0 <==> g == 0.0;
    assert l / P == 0.0 <==> l == 0.0;
    FlatPrefix(p, REQUIRED);
  }

  /**
    Both averages are zero exactly while every price so far equals the first:
    any move makes an average positive, and the recurrence never brings a
    positive average back to zero.
   */
  lemma {:induction false} ZeroIffFlat(p: seq<real>, i: nat)
    requires PERIOD <= i < |p|
    ensures Zero(AveragesAt(p, i)) <==> Flat(p, i + 1)
    decreases i
  {
    if i == PERIOD {
      SeedZero(p);
    } else {
      ZeroIffFlat(p, i - 1);
      StepZero(AveragesAt(p, i - 1), p[i - 1], p[i]);
      FlatExtend(p, i);
    }
  }

  /** The engine emits no value exactly where every price so far equals the first. */
  lemma UndefinedIffFlat(p: seq<real>, i: nat)
    requires PERIOD <= i < |p|
    ensures Value(AveragesAt(p, i)).None? <==> forall k :: 0 <= k <= i ==> p[k] == p[0]
  {
    ZeroIffFlat(p, i);
  }

  /** Prices after the first `n` do not change the first `n` sums. */
  lemma {:induction false} SumsIgnoreLater(p: seq<real>, q: seq<real>, n: nat)
    requires 1 <= n <= |p|
    ensures GainSum(p + q, n) == GainSum(p, n) && LossSum(p + q, n) == LossSum(p, n)
    decreases n
  {
    if n > 1 {
      SumsIgnoreLater(p, q, n - 1);
      assert (p + q)[n - 2] == p[n - 2] && (p + q)[n - 1] == p[n - 1];
    }
  }

  /** Prices after index `i` do not change the averages in force at `i`. */
  lemma {:induction false} AveragesIgnoreLater(p: seq<real>, q: seq<real>, i: nat)
    requires PERIOD <= i < |p|
    ensures AveragesAt(p + q, i) == AveragesAt(p, i)
    decreases i
  {
    if i == PERIOD {
      SumsIgnoreLater(p, q, REQUIRED);
    } else {
      AveragesIgnoreLater(p, q, i - 1);
      assert (p + q)[i - 1] == p[i - 1] && (p + q)[i] == p[i];
    }
  }

  /**
    Appending prices only appends values: the series computed from a longer
    history starts with the series computed from any prefix of it.
   */
  lemma Causal(p: seq<real>, q: seq<real>)
    requires |p| >= REQUIRED
    ensures RsiSeries(p + q).Ok? && RsiSeries(p).Ok?
    ensures RsiSeries(p + q).value[..|p| - PERIOD] == RsiSeries(p).value
  {
    forall k | 0 <= k < |p| - PERIOD
      ensures RsiSeries(p + q).value[k] == RsiSeries(p).value[k]
    {
      AveragesIgnoreLater(p, q, k + PERIOD);
    }
  }

  /**
    With exactly PERIOD + 1 prices the series is the single value of the
    seeding formula; with more, the first value is still that one.
   */
  lemma FirstValueIsSeed(p: seq<real>)
    requires |p| >= REQUIRED
    ensures RsiSeries(p).Ok? && RsiSeries(p).value[0] == Value(Seed(p))
    ensures |p| == REQUIRED ==> RsiSeries(p).value == [Value(Seed(p))]
  {
    assert RsiSeries(p).value[0] == Value(AveragesAt(p, PERIOD));
  }

  /**
    On an unchanged price the engine leaves the averages alone, where Wilder's
    scheme would decay both by (P - 1) / P. The value emitted at that step is
    the same either way, since both averages scale alike.
   */
  lemma FlatStepValue(a: Averages)
    requires NonNegative(a)
    ensures var d := Averages(a.gain * (P - 1.0) / P, a.loss * (P - 1.0) / P);
            NonNegative(d) && Value(d) == Value(a)
  {
    var c := (P - 1.0) / P;
    var d := Averages(a.gain * (P - 1.0) / P, a.loss * (P - 1.0) / P);
    assert c > 0.0;
    assert d.gain == c * a.gain && d.loss == c * a.loss;
    if a.loss > 0.0 {
      var s := a.gain + a.loss;
      var x := 100.0 * a.gain / s;
      assert x * s == 100.0 * a.gain;
      assert d.gain + d.loss == c * s;
      assert x * (c * s) == 100.0 * d.gain by {
        calc {
          x * (c * s);
          c * (x * s);
          c * (100.0 * a.gain);
          100.0 * d.gain;
        }
      }
      assert x == 100.0 * d.gain / (d.gain + d.loss);
    }
  }

  /**
    The two readings part ways once the price moves again. From averages
    (1, 1), an unchanged price followed by a rise of 1 emits 1400/27 when the
    averages were left alone, as the engine does, but 4575/88 when they were
    first decayed by (P - 1) / P, as Wilder's scheme does.
   */
  lemma FlatStepDiverges()
    ensures Value(Step(Step(Averages(1.0, 1.0), 10.0, 10.0), 10.0, 11.0)) == Some(1400.0 / 27.0)
    ensures Value(Step(Averages(13.0 / 14.0, 13.0 / 14.0), 10.0, 11.0)) == Some(4575.0 / 88.0)
  {
    var code := Step(Step(Averages(1.0, 1.0), 10.0, 10.0), 10.0, 11.0);
    assert code == Averages(1.0, 13.0 / 14.0);
    assert 100.0 * 1.0 / (1.0 + 13.0 / 14.0) == 1400.0 / 27.0;
    var wilder := Step(Averages(13.0 / 14.0, 13.0 / 14.0), 10.0, 11.0);
    assert wilder == Averages(183.0 / 196.0, 169.0 / 196.0);
    assert 100.0 * (183.0 / 196.0) / (183.0 / 196.0 + 169.0 / 196.0) == 4575.0 / 88.0;
  }
}
