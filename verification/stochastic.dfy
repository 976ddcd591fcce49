/**
  Stochastic oscillator %K over a series of (close, low, high) samples.

  For every window end the engine takes that sample's close, scans the
  window of PERIOD samples ending there for the lowest low and the highest
  high, and places the close within that range as a percentage. The pure
  functions below are the reference definition; `Run` mirrors the engine's
  nested loops and is proved equal to it.
 */
module Stochastic {
  import opened Indicator

  /** Lookback window of the engine, counting the current sample. */
  const PERIOD: nat := 14

  /** One trading session. */
  datatype Sample = Sample(close: real, low: real, high: real)

  /** The shape the engine expects but does not check: low <= close <= high. */
  predicate Consistent(s: Sample) {
    s.low <= s.close <= s.high
  }

  /** `m` is the lowest low of samples `lo ..= hi`: a lower bound that some sample attains. */
  ghost predicate IsWindowLow(s: seq<Sample>, lo: nat, hi: nat, m: real)
    requires lo <= hi < |s|
  {
    (forall j :: lo <= j <= hi ==> m <= s[j].low) &&
    (exists j :: lo <= j <= hi && m == s[j].low)
  }

  /** `m` is the highest high of samples `lo ..= hi`: an upper bound that some sample attains. */
  ghost predicate IsWindowHigh(s: seq<Sample>, lo: nat, hi: nat, m: real)
    requires lo <= hi < |s|
  {
    (forall j :: lo <= j <= hi ==> s[j].high <= m) &&
    (exists j :: lo <= j <= hi && m == s[j].high)
  }

  /** The lowest low over samples `lo ..= hi`. */
  function WindowLow(s: seq<Sample>, lo: nat, hi: nat): (m: real)
    requires lo <= hi < |s|
    ensures IsWindowLow(s, lo, hi, m)
    decreases hi - lo
  {
    if lo == hi then s[hi].low
    else
      var rest := WindowLow(s, lo, hi - 1);
      if s[hi].low < rest then s[hi].low else rest
  }

  /** The highest high over samples `lo ..= hi`. */
  function WindowHigh(s: seq<Sample>, lo: nat, hi: nat): (m: real)
    requires lo <= hi < |s|
    ensures IsWindowHigh(s, lo, hi, m)
    decreases hi - lo
  {
    if lo == hi then s[hi].high
    else
      var rest := WindowHigh(s, lo, hi - 1);
      if s[hi].high > rest then s[hi].high else rest
  }

  /** A window has exactly one lowest low and one highest high. */
  lemma ExtremaUnique(s: seq<Sample>, lo: nat, hi: nat, low: real, high: real)
    requires lo <= hi < |s|
    ensures IsWindowLow(s, lo, hi, low) ==> low == WindowLow(s, lo, hi)
    ensures IsWindowHigh(s, lo, hi, high) ==> high == WindowHigh(s, lo, hi)
  {
  }

  /**
    Where `close` sits in the range from `low` to `high`, as a percentage.
    A flat range has no value: the engine divides by zero there.
   */
  function PercentK(close: real, low: real, high: real): (k: Option<real>)
    ensures k.None? <==> high == low
    ensures low <= close <= high && low < high ==> k.Some? && 0.0 <= k.value <= 100.0
    ensures k.Some? && close == low ==> k.value == 0.0
    ensures k.Some? && close == high ==> k.value == 100.0
  {
    if high == low then None
    else
      Fraction(close - low, high - low);
      Some(((close - low) / (high - low)) * 100.0)
  }

  /** A part of a positive whole is a fraction in [0, 1]. */
  lemma Fraction(part: real, whole: real)
    requires whole != 0.0
    ensures 0.0 <= part <= whole ==> 0.0 <= part / whole <= 1.0
    ensures part == 0.0 ==> part / whole == 0.0
    ensures part == whole ==> part / whole == 1.0
  {
  }

  /**
    The value for the window that ends at sample `i` (PERIOD - 1 <= i): the
    close of sample `i` placed within the window's lowest low and highest high.
   */
  function KAt(s: seq<Sample>, i: nat): (k: Option<real>)
    requires PERIOD - 1 <= i < |s|
    ensures k.None? <==> WindowLow(s, i + 1 - PERIOD, i) == WindowHigh(s, i + 1 - PERIOD, i)
    ensures Consistent(s[i]) && k.Some? ==> 0.0 <= k.value <= 100.0
    ensures k.Some? && s[i].close == WindowLow(s, i + 1 - PERIOD, i) ==> k.value == 0.0
    ensures k.Some? && s[i].close == WindowHigh(s, i + 1 - PERIOD, i) ==> k.value == 100.0
  {
    var low := WindowLow(s, i + 1 - PERIOD, i);
    var high := WindowHigh(s, i + 1 - PERIOD, i);
    assert low <= s[i].low && s[i].high <= high;
    PercentK(s[i].close, low, high)
  }

  /** Reference definition of the whole engine. */
  function StochasticK(s: seq<Sample>): (r: Result<seq<Option<real>>>)
    ensures r.Err? <==> |s| < PERIOD
    ensures r.Err? ==> r.error == InsufficientData(|s|, PERIOD)
    ensures r.Ok? ==> |r.value| == |s| - PERIOD + 1
  {
    if |s| < PERIOD then
      Err(InsufficientData(|s|, PERIOD))
    else
      Ok(seq(|s| - PERIOD + 1, k requires 0 <= k < |s| - PERIOD + 1 => KAt(s, k + PERIOD - 1)))
  }

  /** A series of exactly PERIOD samples has a single window, so a single value. */
  lemma SingleWindow(s: seq<Sample>)
    requires |s| == PERIOD
    ensures StochasticK(s) == Ok([KAt(s, PERIOD - 1)])
  {
    var r := StochasticK(s).value;
    assert r == [r[0]];
  }

  /**
    The inner scan of the engine: seeded with sample `i`'s own low and high,
    it folds in samples i + 1 - PERIOD up to, not including, `i`.
   */
  method WindowScan(prices: seq<Sample>, i: nat) returns (low14: real, high14: real)
    requires PERIOD - 1 <= i < |prices|
    ensures low14 == WindowLow(prices, i + 1 - PERIOD, i)
    ensures high14 == WindowHigh(prices, i + 1 - PERIOD, i)
  {
    var lo := i + 1 - PERIOD;
    assert Get(prices, i).Some?;
    var cur := Get(prices, i).value;
    low14 := cur.low;
    high14 := cur.high;
    for j := lo to i
      invariant low14 <= prices[i].low && high14 >= prices[i].high
      invariant forall k :: lo <= k < j ==> low14 <= prices[k].low && prices[k].high <= high14
      invariant low14 == prices[i].low || exists k :: lo <= k < j && low14 == prices[k].low
      invariant high14 == prices[i].high || exists k :: lo <= k < j && high14 == prices[k].high
    {
      assert Get(prices, j).Some?;
      var prev := Get(prices, j).value;
      if low14 > prev.low {
        low14 := prev.low;
      }
      if high14 < prev.high {
        high14 := prev.high;
      }
    }
    assert IsWindowLow(prices, lo, i, low14);
    assert IsWindowHigh(prices, lo, i, high14);
    ExtremaUnique(prices, lo, i, low14, high14);
  }

  /**
    The engine as written: a length check, then one value per window end,
    each from a fresh rescan of its window.
   */
  method Run(prices: seq<Sample>) returns (r: Result<seq<Option<real>>>)
    ensures r == StochasticK(prices)
    ensures r.Err? <==> |prices| < PERIOD
    ensures r.Err? ==> r.error == InsufficientData(|prices|, PERIOD)
    ensures r.Ok? ==> |r.value| == |prices| - PERIOD + 1
    ensures r.Ok? && (forall j :: 0 <= j < |prices| ==> Consistent(prices[j])) ==>
              forall k :: 0 <= k < |r.value| && r.value[k].Some? ==> 0.0 <= r.value[k].value <= 100.0
  {
    if |prices| < PERIOD {
      return Err(InsufficientData(|prices|, PERIOD));
    }
    var oscs: seq<Option<real>> := [];
    for i := PERIOD - 1 to |prices|
      invariant |oscs| == i - (PERIOD - 1)
      invariant forall k :: 0 <= k < |oscs| ==> oscs[k] == KAt(prices, k + PERIOD - 1)
    {
      assert Get(prices, i).Some?;
      var p := Get(prices, i).value.close;
      var low14, high14 := WindowScan(prices, i);
      var osc := PercentK(p, low14, high14);
      oscs := oscs + [osc];
    }
    assert oscs == StochasticK(prices).value;
    if forall j :: 0 <= j < |prices| ==> Consistent(prices[j]) {
      Bounded(prices);
    }
    return Ok(oscs);
  }

  /**
    When every sample is consistent, every value the engine yields lies in
    [0, 100], and a value is missing exactly where the window is flat.
   */
  lemma Bounded(s: seq<Sample>)
    requires forall j :: 0 <= j < |s| ==> Consistent(s[j])
    ensures StochasticK(s).Ok? ==>
              forall k :: 0 <= k < |StochasticK(s).value| ==>
                var i := k + PERIOD - 1;
                var v := StochasticK(s).value[k];
                (v.None? <==> WindowLow(s, i + 1 - PERIOD, i) == WindowHigh(s, i + 1 - PERIOD, i)) &&
                (v.Some? ==> 0.0 <= v.value <= 100.0)
  {
    if StochasticK(s).Ok? {
      forall k | 0 <= k < |StochasticK(s).value|
        ensures var i := k + PERIOD - 1;
                var v := StochasticK(s).value[k];
                (v.None? <==> WindowLow(s, i + 1 - PERIOD, i) == WindowHigh(s, i + 1 - PERIOD, i)) &&
                (v.Some? ==> 0.0 <= v.value <= 100.0)
      {
        var i := k + PERIOD - 1;
        var lo := i + 1 - PERIOD;
        var low := WindowLow(s, lo, i);
        var high := WindowHigh(s, lo, i);
        assert Consistent(s[i]);
        assert low <= s[i].low && s[i].high <= high;
        assert StochasticK(s).value[k] == KAt(s, i);
      }
    }
  }

  /**
    The value at window end `i` depends on samples i + 1 - PERIOD ..= i and
    on nothing else: two series that agree on that window agree on it.
   */
  lemma WindowLocal(s: seq<Sample>, t: seq<Sample>, i: nat)
    requires PERIOD - 1 <= i < |s| && PERIOD - 1 <= i < |t|
    requires forall j :: i + 1 - PERIOD <= j <= i ==> s[j] == t[j]
    ensures KAt(s, i) == KAt(t, i)
  {
  }

  /**
    Appending samples only appends values: the series computed from a longer
    history starts with the series computed from any prefix of it.
   */
  lemma Causal(s: seq<Sample>, t: seq<Sample>)
    requires |s| >= PERIOD
    ensures StochasticK(s + t).Ok? && StochasticK(s).Ok?
    ensures StochasticK(s + t).value[..|s| - PERIOD + 1] == StochasticK(s).value
  {
    forall k | 0 <= k < |s| - PERIOD + 1
      ensures StochasticK(s + t).value[k] == StochasticK(s).value[k]
    {
      WindowLocal(s + t, s, k + PERIOD - 1);
    }
  }
}
