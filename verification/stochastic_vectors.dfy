/**
  The stochastic engine's reference vectors, computed exactly over the reals.
  The source's tests expect 66.66667, 36.363636, ..., which agree with these
  rationals to within one f32 ulp: the engine rounds after each operation, so
  its result need not be the rounding of the exact value.
 */
module StochasticVectors {
  import opened Indicator
  import opened Stochastic

  const A: Sample := Sample(15.0, 10.0, 20.0)
  const B: Sample := Sample(18.0, 13.0, 22.0)
  const C: Sample := Sample(18.0, 10.0, 19.0)
  const D: Sample := Sample(21.0, 13.0, 22.0)
  const E: Sample := Sample(12.0, 10.0, 32.0)
  const F: Sample := Sample(14.0, 13.0, 27.0)

  /** Seven repetitions of the pair A, B. */
  const Simple: seq<Sample> := [A, B, A, B, A, B, A, B, A, B, A, B, A, B]

  /** Three repetitions of the six sessions A .. F. */
  const Complex: seq<Sample> := [A, B, C, D, E, F, A, B, C, D, E, F, A, B, C, D, E, F]

  /** Every session of the longer series lies within 10 ..= 32. */
  lemma ComplexRange()
    ensures forall j :: 0 <= j < |Complex| ==> 10.0 <= Complex[j].low && Complex[j].high <= 32.0
  {
  }

  /** The one window of the short series spans 10 ..= 22. */
  lemma SimpleWindow()
    ensures WindowLow(Simple, 0, 13) == 10.0 && WindowHigh(Simple, 0, 13) == 22.0
  {
    forall j | 0 <= j < |Simple|
      ensures 10.0 <= Simple[j].low && Simple[j].high <= 22.0
    {
      assert Simple[j] in {A, B};
    }
    assert Simple[0].low == 10.0 && Simple[1].high == 22.0;
    assert IsWindowLow(Simple, 0, 13, 10.0);
    assert IsWindowHigh(Simple, 0, 13, 22.0);
    ExtremaUnique(Simple, 0, 13, 10.0, 22.0);
  }

  /** The one window places close 18 within 10 ..= 22: 8/12 of 100, 200/3. */
  lemma SimpleValue()
    ensures KAt(Simple, 13) == Some(200.0 / 3.0)
  {
    SimpleWindow();
    assert Simple[13] == B;
    assert KAt(Simple, 13) == PercentK(18.0, 10.0, 22.0);
    assert PercentK(18.0, 10.0, 22.0) == Some((18.0 - 10.0) / 12.0 * 100.0);
  }

  /** A single window, so a single value. */
  lemma SimpleVector()
    ensures StochasticK(Simple) == Ok([Some(200.0 / 3.0)])
  {
    SingleWindow(Simple);
    SimpleValue();
  }

  /** Every window of the longer series holds a session A (low 10) and a session E (high 32). */
  lemma ComplexWindow(k: nat)
    requires k < 5
    ensures WindowLow(Complex, k, k + 13) == 10.0
    ensures WindowHigh(Complex, k, k + 13) == 32.0
  {
    ComplexRange();
    assert Complex[6].low == 10.0 && Complex[4].high == 32.0 && Complex[16].high == 32.0;
    assert IsWindowHigh(Complex, k, k + 13, 32.0);
    assert IsWindowLow(Complex, k, k + 13, 10.0);
    ExtremaUnique(Complex, k, k + 13, 10.0, 32.0);
  }

  /** The expected %K values of the longer series. */
  const ComplexK: seq<real> := [400.0 / 11.0, 400.0 / 11.0, 50.0, 100.0 / 11.0, 200.0 / 11.0]

  /** The closes at the five window ends. */
  const ComplexCloses: seq<real> := [18.0, 18.0, 21.0, 12.0, 14.0]

  lemma ComplexClose(k: nat)
    requires k < 5
    ensures Complex[k + 13].close == ComplexCloses[k]
  {
  }

  /** Window `k` places its close within 10 ..= 32. */
  lemma ComplexValue(k: nat)
    requires k < 5
    ensures KAt(Complex, k + 13) == Some(ComplexK[k])
  {
    ComplexWindow(k);
    ComplexClose(k);
    var c := ComplexCloses[k];
    assert KAt(Complex, k + 13) == PercentK(c, 10.0, 32.0);
    assert PercentK(c, 10.0, 32.0) == Some((c - 10.0) / 22.0 * 100.0);
  }

  /** Five windows, all spanning 10 ..= 32. */
  lemma ComplexVector()
    ensures StochasticK(Complex) ==
            Ok([Some(400.0 / 11.0), Some(400.0 / 11.0), Some(50.0), Some(100.0 / 11.0), Some(200.0 / 11.0)])
  {
    var r := StochasticK(Complex).value;
    forall k | 0 <= k < 5
      ensures r[k] == Some(ComplexK[k])
    {
      ComplexValue(k);
    }
    assert r == [r[0], r[1], r[2], r[3], r[4]];
  }

  /** A single session fails, naming one received and PERIOD required. */
  lemma SingleSampleFails()
    ensures StochasticK([Sample(10.0, 10.0, 10.0)]) == Err(InsufficientData(1, 14))
  {
  }
}
