/**
  The RSI engine's reference vectors, computed exactly over the reals.
  The source's tests expect 57.69231, 49.492382, ..., which agree with these
  rationals to within one f32 ulp: the engine rounds after each operation, so
  its result need not be the rounding of the exact value.
 */
module RsiVectors {
  import opened Indicator
  import opened Rsi

  /** Three repetitions of the five-price cycle 10, 12, 15, 13, 18. */
  const Simple: seq<real> := [10.0, 12.0, 15.0, 13.0, 18.0, 10.0, 12.0, 15.0, 13.0, 18.0, 10.0, 12.0, 15.0, 13.0, 18.0]

  /** The same, followed by a drop back to 10. */
  const Complex: seq<real> := Simple + [10.0]

  /** Any series that starts with the cycle: its first PERIOD + 1 prices. */
  predicate StartsWithCycle(p: seq<real>) {
    |p| >= REQUIRED && p[..REQUIRED] == Simple
  }

  lemma CycleSumsHead(p: seq<real>)
    requires StartsWithCycle(p)
    ensures GainSum(p, 8) == 15.0 && LossSum(p, 8) == 10.0
  {
    assert forall k :: 0 <= k < 8 ==> p[k] == Simple[k];
    assert GainSum(p, 2) == 2.0 && LossSum(p, 2) == 0.0;
    assert GainSum(p, 3) == 5.0 && LossSum(p, 3) == 0.0;
    assert GainSum(p, 4) == 5.0 && LossSum(p, 4) == 2.0;
    assert GainSum(p, 5) == 10.0 && LossSum(p, 5) == 2.0;
    assert GainSum(p, 6) == 10.0 && LossSum(p, 6) == 10.0;
    assert GainSum(p, 7) == 12.0 && LossSum(p, 7) == 10.0;
    assert GainSum(p, 8) == 15.0 && LossSum(p, 8) == 10.0;
  }

  /**
    Over the cycle, rises total 30 and drops total 22, whatever follows it.
   */
  lemma CycleSums(p: seq<real>)
    requires StartsWithCycle(p)
    ensures GainSum(p, REQUIRED) == 30.0 && LossSum(p, REQUIRED) == 22.0
  {
    CycleSumsHead(p);
    assert forall k :: 7 <= k < REQUIRED ==> p[k] == Simple[k];
    assert GainSum(p, 9) == 15.0 && LossSum(p, 9) == 12.0;
    assert GainSum(p, 10) == 20.0 && LossSum(p, 10) == 12.0;
    assert GainSum(p, 11) == 20.0 && LossSum(p, 11) == 20.0;
    assert GainSum(p, 12) == 22.0 && LossSum(p, 12) == 20.0;
    assert GainSum(p, 13) == 25.0 && LossSum(p, 13) == 20.0;
    assert GainSum(p, 14) == 25.0 && LossSum(p, 14) == 22.0;
    assert GainSum(p, 15) == 30.0 && LossSum(p, 15) == 22.0;
  }

  /**
    Exactly PERIOD + 1 prices: the single value is the seed formula,
    100 * 30 / (30 + 22) = 750/13.
   */
  lemma SimpleVector()
    ensures RsiSeries(Simple) == Ok([Some(750.0 / 13.0)])
  {
    CycleSums(Simple);
    assert Seed(Simple) == Averages(30.0 / 14.0, 22.0 / 14.0);
    FirstValueIsSeed(Simple);
  }

  /** The longer series seeds the same averages as the cycle alone. */
  lemma ComplexSeed()
    ensures AveragesAt(Complex, PERIOD) == Averages(30.0 / 14.0, 22.0 / 14.0)
  {
    assert Complex[..REQUIRED] == Simple;
    CycleSums(Complex);
    assert GainSum(Complex, REQUIRED) == 30.0 && LossSum(Complex, REQUIRED) == 22.0;
    assert Seed(Complex) == Averages(30.0 / 14.0, 22.0 / 14.0);
  }

  /** The drop from 18 to 10 is folded in by one step of the recurrence. */
  lemma ComplexStep()
    ensures AveragesAt(Complex, PERIOD + 1) == Averages(390.0 / 196.0, 398.0 / 196.0)
  {
    ComplexSeed();
    var a0 := AveragesAt(Complex, PERIOD);
    assert AveragesAt(Complex, PERIOD + 1) == Step(a0, 18.0, 10.0);
  }

  /**
    One more price, a drop of 8: the seed value, then one step of the
    recurrence giving averages 390/196 and 398/196, i.e. 9750/197.
   */
  lemma ComplexVector()
    ensures RsiSeries(Complex) == Ok([Some(750.0 / 13.0), Some(9750.0 / 197.0)])
  {
    ComplexSeed();
    ComplexStep();
    var r := RsiSeries(Complex).value;
    assert r[0] == Value(AveragesAt(Complex, PERIOD)) == Some(750.0 / 13.0);
    assert r[1] == Value(AveragesAt(Complex, PERIOD + 1)) == Some(9750.0 / 197.0);
    assert r == [r[0], r[1]];
  }

  /** An empty series fails, naming zero received and PERIOD + 1 required. */
  lemma EmptyFails()
    ensures RsiSeries([]) == Err(InsufficientData(0, 15))
  {
  }
}
