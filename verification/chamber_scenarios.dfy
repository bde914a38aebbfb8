/**
  Flux computations on idealised chamber records: unchanging
  concentrations, and CO₂ rising at a constant rate. The last two lemmas
  use the chamber, the sampling and the concentrations of the
  repository's synthetic flux tests.
 */
module ChamberScenarios {
  import opened Stats
  import opened Regression
  import opened GasFlux

  /** Concentrations that never change give zero flux and r² = 0 for every gas. */
  lemma ConstantConcentrations(
    timestamps: seq<real>, co2: seq<real>, ch4: seq<real>, h2o: seq<real>,
    temperatures: seq<real>, pressures: seq<real>, volume: real, area: real,
    co2Level: real, ch4Level: real, h2oLevel: real)
    requires ValidInputs(timestamps, co2, ch4, h2o, temperatures, pressures, area)
    requires Constant(co2, co2Level) && Constant(ch4, ch4Level) && Constant(h2o, h2oLevel)
    ensures ComputeGasFlux(timestamps, co2, ch4, h2o, temperatures, pressures, volume, area)
            == GasFluxResult(0.0, 0.0, 0.0, 0.0, 0.0, 0.0)
  {
    ConstantSeries(timestamps, co2, co2Level);
    ConstantSeries(timestamps, ch4, ch4Level);
    ConstantSeries(timestamps, h2o, h2oLevel);
  }

  /**
    CO₂ rising at any constant rate, however slow, over a time axis with
    spread: the CO₂ flux is `rate` times the air column.
   */
  lemma Co2RampFlux(
    timestamps: seq<real>, co2: seq<real>, ch4: seq<real>, h2o: seq<real>,
    temperatures: seq<real>, pressures: seq<real>, volume: real, area: real,
    rate: real, co2Start: real)
    requires ValidInputs(timestamps, co2, ch4, h2o, temperatures, pressures, area)
    requires OnLine(co2, timestamps, rate, co2Start) && !Flat(timestamps)
    ensures ComputeGasFlux(timestamps, co2, ch4, h2o, temperatures, pressures, volume, area).fluxCo2
            == rate * AirMolesPerArea(temperatures, pressures, volume, area)
  {
    ExactLine(timestamps, co2, rate, co2Start);
  }

  /**
    CO₂ rising at `rate` ppm/s while CH₄ and water vapour stay put: the CO₂
    flux is `rate` times the air column and its r² is 1, the other fluxes
    and r² are 0. The time axis needs two samples at least a second apart,
    and the rate must be large enough that the spread in mol/mol clears
    the EPS guard.
   */
  lemma LinearCo2Ramp(
    timestamps: seq<real>, co2: seq<real>, ch4: seq<real>, h2o: seq<real>,
    temperatures: seq<real>, pressures: seq<real>, volume: real, area: real,
    rate: real, co2Start: real, ch4Level: real, h2oLevel: real, i: nat, j: nat)
    requires ValidInputs(timestamps, co2, ch4, h2o, temperatures, pressures, area)
    requires OnLine(co2, timestamps, rate, co2Start) && rate * rate >= 0.001
    requires Constant(ch4, ch4Level) && Constant(h2o, h2oLevel)
    requires i < j < |timestamps| && timestamps[j] - timestamps[i] >= 1.0
    ensures var r := ComputeGasFlux(timestamps, co2, ch4, h2o, temperatures, pressures, volume, area);
            && r.fluxCo2 == rate * AirMolesPerArea(temperatures, pressures, volume, area)
            && r.r2Co2 == 1.0
            && r.fluxCh4 == 0.0 && r.r2Ch4 == 0.0
            && r.fluxH2o == 0.0 && r.r2H2o == 0.0
  {
    RampFit(timestamps, co2, rate, co2Start, i, j);
    Co2FromFit(timestamps, co2, ch4, h2o, temperatures, pressures, volume, area, rate, 1.0);
    ConstantSeries(timestamps, ch4, ch4Level);
    ConstantSeries(timestamps, h2o, h2oLevel);
    QuietFromFits(timestamps, co2, ch4, h2o, temperatures, pressures, volume, area);
  }

  /** The CO₂ outputs when the ppm fit has a given slope and r², and the spread clears the guard. */
  lemma Co2FromFit(
    timestamps: seq<real>, co2: seq<real>, ch4: seq<real>, h2o: seq<real>,
    temperatures: seq<real>, pressures: seq<real>, volume: real, area: real, slope: real, r2: real)
    requires ValidInputs(timestamps, co2, ch4, h2o, temperatures, pressures, area)
    requires LinearRegression(timestamps, co2) == Fit(slope, r2) && !FlatInMoleFraction(co2)
    ensures var r := ComputeGasFlux(timestamps, co2, ch4, h2o, temperatures, pressures, volume, area);
            r.fluxCo2 == slope * AirMolesPerArea(temperatures, pressures, volume, area) && r.r2Co2 == r2
  {
    SameFactor(ComputeGasFlux(timestamps, co2, ch4, h2o, temperatures, pressures, volume, area).fluxCo2,
               LinearRegression(timestamps, co2).slope, slope, AirMolesPerArea(temperatures, pressures, volume, area));
  }

  /** CH₄ and water vapour outputs when both fits are Fit(0, 0). */
  lemma QuietFromFits(
    timestamps: seq<real>, co2: seq<real>, ch4: seq<real>, h2o: seq<real>,
    temperatures: seq<real>, pressures: seq<real>, volume: real, area: real)
    requires ValidInputs(timestamps, co2, ch4, h2o, temperatures, pressures, area)
    requires LinearRegression(timestamps, ch4) == Fit(0.0, 0.0) && LinearRegression(timestamps, h2o) == Fit(0.0, 0.0)
    ensures var r := ComputeGasFlux(timestamps, co2, ch4, h2o, temperatures, pressures, volume, area);
            r.fluxCh4 == 0.0 && r.r2Ch4 == 0.0 && r.fluxH2o == 0.0 && r.r2H2o == 0.0
  {
  }

  /** The fit of a CO₂ ramp: slope `rate`, r² = 1, and a spread that clears the guard in mol/mol. */
  lemma RampFit(timestamps: seq<real>, co2: seq<real>, rate: real, co2Start: real, i: nat, j: nat)
    requires |timestamps| > 0 && OnLine(co2, timestamps, rate, co2Start) && rate * rate >= 0.001
    requires i < j < |timestamps| && timestamps[j] - timestamps[i] >= 1.0
    ensures !FlatInMoleFraction(co2)
    ensures LinearRegression(timestamps, co2) == Fit(rate, 1.0)
  {
    SpreadBound(timestamps, i, j);
    UnitGap(timestamps[i], timestamps[j], Sxx(timestamps));
    RampClearsGuard(rate, Sxx(timestamps), rate * rate * Sxx(timestamps));
    ExactLine(timestamps, co2, rate, co2Start);
  }

  lemma SameFactor(f: real, s: real, s': real, k: real)
    requires f == s * k && s == s'
    ensures f == s' * k
  {
  }

  lemma UnitGap(a: real, b: real, s: real)
    requires b - a >= 1.0 && 2.0 * s >= (a - b) * (a - b)
    ensures s >= 0.5
  {
    assert (a - b) * (a - b) == (b - a) * (b - a);
    assert (b - a) * (b - a) >= (b - a) * 1.0;
  }

  lemma RampClearsGuard(rate: real, sxx: real, syy: real)
    requires sxx >= 0.5 && rate * rate >= 0.001 && syy == rate * rate * sxx
    ensures Abs(syy) * PPM_SQUARED >= EPS && Abs(sxx) >= EPS
  {
    assert syy >= 0.001 * 0.5;
  }

  /** The sample times 1, 2, …, n seconds of the synthetic tests. */
  function TestTimes(n: nat): (t: seq<real>)
    ensures |t| == n
    ensures forall i :: 0 <= i < n ==> t[i] == (i + 1) as real
  {
    seq(n, i requires 0 <= i < n => (i + 1) as real)
  }

  /** A series holding `v` at each of the n samples. */
  function Repeat(v: real, n: nat): (s: seq<real>)
    ensures |s| == n && Constant(s, v)
  {
    seq(n, i requires 0 <= i < n => v)
  }

  /** Chamber of the synthetic tests: 16852.1 ml over 318 cm², at 25 °C and 91 kPa. */
  const TEST_VOLUME: real := 0.0168521
  const TEST_AREA: real := 0.0318

  /** At 25 °C and 91 kPa the air column is (91000 / (R · 298.15)) · (V / A). */
  lemma TestChamberAir(n: nat)
    requires n > 0
    ensures ChamberKelvin(Repeat(25.0, n)) == 298.15
    ensures AirMolesPerArea(Repeat(25.0, n), Repeat(91.0, n), TEST_VOLUME, TEST_AREA)
            == (91000.0 / (R_GAS * 298.15)) * (TEST_VOLUME / TEST_AREA)
  {
    MeanConstant(Repeat(25.0, n), 25.0);
    MeanConstant(Repeat(91.0, n), 91.0);
  }

  /**
    The linear-increase test: CO₂ = 400 + 0.1·t ppm over n ≥ 2 one-second
    samples, CH₄ at 2000 ppb and water vapour at 16 mmol/mol, chamber at
    25 °C and 91 kPa. The CO₂ flux is exactly the hand-computed
    0.1·10⁻⁶ · (P / (R·T)) · (V / A) · 10⁶, r²(CO₂) is 1 and the CH₄ flux is 0.
   */
  lemma LinearIncreaseTest(n: nat)
    requires n >= 2
    ensures var t := TestTimes(n);
            var co2 := seq(n, i requires 0 <= i < n => 400.0 + 0.1 * t[i]);
            ValidInputs(t, co2, Repeat(2000.0, n), Repeat(16.0, n), Repeat(25.0, n), Repeat(91.0, n), TEST_AREA)
            && var r := ComputeGasFlux(t, co2, Repeat(2000.0, n), Repeat(16.0, n),
                                    Repeat(25.0, n), Repeat(91.0, n), TEST_VOLUME, TEST_AREA);
            && r.fluxCo2 == 0.0000001 * (91000.0 / (R_GAS * 298.15)) * (TEST_VOLUME / TEST_AREA) * 1000000.0
            && r.r2Co2 == 1.0
            && r.fluxCh4 == 0.0
  {
    var t := TestTimes(n);
    var co2 := seq(n, i requires 0 <= i < n => 400.0 + 0.1 * t[i]);
    TestChamberAir(n);
    assert OnLine(co2, t, 0.1, 400.0);
    LinearCo2Ramp(t, co2, Repeat(2000.0, n), Repeat(16.0, n), Repeat(25.0, n), Repeat(91.0, n),
                  TEST_VOLUME, TEST_AREA, 0.1, 400.0, 2000.0, 16.0, 0, 1);
  }

  /**
    The known-values test: CO₂ at 400 ppm, CH₄ at 2000 ppb and water vapour
    at 16 mmol/mol over n one-second samples give zero CO₂ and CH₄ flux.
   */
  lemma KnownValuesTest(n: nat)
    requires n > 0
    ensures ValidInputs(TestTimes(n), Repeat(400.0, n), Repeat(2000.0, n), Repeat(16.0, n),
                        Repeat(25.0, n), Repeat(91.0, n), TEST_AREA)
    ensures var r := ComputeGasFlux(TestTimes(n), Repeat(400.0, n), Repeat(2000.0, n), Repeat(16.0, n),
                                    Repeat(25.0, n), Repeat(91.0, n), TEST_VOLUME, TEST_AREA);
            r.fluxCo2 == 0.0 && r.fluxCh4 == 0.0
  {
    TestChamberAir(n);
    ConstantConcentrations(TestTimes(n), Repeat(400.0, n), Repeat(2000.0, n), Repeat(16.0, n),
                           Repeat(25.0, n), Repeat(91.0, n), TEST_VOLUME, TEST_AREA, 400.0, 2000.0, 16.0);
  }
}
