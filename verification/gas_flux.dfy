/**
  Soil gas fluxes from a closed-chamber measurement.

  While the chamber is closed, the concentrations of CO₂ (ppm), CH₄ (ppb)
  and water vapour (mmol/mol) change with time. Each series is regressed
  on the time stamps; the slope, converted to a mole-fraction rate, times
  the moles of air per unit of soil area in the chamber (ideal gas law,
  P·V / (R·T·A)) is the flux.
 */
module GasFlux {
  import opened Stats
  import opened Regression

  /** Universal gas constant, J/(mol·K). */
  const R_GAS: real := 8.314

  /** The six numbers a flux computation returns. */
  datatype GasFluxResult = GasFluxResult(
    fluxCo2: real,  // µmol m⁻² s⁻¹
    fluxCh4: real,  // nmol m⁻² s⁻¹
    fluxH2o: real,  // µmol m⁻² s⁻¹
    r2Co2: real,
    r2Ch4: real,
    r2H2o: real)

  /** Mean chamber temperature in kelvin. */
  function ChamberKelvin(temperatures: seq<real>): real
    requires |temperatures| > 0
  {
    Mean(temperatures) + 273.15
  }

  /** Mean chamber pressure in pascal, from readings in kPa. */
  function ChamberPascal(pressures: seq<real>): real
    requires |pressures| > 0
  {
    Mean(pressures) * 1000.0
  }

  /**
    Moles of air in the chamber per square metre of soil, (P / (R·T)) · (V / A).
    It satisfies the ideal gas law n·R·T = P·V with n = k·A, and it is
    positive for a physical chamber.
   */
  function AirMolesPerArea(temperatures: seq<real>, pressures: seq<real>, volume: real, area: real): (k: real)
    requires |temperatures| > 0 && |pressures| > 0
    requires area != 0.0 && ChamberKelvin(temperatures) != 0.0
    ensures k * area * (R_GAS * ChamberKelvin(temperatures)) == ChamberPascal(pressures) * volume
    ensures ChamberKelvin(temperatures) > 0.0 && ChamberPascal(pressures) > 0.0 && volume > 0.0 && area > 0.0
            ==> k > 0.0
  {
    var tK := ChamberKelvin(temperatures);
    var pPa := ChamberPascal(pressures);
    IdealGas(pPa, tK, volume, area);
    (pPa / (R_GAS * tK)) * (volume / area)
  }

  lemma IdealGas(p: real, t: real, v: real, a: real)
    requires a != 0.0 && t != 0.0
    ensures (p / (R_GAS * t)) * (v / a) * a * (R_GAS * t) == p * v
    ensures t > 0.0 && p > 0.0 && v > 0.0 && a > 0.0 ==> (p / (R_GAS * t)) * (v / a) > 0.0
  {
    assert (p / (R_GAS * t)) * (R_GAS * t) == p;
    assert (v / a) * a == v;
  }

  /**
    The inputs a flux computation accepts: non-empty time stamps, three
    concentration series aligned with them, non-empty temperature and
    pressure series (each averaged over its own length), and a usable
    chamber.
   */
  predicate ValidInputs(
    timestamps: seq<real>, co2: seq<real>, ch4: seq<real>, h2o: seq<real>,
    temperatures: seq<real>, pressures: seq<real>, area: real)
  {
    |timestamps| > 0
    && |co2| == |timestamps| && |ch4| == |timestamps| && |h2o| == |timestamps|
    && |temperatures| > 0 && |pressures| > 0
    && area != 0.0 && ChamberKelvin(temperatures) != 0.0
  }

  /** Converting ppm to mol/mol multiplies a squared deviation by 10⁻¹². */
  const PPM_SQUARED: real := 0.000000000001

  /**
    The CO₂ series is too flat for r² once it is converted to mol/mol: the
    conversion scales its spread by `PPM_SQUARED`, and the regression guard
    compares the scaled spread with EPS.
   */
  predicate FlatInMoleFraction(co2: seq<real>)
    requires |co2| > 0
  {
    Abs(Sxx(co2)) * PPM_SQUARED < EPS
  }

  /**
    The fluxes of one chamber measurement.

    CO₂ is converted from ppm to mol/mol before the fit and the flux scaled
    by 10⁶ to µmol; the CH₄ slope is converted from ppb by 10⁻⁹ and the flux
    scaled by 10⁹ to nmol; the water-vapour slope is converted from mmol/mol
    by 10⁻³ and the flux scaled by 10⁶ to µmol. For CO₂ and CH₄ the two
    conversions cancel: the flux is the slope in the measured unit times the
    air column. Water vapour keeps a factor 1000.

    Each r² is that of its fit. The CO₂ fit sees the series in mol/mol,
    whose spread is 10⁻¹² times the spread in ppm, so the EPS guard
    zeroes r²(CO₂) as soon as the spread in ppm² falls below 10¹² · EPS.
   */
  function ComputeGasFlux(
    timestamps: seq<real>, co2: seq<real>, ch4: seq<real>, h2o: seq<real>,
    temperatures: seq<real>, pressures: seq<real>, volume: real, area: real): (r: GasFluxResult)
    requires ValidInputs(timestamps, co2, ch4, h2o, temperatures, pressures, area)
    ensures r.fluxCo2 == LinearRegression(timestamps, co2).slope * AirMolesPerArea(temperatures, pressures, volume, area)
    ensures r.fluxCh4 == LinearRegression(timestamps, ch4).slope * AirMolesPerArea(temperatures, pressures, volume, area)
    ensures r.fluxH2o == LinearRegression(timestamps, h2o).slope * AirMolesPerArea(temperatures, pressures, volume, area) * 1000.0
    ensures FlatInMoleFraction(co2) ==> r.r2Co2 == 0.0
    ensures !FlatInMoleFraction(co2) ==> r.r2Co2 == LinearRegression(timestamps, co2).r2
    ensures r.r2Ch4 == LinearRegression(timestamps, ch4).r2
    ensures r.r2H2o == LinearRegression(timestamps, h2o).r2
    ensures 0.0 <= r.r2Co2 <= 1.0 && 0.0 <= r.r2Ch4 <= 1.0 && 0.0 <= r.r2H2o <= 1.0
  {
    var k := AirMolesPerArea(temperatures, pressures, volume, area);

    var co2Mol := Scale(co2, 0.000001);
    var co2Fit := LinearRegression(timestamps, co2Mol);
    var fluxCo2 := co2Fit.slope * k * 1000000.0;

    var ch4Fit := LinearRegression(timestamps, ch4);
    var fluxCh4 := ch4Fit.slope * 0.000000001 * k * 1000000000.0;

    var h2oFit := LinearRegression(timestamps, h2o);
    var fluxH2o := h2oFit.slope * 0.001 * k * 1000000.0;

    PpmToMoleFraction(timestamps, co2);
    GasFluxResult(fluxCo2, fluxCh4, fluxH2o, co2Fit.r2, ch4Fit.r2, h2oFit.r2)
  }

  /**
    Fitting CO₂ in mol/mol instead of ppm divides the slope by 10⁶ and the
    spread by 10¹²; r² is unchanged unless the smaller spread falls under
    the EPS guard.
   */
  lemma PpmToMoleFraction(timestamps: seq<real>, co2: seq<real>)
    requires |timestamps| == |co2| > 0
    ensures var f, g := LinearRegression(timestamps, Scale(co2, 0.000001)), LinearRegression(timestamps, co2);
            && f.slope == 0.000001 * g.slope
            && (FlatInMoleFraction(co2) <==> Flat(Scale(co2, 0.000001)))
            && (FlatInMoleFraction(co2) ==> f.r2 == 0.0)
            && (!FlatInMoleFraction(co2) ==> f.r2 == g.r2)
  {
    var co2Mol := Scale(co2, 0.000001);
    assert OnLine(co2Mol, co2, 0.000001, 0.0);
    AffineSlope(timestamps, co2, co2Mol, 0.000001, 0.0);
    AffineMoments(timestamps, co2, co2Mol, 0.000001, 0.0);
    if !Flat(co2Mol) && !Flat(co2) {
      AffineCorrelation(timestamps, co2, co2Mol, 0.000001, 0.0);
    }
  }

  /**
    The three channels do not interact: each gas's flux and r² depend only
    on its own series, the shared time stamps, the chamber readings and the
    geometry. Replacing the CH₄ and water-vapour series leaves the CO₂
    outputs as they were; the next two lemmas say the same of the other
    two gases.
   */
  lemma Co2Independent(
    timestamps: seq<real>, temperatures: seq<real>, pressures: seq<real>, volume: real, area: real,
    co2: seq<real>, ch4: seq<real>, h2o: seq<real>, ch4': seq<real>, h2o': seq<real>)
    requires ValidInputs(timestamps, co2, ch4, h2o, temperatures, pressures, area)
    requires ValidInputs(timestamps, co2, ch4', h2o', temperatures, pressures, area)
    ensures var r, r' := ComputeGasFlux(timestamps, co2, ch4, h2o, temperatures, pressures, volume, area),
                         ComputeGasFlux(timestamps, co2, ch4', h2o', temperatures, pressures, volume, area);
            r.fluxCo2 == r'.fluxCo2 && r.r2Co2 == r'.r2Co2
  {
  }

  /** Replacing the CO₂ and water-vapour series leaves the CH₄ outputs as they were. */
  lemma Ch4Independent(
    timestamps: seq<real>, temperatures: seq<real>, pressures: seq<real>, volume: real, area: real,
    co2: seq<real>, ch4: seq<real>, h2o: seq<real>, co2': seq<real>, h2o': seq<real>)
    requires ValidInputs(timestamps, co2, ch4, h2o, temperatures, pressures, area)
    requires ValidInputs(timestamps, co2', ch4, h2o', temperatures, pressures, area)
    ensures var r, r' := ComputeGasFlux(timestamps, co2, ch4, h2o, temperatures, pressures, volume, area),
                         ComputeGasFlux(timestamps, co2', ch4, h2o', temperatures, pressures, volume, area);
            r.fluxCh4 == r'.fluxCh4 && r.r2Ch4 == r'.r2Ch4
  {
  }

  /** Replacing the CO₂ and CH₄ series leaves the water-vapour outputs as they were. */
  lemma H2oIndependent(
    timestamps: seq<real>, temperatures: seq<real>, pressures: seq<real>, volume: real, area: real,
    co2: seq<real>, ch4: seq<real>, h2o: seq<real>, co2': seq<real>, ch4': seq<real>)
    requires ValidInputs(timestamps, co2, ch4, h2o, temperatures, pressures, area)
    requires ValidInputs(timestamps, co2', ch4', h2o, temperatures, pressures, area)
    ensures var r, r' := ComputeGasFlux(timestamps, co2, ch4, h2o, temperatures, pressures, volume, area),
                         ComputeGasFlux(timestamps, co2', ch4', h2o, temperatures, pressures, volume, area);
            r.fluxH2o == r'.fluxH2o && r.r2H2o == r'.r2H2o
  {
  }
}
