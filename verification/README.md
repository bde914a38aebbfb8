# Closed-chamber soil gas flux, modelled in Dafny

This project models the gas-flux estimator of the soil sensor toolbox,
`src/gas_flux.rs`. A closed chamber sits on the soil. While it is closed,
an analyser records time stamps and the concentrations of CO₂ (ppm), CH₄
(ppb) and water vapour (mmol/mol), together with the chamber temperature
(°C) and pressure (kPa).

- `linear_regression` fits each concentration series against time by
  ordinary least squares. It returns the slope and r², and a guard
  returns 0 instead of dividing when a spread falls below `f64::EPSILON`.
- `compute_gas_flux` turns each slope into an areal flux. It multiplies
  by the moles of air per square metre of soil in the chamber,
  `(P / (R·T)) · (V / A)` with `R = 8.314`, and by a unit factor per gas.
  It returns the three fluxes and the three r² values as a `GasFluxResult`.

Arithmetic is exact (`real`). The guard threshold `EPS` is the
double-precision machine epsilon 2⁻⁵² written out exactly. Sums run from
the front, as the iterator sums and the index loop of the source do.

Modules:

- `Stats` holds sums, means, inner products of deviation sequences
  (`Sxy`, `Sxx`), Cauchy–Schwarz, the effect of an affine change of
  unit, and the lower bound a spread in the time axis puts on Sxx.
- `Regression` holds the fit as a function (`LinearRegression`) and as
  the source's loop (`LinearRegressionLoop`), with least-squares
  optimality, the explained-variance identity, degenerate data, exact
  lines and changes of unit.
- `RegressionExamples` holds the two unit-test data sets of the fit.
- `GasFlux` holds `R_GAS`, `GasFluxResult`, the air column from the ideal
  gas law, `ComputeGasFlux`, and the independence of the three gas
  channels.
- `ChamberScenarios` holds constant and linearly rising concentrations,
  and the two synthetic chamber tests of the repository.

Two behaviours of the code are easy to miss, and the contracts state both:

- An exact line `y = m·x + k` with m ≠ 0 does not always give r² = 1.
  The code gives r² = 1 only when Syy = m²·Sxx clears the EPS guard, and
  0 otherwise (`Regression.ExactLine`).
- The code applies the EPS guard to CO₂ after converting it to mol/mol.
  The guard therefore sees 10⁻¹² times the spread in ppm²
  (`GasFlux.FlatInMoleFraction`, used by `GasFlux.ComputeGasFlux`).

## Model

| member | source | states |
|---|---|---|
| Regression.LinearRegression | src/gas_flux.rs:52-83 | r² lies in [0, 1]. A time axis with spread below EPS, or an empty one, gives slope 0; otherwise slope · Sxx = Sxy, the least-squares normal equation. Either spread below EPS gives r² = 0. |
| Regression.SquaredCorrelation | src/gas_flux.rs:75-80 | For two series with spread, r² = Sxy² / (Sxx·Syy) lies in [0, 1], and r² · (Sxx·Syy) = Sxy². |
| Regression.LinearRegressionLoop | src/gas_flux.rs:52-83 | The two-pass loop with its guarded divisions returns exactly the fit `LinearRegression` defines. |
| Regression.DeviationSums | src/gas_flux.rs:57-67 | The single accumulation pass yields Σdx·dy, Σdx² and Σdy² about the given means. |
| Regression.SumLoop | src/gas_flux.rs:54-55 | Front-to-back summation equals the sum of the sequence. |
| Regression.LeastSquares | src/gas_flux.rs:46-51 | No line through the centroid has smaller squared residuals than the fitted slope. |
| Regression.ExplainedVariance | src/gas_flux.rs:46-51 | r² · Syy = Syy − RSS, so r² is the fraction of the spread of y that the line explains. |
| Regression.ConstantTime | src/gas_flux.rs:69-80 | When every time stamp is the same, the axis is flat and the fit is slope 0, r² 0. |
| Regression.ConstantSeries | src/gas_flux.rs:69-80 | A constant series is flat and fits with slope 0 and r² 0, whatever the time axis. |
| Regression.ExactLine | src/gas_flux.rs:69-80 | For data on y = m·x + k over an axis with spread: Syy = m²·Sxx and the slope is m. r² = 1 if and only if Syy clears EPS, and r² = 0 if and only if it does not. |
| Regression.AffineSlope | src/gas_flux.rs:131-133 | Replacing a series by c·y + k (a change of unit) multiplies the slope by c. |
| Regression.AffineCorrelation | src/gas_flux.rs:131-133 | A change of unit leaves r² unchanged while neither series is flat. |
| Stats.CauchySchwarz | src/gas_flux.rs:75-80 | (Σab)² ≤ Σa²·Σb²: the bound that keeps r² ≤ 1. |
| Stats.MomentBounds | src/gas_flux.rs:75-80 | Sxy² ≤ Sxx·Syy for the deviations about the means. |
| Stats.SxxNonNegative | src/gas_flux.rs:65-66 | A sum of squared deviations is never negative. |
| Stats.AffineMoments | src/gas_flux.rs:132 | For z = c·y + k: Sxy(x, z) = c·Sxy(x, y) and Sxx(z) = c²·Sxx(y). |
| Stats.SpreadBound | src/gas_flux.rs:65 | Two time stamps d apart force 2·Sxx ≥ d². |
| RegressionExamples.PerfectLine | src/gas_flux.rs:162-172 | The points (0..4, 2x + 1) fit with slope exactly 2 and r² exactly 1. |
| RegressionExamples.NoisyLine | src/gas_flux.rs:174-181 | The noisy readings fit with slope exactly 2 and r² = 400/407, which is above 0.95. |
| GasFlux.AirMolesPerArea | src/gas_flux.rs:124-129 | The air column k satisfies the ideal gas law k·A·R·T = P·V, from the mean temperature in K and the mean pressure in Pa. It is positive for a physical chamber. |
| GasFlux.ComputeGasFlux | src/gas_flux.rs:112-152 | The unit factors cancel. CO₂ flux = ppm slope · k, CH₄ flux = ppb slope · k, H₂O flux = 1000 · slope · k. Each r² is its own fit's r², except that r²(CO₂) is 0 once the ppm spread times 10⁻¹² falls below EPS. Every r² lies in [0, 1]. |
| GasFlux.PpmToMoleFraction | src/gas_flux.rs:131-134 | Fitting mol/mol instead of ppm divides the slope by 10⁶. The converted series is flat exactly when the ppm spread times 10⁻¹² is below EPS. r² is kept unless that happens, and then it is 0. |
| GasFlux.Co2Independent | src/gas_flux.rs:131-134 | The CO₂ flux and r² do not depend on the CH₄ or water-vapour series. |
| GasFlux.Ch4Independent | src/gas_flux.rs:136-138 | The CH₄ flux and r² do not depend on the CO₂ or water-vapour series. |
| GasFlux.H2oIndependent | src/gas_flux.rs:140-142 | The water-vapour flux and r² do not depend on the CO₂ or CH₄ series. |
| ChamberScenarios.ConstantConcentrations | tests/test_gas_flux.rs:79-113 | Constant CO₂, CH₄ and water vapour give all three fluxes and all three r² equal to 0, for any chamber readings. |
| ChamberScenarios.Co2RampFlux | src/gas_flux.rs:131-134 | CO₂ rising at any constant rate over a time axis with spread gives CO₂ flux = rate · k, however slow the rate. |
| ChamberScenarios.LinearCo2Ramp | tests/test_gas_flux.rs:115-164 | CO₂ rising at `rate` ppm/s over an axis with two samples a second apart, with rate² ≥ 0.001, gives CO₂ flux = rate · k and r²(CO₂) = 1. Constant CH₄ and water vapour give flux 0 and r² 0. |
| ChamberScenarios.TestChamberAir | tests/test_gas_flux.rs:142-147 | At 25 °C and 91 kPa, T = 298.15 K and k = (91000 / (R·298.15)) · (V / A). |
| ChamberScenarios.LinearIncreaseTest | tests/test_gas_flux.rs:115-164 | With n ≥ 2 samples of 400 + 0.1·t ppm, the CO₂ flux equals the hand-computed 0.1·10⁻⁶ · (P/(R·T)) · (V/A) · 10⁶ exactly. r²(CO₂) is 1 and the CH₄ flux is 0. |
| ChamberScenarios.KnownValuesTest | tests/test_gas_flux.rs:79-113 | With n samples at 400 ppm, 2000 ppb and 16 mmol/mol, the CO₂ and CH₄ fluxes are exactly 0. |

## Left out

- Floating-point rounding, NaN and infinities. Arithmetic is exact, so
  the 10⁻⁹·10⁹ and 10⁻⁶·10⁶ factor pairs cancel exactly. The test
  tolerances (1e-10, 0.01, 0.999) become exact equalities.
- The square root in r = Sxy / sqrt(Sxx·Syy). r² is written as
  Sxy² / (Sxx·Syy), which equals r·r over the reals whenever both
  spreads are positive, as they are past the guard.
- Regression.LinearRegression: requires `x` and `y` to have one length.
  In the source, a `y` shorter than `x` panics at the index in the loop.
  A longer `y` panics nowhere: its whole sum is divided by the length of
  `x` to give ȳ, and the loop reads only its first |x| elements, so ȳ is
  skewed. The model does not describe that skewed fit. Empty input is
  modelled: the loop does not run, Sxx is 0, and the result is (0, 0).
- GasFlux.ComputeGasFlux: requires the three concentration series to have
  the length of the time stamps. The source does not check this, and
  mismatched concentration series give the panics or skewed fits
  described for `Regression.LinearRegression`. The temperature and
  pressure series may have any non-empty length: each is averaged over
  its own length. An empty one would make its mean 0 / 0 (NaN), so
  non-empty is a precondition. The source asserts that the time stamps
  are non-empty and panics when they are empty. Here that is the first
  precondition.
- GasFlux.ComputeGasFlux: requires a non-zero area and a non-zero mean
  temperature in kelvin. The source divides by both and would produce
  an infinity or NaN.
- ChamberScenarios.LinearIncreaseTest: proved for every n ≥ 2, not only
  the test's n = 300. CH₄ and water vapour are proved to have flux and
  r² 0 through `LinearCo2Ramp`, but the test's own contract names only
  the CO₂ flux, r²(CO₂) and the CH₄ flux.
- ChamberScenarios.KnownValuesTest: states the CO₂ and CH₄ fluxes, as the
  test does. `ConstantConcentrations` gives the other four outputs.
- Serialisation of `GasFluxResult` (serde derive).
- The JSON fixture loading of tests/test_gas_flux.rs and the tests
  against real chamber recordings. Those need the fixture files, which
  are not part of this model. The caller-side unit conversions there
  (ml to m³, cm² to m²) are outside `compute_gas_flux`.
- The rest of the repository: the soil-moisture (VWC) correction
  (`src/vwc.rs` is not part of this model), the command-line driver
  `src/main.rs` (argument parsing, CSV reading and writing), and the
  module re-exports in `src/lib.rs`.
