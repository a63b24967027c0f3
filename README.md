# Pipeline AC interference engine: decision and aggregation layer

This project models the part of the electromagnetic-interference engine in
`emi_system.py` that decides and aggregates. A transmission line runs beside a
buried pipeline. The engine:

- sums the voltage each line conductor induces on the pipe;
- converts the modulus of that voltage to kV and compares it with the coating's
  withstand limit, reporting a safety factor beside the verdict;
- computes the AC current density through a coating defect and classifies the
  AC-corrosion risk with the three-way rule of NACE TG-327;
- looks up the wall material's properties, falling back to steel;
- reduces the two-layer soil to one equivalent resistivity;
- derives the coating's shunt admittance and reports the pipe's characteristic
  length, or infinity when the propagation constant has no positive real part.

Everything floating-point and transcendental enters as a given value:

- the Carson mutual impedance of a cable position;
- |V| and its phase;
- √(1/ρ1), √(1/ρ2) and the skin term of the soil reduction;
- the self-impedance, characteristic impedance and propagation constant.

Complex numbers are pairs of reals. Arithmetic is exact: there is no rounding.

Modules, one per entity of the source:

- `Complex`: complex arithmetic.
- `Constants`: physical constants.
- `Geometry`: `Coordenadas`.
- `Soil`: `ParametrosSolo` and `Solo`.
- `Line`: `Cabo` and `LinhaTransmissao`.
- `Pipe`: `Duto`.
- `Interference`: `AnaliseInterferencia` and its report.
- `RealArith`: facts about real products that the proofs share.

No source class changes fields after construction, so each one is a datatype.
The one loop, the superposition in `calcular_tensao_induzida_total`, is the
method `TotalInducedVoltage`. It is proved against the recursive sum
`InducedVoltage`, a left-to-right accumulation from `0j`. A second, independent
definition `SumOfContributions` sums from the first cable on.

Three behaviours of `emi_system.py` are kept as written:

- No input is validated. `MakePipe` accepts any geometry, and a wall thicker than
  the radius gives a non-positive inner radius.
- The coating type is fixed to extruded polyethylene (`AssumedCoating`). It is
  not a parameter.
- Unknown material names silently become steel. No error is reported.

## Model

| member | source | states |
|---|---|---|
| `Soil.EquivalentResistivity` | emi_system.py:37-57 | the reduction ρ1·(num/den)² over √(1/ρ1), √(1/ρ2) and the skin term; its positivity, bounds and homogeneous case are proved by `Soil.EquivalentResistivityPositive`, `Soil.EquivalentResistivityBounds` and `Soil.HomogeneousSoil` |
| `Soil.ShellPositive` | emi_system.py:54-55 | with √(1/ρ1), √(1/ρ2) > 0 and the skin term in (0, 1], the numerator and denominator of the reduction are both positive, so it never divides by zero |
| `Soil.RatioQuotient` | emi_system.py:54-57 | the ratio num/den is positive and ratio·den = num |
| `Soil.EquivalentResistivityBounds` | emi_system.py:49-57 | the equivalent resistivity lies between ρ1 and ρ2 in both orderings of the layers |
| `Soil.EquivalentResistivityPositive` | emi_system.py:49-57 | the equivalent resistivity is positive |
| `Soil.HomogeneousSoil` | emi_system.py:49-57 | two equal layers reduce to exactly ρ1, whatever the layer thickness and frequency |
| `Pipe.MaterialProperties` | emi_system.py:142-154 | "aco" gives (1.72e-7 Ω·m, μr 300); "aluminio" gives (2.82e-8 Ω·m, μr 1); every tag other than "aluminio" gives the steel values; the result is always a table entry |
| `Pipe.DefaultMaterialIsSteel` | emi_system.py:126-128 | a pipe built with the default material "aco" gets the steel wall (1.72e-7 Ω·m, μr 300) |
| `Pipe.UnknownMaterialIsSteel` | emi_system.py:154 | a tag missing from the table silently yields steel and never aluminium |
| `Pipe.MakePipe` | emi_system.py:126-140 | outer radius is half the diameter; outer minus inner radius is the wall thickness; the inner radius is positive exactly when twice the wall is less than the diameter; the coating is 1e8 Ω·m with permittivity 2.3; the material comes from the lookup |
| `Pipe.Built` | emi_system.py:126-140 | the invariant of every constructed pipe: outer radius half the diameter, coating 1e8 Ω·m and 2.3, material a table entry; `Pipe.MakePipe` establishes it and `Pipe.BuiltIsConstructed` shows nothing else satisfies it |
| `Pipe.BuiltIsConstructed` | emi_system.py:126-140 | every record satisfying `Built` is the constructor's result for its own position, diameter and coating thickness, the difference of its radii as wall thickness, and the tag of its material |
| `Pipe.Conductance` | emi_system.py:201 | G = 2π·r_ext/(ρ_c·t_c); its sign is proved by `Pipe.ConductancePositive` |
| `Pipe.Capacitance` | emi_system.py:204 | C = ε0·ε_c·2π·r_ext/t_c; its sign is proved by `Pipe.CapacitancePositive` and its tie to G by `Pipe.CapacitanceFromConductance` |
| `Pipe.ShuntAdmittance` | emi_system.py:198-206 | Y = G + j·ω·C; its dependence on ω is proved by `Pipe.AdmittanceFrequencyDependence` and its sign for constructed pipes by `Pipe.ConstructedPipeAdmittance` |
| `Pipe.ConductancePositive` | emi_system.py:201 | G = 2π·r_ext/(ρ_c·t_c) is positive for a positive radius, coating resistivity and thickness |
| `Pipe.CapacitancePositive` | emi_system.py:204 | C = ε0·ε_c·2π·r_ext/t_c is positive for a positive radius, permittivity and thickness |
| `Pipe.CapacitanceFromConductance` | emi_system.py:198-206 | the two parts of the admittance are tied: C = ε0·ε_c·ρ_c·G |
| `Pipe.AdmittanceFrequencyDependence` | emi_system.py:206 | Re Y does not depend on ω; at ω = 0 the admittance is G + 0j; Im Y is additive in ω |
| `Pipe.ConstructedPipeAdmittance` | emi_system.py:126-206 | a constructed pipe (`Built`) with positive diameter and coating thickness has G > 0, C > 0, C = ε0·2.3·1e8·G, and both parts of Y(ω) positive |
| `Interference.InducedVoltage` | emi_system.py:229-238 | the loop's accumulation from 0j in list order; `Interference.TotalInducedVoltage` computes it and `Interference.InducedVoltageIsSum` ties it to the reference sum |
| `Interference.SumOfContributions` | emi_system.py:229-238 | the reference sum Σ Z_i·I_i·L from the first cable on, connected to the loop by `Interference.InducedVoltageIsSum` |
| `Interference.TotalInducedVoltage` | emi_system.py:225-238 | the loop's result is the left-to-right sum from 0j of Z_m·I·L over the cables, and equals the sum Σ Z_i·I_i·L |
| `Interference.NoCablesNoVoltage` | emi_system.py:229 | an empty cable list induces 0j |
| `Interference.InducedVoltageAppend` | emi_system.py:231-236 | the voltage of two concatenated cable lists is the sum of their voltages |
| `Interference.InducedVoltageIsSum` | emi_system.py:229-238 | the accumulation equals the reference sum that starts from the first cable |
| `Interference.RemoveOneVoltage` | emi_system.py:231-236 | removing one cable from the list removes exactly its share Z_m·I·L |
| `Interference.InducedVoltagePermutation` | emi_system.py:231-236 | any rearrangement of the cable list induces the same voltage |
| `Interference.InducedVoltageLinearInLength` | emi_system.py:225-236 | V(L) = L·V(L₀) for the default exposure length L₀ = 1 m, so the default report is the voltage per metre |
| `Interference.InducedVoltageAdditiveInLength` | emi_system.py:225-238 | V(L1 + L2) = V(L1) + V(L2) |
| `Interference.InducedVoltageScalesWithCurrents` | emi_system.py:236 | scaling every cable current by a real k scales the induced voltage by k |
| `Interference.CoatingSafety` | emi_system.py:240-259 | kV·1000 = ‖V‖; the limit is the polyethylene entry, 5.0; safe exactly when ‖V‖ ≤ 5000 V (inclusive); the safety factor exists exactly when ‖V‖ > 0, then factor·kV = limit and factor ≥ 1 exactly when safe |
| `Interference.CoatingSafeIffSquaredModulus` | emi_system.py:242-257 | the verdict is safe exactly when re² + im² ≤ 5000² |
| `Interference.NoSafetyFactorIffNoVoltage` | emi_system.py:258 | the safety factor is missing exactly when the induced voltage is 0j, and that voltage is then safe |
| `Interference.AcCurrentDensity` | emi_system.py:271 | J = ‖V‖/(ρ·(0.3927·r + t)); its meaning, sign and proportionality are proved by `Interference.DensityMeaning`, `Interference.DensityNonNegative` and `Interference.DensityProportional` |
| `Interference.DensityDenominatorPositive` | emi_system.py:271 | with ρ > 0, t > 0 and r ≥ 0 the denominator ρ·(0.3927·r + t) is positive |
| `Interference.DensityMeaning` | emi_system.py:271 | J times the denominator gives back ‖V‖, and J = 0 exactly when ‖V‖ = 0 |
| `Interference.DensityNonNegative` | emi_system.py:271 | with a positive denominator J ≥ 0 |
| `Interference.DensityProportional` | emi_system.py:271 | J is proportional to ‖V‖: J(c·‖V‖) = c·J(‖V‖) |
| `Interference.DensityOfVoltage` | emi_system.py:267-271 | for the modulus of V and ρ > 0, J = 0 exactly when V = 0j, and J ≥ 0 under a coating of positive thickness |
| `Interference.AnalysisCurrentDensity` | emi_system.py:261-273 | the density over the analysis' equivalent soil resistivity and pipe coating; its properties are proved by `Interference.AnalysisCurrentDensityFacts` |
| `Interference.AnalysisCurrentDensityFacts` | emi_system.py:261-273 | the analysis' density, over the soil's equivalent resistivity and the pipe's coating, is 0 exactly when no voltage is induced and non-negative under a positive coating thickness |
| `Interference.ClassifyCorrosionRisk` | emi_system.py:275-282 | "Baixo" exactly when J < 0.02; "Moderado" exactly when 0.02 ≤ J < 0.1; "Muito Alto" exactly when J ≥ 0.1 |
| `Interference.Label` | emi_system.py:278-282 | the printed label of each class; `Interference.LabelsDistinct` shows a label names one class |
| `Interference.LabelsDistinct` | emi_system.py:278-282 | the three labels are distinct strings, so a label names one class |
| `Interference.RiskMonotone` | emi_system.py:275-282 | a larger density never gets a milder class |
| `Interference.RiskInMilliamps` | emi_system.py:277-282 | in mA/m² the rule reads: below 20 "Baixo", 20 up to below 100 "Moderado", from 100 "Muito Alto" |
| `Interference.RiskBoundaries` | emi_system.py:277-280 | 0.019999 is low, 0.02 moderate, 0.099999 moderate, 0.1 very high: both thresholds belong to the higher class |
| `Interference.CharacteristicLength` | emi_system.py:309 | finite exactly when Re γ > 0, and then a positive length with length·Re γ = 1; infinite otherwise |
| `Interference.Assessment` | emi_system.py:288-290 | the safety entry holds the coating verdict for V, the density at the 1 mm default defect radius in mA/m², and the label that matches that figure |
| `Interference.PipeParametersOf` | emi_system.py:304-310 | the characteristic length is finite exactly when Re γ > 0, and then it is 1/Re γ; for a constructed pipe of positive diameter and coating thickness both parts of the admittance entry are positive |
| `Interference.AnalysisReport` | emi_system.py:284-319 | the report's voltage is the superposition sum; safe exactly when ‖V‖ ≤ 5 kV; no safety factor and zero density exactly when V = 0j; the risk label matches the shown density; for a constructed pipe of positive diameter and coating thickness the admittance entry has both parts positive; the resistivity is the soil's equivalent one |

## Left out

- The closed-form Carson mutual impedance and its Struve–Bessel approximation
  (emi_system.py:78-123). They use complex square roots, logarithms,
  exponentials and cosines. Each cable's mutual impedance is a function of its
  position, passed in.
- The pipe's self-impedance (emi_system.py:156-187), its tubular
  geometric-mean radius (189-196), and the square roots for Zc and γ (208-218).
  These are transcendental. They enter the report as given values.
- The cable–pipe distances (emi_system.py:72-76, 92-94). They are square roots.
- The coupling-type enumeration and the Euler constant (emi_system.py:11-16).
  The engine never uses them.
- The example runner and console printing (emi_system.py:321-384). These are I/O.
- `visualization.py`, `duto.py`, `teste_basico.py`, `main.py` and
  `physical_constants.py` are not part of this model.
- Floating point is not modelled. The model does not capture rounding, numpy's
  `inf` and `nan`, or the warnings that come with them.
- Soil.EquivalentResistivity: defined only for ρ1, ρ2 > 0 and a skin term in (0, 1].
  That is, it needs a non-negative layer thickness and frequency. A zero layer
  resistivity makes the source raise ZeroDivisionError at `1/rho1` or `1/rho2`
  (emi_system.py:49-50). A negative one gives `nan` from the square root. A
  negative layer thickness gives a skin term above 1; a negative frequency
  gives `nan` from the square root at emi_system.py:52. The model does not
  cover those inputs.
- Interference.CoatingSafety: when |V| = 0 the source divides by zero. With the
  Python `0j` of an empty cable list this raises ZeroDivisionError. With a
  numpy voltage it gives `inf`. The model gives the safety factor as `None`
  and promises nothing more.
- Interference.AnalysisReport: requires the coating resistivity times thickness,
  and the spreading term 0.3927·0.001 + t, to be non-zero. When they are zero the
  source raises ZeroDivisionError or produces `inf`/`nan`. The same requirement
  sits on `Pipe.ShuntAdmittance` and `Interference.AcCurrentDensity`. For an
  empty cable list the source raises ZeroDivisionError at emi_system.py:258 and
  produces no report at all. The model instead returns a full report, with no
  safety factor, density 0 and the label "Baixo".
- Pipe.Built: `Analysis.pipe` is any `Pipe` record. The report promises the sign
  of its admittance only for records satisfying `Built`, which every pipe the
  constructor makes does.
- Python's default arguments are not modelled as such: every argument is
  explicit. Three defaults are constants that the lemmas use:
  - the exposure length 1.0 m, `DefaultExposureLength`, in
    `Interference.InducedVoltageLinearInLength`;
  - the defect radius 1 mm, `DefaultDefectRadius`, which the report always uses;
  - the material "aco", `DefaultMaterial`, in `Pipe.DefaultMaterialIsSteel`.
- The cable role (default "fase") and the soil's relative permittivity (default
  10.0) are kept as fields, and their defaults are not modelled. Nothing reads the
  role. The permittivity enters only the Carson closed form (emi_system.py:98),
  which is not modelled.
- The angular frequency is a parameter of `Pipe.ShuntAdmittance`. The report
  always passes the module constant `Omega`, 2π·60.
