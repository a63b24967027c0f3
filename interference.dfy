/** The interference analysis (`AnaliseInterferencia`): superposition of the
    voltage every cable induces along the exposure, and the decisions the
    report is built from. */
module Interference {
  import opened RealArith
  import opened Complex
  import opened Geometry
  import opened Soil
  import opened Line
  import opened Pipe
  import opened Constants

  datatype Option<T> = None | Some(value: T)

  /** A line and the pipe it runs beside. */
  datatype Analysis = Analysis(line: TransmissionLine, pipe: Pipe)

  /** Exposure length in m used when none is given. */
  const DefaultExposureLength: real := 1.0

  // ---------------------------------------------------------------------------
  // Superposition of the induced voltage
  // ---------------------------------------------------------------------------

  /** One cable's share Z_m·I·L, where `mutual` gives the cable–pipe mutual
      impedance per metre from the cable's position (the Carson closed form,
      which the model does not compute; pipe and soil are fixed for an analysis). */
  function Contribution(c: Cable, mutual: Coordinates -> Complex, length: real): Complex
  {
    Scale(length, Mul(mutual(c.position), c.current))
  }

  /** The accumulator after the cables have been added in list order, starting from 0j. */
  function InducedVoltage(cables: seq<Cable>, mutual: Coordinates -> Complex, length: real): Complex
  {
    if |cables| == 0 then Zero
    else Add(InducedVoltage(cables[..|cables| - 1], mutual, length),
             Contribution(cables[|cables| - 1], mutual, length))
  }

  /** Reference definition: the sum Σ Z_i·I_i·L taken from the first cable on. */
  function SumOfContributions(cables: seq<Cable>, mutual: Coordinates -> Complex, length: real): Complex
  {
    if |cables| == 0 then Zero
    else Add(Contribution(cables[0], mutual, length), SumOfContributions(cables[1..], mutual, length))
  }

  /** `calcular_tensao_induzida_total`: start from 0j and add each cable's share. */
  method TotalInducedVoltage(a: Analysis, mutual: Coordinates -> Complex, length: real)
    returns (total: Complex)
    ensures total == InducedVoltage(a.line.cables, mutual, length)
    ensures total == SumOfContributions(a.line.cables, mutual, length)
  {
    var cables := a.line.cables;
    total := Zero;
    for i := 0 to |cables|
      invariant total == InducedVoltage(cables[..i], mutual, length)
    {
      var zm := mutual(cables[i].position);
      total := Add(total, Scale(length, Mul(zm, cables[i].current)));
      assert cables[..i + 1][..i] == cables[..i];
    }
    assert cables[..|cables|] == cables;
    InducedVoltageIsSum(cables, mutual, length);
  }

  /** With no cables nothing is induced. */
  lemma NoCablesNoVoltage(mutual: Coordinates -> Complex, length: real)
    ensures InducedVoltage([], mutual, length) == Zero
    ensures SumOfContributions([], mutual, length) == Zero
  {
  }

  /** Splitting the cable list splits the voltage. */
  lemma {:induction false} InducedVoltageAppend(xs: seq<Cable>, ys: seq<Cable>,
                                                mutual: Coordinates -> Complex, length: real)
    ensures InducedVoltage(xs + ys, mutual, length)
            == Add(InducedVoltage(xs, mutual, length), InducedVoltage(ys, mutual, length))
    decreases |ys|
  {
    if |ys| == 0 {
      assert xs + ys == xs;
    } else {
      var n := |ys| - 1;
      assert (xs + ys)[..|xs + ys| - 1] == xs + ys[..n];
      assert (xs + ys)[|xs + ys| - 1] == ys[n];
      InducedVoltageAppend(xs, ys[..n], mutual, length);
    }
  }

  /** The loop's left-to-right accumulation equals the sum Σ Z_i·I_i·L. */
  lemma {:induction false} InducedVoltageIsSum(cables: seq<Cable>, mutual: Coordinates -> Complex,
                                               length: real)
    ensures InducedVoltage(cables, mutual, length) == SumOfContributions(cables, mutual, length)
    decreases |cables|
  {
    if |cables| > 0 {
      var tail := cables[1..];
      assert cables == [cables[0]] + tail;
      InducedVoltageAppend([cables[0]], tail, mutual, length);
      assert [cables[0]][..0] == [];
      InducedVoltageIsSum(tail, mutual, length);
    }
  }

  /** Taking one cable out of the list leaves the multiset of the others. */
  lemma RemoveOneMultiset(ys: seq<Cable>, j: nat)
    requires j < |ys|
    ensures multiset(ys[..j] + ys[j + 1..]) == multiset(ys) - multiset{ys[j]}
  {
    assert ys == ys[..j] + [ys[j]] + ys[j + 1..];
    assert multiset(ys) == multiset(ys[..j]) + multiset{ys[j]} + multiset(ys[j + 1..]);
  }

  /** Taking one cable out of the list takes out exactly its share. */
  lemma RemoveOneVoltage(ys: seq<Cable>, j: nat, mutual: Coordinates -> Complex, length: real)
    requires j < |ys|
    ensures InducedVoltage(ys, mutual, length)
            == Add(InducedVoltage(ys[..j] + ys[j + 1..], mutual, length), Contribution(ys[j], mutual, length))
  {
    var before, after := ys[..j], ys[j + 1..];
    assert ys == (before + [ys[j]]) + after;
    InducedVoltageAppend(before + [ys[j]], after, mutual, length);
    InducedVoltageAppend(before, after, mutual, length);
    assert (before + [ys[j]])[..|before + [ys[j]]| - 1] == before;
  }

  /** The order in which the cables are listed does not matter: any
      rearrangement of the list induces the same voltage. */
  lemma {:induction false} InducedVoltagePermutation(xs: seq<Cable>, ys: seq<Cable>,
                                                     mutual: Coordinates -> Complex, length: real)
    requires multiset(xs) == multiset(ys)
    ensures InducedVoltage(xs, mutual, length) == InducedVoltage(ys, mutual, length)
    decreases |xs|
  {
    if |xs| == 0 {
      assert |ys| == |multiset(ys)| == 0;
    } else {
      var n := |xs| - 1;
      var x := xs[n];
      assert xs[..n] == xs[..n] + xs[n + 1..];
      RemoveOneMultiset(xs, n);
      assert x in multiset(ys);
      var j :| 0 <= j < |ys| && ys[j] == x;
      RemoveOneMultiset(ys, j);
      InducedVoltagePermutation(xs[..n], ys[..j] + ys[j + 1..], mutual, length);
      RemoveOneVoltage(ys, j, mutual, length);
    }
  }

  /** The induced voltage is linear in the exposure length: the report at any
      length is that length times the report at the default length of 1 m,
      which is the voltage per metre. */
  lemma {:induction false} InducedVoltageLinearInLength(cables: seq<Cable>,
                                                        mutual: Coordinates -> Complex, length: real)
    ensures InducedVoltage(cables, mutual, length)
            == Scale(length, InducedVoltage(cables, mutual, DefaultExposureLength))
    decreases |cables|
  {
    if |cables| > 0 {
      var n := |cables| - 1;
      InducedVoltageLinearInLength(cables[..n], mutual, length);
      ScaleAdd(length, InducedVoltage(cables[..n], mutual, DefaultExposureLength),
               Contribution(cables[n], mutual, DefaultExposureLength));
      ScaleScale(length, DefaultExposureLength, Mul(mutual(cables[n].position), cables[n].current));
    }
  }

  /** Two exposures laid end to end induce the sum of their voltages. */
  lemma InducedVoltageAdditiveInLength(cables: seq<Cable>, mutual: Coordinates -> Complex,
                                       length1: real, length2: real)
    ensures InducedVoltage(cables, mutual, length1 + length2)
            == Add(InducedVoltage(cables, mutual, length1), InducedVoltage(cables, mutual, length2))
  {
    InducedVoltageLinearInLength(cables, mutual, length1);
    InducedVoltageLinearInLength(cables, mutual, length2);
    InducedVoltageLinearInLength(cables, mutual, length1 + length2);
  }

  /** The same cables with every current multiplied by the real factor k. */
  function ScaleCurrents(cables: seq<Cable>, k: real): (r: seq<Cable>)
    ensures |r| == |cables|
    ensures forall i :: 0 <= i < |r| ==>
              && r[i].position == cables[i].position
              && r[i].current == Scale(k, cables[i].current)
  {
    seq(|cables|, i requires 0 <= i < |cables| => cables[i].(current := Scale(k, cables[i].current)))
  }

  /** Scaling every cable current by k scales the induced voltage by k. */
  lemma {:induction false} InducedVoltageScalesWithCurrents(cables: seq<Cable>, k: real,
                                                            mutual: Coordinates -> Complex, length: real)
    ensures InducedVoltage(ScaleCurrents(cables, k), mutual, length)
            == Scale(k, InducedVoltage(cables, mutual, length))
    decreases |cables|
  {
    if |cables| > 0 {
      var n := |cables| - 1;
      var scaled := ScaleCurrents(cables, k);
      assert scaled[..n] == ScaleCurrents(cables[..n], k);
      InducedVoltageScalesWithCurrents(cables[..n], k, mutual, length);
      var z := mutual(cables[n].position);
      MulScale(k, z, cables[n].current);
      ScaleScale(length, k, Mul(z, cables[n].current));
      ScaleScale(k, length, Mul(z, cables[n].current));
      ScaleAdd(k, InducedVoltage(cables[..n], mutual, length), Contribution(cables[n], mutual, length));
    }
  }

  // ---------------------------------------------------------------------------
  // Coating safety
  // ---------------------------------------------------------------------------

  /** The coatings with a withstand limit in the table. */
  datatype Coating = ExtrudedPolyethylene | FusionBondedEpoxy | PlasticTape

  /** Withstand voltages in kV. */
  const CoatingLimitsKv: map<Coating, real> :=
    map[ExtrudedPolyethylene := 5.0, FusionBondedEpoxy := 3.0, PlasticTape := 2.0]

  /** The engine always assumes an extruded polyethylene coating. */
  const AssumedCoating: Coating := ExtrudedPolyethylene

  /** The coating verdict: the voltage in kV, the limit, whether it holds, and
      limit/voltage, which has no finite value when no voltage is induced. */
  datatype CoatingEvaluation = CoatingEvaluation(
    voltageKv: real, limitKv: real, safe: bool, safetyFactor: Option<real>)

  /** `avaliar_seguranca_revestimento` for the voltage `v` of modulus `magnitude`. */
  function CoatingSafety(v: Complex, magnitude: real): (e: CoatingEvaluation)
    requires IsModulus(v, magnitude)
    ensures e.voltageKv * 1000.0 == magnitude
    ensures e.limitKv == CoatingLimitsKv[ExtrudedPolyethylene] == 5.0
    ensures e.safe <==> magnitude <= 5000.0
    ensures e.safetyFactor.Some? <==> 0.0 < magnitude
    ensures e.safetyFactor.Some? ==> e.safetyFactor.value * e.voltageKv == e.limitKv
    ensures e.safetyFactor.Some? ==> (1.0 <= e.safetyFactor.value <==> e.safe)
  {
    var kv := magnitude / 1000.0;
    var limit := CoatingLimitsKv[AssumedCoating];
    var factor := if kv == 0.0 then None else Some(limit / kv);
    SafetyFactorVersusOne(limit, kv, factor);
    CoatingEvaluation(kv, limit, kv <= limit, factor)
  }

  lemma SafetyFactorVersusOne(limit: real, kv: real, factor: Option<real>)
    requires 0.0 < limit && 0.0 <= kv
    requires factor == if kv == 0.0 then None else Some(limit / kv)
    ensures factor.Some? ==> factor.value * kv == limit
    ensures factor.Some? ==> (1.0 <= factor.value <==> kv <= limit)
  {
    if factor.Some? {
      var f := factor.value;
      assert f * kv == limit;
      if 1.0 <= f {
        assert kv <= f * kv;
      } else {
        assert f * kv < kv;
      }
    }
  }

  /** The verdict is a statement about the voltage itself: safe exactly when
      re² + im² ≤ 5000², that is |V| ≤ 5 kV. */
  lemma CoatingSafeIffSquaredModulus(v: Complex, magnitude: real)
    requires IsModulus(v, magnitude)
    ensures CoatingSafety(v, magnitude).safe <==> v.re * v.re + v.im * v.im <= 25000000.0
  {
    ModulusAtMost(v, magnitude, 5000.0);
  }

  /** The safety factor is missing exactly when the induced voltage is 0j
      (no cables, or contributions that cancel); the verdict is then safe. */
  lemma NoSafetyFactorIffNoVoltage(v: Complex, magnitude: real)
    requires IsModulus(v, magnitude)
    ensures CoatingSafety(v, magnitude).safetyFactor.None? <==> v == Zero
    ensures v == Zero ==> CoatingSafety(v, magnitude).safe
  {
    ModulusZero(v, magnitude);
  }

  // ---------------------------------------------------------------------------
  // AC current density at a coating defect
  // ---------------------------------------------------------------------------

  /** Geometric factor of the cylindrical-defect formula. */
  const DefectFactor: real := 0.3927

  /** Defect radius in m used when none is given. */
  const DefaultDefectRadius: real := 0.001

  /** J = |V| / (ρ·(0.3927·r + t)) in A/m², for the voltage modulus, the
      equivalent soil resistivity, the coating thickness and the defect radius. */
  function AcCurrentDensity(magnitude: real, rho: real, coatingThickness: real, defectRadius: real): real
    requires rho * (DefectFactor * defectRadius + coatingThickness) != 0.0
  {
    magnitude / (rho * (DefectFactor * defectRadius + coatingThickness))
  }

  /** With a positive resistivity and thickness and a non-negative radius the
      formula never divides by zero. */
  lemma DensityDenominatorPositive(rho: real, coatingThickness: real, defectRadius: real)
    requires 0.0 < rho && 0.0 < coatingThickness && 0.0 <= defectRadius
    ensures 0.0 < rho * (DefectFactor * defectRadius + coatingThickness)
  {
    MulPositive(rho, DefectFactor * defectRadius + coatingThickness);
  }

  /** J times the defect's spreading resistance gives back |V|, so J vanishes
      exactly when |V| does. */
  lemma DensityMeaning(magnitude: real, rho: real, coatingThickness: real, defectRadius: real)
    requires rho * (DefectFactor * defectRadius + coatingThickness) != 0.0
    ensures AcCurrentDensity(magnitude, rho, coatingThickness, defectRadius)
              * (rho * (DefectFactor * defectRadius + coatingThickness)) == magnitude
    ensures AcCurrentDensity(magnitude, rho, coatingThickness, defectRadius) == 0.0 <==> magnitude == 0.0
  {
  }

  /** With a positive denominator the density of a voltage modulus is non-negative. */
  lemma DensityNonNegative(magnitude: real, rho: real, coatingThickness: real, defectRadius: real)
    requires 0.0 <= magnitude
    requires 0.0 < rho * (DefectFactor * defectRadius + coatingThickness)
    ensures 0.0 <= AcCurrentDensity(magnitude, rho, coatingThickness, defectRadius)
  {
    var d := rho * (DefectFactor * defectRadius + coatingThickness);
    var j := AcCurrentDensity(magnitude, rho, coatingThickness, defectRadius);
    DensityMeaning(magnitude, rho, coatingThickness, defectRadius);
    if j < 0.0 {
      MulPositive(-j, d);
    }
  }

  /** J is proportional to |V|: scaling the voltage by c scales the density by c. */
  lemma DensityProportional(magnitude: real, c: real, rho: real, coatingThickness: real, defectRadius: real)
    requires rho * (DefectFactor * defectRadius + coatingThickness) != 0.0
    ensures AcCurrentDensity(c * magnitude, rho, coatingThickness, defectRadius)
            == c * AcCurrentDensity(magnitude, rho, coatingThickness, defectRadius)
  {
    var d := rho * (DefectFactor * defectRadius + coatingThickness);
    assert (c * magnitude) / d == c * (magnitude / d);
  }

  // ---------------------------------------------------------------------------
  // AC corrosion risk
  // ---------------------------------------------------------------------------

  /** The three classes of the NACE TG-327 rule applied by the engine. */
  datatype Risk = Low | Moderate | VeryHigh

  /** The label the report prints for each class. */
  function Label(r: Risk): string
  {
    match r
    case Low => "Baixo"
    case Moderate => "Moderado"
    case VeryHigh => "Muito Alto"
  }

  /** Class thresholds in A/m² (20 and 100 mA/m²). */
  const ModerateThreshold: real := 0.02
  const VeryHighThreshold: real := 0.1

  /** `avaliar_risco_corrosao_ac`: both comparisons are strict, so a density
      exactly at a threshold falls into the higher class. */
  function ClassifyCorrosionRisk(density: real): (r: Risk)
    ensures r == Low <==> density < 0.02
    ensures r == Moderate <==> 0.02 <= density < 0.1
    ensures r == VeryHigh <==> 0.1 <= density
  {
    if density < ModerateThreshold then Low
    else if density < VeryHighThreshold then Moderate
    else VeryHigh
  }

  /** Severity order of the classes. */
  function Rank(r: Risk): nat
  {
    match r
    case Low => 0
    case Moderate => 1
    case VeryHigh => 2
  }

  /** The three labels are distinct, so the printed label identifies the class. */
  lemma LabelsDistinct(r1: Risk, r2: Risk)
    ensures Label(r1) == Label(r2) <==> r1 == r2
  {
    assert Label(Low)[0] == 'B' && Label(Moderate)[0] == 'M' && Label(VeryHigh)[0] == 'M';
    assert Label(Moderate)[1] == 'o' && Label(VeryHigh)[1] == 'u';
  }

  /** A larger density never gets a milder class. */
  lemma RiskMonotone(d1: real, d2: real)
    requires d1 <= d2
    ensures Rank(ClassifyCorrosionRisk(d1)) <= Rank(ClassifyCorrosionRisk(d2))
  {
  }

  /** The rule read in the report's unit: a density shown as m mA/m² is
      "Baixo" below 20, "Moderado" from 20 to below 100, "Muito Alto" from 100. */
  lemma RiskInMilliamps(density: real)
    ensures Label(ClassifyCorrosionRisk(density)) == "Baixo" <==> density * 1000.0 < 20.0
    ensures Label(ClassifyCorrosionRisk(density)) == "Moderado" <==> 20.0 <= density * 1000.0 < 100.0
    ensures Label(ClassifyCorrosionRisk(density)) == "Muito Alto" <==> 100.0 <= density * 1000.0
  {
    var r := ClassifyCorrosionRisk(density);
    LabelsDistinct(r, Low);
    LabelsDistinct(r, Moderate);
    LabelsDistinct(r, VeryHigh);
  }

  /** The thresholds themselves belong to the higher class. */
  lemma RiskBoundaries()
    ensures ClassifyCorrosionRisk(0.019999) == Low
    ensures ClassifyCorrosionRisk(0.02) == Moderate
    ensures ClassifyCorrosionRisk(0.099999) == Moderate
    ensures ClassifyCorrosionRisk(0.1) == VeryHigh
  {
  }

  // ---------------------------------------------------------------------------
  // Characteristic length
  // ---------------------------------------------------------------------------

  /** A length in m, or numpy's infinity. */
  datatype Length = Finite(metres: real) | Infinite

  /** 1/Re(γ) when Re(γ) > 0, infinity otherwise. */
  function CharacteristicLength(gamma: Complex): (l: Length)
    ensures l.Finite? <==> 0.0 < gamma.re
    ensures l.Finite? ==> 0.0 < l.metres && l.metres * gamma.re == 1.0
  {
    if gamma.re > 0.0 then Finite(1.0 / gamma.re) else Infinite
  }

  // ---------------------------------------------------------------------------
  // The analysis report
  // ---------------------------------------------------------------------------

  /** The floating-point transcendental values the report uses, taken as given:
      the Carson mutual impedance per cable position, |V| and its phase in
      degrees, √(1/ρ1), √(1/ρ2) and the skin term of the soil reduction, and
      the pipe's self-impedance, characteristic impedance and propagation constant. */
  datatype Transcendentals = Transcendentals(
    mutual: Coordinates -> Complex,
    voltageMagnitude: real,
    voltagePhaseDeg: real,
    rootInvRho1: real,
    rootInvRho2: real,
    skinTerm: real,
    selfImpedance: Complex,
    characteristicImpedance: Complex,
    propagationConstant: Complex)

  /** The induced-voltage entry: modulus, phase in degrees and the phasor. */
  datatype VoltageEntry = VoltageEntry(magnitude: real, phaseDeg: real, value: Complex)

  /** The pipe-parameter entry. */
  datatype PipeParameters = PipeParameters(
    selfImpedance: Complex,
    admittance: Complex,
    characteristicImpedance: Complex,
    propagationConstant: Complex,
    characteristicLength: Length)

  /** The safety entry: coating verdict, density in mA/m² and the risk label. */
  datatype SafetyAssessment = SafetyAssessment(
    coating: CoatingEvaluation, densityMilliamps: real, risk: string)

  /** The whole report, with the equivalent soil resistivity. */
  datatype Report = Report(
    voltage: VoltageEntry, pipe: PipeParameters, safety: SafetyAssessment,
    equivalentResistivity: real)

  /** `calcular_densidade_corrente_ac`: the formula over the modulus of the
      voltage, the soil's equivalent resistivity and the pipe's coating. */
  function AnalysisCurrentDensity(a: Analysis, a1: real, a2: real, k: real,
                                  magnitude: real, defectRadius: real): real
    requires ValidShell(a.line.soil, a1, a2, k)
    requires DefectFactor * defectRadius + a.pipe.coatingThickness != 0.0
  {
    var rho := EquivalentResistivity(a.line.soil, a1, a2, k);
    EquivalentResistivityPositive(a.line.soil, a1, a2, k);
    MulNonZero(rho, DefectFactor * defectRadius + a.pipe.coatingThickness);
    AcCurrentDensity(magnitude, rho, a.pipe.coatingThickness, defectRadius)
  }

  /** The density of a voltage is 0 exactly when the voltage is 0j, and it is
      non-negative under a coating of positive thickness. */
  lemma DensityOfVoltage(v: Complex, magnitude: real, rho: real, coatingThickness: real, defectRadius: real)
    requires IsModulus(v, magnitude) && 0.0 < rho && 0.0 <= defectRadius
    requires DefectFactor * defectRadius + coatingThickness != 0.0
    ensures rho * (DefectFactor * defectRadius + coatingThickness) != 0.0
    ensures AcCurrentDensity(magnitude, rho, coatingThickness, defectRadius) == 0.0 <==> v == Zero
    ensures 0.0 < coatingThickness ==> 0.0 <= AcCurrentDensity(magnitude, rho, coatingThickness, defectRadius)
  {
    MulNonZero(rho, DefectFactor * defectRadius + coatingThickness);
    DensityMeaning(magnitude, rho, coatingThickness, defectRadius);
    ModulusZero(v, magnitude);
    if 0.0 < coatingThickness {
      DensityDenominatorPositive(rho, coatingThickness, defectRadius);
      DensityNonNegative(magnitude, rho, coatingThickness, defectRadius);
    }
  }

  /** The analysis' density is 0 exactly when no voltage is induced, and it is
      non-negative under a coating of positive thickness. */
  lemma AnalysisCurrentDensityFacts(a: Analysis, a1: real, a2: real, k: real,
                                    v: Complex, magnitude: real, defectRadius: real)
    requires ValidShell(a.line.soil, a1, a2, k)
    requires IsModulus(v, magnitude) && 0.0 <= defectRadius
    requires DefectFactor * defectRadius + a.pipe.coatingThickness != 0.0
    ensures AnalysisCurrentDensity(a, a1, a2, k, magnitude, defectRadius) == 0.0 <==> v == Zero
    ensures 0.0 < a.pipe.coatingThickness ==> 0.0 <= AnalysisCurrentDensity(a, a1, a2, k, magnitude, defectRadius)
  {
    EquivalentResistivityPositive(a.line.soil, a1, a2, k);
    DensityOfVoltage(v, magnitude, EquivalentResistivity(a.line.soil, a1, a2, k),
                     a.pipe.coatingThickness, defectRadius);
  }

  /** The safety entry: the coating verdict, the density at the default defect
      radius shown in mA/m², and the label the classifier gives that density. */
  function Assessment(a: Analysis, a1: real, a2: real, k: real, v: Complex, magnitude: real)
    : (s: SafetyAssessment)
    requires ValidShell(a.line.soil, a1, a2, k)
    requires IsModulus(v, magnitude)
    requires DefectFactor * DefaultDefectRadius + a.pipe.coatingThickness != 0.0
    ensures s.coating == CoatingSafety(v, magnitude)
    ensures s.densityMilliamps == AnalysisCurrentDensity(a, a1, a2, k, magnitude, DefaultDefectRadius) * 1000.0
    ensures s.risk == "Baixo" <==> s.densityMilliamps < 20.0
    ensures s.risk == "Moderado" <==> 20.0 <= s.densityMilliamps < 100.0
    ensures s.risk == "Muito Alto" <==> 100.0 <= s.densityMilliamps
  {
    var density := AnalysisCurrentDensity(a, a1, a2, k, magnitude, DefaultDefectRadius);
    RiskInMilliamps(density);
    SafetyAssessment(CoatingSafety(v, magnitude), density * 1000.0, Label(ClassifyCorrosionRisk(density)))
  }

  /** The pipe-parameter entry; the admittance is taken at the engine's ω. */
  function PipeParametersOf(p: Pipe, t: Transcendentals): (pp: PipeParameters)
    requires p.coatingResistivity * p.coatingThickness != 0.0
    ensures pp.characteristicLength.Finite? <==> 0.0 < t.propagationConstant.re
    ensures pp.characteristicLength.Finite? ==> pp.characteristicLength.metres * t.propagationConstant.re == 1.0
    ensures Built(p) && 0.0 < p.diameter && 0.0 < p.coatingThickness
            ==> 0.0 < pp.admittance.re && 0.0 < pp.admittance.im
  {
    var pp := PipeParameters(t.selfImpedance, ShuntAdmittance(p, Omega), t.characteristicImpedance,
                             t.propagationConstant, CharacteristicLength(t.propagationConstant));
    if Built(p) && 0.0 < p.diameter && 0.0 < p.coatingThickness then
      ConstructedPipeAdmittance(p);
      pp
    else
      pp
  }

  /** `gerar_relatorio_analise`. Its divisions by zero are excluded: the
      coating's resistivity times thickness and the spreading-resistance term
      at the default defect radius must be non-zero. */
  method AnalysisReport(a: Analysis, t: Transcendentals, length: real) returns (r: Report)
    requires ValidShell(a.line.soil, t.rootInvRho1, t.rootInvRho2, t.skinTerm)
    requires IsModulus(InducedVoltage(a.line.cables, t.mutual, length), t.voltageMagnitude)
    requires a.pipe.coatingResistivity * a.pipe.coatingThickness != 0.0
    requires DefectFactor * DefaultDefectRadius + a.pipe.coatingThickness != 0.0
    ensures r.voltage.value == InducedVoltage(a.line.cables, t.mutual, length)
    ensures r.voltage.value == SumOfContributions(a.line.cables, t.mutual, length)
    ensures r.voltage.magnitude == t.voltageMagnitude
    ensures r.safety == Assessment(a, t.rootInvRho1, t.rootInvRho2, t.skinTerm,
                                   r.voltage.value, r.voltage.magnitude)
    ensures r.safety.coating.safe <==> r.voltage.magnitude <= 5000.0
    ensures r.safety.coating.safetyFactor.None? <==> r.voltage.value == Zero
    ensures r.safety.densityMilliamps == 0.0 <==> r.voltage.value == Zero
    ensures r.pipe == PipeParametersOf(a.pipe, t)
    ensures Built(a.pipe) && 0.0 < a.pipe.diameter && 0.0 < a.pipe.coatingThickness
            ==> 0.0 < r.pipe.admittance.re && 0.0 < r.pipe.admittance.im
    ensures r.equivalentResistivity == EquivalentResistivity(a.line.soil, t.rootInvRho1, t.rootInvRho2, t.skinTerm)
  {
    var v := TotalInducedVoltage(a, t.mutual, length);
    var m := t.voltageMagnitude;
    NoSafetyFactorIffNoVoltage(v, m);
    AnalysisCurrentDensityFacts(a, t.rootInvRho1, t.rootInvRho2, t.skinTerm, v, m, DefaultDefectRadius);
    r := Report(VoltageEntry(m, t.voltagePhaseDeg, v),
                PipeParametersOf(a.pipe, t),
                Assessment(a, t.rootInvRho1, t.rootInvRho2, t.skinTerm, v, m),
                EquivalentResistivity(a.line.soil, t.rootInvRho1, t.rootInvRho2, t.skinTerm));
  }
}
