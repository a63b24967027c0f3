/** The buried pipeline (`Duto`): its geometry, the wall material looked up by
    name, the coating constants, and the shunt admittance through the coating. */
module Pipe {
  import Complex
  import opened RealArith
  import opened Geometry
  import opened Constants

  /** Wall resistivity in Ω·m and relative permeability μr. */
  datatype MaterialProps = MaterialProps(resistivity: real, relPermeability: real)

  /** The two materials the lookup table knows. */
  const SteelTag: string := "aco"
  const AluminiumTag: string := "aluminio"

  /** The lookup table: carbon steel and aluminium. */
  const MaterialTable: map<string, MaterialProps> :=
    map[SteelTag := MaterialProps(0.000000172, 300.0),
        AluminiumTag := MaterialProps(0.0000000282, 1.0)]

  /** Table lookup with the steel entry as the fallback for any other name. */
  function MaterialProperties(tag: string): (p: MaterialProps)
    ensures tag == SteelTag ==> p == MaterialProps(0.000000172, 300.0)
    ensures tag == AluminiumTag ==> p == MaterialProps(0.0000000282, 1.0)
    ensures tag != AluminiumTag ==> p == MaterialProps(0.000000172, 300.0)
    ensures p in MaterialTable.Values
  {
    if tag in MaterialTable then MaterialTable[tag] else MaterialTable[SteelTag]
  }

  /** A misspelt or unknown material silently becomes steel: the lookup never
      fails, and only "aluminio" gives anything else. */
  lemma UnknownMaterialIsSteel(tag: string)
    requires tag !in MaterialTable
    ensures MaterialProperties(tag) == MaterialProperties(SteelTag)
    ensures MaterialProperties(tag) != MaterialProperties(AluminiumTag)
  {
  }

  /** Coating constants: extruded polyethylene, 1e8 Ω·m and relative permittivity 2.3. */
  const CoatingResistivity: real := 100000000.0
  const CoatingPermittivity: real := 2.3

  /** The material the constructor assumes when none is named. */
  const DefaultMaterial: string := SteelTag

  /** The fields a `Duto` holds once built; the wall thickness itself is not kept. */
  datatype Pipe = Pipe(
    position: Coordinates,
    diameter: real,
    outerRadius: real,
    innerRadius: real,
    coatingThickness: real,
    properties: MaterialProps,
    coatingResistivity: real,
    coatingPermittivity: real)

  /** The records the constructor produces: half the diameter as outer radius,
      the polyethylene coating constants and a material from the table. Any
      wall thickness and coating thickness are admitted. */
  predicate Built(p: Pipe)
  {
    && 2.0 * p.outerRadius == p.diameter
    && p.coatingResistivity == CoatingResistivity
    && p.coatingPermittivity == CoatingPermittivity
    && p.properties in MaterialTable.Values
  }

  /** The constructor. It validates nothing: a wall thicker than the radius
      gives a non-positive inner radius, and every later formula is used as is. */
  function MakePipe(position: Coordinates, diameter: real, wallThickness: real,
                    coatingThickness: real, material: string): (p: Pipe)
    ensures p.position == position && p.diameter == diameter
    ensures 2.0 * p.outerRadius == diameter
    ensures p.outerRadius - p.innerRadius == wallThickness
    ensures 0.0 < p.innerRadius <==> 2.0 * wallThickness < diameter
    ensures p.coatingThickness == coatingThickness
    ensures p.properties == MaterialProperties(material)
    ensures p.coatingResistivity == CoatingResistivity
    ensures p.coatingPermittivity == CoatingPermittivity
    ensures Built(p)
  {
    var outer := diameter / 2.0;
    Pipe(position, diameter, outer, outer - wallThickness, coatingThickness,
         MaterialProperties(material), CoatingResistivity, CoatingPermittivity)
  }

  /** Leakage conductance per metre through the coating, G = 2π·r_ext/(ρ_c·t_c). */
  function Conductance(p: Pipe): real
    requires p.coatingResistivity * p.coatingThickness != 0.0
  {
    (Pi * 2.0 * p.outerRadius) / (p.coatingResistivity * p.coatingThickness)
  }

  /** Capacitance per metre across the coating, C = ε0·ε_c·2π·r_ext/t_c. */
  function Capacitance(p: Pipe): real
    requires p.coatingThickness != 0.0
  {
    (Epsilon0 * p.coatingPermittivity * Pi * 2.0 * p.outerRadius) / p.coatingThickness
  }

  /** Shunt admittance Y = G + j·ω·C, with the angular frequency as a parameter;
      the engine always passes its global `Omega`. */
  function ShuntAdmittance(p: Pipe, omega: real): Complex.Complex
    requires p.coatingResistivity * p.coatingThickness != 0.0
  {
    Complex.Complex(Conductance(p), omega * Capacitance(p))
  }

  /** A pipe of positive radius under a coating of positive resistivity and
      thickness leaks: its conductance is positive. */
  lemma ConductancePositive(p: Pipe)
    requires 0.0 < p.outerRadius && 0.0 < p.coatingResistivity && 0.0 < p.coatingThickness
    ensures 0.0 < Conductance(p)
  {
    DivPositive(Pi * 2.0 * p.outerRadius, p.coatingResistivity * p.coatingThickness);
  }

  /** Under a coating of positive permittivity and thickness the capacitance is positive. */
  lemma CapacitancePositive(p: Pipe)
    requires 0.0 < p.outerRadius && 0.0 < p.coatingPermittivity && 0.0 < p.coatingThickness
    ensures 0.0 < Capacitance(p)
  {
    DivPositive(Epsilon0 * p.coatingPermittivity * Pi * 2.0 * p.outerRadius, p.coatingThickness);
  }

  /** Both parts of the admittance share the factor 2π·r_ext/t_c:
      C = ε0·ε_c·ρ_c·G, so the coating's time constant relates them. */
  lemma CapacitanceFromConductance(p: Pipe)
    requires p.coatingResistivity * p.coatingThickness != 0.0
    ensures Capacitance(p) == Epsilon0 * p.coatingPermittivity * p.coatingResistivity * Conductance(p)
  {
  }

  /** The real part of the admittance does not depend on the frequency, and the
      imaginary part grows linearly with it: at DC the coating is a pure conductance. */
  lemma AdmittanceFrequencyDependence(p: Pipe, omega1: real, omega2: real)
    requires p.coatingResistivity * p.coatingThickness != 0.0
    ensures ShuntAdmittance(p, omega1).re == ShuntAdmittance(p, omega2).re
    ensures ShuntAdmittance(p, 0.0) == Complex.Complex(Conductance(p), 0.0)
    ensures ShuntAdmittance(p, omega1 + omega2).im
            == ShuntAdmittance(p, omega1).im + ShuntAdmittance(p, omega2).im
  {
  }

  /** A pipe built without naming a material gets the steel wall. */
  lemma DefaultMaterialIsSteel(position: Coordinates, diameter: real, wallThickness: real,
                               coatingThickness: real)
    ensures MakePipe(position, diameter, wallThickness, coatingThickness, DefaultMaterial).properties
            == MaterialProps(0.000000172, 300.0)
  {
  }

  /** Every built record comes out of the constructor: the wall thickness is
      the difference of the radii and the material is the tag of its entry. */
  lemma BuiltIsConstructed(p: Pipe)
    requires Built(p)
    ensures MakePipe(p.position, p.diameter, p.outerRadius - p.innerRadius, p.coatingThickness,
                     if p.properties == MaterialTable[SteelTag] then SteelTag else AluminiumTag) == p
  {
    var tag :| tag in MaterialTable && MaterialTable[tag] == p.properties;
    assert tag == SteelTag || tag == AluminiumTag;
  }

  /** A pipe built by the constructor with a positive diameter and coating
      thickness has a positive conductance and a positive capacitance, and its
      capacitance is ε0·2.3·1e8 times its conductance. */
  lemma ConstructedPipeAdmittance(p: Pipe)
    requires Built(p) && 0.0 < p.diameter && 0.0 < p.coatingThickness
    ensures 0.0 < Conductance(p) && 0.0 < Capacitance(p)
    ensures Capacitance(p) == Epsilon0 * CoatingPermittivity * CoatingResistivity * Conductance(p)
    ensures 0.0 < ShuntAdmittance(p, Omega).re && 0.0 < ShuntAdmittance(p, Omega).im
  {
    ConductancePositive(p);
    CapacitancePositive(p);
    CapacitanceFromConductance(p);
    MulPositive(Omega, Capacitance(p));
  }
}
