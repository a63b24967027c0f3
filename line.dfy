/** Conductors of the transmission line (`Cabo`) and the line itself
    (`LinhaTransmissao`), which carries the soil it runs over. */
module Line {
  import opened Complex
  import opened Geometry
  import opened Soil

  /** A conductor: position, phasor current in A, radius in m and its role
      ("fase", "neutro" or "guarda"; the source does not check the tag). */
  datatype Cable = Cable(position: Coordinates, current: Complex, radius: real, role: string)

  datatype TransmissionLine = TransmissionLine(cables: seq<Cable>, soil: SoilParams)
}
