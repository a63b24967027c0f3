/** Positions of conductors and of the pipe (the `Coordenadas` record). */
module Geometry {

  /** x horizontal, y height, z depth (negative below ground, 0 by default). */
  datatype Coordinates = Coordinates(x: real, y: real, z: real)
}
