/** Physical constants of the interference engine (emi_system.py, lines 9-10). */
module Constants {

  /** numpy's `np.pi`, as the decimal it prints. */
  const Pi: real := 3.141592653589793

  /** Vacuum permittivity ε0 in F/m. */
  const Epsilon0: real := 0.000000000008854187817

  /** Power-system fundamental frequency in Hz. */
  const DefaultFrequency: real := 60.0

  /** Angular frequency ω = 2π·60 rad/s, which the engine holds as a module global. */
  const Omega: real := 2.0 * Pi * DefaultFrequency
}
