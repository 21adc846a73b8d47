/** Configuration that the Sheng-Dyachuk variant of the Leishman-Beddoes model
    (LeishmanBeddoesShengDyachuk) adds: three correction switches, fixed when
    the model is constructed. Its one extra piece of history, the previous
    nondimensional time step, is a field of LeishmanBeddoes.Model. */
module LeishmanBeddoesShengDyachuk {

  datatype Corrections = Corrections(
    /** Bring the chordwise coefficient to its static value at low angles of attack. */
    CTCorrection: bool,
    /** Correct the angle of attack for attached-flow effects. */
    alphaAttachedCorrection: bool,
    /** Cross-flow turbine mode: treat upwind and downwind regions differently. */
    crossFlowTurbine: bool)
}
