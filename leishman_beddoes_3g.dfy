/** State that the 3G variant of the Leishman-Beddoes model (LeishmanBeddoes3G)
    adds to the base model: a third deficiency function for the equivalent
    angle of attack and the impulsive normal-force and moment deficiency
    functions, each with the forcing term it lags. Like the base lags, each
    has a current value and a previous value committed on a new time. */
module LeishmanBeddoes3G {

  datatype Lags3G = Lags3G(
    /** Additional deficiency function for the equivalent angle of attack. */
    Z: real,
    /** Circulatory forcing term of the pitching motion. */
    etaL: real,
    /** Deficiency function for the impulsive normal coefficient. */
    H: real,
    /** Impulsive forcing term for pitching about the quarter chord. */
    lambdaL: real,
    /** Deficiency function for the impulsive moment coefficient. */
    J: real,
    /** Impulsive forcing term for the pitching moment. */
    lambdaM: real)

  const ZeroLags3G := Lags3G(0.0, 0.0, 0.0, 0.0, 0.0, 0.0)
}
