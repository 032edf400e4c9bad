/** Positions and the floating-point formulas of the simulation. The formulas
    (trigonometry, square roots, exponentials, hit tests) are not modelled:
    each is a field of `FloatModel`, an uninterpreted function that every
    operation receives from its caller. */
module Geometry {

  datatype Vec = Vec(x: real, y: real) {
    function Plus(v: Vec): Vec {
      Vec(x + v.x, y + v.y)
    }
  }

  const Origin := Vec(0.0, 0.0)

  datatype FloatModel = FloatModel(
    /** `atanf(speed / distanceFromSun)`: orbit angle advanced per second */
    angularRate: (real, real) -> real,
    /** `getPosition(SYSTEM_CENTER)` from the orbit angle and distance */
    orbitPosition: (real, real) -> Vec,
    /** `int(capacity / (1 + A * e^(-k dt)))`, the logistic population step,
        from the current population, the capacity and `dt` */
    logistic: (int, real, real) -> int,
    /** `int(farmers * biodiversity / sqrt(population))` */
    foodYield: (int, real, int) -> int,
    /** the ship's new velocity from its position, velocity, target and `dt`
        (unit direction to the target, thrust, then drag) */
    thrust: (Vec, Vec, Vec, real) -> Vec,
    /** `hasReachedDestination`: from the ship's position, the target's
        position and the target's pixel radius */
    reached: (Vec, Vec, real) -> bool,
    /** `Planet::contains`: from the planet's drawn position, its pixel
        radius and the point */
    contains: (Vec, real, Vec) -> bool
  ) {
    /** The orbit angle gained per second at `speed` and `distance`. */
    function Rate(speed: real, distance: real): real {
      angularRate(speed, distance)
    }

    /** Where the orbit at `angle` and `distance` puts a planet. */
    function Orbit(angle: real, distance: real): Vec {
      orbitPosition(angle, distance)
    }
  }
}
