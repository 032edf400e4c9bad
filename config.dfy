/** The game's tuning constants. `config.h` and `planet.h`, where the source
    defines them, are not part of this model, so they are carried as one
    record that the game and its panels receive. */
module Configuration {

  /** The C library's `RAND_MAX` (the glibc value). */
  const RAND_MAX: nat := 2147483647

  datatype Config = Config(
    numPlanets: nat,
    minReqInhabited: int,
    maxReqInhabited: int,
    sunRadius: real,
    sidebarWidth: real,
    sidebarUpdateTime: real,
    shipMetalUsage: int,
    maxCargoPerResource: int,
    minPopulation: real,
    maxPopulation: real,
    minEarthLikeness: real,
    maxEarthLikeness: real,
    farmersCap: int,
    foodCap: int
  ) {
    /** The habitability range the generator accepts. */
    predicate AcceptsInhabited(n: int) {
      minReqInhabited <= n <= maxReqInhabited
    }

    /** The earth-likeness range is not empty, as the biodiversity rescale
        divides by its width. */
    predicate Sound() {
      minEarthLikeness < maxEarthLikeness
    }
  }
}
