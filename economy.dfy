/** The integer bookkeeping of `Planet::update` and the planet's initial
    population: the per-tick step of a planet's store, with the floating-point
    formulas (logistic growth, food yield) taken from the `FloatModel` and the
    `rand()`-based draws passed in. */
module Economy {
  import opened Ledgers
  import opened Numeric
  import opened Geometry
  import opened Configuration

  /** The draws one tick makes, in the order the source makes them: the
      species roll (`rand()`), then three `randRange(0, 10000)` draws added to
      metal, wood and water, then one that replaces the weaponry. */
  datatype TickDraws = TickDraws(speciesRoll: nat, metal: real, wood: real, water: real, weaponary: real)
  {
    /** `randRange(0, 10000)` returns a value in [0, 10000]. */
    predicate InRange() {
      && 0.0 <= metal <= 10000.0
      && 0.0 <= wood <= 10000.0
      && 0.0 <= water <= 10000.0
      && 0.0 <= weaponary <= 10000.0
    }
  }

  /** The fixed attributes of a planet that its economy reads. */
  datatype Traits = Traits(capacity: real, biodiversity: real, farmersCap: int, foodCap: int)
  {
    /** `rand() % growth` is defined only when `growth = int(100001 / biodiversity)`
        is not zero. */
    predicate Admissible() {
      0.0 < biodiversity <= 100001.0
    }
  }

  /** The attributes of a planet whose economy can be stepped. */
  type PlanetTraits = t: Traits | t.Admissible() witness Traits(0.0, 1.0, 0, 0)

  /** The divisor of the species roll: `int(100001 / biodiversity)`. */
  function SpeciesDivisor(biodiversity: real): (g: int)
    requires 0.0 < biodiversity <= 100001.0
    ensures g >= 1
  {
    var q := 100001.0 / biodiversity;
    assert q >= 1.0 by {
      assert q * biodiversity == 100001.0;
    }
    Trunc(q)
  }

  lemma UnitFraction(n: real, w: real)
    requires 0.0 <= n <= w && w > 0.0
    ensures 0.0 <= n / w <= 1.0
  {
    var f := n / w;
    assert (1.0 - f) * w == w - n;
  }

  /** Biodiversity is the earth-likeness rescaled from its configured range
      onto [1, 10]. */
  function Biodiversity(earthLikeness: real, minEL: real, maxEL: real): (b: real)
    requires minEL < maxEL
    ensures minEL <= earthLikeness <= maxEL ==> 1.0 <= b <= 10.0
  {
    var f := (earthLikeness - minEL) / (maxEL - minEL);
    if minEL <= earthLikeness <= maxEL then
      UnitFraction(earthLikeness - minEL, maxEL - minEL);
      f * 9.0 + 1.0
    else
      f * 9.0 + 1.0
  }

  /** The population a new planet starts with: 40% of the time 0, otherwise
      `int(randRange(MIN_POPULATION, MAX_POPULATION))`. */
  function InitialPopulation(roll: nat, value: real): (p: int)
    ensures roll as real <= RAND_MAX as real * 0.4 ==> p == 0
    ensures roll as real > RAND_MAX as real * 0.4 && value >= 0.0 ==>
      0 <= p && p as real <= value < p as real + 1.0
  {
    if roll as real > RAND_MAX as real * 0.4 then Trunc(value) else 0
  }

  /** The population after one tick: the logistic formula, skipped for an
      empty planet. */
  function NextPopulation(population: int, capacity: real, dt: real, fm: FloatModel): int {
    if population != 0 then fm.logistic(population, capacity, dt) else population
  }

  /** The food after one tick, from the new population and the farmer count,
      clamped to the food cap. */
  function NextFood(population: int, farmers: int, t: Traits, fm: FloatModel): int {
    var grown := if population == 0 then 0 else fm.foodYield(farmers, t.biodiversity, population);
    if grown > t.foodCap then t.foodCap else grown
  }

  /** One tick of a planet's store (`Planet::update` after the orbit step and
      the ship-queue drain). Each category is computed as the source does;
      `Population` first, since farmers, weaponry and food read the new value. */
  function Tick(store: Ledger, t: Traits, d: TickDraws, dt: real, fm: FloatModel): (r: Ledger)
    requires t.Admissible()
    ensures Total(r)
  {
    var population := NextPopulation(Get(store, Population), t.capacity, dt, fm);
    var farmers := Min(population, t.farmersCap);
    var species := Get(store, Species) + (if d.speciesRoll % SpeciesDivisor(t.biodiversity) < 1 then 1 else 0);
    var metal := Trunc(Get(store, Metal) as real + d.metal);
    var wood := Trunc(Get(store, Wood) as real + d.wood);
    var water := Trunc(Get(store, Water) as real + d.water);
    var weaponary := if population > 0 then Trunc(d.weaponary) else Get(store, Weaponary);
    var food := NextFood(population, farmers, t, fm);
    map[Population := population, Species := species, Metal := metal, Wood := wood,
        Water := water, Food := food, Weaponary := weaponary]
  }

  /** An empty planet stays empty, and an inhabited one follows the logistic
      formula. */
  lemma TickPopulation(store: Ledger, t: Traits, d: TickDraws, dt: real, fm: FloatModel)
    requires t.Admissible()
    ensures var r := Tick(store, t, d, dt, fm);
      && (Get(store, Population) == 0 ==> Get(r, Population) == 0)
      && (Get(store, Population) != 0 ==>
            Get(r, Population) == fm.logistic(Get(store, Population), t.capacity, dt))
  {
  }

  /** Food never exceeds the cap; it is 0 on an empty planet when the cap is
      not negative; otherwise it is the yield of `min(population, farmersCap)`
      farmers, capped, so every inhabitant farms while the population is
      within the farmer cap. */
  lemma TickFood(store: Ledger, t: Traits, d: TickDraws, dt: real, fm: FloatModel)
    requires t.Admissible()
    ensures var r := Tick(store, t, d, dt, fm);
      var population := Get(r, Population);
      && Get(r, Food) <= t.foodCap
      && (population == 0 && t.foodCap >= 0 ==> Get(r, Food) == 0)
      && (population != 0 ==>
            Get(r, Food) == Min(fm.foodYield(Min(population, t.farmersCap), t.biodiversity, population), t.foodCap))
      && (population != 0 && population <= t.farmersCap ==>
            Get(r, Food) == Min(fm.foodYield(population, t.biodiversity, population), t.foodCap))
  {
  }

  /** Species grow by at most one a tick, by one exactly when the roll is a
      multiple of the divisor. */
  lemma TickSpecies(store: Ledger, t: Traits, d: TickDraws, dt: real, fm: FloatModel)
    requires t.Admissible()
    ensures var gain := Get(Tick(store, t, d, dt, fm), Species) - Get(store, Species);
      && (gain == 0 || gain == 1)
      && (gain == 1 <==> d.speciesRoll % SpeciesDivisor(t.biodiversity) == 0)
  {
  }

  /** With draws in range, metal, wood and water never decrease and grow by
      at most 10000 each, and the weaponry is a fresh draw in [0, 10000] on an
      inhabited planet and untouched on an empty one. */
  lemma TickStocks(store: Ledger, t: Traits, d: TickDraws, dt: real, fm: FloatModel)
    requires t.Admissible() && d.InRange()
    ensures var r := Tick(store, t, d, dt, fm);
      && Get(store, Metal) <= Get(r, Metal) <= Get(store, Metal) + 10000
      && Get(store, Wood) <= Get(r, Wood) <= Get(store, Wood) + 10000
      && Get(store, Water) <= Get(r, Water) <= Get(store, Water) + 10000
      && (Get(r, Population) > 0 ==> 0 <= Get(r, Weaponary) <= 10000)
      && (Get(r, Population) <= 0 ==> Get(r, Weaponary) == Get(store, Weaponary))
  {
    TruncAddBounds(Get(store, Metal), d.metal, 10000);
    TruncAddBounds(Get(store, Wood), d.wood, 10000);
    TruncAddBounds(Get(store, Water), d.water, 10000);
    TruncAddBounds(0, d.weaponary, 10000);
  }

  /** With a biodiversity in [1, 10] the species chance is between one in
      100001 and one in 10000. */
  lemma SpeciesDivisorRange(biodiversity: real)
    requires 1.0 <= biodiversity <= 10.0
    ensures 10000 <= SpeciesDivisor(biodiversity) <= 100001
  {
    var q := 100001.0 / biodiversity;
    assert q * biodiversity == 100001.0;
    assert 10000.1 <= q <= 100001.0;
  }
}
