/** Planets and the ships they launch (`Planet`, `Spaceship`). Every
    floating-point formula goes through the `FloatModel`; every `rand()`
    draw is a parameter. */
module Bodies {
  import opened Ledgers
  import opened Geometry
  import opened Configuration
  import opened Names
  import opened Economy
  import opened Seqs

  /** The static `Spaceship::nextID`, which the constructor post-increments. */
  class IdCounter {
    var next: nat

    constructor()
      ensures next == 0
    {
      next := 0;
    }
  }

  /** The draws and physical attributes a new planet is built from. The
      physical formulas (radius, capacity, pixel radius) are not modelled:
      their results are given. */
  datatype Genesis = Genesis(
    populationRoll: nat,
    populationDraw: real,
    earthLikeness: real,
    capacity: real,
    pixelRadius: real,
    angle: real,
    speed: real,
    nameDraws: nat -> nat)
  {
    /** What `randRange` guarantees about the draws. */
    predicate InRange(cfg: Config) {
      && cfg.Sound()
      && cfg.minEarthLikeness <= earthLikeness <= cfg.maxEarthLikeness
    }
  }

  class Planet {
    const distanceFromSun: real
    const speed: real
    const traits: PlanetTraits
    const pixelRadius: real
    const name: string
    /** Orbit angle, advanced every tick. */
    var angle: real
    /** Where the planet's shape was last placed; `contains` tests against it. */
    var drawnAt: Vec
    var store: Ledger
    /** Ships launched since the last tick, waiting to join the game's list. */
    var shipQueue: seq<Spaceship>

    ghost predicate Valid()
      reads this`store
    {
      Total(store) && |name| >= 2
    }

    /** `Planet::Planet(distance)`: the population is 0 with probability 0.4
        and otherwise drawn from its range; every other category starts at 0;
        the name comes from `randomName`. */
    constructor(distance: real, g: Genesis, cfg: Config)
      requires g.InRange(cfg)
      ensures Valid()
      ensures distanceFromSun == distance && speed == g.speed && angle == g.angle
      ensures pixelRadius == g.pixelRadius && drawnAt == Origin
      ensures traits == Traits(g.capacity,
                               Biodiversity(g.earthLikeness, cfg.minEarthLikeness, cfg.maxEarthLikeness),
                               cfg.farmersCap, cfg.foodCap)
      ensures 1.0 <= traits.biodiversity <= 10.0
      ensures Get(store, Population) == InitialPopulation(g.populationRoll, g.populationDraw)
      ensures forall c :: c != Population ==> Get(store, c) == 0
      ensures name == GeneratedName(g.nameDraws)
      ensures shipQueue == []
    {
      distanceFromSun := distance;
      var population := InitialPopulation(g.populationRoll, g.populationDraw);
      var biodiversity := Biodiversity(g.earthLikeness, cfg.minEarthLikeness, cfg.maxEarthLikeness);
      traits := Traits(g.capacity, biodiversity, cfg.farmersCap, cfg.foodCap);
      pixelRadius := g.pixelRadius;
      angle := g.angle;
      speed := g.speed;
      var generated := RandomName(g.nameDraws);
      name := generated;
      drawnAt := Origin;
      store := map[Population := population, Species := 0, Metal := 0, Wood := 0,
                   Water := 0, Food := 0, Weaponary := 0];
      shipQueue := [];
    }

    /** `getPosition(SYSTEM_CENTER)`: where the orbit angle puts the planet. */
    function OrbitPosition(fm: FloatModel): Vec
      reads this`angle
    {
      fm.orbitPosition(angle, distanceFromSun)
    }

    /** `Planet::contains`: the point lies on the planet as last drawn. */
    predicate Contains(fm: FloatModel, point: Vec)
      reads this`drawnAt
    {
      fm.contains(drawnAt, pixelRadius, point)
    }

    /** `isInhabited`: the population is above 0, so for a population that
        is not negative, exactly when the demonym is not "N/A". */
    predicate IsInhabited(): (r: bool)
      reads this`store
      ensures Valid() && Get(store, Population) >= 0 ==> (r <==> InhabitantName() != "N/A")
    {
      Get(store, Population) > 0
    }

    /** `getInhabitantName`. */
    function InhabitantName(): (r: string)
      requires Valid()
      reads this`store
      ensures r == "N/A" <==> Get(store, Population) == 0
      ensures Get(store, Population) > 0 ==> r == Names.InhabitantName(name, Get(store, Population))
    {
      var r := Names.InhabitantName(name, Get(store, Population));
      assert r != "N/A" <== Get(store, Population) != 0 by {
        if Get(store, Population) != 0 {
          assert r[|r| - 1] == 's';
        }
      }
      r
    }

    /** The planet's motion in a tick from `angle`: the orbit has advanced,
        the shape is drawn where the orbit now puts the planet, and the queue
        has been handed over. */
    ghost predicate Advanced(angle: real, dt: real, fm: FloatModel)
      reads this`angle, this`drawnAt, this`shipQueue
    {
      && this.angle == angle + fm.Rate(speed, distanceFromSun) * dt
      && drawnAt == fm.Orbit(this.angle, distanceFromSun)
      && shipQueue == []
    }

    /** The planet after a tick from `store` and `angle`: it has advanced
        and the economy has stepped. */
    ghost predicate Ticked(store: Ledger, angle: real, d: TickDraws, dt: real, fm: FloatModel)
      reads this`angle, this`drawnAt, this`store, this`shipQueue
    {
      Advanced(angle, dt, fm) && this.store == Tick(store, traits, d, dt, fm)
    }

    /** `Planet::update`: advances the orbit, hands the queued ships to the
        game in `pop_back` order, then steps the economy. */
    method Update(dt: real, ships: seq<Spaceship>, d: TickDraws, fm: FloatModel)
      returns (ships': seq<Spaceship>)
      requires Valid()
      modifies this`angle, this`drawnAt, this`store, this`shipQueue
      ensures Valid()
      ensures Ticked(old(store), old(angle), d, dt, fm)
      ensures ships' == ships + Reverse(old(shipQueue))
    {
      angle := angle + fm.Rate(speed, distanceFromSun) * dt;
      drawnAt := fm.Orbit(angle, distanceFromSun);
      ships' := ships;
      while |shipQueue| > 0
        modifies this`shipQueue
        invariant ships' + Reverse(shipQueue) == ships + Reverse(old(shipQueue))
        decreases |shipQueue|
      {
        var ship := shipQueue[|shipQueue| - 1];
        assert Reverse(shipQueue) == [ship] + Reverse(shipQueue[..|shipQueue| - 1]);
        shipQueue := shipQueue[..|shipQueue| - 1];
        ships' := ships' + [ship];
      }
      store := Tick(store, traits, d, dt, fm);
    }

    /** `Planet::launchShip`: builds the ship, whose constructor debits this
        planet, and queues it. */
    method LaunchShip(payload: Ledger, destination: Planet, ids: IdCounter, fm: FloatModel)
      requires Valid()
      modifies this`store, this`shipQueue, ids`next
      ensures Valid()
      ensures shipQueue == old(shipQueue) + [Launched(this, destination, payload, old(ids.next), fm)]
      ensures ids.next == old(ids.next) + 1
      ensures store == Sub(old(store), payload)
    {
      var ship := NewSpaceship(this, destination, payload, ids, fm);
      shipQueue := shipQueue + [ship];
    }
  }

  /** A ship in flight. The source keeps ships by value (`std::vector<Spaceship>`
      in the planets' queues and in the game), so a ship is a value here; it
      refers to its two planets as the source's pointers do. */
  datatype Spaceship = Spaceship(
    sender: Planet,
    destination: Planet,
    /** The cargo, debited from the sender at launch and credited on arrival. */
    payload: Ledger,
    id: nat,
    position: Vec,
    velocity: Vec,
    delivered: bool)

  /** The ship the constructor builds: the next id, at rest where the sender
      is, not delivered. */
  function Launched(sender: Planet, destination: Planet, payload: Ledger, id: nat, fm: FloatModel): Spaceship
    reads sender`angle
  {
    Spaceship(sender, destination, payload, id, sender.OrbitPosition(fm), Origin, false)
  }

  /** `Spaceship::Spaceship`: debits the sender by the payload, without
      clamping, takes the next id, and starts at rest where the sender is. */
  method NewSpaceship(sender: Planet, destination: Planet, payload: Ledger, ids: IdCounter, fm: FloatModel)
    returns (ship: Spaceship)
    modifies sender`store, ids`next
    ensures sender.store == Sub(old(sender.store), payload)
    ensures ids.next == old(ids.next) + 1
    ensures ship == Launched(sender, destination, payload, old(ids.next), fm)
    ensures ship.id < ids.next && !ship.delivered && ship.velocity == Origin
  {
    sender.store := Sub(sender.store, payload);
    var id := ids.next;
    ids.next := ids.next + 1;
    ship := Spaceship(sender, destination, payload, id, sender.OrbitPosition(fm), Origin, false);
  }

  /** `hasReachedDestination` for a ship at `position`. */
  predicate Reaches(position: Vec, destination: Planet, fm: FloatModel)
    reads destination`angle
  {
    fm.reached(position, destination.OrbitPosition(fm), destination.pixelRadius)
  }

  /** The ship after one step of flight: it steers at its destination's
      current position, moves, and is delivered once it has reached it. */
  function Flown(ship: Spaceship, dt: real, fm: FloatModel): (r: Spaceship)
    reads ship.destination`angle
  {
    var velocity := fm.thrust(ship.position, ship.velocity, ship.destination.OrbitPosition(fm), dt);
    var position := ship.position.Plus(velocity);
    ship.(position := position, velocity := velocity,
          delivered := ship.delivered || Reaches(position, ship.destination, fm))
  }

  /** `Spaceship::update`: moves the ship, and when it has reached its
      destination marks it delivered and credits the destination with the
      payload. It does not look at `delivered` first, so a delivered ship
      that is stepped again credits again. */
  method UpdateShip(ship: Spaceship, dt: real, fm: FloatModel) returns (ship': Spaceship)
    modifies ship.destination`store
    ensures ship' == Flown(ship, dt, fm)
    ensures ship'.sender == ship.sender && ship'.destination == ship.destination
    ensures ship'.payload == ship.payload && ship'.id == ship.id
    ensures ship.delivered ==> ship'.delivered
    ensures var reached := Reaches(ship'.position, ship.destination, fm);
      && (reached ==> ship'.delivered && ship.destination.store == Add(old(ship.destination.store), ship.payload))
      && (!reached ==> ship'.delivered == ship.delivered && ship.destination.store == old(ship.destination.store))
  {
    ship' := ship;
    var velocity := fm.thrust(ship'.position, ship'.velocity, ship'.destination.OrbitPosition(fm), dt);
    ship' := ship'.(velocity := velocity);
    ship' := ship'.(position := ship'.position.Plus(ship'.velocity));
    if fm.reached(ship'.position, ship'.destination.OrbitPosition(fm), ship'.destination.pixelRadius) {
      ship' := ship'.(delivered := true);
      ship'.destination.store := Add(ship'.destination.store, ship'.payload);
    }
  }
}
