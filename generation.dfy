/** Generation of the planetary system (the constructor of `Game`): whole
    sets of planets are built at increasing orbit distances until the number
    of inhabited ones is acceptable. Every draw a planet is built from is
    given by `draws(a, i)`: attempt `a`, planet `i`. */
module Generation {
  import opened Ledgers
  import opened Configuration
  import opened Economy
  import opened Bodies

  /** The orbit distances of `Game::Game`: the first planet at
      `SUN_RADIUS + 100`, each next one past the previous planet's diameter
      plus 50. */
  predicate Spaced(planets: seq<Planet>, sunRadius: real) {
    && (|planets| > 0 ==> planets[0].distanceFromSun == sunRadius + 100.0)
    && forall i :: 0 < i < |planets| ==>
         planets[i].distanceFromSun == planets[i - 1].distanceFromSun + planets[i - 1].pixelRadius * 2.0 + 50.0
  }

  /** A planet placed where the spacing puts the next one keeps a list
      spaced. */
  lemma SpacedSnoc(planets: seq<Planet>, planet: Planet, sunRadius: real)
    requires Spaced(planets, sunRadius)
    requires planet.distanceFromSun == if planets == [] then sunRadius + 100.0
      else planets[|planets| - 1].distanceFromSun + planets[|planets| - 1].pixelRadius * 2.0 + 50.0
    ensures Spaced(planets + [planet], sunRadius)
  {
    var longer := planets + [planet];
    forall i | 0 < i < |longer|
      ensures longer[i].distanceFromSun == longer[i - 1].distanceFromSun + longer[i - 1].pixelRadius * 2.0 + 50.0
    {
      if i < |planets| {
        assert longer[i] == planets[i] && longer[i - 1] == planets[i - 1];
      }
    }
  }

  /** With pixel radii that are not negative, orbit distances strictly
      increase outwards. */
  lemma {:induction false} SpacedIncreasing(planets: seq<Planet>, sunRadius: real, i: nat, j: nat)
    requires Spaced(planets, sunRadius)
    requires forall k :: 0 <= k < |planets| ==> planets[k].pixelRadius >= 0.0
    requires i < j < |planets|
    ensures planets[i].distanceFromSun + 50.0 <= planets[j].distanceFromSun
    decreases j - i
  {
    if i + 1 < j {
      SpacedIncreasing(planets, sunRadius, i, j - 1);
    }
  }

  /** How many planets of the list are inhabited. */
  function CountInhabited(planets: seq<Planet>): (n: nat)
    reads planets
    ensures n <= |planets|
    decreases |planets|
  {
    if planets == [] then 0
    else CountInhabited(planets[..|planets| - 1]) + (if planets[|planets| - 1].IsInhabited() then 1 else 0)
  }

  /** How many of the first `n` planets of generation attempt `a` start
      inhabited. */
  function InhabitedIn(draws: (nat, nat) -> Genesis, a: nat, n: nat): nat
    decreases n
  {
    if n == 0 then 0
    else
      var g := draws(a, n - 1);
      InhabitedIn(draws, a, n - 1) + if InitialPopulation(g.populationRoll, g.populationDraw) > 0 then 1 else 0
  }

  /** The population of each planet is the initial population drawn for it
      in attempt `a`. */
  ghost predicate Built(planets: seq<Planet>, draws: (nat, nat) -> Genesis, a: nat)
    reads planets
  {
    forall i :: 0 <= i < |planets| ==>
      Get(planets[i].store, Population) == InitialPopulation(draws(a, i).populationRoll, draws(a, i).populationDraw)
  }

  /** Counting the inhabited planets built from an attempt's draws gives the
      attempt's count. */
  lemma {:induction false} CountMatchesDraws(planets: seq<Planet>, draws: (nat, nat) -> Genesis, a: nat)
    requires Built(planets, draws, a)
    ensures CountInhabited(planets) == InhabitedIn(draws, a, |planets|)
    decreases |planets|
  {
    if planets != [] {
      CountMatchesDraws(planets[..|planets| - 1], draws, a);
    }
  }

  /** The planets placed so far in one attempt: distinct, well formed,
      with empty queues, spaced as the source spaces them, and built from the
      attempt's draws. */
  ghost predicate Partial(planets: seq<Planet>, cfg: Config, draws: (nat, nat) -> Genesis, a: nat)
    reads planets
  {
    && Spaced(planets, cfg.sunRadius)
    && (forall i, j :: 0 <= i < j < |planets| ==> planets[i] != planets[j])
    && (forall p | p in planets :: p.Valid() && p.shipQueue == [])
    && Built(planets, draws, a)
  }

  /** The planets of one attempt: `NUM_PLANETS` of them, placed as
      `Partial` says. */
  ghost predicate Outcome(planets: seq<Planet>, cfg: Config, draws: (nat, nat) -> Genesis, a: nat)
    reads planets
  {
    |planets| == cfg.numPlanets && Partial(planets, cfg, draws, a)
  }

  /** The orbit distance of the planet placed after `planets`. */
  function NextDistance(planets: seq<Planet>, sunRadius: real): real
    reads planets
  {
    if planets == [] then sunRadius + 100.0
    else planets[|planets| - 1].distanceFromSun + planets[|planets| - 1].pixelRadius * 2.0 + 50.0
  }

  /** One pass of the `for` loop of `Game::Game`: a new planet at `dist`,
      built from the attempt's next draw. */
  method Place(planets: seq<Planet>, dist: real, draws: (nat, nat) -> Genesis, a: nat, cfg: Config)
    returns (planet: Planet)
    requires Partial(planets, cfg, draws, a) && dist == NextDistance(planets, cfg.sunRadius)
    requires draws(a, |planets|).InRange(cfg)
    ensures fresh(planet) && planet.distanceFromSun == dist
    ensures Partial(planets + [planet], cfg, draws, a)
  {
    planet := new Planet(dist, draws(a, |planets|), cfg);
    assert Partial(planets, cfg, draws, a);
    PartialSnoc(planets, planet, cfg, draws, a);
  }

  /** A new, well-formed planet with an empty queue, at the next orbit
      distance and built from the next draw, extends the planets placed so
      far. */
  lemma PartialSnoc(planets: seq<Planet>, planet: Planet, cfg: Config, draws: (nat, nat) -> Genesis, a: nat)
    requires Partial(planets, cfg, draws, a) && planet !in planets
    requires planet.Valid() && planet.shipQueue == []
    requires planet.distanceFromSun == NextDistance(planets, cfg.sunRadius)
    requires Get(planet.store, Population)
      == InitialPopulation(draws(a, |planets|).populationRoll, draws(a, |planets|).populationDraw)
    ensures Partial(planets + [planet], cfg, draws, a)
  {
    SpacedSnoc(planets, planet, cfg.sunRadius);
    var longer := planets + [planet];
    assert forall p | p in longer :: p in planets || p == planet;
    assert forall i | 0 <= i < |planets| :: longer[i] == planets[i];
  }

  /** One generation attempt (the `for` loop of `Game::Game`): `NUM_PLANETS`
      new planets at increasing distances, built from the attempt's draws. */
  method GenerateAttempt(draws: (nat, nat) -> Genesis, a: nat, cfg: Config) returns (planets: seq<Planet>)
    requires forall i :: 0 <= i < cfg.numPlanets ==> draws(a, i).InRange(cfg)
    ensures Outcome(planets, cfg, draws, a)
    ensures forall p | p in planets :: fresh(p)
  {
    planets := [];
    var dist := cfg.sunRadius + 100.0;
    var i := 0;
    while i < cfg.numPlanets
      invariant i == |planets| <= cfg.numPlanets
      invariant dist == NextDistance(planets, cfg.sunRadius)
      invariant Partial(planets, cfg, draws, a)
      invariant forall p | p in planets :: fresh(p)
    {
      var planet := Place(planets, dist, draws, a, cfg);
      planets := planets + [planet];
      dist := dist + planet.pixelRadius * 2.0 + 50.0;
      i := i + 1;
    }
  }

  /** The counting loop of `Game::Game`. */
  method CountInhabitedLoop(planets: seq<Planet>) returns (n: nat)
    ensures n == CountInhabited(planets)
  {
    n := 0;
    var i := 0;
    while i < |planets|
      invariant 0 <= i <= |planets|
      invariant n == CountInhabited(planets[..i])
    {
      assert planets[..i + 1][..i] == planets[..i];
      if Get(planets[i].store, Population) > 0 {
        n := n + 1;
      }
      i := i + 1;
    }
    assert planets[..i] == planets;
  }

  /** One pass of the retry loop of `Game::Game`: a fresh set of planets and
      its inhabited count. */
  method Attempt(draws: (nat, nat) -> Genesis, a: nat, cfg: Config) returns (planets: seq<Planet>, count: nat)
    requires forall i :: 0 <= i < cfg.numPlanets ==> draws(a, i).InRange(cfg)
    ensures Outcome(planets, cfg, draws, a)
    ensures forall p | p in planets :: fresh(p)
    ensures count == CountInhabited(planets) == InhabitedIn(draws, a, cfg.numPlanets)
  {
    planets := GenerateAttempt(draws, a, cfg);
    CountMatchesDraws(planets, draws, a);
    count := CountInhabitedLoop(planets);
  }

  /** What generation promises: a kept set whose inhabited count is
      acceptable, at the configured distances; no set at all when 0 inhabited
      planets is already acceptable; otherwise the set of the first acceptable
      attempt. */
  ghost predicate Generated(planets: seq<Planet>, cfg: Config, draws: (nat, nat) -> Genesis, attempt: nat, accepted: nat)
    reads planets
  {
    && cfg.AcceptsInhabited(CountInhabited(planets))
    && (cfg.AcceptsInhabited(0) ==> planets == [])
    && (!cfg.AcceptsInhabited(0) ==>
          && Outcome(planets, cfg, draws, attempt)
          && attempt <= accepted
          && RejectedBefore(cfg, draws, attempt))
  }

  /** Every attempt before `k` had an unacceptable number of inhabited
      planets. */
  ghost predicate RejectedBefore(cfg: Config, draws: (nat, nat) -> Genesis, k: nat) {
    forall b: nat :: b < k ==> !cfg.AcceptsInhabited(InhabitedIn(draws, b, cfg.numPlanets))
  }

  lemma RejectedExtend(cfg: Config, draws: (nat, nat) -> Genesis, k: nat)
    requires RejectedBefore(cfg, draws, k)
    requires !cfg.AcceptsInhabited(InhabitedIn(draws, k, cfg.numPlanets))
    ensures RejectedBefore(cfg, draws, k + 1)
  {
  }

  /** The retry loop of `Game::Game`: whole sets of planets are generated
      until the number of inhabited ones is acceptable. The loop is entered
      only when 0 is not acceptable; `accepted` is an attempt whose set would
      be kept, which the loop needs in order to end. */
  method Generate(cfg: Config, draws: (nat, nat) -> Genesis, ghost accepted: nat)
    returns (planets: seq<Planet>, ghost attempt: nat)
    requires forall a, i :: draws(a, i).InRange(cfg)
    requires cfg.AcceptsInhabited(0) || cfg.AcceptsInhabited(InhabitedIn(draws, accepted, cfg.numPlanets))
    ensures Generated(planets, cfg, draws, attempt, accepted)
    ensures forall p | p in planets :: fresh(p)
  {
    planets := [];
    attempt := 0;
    var numberInhabited := 0;
    var made: nat := 0;
    while !cfg.AcceptsInhabited(numberInhabited)
      invariant numberInhabited == CountInhabited(planets)
      invariant made == 0 ==> planets == []
      invariant made > 0 ==> && !cfg.AcceptsInhabited(0)
                             && attempt + 1 == made <= accepted + 1
                             && Outcome(planets, cfg, draws, attempt)
                             && numberInhabited == InhabitedIn(draws, attempt, cfg.numPlanets)
      invariant made > 0 ==> RejectedBefore(cfg, draws, attempt)
      invariant forall p | p in planets :: fresh(p)
      decreases accepted + 1 - made
    {
      if made > 0 {
        RejectedExtend(cfg, draws, attempt);
      }
      planets, numberInhabited := Attempt(draws, made, cfg);
      attempt := made;
      made := made + 1;
    }
  }
}
