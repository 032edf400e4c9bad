/** The two sidebar panels: the planet inspector, whose widgets refresh on a
    timer, and the ship designer, whose launch button debits and launches. */
module Sidebar {
  import opened Ledgers
  import opened Numeric
  import opened Geometry
  import opened Configuration
  import opened Bodies

  /** The inspector's timer after `dt` more seconds: one period is taken off
      when it has reached the period. */
  function NextTimer(t: real, dt: real, period: real): real {
    if t + dt >= period then t + dt - period else t + dt
  }

  /** With steps no longer than the period, the timer stays in [0, period). */
  lemma TimerBounded(t: real, dt: real, period: real)
    requires 0.0 <= t < period && 0.0 <= dt <= period
    ensures 0.0 <= NextTimer(t, dt, period) < period
  {
  }

  /** A step of two periods or more leaves the timer at a period or more: at
      most one refresh a call cannot keep up. */
  lemma TimerFallsBehind(t: real, dt: real, period: real)
    requires 0.0 <= t && 0.0 <= period && 2.0 * period <= dt
    ensures NextTimer(t, dt, period) >= period
  {
  }

  class PlanetInspector {
    const planet: Planet?
    /** `SIDEBAR_UPDATE_TIME_S` */
    const period: real
    var timeLastUpdate: real
    /** Seconds since the panel was opened on a planet, and the widget
        refreshes in that time. */
    ghost var elapsed: real
    ghost var refreshes: nat

    /** Every second that passed is either still on the timer or was paid
        for by a refresh. */
    ghost predicate Valid()
      reads this`timeLastUpdate, this`elapsed, this`refreshes
    {
      timeLastUpdate + refreshes as real * period == elapsed
    }

    constructor(planet: Planet?, period: real)
      ensures this.planet == planet && this.period == period
      ensures timeLastUpdate == 0.0 && elapsed == 0.0 && refreshes == 0
      ensures Valid()
    {
      this.planet := planet;
      this.period := period;
      timeLastUpdate := 0.0;
      elapsed := 0.0;
      refreshes := 0;
    }

    /** `PlanetInspector::update`: without a planet the timer is held at 0;
        with one it advances and the widgets refresh at most once. The time
        account is kept. */
    method Update(dt: real) returns (refreshed: bool)
      modifies this`timeLastUpdate, this`elapsed, this`refreshes
      ensures old(Valid()) ==> Valid()
      ensures planet == null ==> !refreshed && timeLastUpdate == 0.0 && elapsed == 0.0
      ensures planet != null ==>
        && refreshed == (old(timeLastUpdate) + dt >= period)
        && timeLastUpdate == NextTimer(old(timeLastUpdate), dt, period)
        && elapsed == old(elapsed) + dt
        && refreshes == old(refreshes) + (if refreshed then 1 else 0)
    {
      if planet == null {
        timeLastUpdate := 0.0;
        elapsed, refreshes := 0.0, 0;
        return false;
      }
      timeLastUpdate := timeLastUpdate + dt;
      elapsed := elapsed + dt;
      refreshed := false;
      if timeLastUpdate >= period {
        timeLastUpdate := timeLastUpdate - period;
        refreshes := refreshes + 1;
        refreshed := true;
      }
    }
  }

  /** The four slider values of the ship designer. */
  datatype Cargo = Cargo(metal: int, population: int, food: int, weaponary: int)

  /** The payload the launch button builds: exactly the four slider
      categories; every other category is absent and reads as 0. */
  function Manifest(cargo: Cargo): (l: Ledger)
    ensures l.Keys == {Metal, Population, Food, Weaponary}
    ensures Get(l, Metal) == cargo.metal && Get(l, Population) == cargo.population
    ensures Get(l, Food) == cargo.food && Get(l, Weaponary) == cargo.weaponary
    ensures forall c :: c !in {Metal, Population, Food, Weaponary} ==> Get(l, c) == 0
  {
    map[Metal := cargo.metal, Population := cargo.population, Food := cargo.food,
        Weaponary := cargo.weaponary]
  }

  /** `sender->resources.store[Metal] -= SHIP_METAL_USAGE` */
  function Deduct(store: Ledger, usage: int): (r: Ledger)
    ensures Get(r, Metal) == Get(store, Metal) - usage
    ensures forall c :: c != Metal ==> Get(r, c) == Get(store, c)
    ensures Total(store) ==> Total(r)
  {
    Set(store, Metal, Get(store, Metal) - usage)
  }

  /** The upper end of a slider: the stock, but no more than the per-resource
      cargo limit. */
  function SliderMax(limit: int, stock: int): (m: int)
    ensures m <= limit && m <= stock && (m == limit || m == stock)
  {
    Min(limit, stock)
  }

  /** Whether slider values lie in the ranges a designer opened on `store`
      offers (each slider runs from 0 to its maximum). */
  predicate WithinSliders(cargo: Cargo, store: Ledger, cfg: Config) {
    && 0 <= cargo.metal <= SliderMax(cfg.maxCargoPerResource, Get(store, Metal) - cfg.shipMetalUsage)
    && 0 <= cargo.population <= SliderMax(cfg.maxCargoPerResource, Get(store, Population))
    && 0 <= cargo.food <= SliderMax(cfg.maxCargoPerResource, Get(store, Food))
    && 0 <= cargo.weaponary <= SliderMax(cfg.maxCargoPerResource, Get(store, Weaponary))
  }

  /** Slider values within the bounds computed from the sender's store leave
      none of the four categories negative after the metal deduction and the
      launch debit, if the store has not changed since the designer opened,
      and they touch no other category. */
  lemma SlidersKeepStocks(store: Ledger, cargo: Cargo, cfg: Config)
    requires WithinSliders(cargo, store, cfg)
    ensures var after := Sub(Deduct(store, cfg.shipMetalUsage), Manifest(cargo));
      && Get(after, Metal) >= 0 && Get(after, Population) >= 0
      && Get(after, Food) >= 0 && Get(after, Weaponary) >= 0
      && forall c :: c !in {Metal, Population, Food, Weaponary} ==> Get(after, c) == Get(store, c)
  {
  }

  class ShipDesigner {
    const sender: Planet
    const destination: Planet
    const metalMax: int
    const populationMax: int
    const foodMax: int
    const weaponaryMax: int

    /** `ShipDesigner::ShipDesigner`: the slider maxima, from the sender's
        store when the designer opens. */
    constructor(sender: Planet, destination: Planet, cfg: Config)
      ensures this.sender == sender && this.destination == destination
      ensures metalMax == SliderMax(cfg.maxCargoPerResource, Get(sender.store, Metal) - cfg.shipMetalUsage)
      ensures populationMax == SliderMax(cfg.maxCargoPerResource, Get(sender.store, Population))
      ensures foodMax == SliderMax(cfg.maxCargoPerResource, Get(sender.store, Food))
      ensures weaponaryMax == SliderMax(cfg.maxCargoPerResource, Get(sender.store, Weaponary))
    {
      this.sender := sender;
      this.destination := destination;
      metalMax := SliderMax(cfg.maxCargoPerResource, Get(sender.store, Metal) - cfg.shipMetalUsage);
      populationMax := SliderMax(cfg.maxCargoPerResource, Get(sender.store, Population));
      foodMax := SliderMax(cfg.maxCargoPerResource, Get(sender.store, Food));
      weaponaryMax := SliderMax(cfg.maxCargoPerResource, Get(sender.store, Weaponary));
    }

    /** The launch button's callback, without the sidebar reset (which is the
        game's): the ship's metal cost is taken first, whatever happens next;
        the ship launches only if the sender's store then compares greater
        than the payload. */
    method Launch(cargo: Cargo, exceeds: (Ledger, Ledger) -> bool, ids: IdCounter,
                  cfg: Config, fm: FloatModel)
      returns (launched: bool)
      requires sender.Valid()
      modifies sender`store, sender`shipQueue, ids`next
      ensures sender.Valid()
      ensures Launches(this, cargo, exceeds, ids, cfg, fm, launched)
    {
      var payload := Manifest(cargo);
      sender.store := Deduct(sender.store, cfg.shipMetalUsage);
      launched := exceeds(sender.store, payload);
      if launched {
        sender.LaunchShip(payload, destination, ids, fm);
      }
    }
  }

  /** What the launch button of `d` did to its sender and the id counter:
      the ship's metal is taken first; the ship launches when the rest of
      the store compares greater than the payload, and then the payload is
      taken too and the ship is queued at the sender with the counter's id;
      otherwise the queue and the counter stay as they were. */
  twostate predicate Launches(d: ShipDesigner, cargo: Cargo, exceeds: (Ledger, Ledger) -> bool, ids: IdCounter,
                              cfg: Config, fm: FloatModel, launched: bool)
    reads d.sender, ids
  {
    var deducted := Deduct(old(d.sender.store), cfg.shipMetalUsage);
    && launched == exceeds(deducted, Manifest(cargo))
    && (!launched ==>
          && d.sender.store == deducted
          && d.sender.shipQueue == old(d.sender.shipQueue) && ids.next == old(ids.next))
    && (launched ==>
          && d.sender.store == Sub(deducted, Manifest(cargo))
          && d.sender.shipQueue == old(d.sender.shipQueue) + [Launched(d.sender, d.destination, Manifest(cargo), old(ids.next), fm)]
          && ids.next == old(ids.next) + 1)
  }

  /** The panel the game shows beside the system. */
  datatype Panel = Inspector(inspector: PlanetInspector) | Designer(designer: ShipDesigner)
}
