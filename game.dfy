/** The game scene (`Game`): the generated planetary system, the tick that
    updates every planet and then every ship, the mouse handling that selects
    planets and opens the panels, and the launch button's callback. */
module Simulation {
  import opened Ledgers
  import opened Geometry
  import opened Configuration
  import opened Economy
  import opened Bodies
  import opened Fleet
  import opened Sidebar
  import opened Generation
  import opened World

  /** The first planet of the list that contains the point and is not
      `except`, if any. */
  function FirstContaining(planets: seq<Planet>, fm: FloatModel, pos: Vec, except: Planet?): (r: Planet?)
    reads planets`drawnAt
    ensures r != null ==> r in planets && r.Contains(fm, pos) && r != except
    ensures r == null ==> forall p | p in planets :: !p.Contains(fm, pos) || p == except
    decreases |planets|
  {
    if planets == [] then null
    else if planets[0].Contains(fm, pos) && planets[0] != except then planets[0]
    else FirstContaining(planets[1..], fm, pos, except)
  }

  /** A freshly generated system has no ships queued, distinct planets and
      total stores. */
  lemma GeneratedSound(planets: seq<Planet>, cfg: Config, draws: (nat, nat) -> Genesis, attempt: nat, accepted: nat)
    requires Generated(planets, cfg, draws, attempt, accepted)
    ensures PlanetsValid(planets)
    ensures Queued(planets) == []
  {
    PlanetsValidIntro(planets);
    if !cfg.AcceptsInhabited(0) {
      QueuedEmpty(planets);
    }
  }

  /** `ShipDesigner::Launch` from one of the game's planets: the game's
      ships, in flight or queued, stay sound, the launched ship taking the
      counter's id. */
  method LaunchQueued(planets: seq<Planet>, ships: seq<Spaceship>, d: ShipDesigner, cargo: Cargo,
                      exceeds: (Ledger, Ledger) -> bool, ids: IdCounter, cfg: Config, fm: FloatModel)
    returns (launched: bool)
    requires Distinct(planets) && d.sender.Valid() && FleetValid(planets, ships, ids.next)
    requires d.sender in planets && d.destination in planets
    modifies d.sender`store, d.sender`shipQueue, ids`next
    ensures d.sender.Valid() && FleetValid(planets, ships, ids.next)
    ensures Launches(d, cargo, exceeds, ids, cfg, fm, launched)
  {
    ghost var i :| 0 <= i < |planets| && planets[i] == d.sender;
    ghost var queues := Queues(planets);
    QueuedIsConcat(planets, queues);
    ghost var next := ids.next;
    launched := d.Launch(cargo, exceeds, ids, cfg, fm);
    forall k | 0 <= k < |planets| && k != i ensures planets[k].shipQueue == queues[k] {
      assert planets[k] != d.sender;
    }
    if launched {
      FleetPushed(planets, ships, queues, i, Launched(d.sender, d.destination, Manifest(cargo), next, fm), next);
    } else {
      QueuedIsConcat(planets, queues);
    }
  }

  /** A ship with the counter's next id pushed onto the queue of one of the
      planets, every other queue as it was: the game's ships stay sound
      once the counter has moved on. */
  lemma FleetPushed(planets: seq<Planet>, ships: seq<Spaceship>, queues: seq<seq<Spaceship>>, i: nat,
                    s: Spaceship, next: nat)
    requires |queues| == |planets| && i < |planets|
    requires FleetOk(ships + Concat(queues), planets, next)
    requires planets[i].shipQueue == queues[i] + [s]
    requires forall k | 0 <= k < |planets| && k != i :: planets[k].shipQueue == queues[k]
    requires s.id == next && s.sender in planets && s.destination in planets && !s.delivered
    ensures FleetValid(planets, ships, next + 1)
  {
    QueuedIsConcat(planets, queues[i := queues[i] + [s]]);
    ConcatPush(queues, i, s);
    FleetEnqueue(ships, Concat(queues), Queued(planets), planets, next, s);
  }

  /** The launch button of a ship designer whose planets belong to the
      game: what `ShipDesigner::Launch` does, and the game's planets and
      ships stay valid. */
  method LaunchIn(planets: seq<Planet>, ships: seq<Spaceship>, d: ShipDesigner, cargo: Cargo,
                  exceeds: (Ledger, Ledger) -> bool, ids: IdCounter, cfg: Config, fm: FloatModel)
    returns (launched: bool)
    requires PlanetsValid(planets) && FleetValid(planets, ships, ids.next)
    requires d.sender in planets && d.destination in planets
    modifies d.sender`store, d.sender`shipQueue, ids`next
    ensures PlanetsValid(planets) && FleetValid(planets, ships, ids.next)
    ensures Launches(d, cargo, exceeds, ids, cfg, fm, launched)
  {
    PlanetsValidElim(planets);
    launched := LaunchQueued(planets, ships, d, cargo, exceeds, ids, cfg, fm);
    forall p | p in planets ensures p.Valid() {
      if p != d.sender {
        assert old(p.Valid());
      }
    }
    PlanetsValidIntro(planets);
  }

  class Game {
    /** The planets, fixed once generated. */
    const planets: seq<Planet>
    /** The ships in flight. */
    var ships: seq<Spaceship>
    var selected: Planet?
    var dragging: bool
    var sidebar: Panel
    /** `Spaceship::nextID`, shared by every ship. */
    const ids: IdCounter
    const cfg: Config
    const fm: FloatModel
    /** The generation attempt whose planets were kept. */
    ghost const attempt: nat

    /** The inspector on show, if the panel is one. */
    function Inspected(): set<PlanetInspector>
      reads this`sidebar
    {
      if sidebar.Inspector? then {sidebar.inspector} else {}
    }

    /** The selection and the panel refer to planets of the game, and an
        inspector refreshes at the configured period. */
    ghost predicate PanelOk()
      reads this`sidebar, this`selected
    {
      && (selected == null || selected in planets)
      && match sidebar
         case Inspector(pi) => (pi.planet == null || pi.planet in planets) && pi.period == cfg.sidebarUpdateTime
         case Designer(d) => d.sender in planets && d.destination in planets
    }

    /** Distinct planets with total stores; every ship, in flight or queued,
        carries an id of its own handed out by the counter, flies between
        planets of the game and has not been delivered. */
    ghost predicate Valid()
      reads this`ships, this`selected, this`sidebar, ids`next, planets`store, planets`shipQueue
    {
      PlanetsValid(planets) && FleetValid(planets, ships, ids.next) && PanelOk()
    }

    /** `Game::Game`: the generated planets, no ships, nothing selected and
        the inspector without a planet. */
    constructor(ids: IdCounter, cfg: Config, fm: FloatModel, draws: (nat, nat) -> Genesis, ghost accepted: nat)
      requires forall a, i :: draws(a, i).InRange(cfg)
      requires cfg.AcceptsInhabited(0) || cfg.AcceptsInhabited(InhabitedIn(draws, accepted, cfg.numPlanets))
      ensures Valid()
      ensures this.ids == ids && this.cfg == cfg && this.fm == fm
      ensures ships == [] && selected == null && !dragging
      ensures sidebar.Inspector? && sidebar.inspector.planet == null
      ensures Generated(planets, cfg, draws, attempt, accepted)
    {
      var inspector := new PlanetInspector(null, cfg.sidebarUpdateTime);
      var generated;
      ghost var kept;
      generated, kept := Generate(cfg, draws, accepted);
      this.ids := ids;
      this.cfg := cfg;
      this.fm := fm;
      planets := generated;
      attempt := kept;
      ships := [];
      selected := null;
      dragging := false;
      sidebar := Inspector(inspector);
      new;
      GeneratedSound(planets, cfg, draws, attempt, accepted);
      assert ships + Queued(planets) == [];
    }

    /** The two loops of `Game::update`: the planets tick and hand over
        their queued ships, then the ships move and the delivered ones leave
        the game with their cargo credited. `flying` is the list the second
        loop starts from. */
    method Step(dt: real, draws: seq<TickDraws>) returns (landed: bool, ghost flying: seq<Spaceship>)
      requires PlanetsValid(planets) && FleetValid(planets, ships, ids.next) && |draws| == |planets|
      modifies this`ships, planets`angle, planets`drawnAt, planets`store, planets`shipQueue
      ensures PlanetsValid(planets) && FleetValid(planets, ships, ids.next)
      ensures Ticked(planets, old(ships), ships, flying, landed, dt, draws, fm,
                     old(Snapshots(planets)))
      ensures sidebar == old(sidebar) && selected == old(selected)
    {
      var remaining;
      remaining, landed, flying := StepWorld(planets, ships, dt, draws, fm, ids.next, Snapshots(planets));
      SetShips(remaining);
    }

    /** Replaces the ships in flight and nothing else. */
    method SetShips(remaining: seq<Spaceship>)
      modifies this`ships
      ensures ships == remaining && unchanged(planets, ids) && sidebar == old(sidebar) && selected == old(selected)
    {
      ships := remaining;
    }

    /** The end of `Game::update`: an inspector is opened anew on its planet
        when a ship was delivered, then the panel updates. */
    method UpdatePanel(dt: real, delivered: bool) returns (refreshed: bool)
      requires Valid()
      modifies this`sidebar
      modifies Inspected()`timeLastUpdate, Inspected()`elapsed, Inspected()`refreshes
      ensures Valid() && unchanged(planets, ids) && ships == old(ships) && selected == old(selected)
      ensures old(sidebar).Designer? ==> sidebar == old(sidebar) && !refreshed
      ensures old(sidebar).Inspector? ==>
        && sidebar.Inspector? && sidebar.inspector.planet == old(sidebar.inspector.planet)
        && (delivered ==> fresh(sidebar.inspector))
        && (!delivered ==> sidebar == old(sidebar))
      ensures sidebar.Inspector? && sidebar.inspector.planet == null ==> !refreshed
      ensures sidebar.Inspector? && sidebar.inspector.planet != null ==>
        var start := if delivered then 0.0 else old(sidebar.inspector.timeLastUpdate);
        && refreshed == (start + dt >= cfg.sidebarUpdateTime)
        && sidebar.inspector.timeLastUpdate == NextTimer(start, dt, cfg.sidebarUpdateTime)
    {
      refreshed := false;
      if sidebar.Inspector? {
        if delivered {
          var inspector := new PlanetInspector(sidebar.inspector.planet, cfg.sidebarUpdateTime);
          sidebar := Inspector(inspector);
        }
        refreshed := sidebar.inspector.Update(dt);
      }
    }

    /** `Game::update`: the planets tick, then the ships move and the
        delivered ones leave the game, then the panel updates. */
    method Update(dt: real, draws: seq<TickDraws>)
      returns (refreshed: bool, ghost landed: bool, ghost flying: seq<Spaceship>)
      requires Valid() && |draws| == |planets|
      modifies this`ships, this`sidebar
      modifies planets`angle, planets`drawnAt, planets`store, planets`shipQueue
      modifies Inspected()`timeLastUpdate, Inspected()`elapsed, Inspected()`refreshes
      ensures Valid()
      ensures Ticked(planets, old(ships), ships, flying, landed, dt, draws, fm,
                     old(Snapshots(planets)))
      ensures old(sidebar).Designer? ==> sidebar == old(sidebar) && !refreshed
      ensures old(sidebar).Inspector? ==>
        && sidebar.Inspector? && sidebar.inspector.planet == old(sidebar.inspector.planet)
        && (landed ==> fresh(sidebar.inspector))
        && (!landed ==> sidebar == old(sidebar))
    {
      var delivered;
      delivered, flying := Step(dt, draws);
      landed := delivered;
      refreshed := UpdatePanel(dt, delivered);
    }

    /** `Game::selectPlanet`: an inspector on the planet, which becomes the
        selection. */
    method SelectPlanet(planet: Planet?)
      requires Valid() && (planet == null || planet in planets)
      modifies this`sidebar, this`selected
      ensures Valid() && unchanged(planets, ids) && ships == old(ships)
      ensures selected == planet
      ensures sidebar.Inspector? && sidebar.inspector.planet == planet && fresh(sidebar.inspector)
    {
      var inspector := new PlanetInspector(planet, cfg.sidebarUpdateTime);
      sidebar := Inspector(inspector);
      selected := planet;
    }

    /** `Game::removeSidebar`: the inspector without a planet; the selection
        stays. */
    method RemoveSidebar()
      requires Valid()
      modifies this`sidebar
      ensures Valid() && unchanged(planets, ids) && ships == old(ships) && selected == old(selected)
      ensures sidebar.Inspector? && sidebar.inspector.planet == null && fresh(sidebar.inspector)
    {
      var inspector := new PlanetInspector(null, cfg.sidebarUpdateTime);
      sidebar := Inspector(inspector);
    }

    /** `Game::mouseDown`: dragging stops; a press right of the sidebar
        selects the first planet under it, or nothing, and starts a drag
        when there is one. */
    method MouseDown(pos: Vec)
      requires Valid()
      modifies this`dragging, this`selected, this`sidebar
      ensures Valid()
      ensures pos.x <= cfg.sidebarWidth ==>
        !dragging && selected == old(selected) && sidebar == old(sidebar)
      ensures pos.x > cfg.sidebarWidth ==>
        && selected == FirstContaining(planets, fm, pos, null)
        && dragging == (selected != null)
        && sidebar.Inspector? && sidebar.inspector.planet == selected && fresh(sidebar.inspector)
    {
      dragging := false;
      if pos.x > cfg.sidebarWidth {
        SelectPlanet(null);
        var found := false;
        var i := 0;
        while i < |planets|
          invariant 0 <= i <= |planets| && !found
          invariant FirstContaining(planets[i..], fm, pos, null) == FirstContaining(planets, fm, pos, null)
        {
          if planets[i].Contains(fm, pos) {
            found := true;
            break;
          }
          assert planets[i..][1..] == planets[i + 1..];
          i := i + 1;
        }
        if found {
          assert planets[i..][0] == planets[i];
          SelectPlanet(planets[i]);
          dragging := true;
        }
      }
    }

    /** `Game::mouseUp`: dragging stops; when the selected planet is
        inhabited and the release is over another planet, the first such
        planet becomes the destination of a ship designer. */
    method MouseUp(pos: Vec)
      requires Valid()
      modifies this`dragging, this`sidebar
      ensures Valid() && !dragging
      ensures var target := FirstContaining(planets, fm, pos, selected);
        if selected != null && selected.IsInhabited() && target != null then
          && sidebar.Designer? && fresh(sidebar.designer)
          && sidebar.designer.sender == selected && sidebar.designer.destination == target
        else sidebar == old(sidebar)
    {
      dragging := false;
      if selected == null {
        return;
      }
      var target := PickTarget(selected, pos);
      if target != null {
        ShowDesigner(selected, target);
      }
    }

    /** The search loop of `Game::mouseUp`: the first planet under the
        pointer that is not `sender`, provided `sender` is inhabited. */
    method PickTarget(sender: Planet, pos: Vec) returns (target: Planet?)
      requires Valid()
      ensures target == if sender.IsInhabited() then FirstContaining(planets, fm, pos, sender) else null
    {
      var i := 0;
      while i < |planets|
        invariant 0 <= i <= |planets|
        invariant sender.IsInhabited() ==>
          FirstContaining(planets[i..], fm, pos, sender) == FirstContaining(planets, fm, pos, sender)
      {
        if planets[i].Contains(fm, pos) && sender != planets[i] && Get(sender.store, Population) > 0 {
          assert planets[i..][0] == planets[i];
          return planets[i];
        }
        assert planets[i..][1..] == planets[i + 1..];
        i := i + 1;
      }
      return null;
    }

    /** `sidebar = new ShipDesigner(...)`: a ship designer from one planet
        of the game to another; the selection stays. */
    method ShowDesigner(sender: Planet, destination: Planet)
      requires Valid() && sender in planets && destination in planets
      modifies this`sidebar
      ensures Valid() && unchanged(planets, ids) && ships == old(ships) && selected == old(selected)
      ensures sidebar.Designer? && fresh(sidebar.designer)
      ensures sidebar.designer.sender == sender && sidebar.designer.destination == destination
    {
      var designer := new ShipDesigner(sender, destination, cfg);
      sidebar := Designer(designer);
    }

    /** The launch button of the ship designer on show, then
        `Game::removeSidebar`: the ship launches, or not, as
        `ShipDesigner::Launch` says, and the panel becomes the inspector
        without a planet either way. */
    method LaunchCargo(cargo: Cargo, exceeds: (Ledger, Ledger) -> bool) returns (launched: bool)
      requires Valid() && sidebar.Designer?
      modifies sidebar.designer.sender`store, sidebar.designer.sender`shipQueue, ids`next, this`sidebar
      ensures Valid()
      ensures sidebar.Inspector? && sidebar.inspector.planet == null && fresh(sidebar.inspector)
      ensures Launches(old(sidebar).designer, cargo, exceeds, ids, cfg, fm, launched)
    {
      launched := LaunchIn(planets, ships, sidebar.designer, cargo, exceeds, ids, cfg, fm);
      RemoveSidebar();
    }
  }
}
