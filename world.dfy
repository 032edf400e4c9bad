/** The two loops of `Game::update` over the game's planets and ships: every
    planet ticks and hands its queued ships to the game, then every ship
    moves and the delivered ones leave, their cargo credited. */
module World {
  import opened Ledgers
  import opened Geometry
  import opened Economy
  import opened Bodies
  import opened Fleet
  import opened Seqs

  /** The ships waiting in the planets' queues, planet by planet. */
  ghost function Queued(planets: seq<Planet>): seq<Spaceship>
    reads planets`shipQueue
    decreases |planets|
  {
    if planets == [] then []
    else Queued(planets[..|planets| - 1]) + planets[|planets| - 1].shipQueue
  }

  /** The order in which a tick moves the queued ships into the game's list:
      planet by planet, each queue from its back. */
  ghost function Drained(planets: seq<Planet>): seq<Spaceship>
    reads planets`shipQueue
    decreases |planets|
  {
    if planets == [] then []
    else Drained(planets[..|planets| - 1]) + Reverse(planets[|planets| - 1].shipQueue)
  }

  /** Draining moves every queued ship exactly once. */
  lemma {:induction false} DrainedPermutes(planets: seq<Planet>)
    ensures multiset(Drained(planets)) == multiset(Queued(planets))
    decreases |planets|
  {
    if planets != [] {
      DrainedPermutes(planets[..|planets| - 1]);
      ReversePermutes(planets[|planets| - 1].shipQueue);
    }
  }

  /** A list of planets with no ships queued has nothing queued. */
  lemma {:induction false} QueuedEmpty(planets: seq<Planet>)
    requires forall p | p in planets :: p.shipQueue == []
    ensures Queued(planets) == []
    decreases |planets|
  {
    if planets != [] {
      QueuedEmpty(planets[..|planets| - 1]);
    }
  }

  /** The planets' queues, planet by planet. */
  ghost function Queues(planets: seq<Planet>): (r: seq<seq<Spaceship>>)
    reads planets`shipQueue
    ensures |r| == |planets| && forall k :: 0 <= k < |planets| ==> r[k] == planets[k].shipQueue
    decreases |planets|
  {
    if planets == [] then []
    else Queues(planets[..|planets| - 1]) + [planets[|planets| - 1].shipQueue]
  }

  /** `Queued` over recorded queues. */
  function Concat(queues: seq<seq<Spaceship>>): seq<Spaceship>
    decreases |queues|
  {
    if queues == [] then [] else Concat(queues[..|queues| - 1]) + queues[|queues| - 1]
  }

  /** The ships queued are those of the planets' queues, planet by planet. */
  lemma {:induction false} QueuedIsConcat(planets: seq<Planet>, queues: seq<seq<Spaceship>>)
    requires |queues| == |planets|
    requires forall k | 0 <= k < |planets| :: planets[k].shipQueue == queues[k]
    ensures Queued(planets) == Concat(queues)
    decreases |planets|
  {
    if planets != [] {
      QueuedIsConcat(planets[..|planets| - 1], queues[..|queues| - 1]);
    }
  }

  /** One more ship at the back of queue `i` is one more ship queued. */
  lemma {:induction false} ConcatPush(queues: seq<seq<Spaceship>>, i: nat, s: Spaceship)
    requires i < |queues|
    ensures multiset(Concat(queues[i := queues[i] + [s]])) == multiset(Concat(queues)) + multiset{s}
    decreases |queues|
  {
    var n := |queues| - 1;
    var pushed := queues[i := queues[i] + [s]];
    assert Concat(pushed) == Concat(pushed[..n]) + pushed[n];
    assert Concat(queues) == Concat(queues[..n]) + queues[n];
    if i < n {
      assert pushed[..n] == queues[..n][i := queues[i] + [s]] && pushed[n] == queues[n];
      ConcatPush(queues[..n], i, s);
      calc {
        multiset(Concat(pushed));
        multiset(Concat(pushed[..n])) + multiset(queues[n]);
        multiset(Concat(queues[..n])) + multiset{s} + multiset(queues[n]);
        multiset(Concat(queues)) + multiset{s};
      }
    } else {
      assert pushed[..n] == queues[..n] && pushed[n] == queues[n] + [s];
    }
  }

  /** What the first loop of a tick reads from a planet before changing it. */
  datatype Snapshot = Snapshot(store: Ledger, angle: real, queue: seq<Spaceship>)

  /** The planets' state, planet by planet. */
  ghost function Snapshots(planets: seq<Planet>): (r: seq<Snapshot>)
    reads planets`store, planets`angle, planets`shipQueue
    ensures |r| == |planets|
    ensures forall i :: 0 <= i < |planets| ==>
      r[i] == Snapshot(planets[i].store, planets[i].angle, planets[i].shipQueue)
    decreases |planets|
  {
    if planets == [] then []
    else
      var last := planets[|planets| - 1];
      Snapshots(planets[..|planets| - 1]) + [Snapshot(last.store, last.angle, last.shipQueue)]
  }

  /** `Drained` over recorded queues. */
  function DrainedFrom(before: seq<Snapshot>): seq<Spaceship>
    decreases |before|
  {
    if before == [] then []
    else DrainedFrom(before[..|before| - 1]) + Reverse(before[|before| - 1].queue)
  }

  /** Draining the recorded queues is draining the planets. */
  lemma {:induction false} DrainedFromSnapshots(planets: seq<Planet>)
    ensures DrainedFrom(Snapshots(planets)) == Drained(planets)
    decreases |planets|
  {
    if planets != [] {
      DrainedFromSnapshots(planets[..|planets| - 1]);
      assert Snapshots(planets)[..|planets| - 1] == Snapshots(planets[..|planets| - 1]);
    }
  }

  /** The planets' stores, planet by planet. */
  ghost function Stores(planets: seq<Planet>): (r: seq<Ledger>)
    reads planets`store
    ensures |r| == |planets| && forall i :: 0 <= i < |planets| ==> r[i] == planets[i].store
    decreases |planets|
  {
    if planets == [] then []
    else Stores(planets[..|planets| - 1]) + [planets[|planets| - 1].store]
  }

  /** The first loop's invariant at position `i`: the planets before `i`
      have ticked from their recorded state and handed over their recorded
      queues, the others still hold that state. */
  ghost predicate TickedUpTo(planets: seq<Planet>, i: nat, before: seq<Snapshot>, draws: seq<TickDraws>,
                             dt: real, fm: FloatModel, ships: seq<Spaceship>, current: seq<Spaceship>)
    reads planets
  {
    && i <= |planets| == |draws| == |before|
    && current == ships + DrainedFrom(before[..i])
    && (forall p | p in planets :: p.Valid())
    && (forall j :: 0 <= j < i ==> planets[j].Ticked(before[j].store, before[j].angle, draws[j], dt, fm))
    && (forall j :: i <= j < |planets| ==>
          before[j] == Snapshot(planets[j].store, planets[j].angle, planets[j].shipQueue))
  }

  lemma AppendAssoc<T>(a: seq<T>, b: seq<T>, c: seq<T>)
    ensures a + b + c == a + (b + c)
  {
  }

  /** One pass of the first loop: the planet at `i` ticks. */
  method TickOne(planets: seq<Planet>, i: nat, planet: Planet, ghost before: seq<Snapshot>, draws: seq<TickDraws>,
                 dt: real, fm: FloatModel, ghost ships: seq<Spaceship>, current: seq<Spaceship>)
    returns (next: seq<Spaceship>)
    requires forall j, k :: 0 <= j < k < |planets| ==> planets[j] != planets[k]
    requires i < |planets| && planet == planets[i]
    requires TickedUpTo(planets, i, before, draws, dt, fm, ships, current)
    modifies planet`angle, planet`drawnAt, planet`store, planet`shipQueue
    ensures TickedUpTo(planets, i + 1, before, draws, dt, fm, ships, next)
  {
    assert before[..i + 1][..i] == before[..i];
    ghost var front := DrainedFrom(before[..i]);
    ghost var back := Reverse(before[i].queue);
    assert DrainedFrom(before[..i + 1]) == front + back;
    next := planet.Update(dt, current, draws[i], fm);
    AppendAssoc(ships, front, back);
  }

  /** When the first loop has passed every planet, each planet has ticked
      from its recorded state and the recorded queues were drained in order. */
  lemma TickedFinish(planets: seq<Planet>, before: seq<Snapshot>, draws: seq<TickDraws>,
                     dt: real, fm: FloatModel, ships: seq<Spaceship>, current: seq<Spaceship>)
    requires TickedUpTo(planets, |planets|, before, draws, dt, fm, ships, current)
    ensures current == ships + DrainedFrom(before)
    ensures forall j :: 0 <= j < |planets| ==> planets[j].Ticked(before[j].store, before[j].angle, draws[j], dt, fm)
    ensures forall p | p in planets :: p.Valid() && p.shipQueue == []
  {
    assert before[..|planets|] == before;
  }

  /** Each planet ticked from the recorded state; its store is the tick of
      the recorded store. */
  ghost predicate AllTicked(planets: seq<Planet>, before: seq<Snapshot>, draws: seq<TickDraws>, dt: real, fm: FloatModel)
    reads planets
  {
    && |before| == |planets| == |draws|
    && forall j :: 0 <= j < |planets| ==> planets[j].Ticked(before[j].store, before[j].angle, draws[j], dt, fm)
  }

  /** Every planet has advanced from its recorded angle: its orbit moved
      on, it is drawn where the orbit puts it, and its queue is empty. */
  ghost predicate AllAdvanced(planets: seq<Planet>, before: seq<Snapshot>, dt: real, fm: FloatModel)
    reads planets`angle, planets`drawnAt, planets`shipQueue
  {
    && |before| == |planets|
    && forall j :: 0 <= j < |planets| ==> planets[j].Advanced(before[j].angle, dt, fm)
  }

  /** The first loop of `Game::update`: every planet, in order, advances
      its orbit, hands its queued ships to the game and steps its economy;
      `draws[i]` are the draws of planet `i`. */
  method TickPlanets(planets: seq<Planet>, ships: seq<Spaceship>, dt: real, draws: seq<TickDraws>, fm: FloatModel)
    returns (ships': seq<Spaceship>)
    requires forall p | p in planets :: p.Valid()
    requires forall i, j :: 0 <= i < j < |planets| ==> planets[i] != planets[j]
    requires |draws| == |planets|
    modifies planets`angle, planets`drawnAt, planets`store, planets`shipQueue
    ensures ships' == ships + old(Drained(planets))
    ensures AllTicked(planets, old(Snapshots(planets)), draws, dt, fm)
    ensures forall p | p in planets :: p.Valid() && p.shipQueue == []
  {
    ghost var before := Snapshots(planets);
    DrainedFromSnapshots(planets);
    ships' := ships;
    var i: nat := 0;
    while i < |planets|
      invariant TickedUpTo(planets, i, before, draws, dt, fm, ships, ships')
    {
      ships' := TickOne(planets, i, planets[i], before, draws, dt, fm, ships, ships');
      i := i + 1;
    }
    TickedFinish(planets, before, draws, dt, fm, ships, ships');
  }

  /** Every ship of the list after one step of flight, in order. */
  function FlownAll(ships: seq<Spaceship>, planets: seq<Planet>, dt: real, fm: FloatModel): (r: seq<Spaceship>)
    requires forall s | s in ships :: s.destination in planets
    reads planets`angle
    ensures |r| == |ships|
    decreases |ships|
  {
    if ships == [] then []
    else FlownAll(ships[..|ships| - 1], planets, dt, fm) + [Flown(ships[|ships| - 1], dt, fm)]
  }

  /** Each ship of the list after its step of flight, at its position. */
  lemma {:induction false} FlownAt(ships: seq<Spaceship>, planets: seq<Planet>, dt: real, fm: FloatModel, j: nat)
    requires forall s | s in ships :: s.destination in planets
    requires j < |ships|
    ensures FlownAll(ships, planets, dt, fm)[j] == Flown(ships[j], dt, fm)
    ensures FlownAll(ships, planets, dt, fm)[..j + 1] == FlownAll(ships[..j + 1], planets, dt, fm)
    decreases |ships|
  {
    var n := |ships| - 1;
    assert ships[..n + 1] == ships;
    if j < n {
      FlownAt(ships[..n], planets, dt, fm, j);
      assert ships[..n][..j + 1] == ships[..j + 1];
    }
  }

  /** The sweep's loop invariant after `j` ships: the list holds the ships
      moved so far and still in flight, then the ships not yet moved; each
      planet holds what it had plus what the arrivals so far brought it. */
  ghost predicate Swept(ships: seq<Spaceship>, flown: seq<Spaceship>, planets: seq<Planet>, origin: seq<Ledger>,
                        j: nat, k: nat, current: seq<Spaceship>)
    reads planets`store
  {
    && j <= |ships| == |flown| && |origin| == |planets|
    && current == Undelivered(flown[..j]) + ships[j..]
    && k == |Undelivered(flown[..j])|
    && forall i :: 0 <= i < |planets| ==> planets[i].store == Received(origin[i], Arrived(flown[..j]), planets[i])
  }

  /** The ships moved so far that are still in flight carry ids other than
      that of the next ship. */
  lemma FrontIds(ships: seq<Spaceship>, flown: seq<Spaceship>, j: nat)
    requires UniqueIds(ships) && j < |ships| == |flown|
    requires forall m :: 0 <= m < |ships| ==> flown[m].id == ships[m].id
    ensures forall s | s in Undelivered(flown[..j]) :: s.id != ships[j].id
  {
    SweepPartition(flown[..j]);
    forall s | s in Undelivered(flown[..j]) ensures s.id != ships[j].id {
      var m :| 0 <= m < j && flown[..j][m] == s;
      UniqueIdsAt(ships, m, j);
    }
  }

  /** The erasure in the sweep: the search by id finds the ship right after
      `front`, whose ships all carry other ids, and only that ship goes. */
  method EraseById(current: seq<Spaceship>, ghost front: seq<Spaceship>, id: nat, ghost rest: seq<Spaceship>)
    returns (next: seq<Spaceship>)
    requires |current| == |front| + 1 + |rest| && current[..|front|] == front && current[|front| + 1..] == rest
    requires current[|front|].id == id
    requires forall s | s in front :: s.id != id
    ensures next == front + rest
  {
    next := current;
    var index := IndexOfId(current, id);
    if index >= 0 {
      assert index == |front|;
      next := RemoveAt(current, index);
    }
  }

  /** Where the sweep stands before moving ship `j`: the list holds the
      moved ships still in flight, then ship `j`, then the rest. */
  lemma SweepSplit(ships: seq<Spaceship>, flown: seq<Spaceship>, j: nat, k: nat, current: seq<Spaceship>)
    requires j < |ships| == |flown|
    requires current == Undelivered(flown[..j]) + ships[j..] && k == |Undelivered(flown[..j])|
    ensures |current| == k + 1 + |ships[j + 1..]|
    ensures current[..k] == Undelivered(flown[..j]) && current[k] == ships[j] && current[k + 1..] == ships[j + 1..]
  {
  }

  /** The ids the sweep compares: moving keeps a ship's id, and the ships
      moved so far that are still in flight carry ids other than ship `j`'s. */
  lemma SweepIds(ships: seq<Spaceship>, planets: seq<Planet>, dt: real, fm: FloatModel, j: nat)
    requires UniqueIds(ships) && j < |ships|
    requires forall s | s in ships :: s.destination in planets
    ensures forall s | s in Undelivered(FlownAll(ships, planets, dt, fm)[..j]) :: s.id != ships[j].id
  {
    var flown := FlownAll(ships, planets, dt, fm);
    forall m | 0 <= m < |ships| ensures flown[m].id == ships[m].id {
      FlownAt(ships, planets, dt, fm, m);
    }
    FrontIds(ships, flown, j);
  }

  /** `ship->update(dt)` inside the second loop: the ship moves, and the
      planets, which held what `arrived` brought them, now also hold the
      payload of the ship if it arrived. */
  method StepShip(ship: Spaceship, planets: seq<Planet>, ghost origin: seq<Ledger>, ghost arrived: seq<Spaceship>,
                  dt: real, fm: FloatModel, ghost moved: Spaceship, ghost arrived': seq<Spaceship>)
    returns (ship': Spaceship)
    requires !ship.delivered && ship.destination in planets && |origin| == |planets|
    requires forall i :: 0 <= i < |planets| ==> planets[i].store == Received(origin[i], arrived, planets[i])
    requires moved == Flown(ship, dt, fm)
    requires arrived' == if moved.delivered then arrived + [moved] else arrived
    modifies planets`store
    ensures ship' == moved
    ensures forall i :: 0 <= i < |planets| ==> planets[i].store == Received(origin[i], arrived', planets[i])
  {
    ship' := UpdateShip(ship, dt, fm);
    forall i | 0 <= i < |planets| ensures planets[i].store == Received(origin[i], arrived', planets[i]) {
      if ship'.delivered {
        ReceivedSnoc(origin[i], arrived, ship', planets[i]);
      }
    }
  }

  /** One pass of the second loop of `Game::update`: the ship at `k` (the
      `j`-th of the list the loop started from) moves; once delivered it is
      erased, found by its id, and otherwise it is kept in place. */
  method SweepOne(ships: seq<Spaceship>, ghost flown: seq<Spaceship>, planets: seq<Planet>, ghost origin: seq<Ledger>,
                  j: nat, k: nat, current: seq<Spaceship>, dt: real, fm: FloatModel)
    returns (next: seq<Spaceship>, k': nat)
    requires Swept(ships, flown, planets, origin, j, k, current)
    requires j < |ships| && !ships[j].delivered && ships[j].destination in planets
    requires flown[j] == Flown(ships[j], dt, fm)
    requires forall s | s in Undelivered(flown[..j]) :: s.id != ships[j].id
    modifies planets`store
    ensures Swept(ships, flown, planets, origin, j + 1, k', next)
  {
    ghost var front := Undelivered(flown[..j]);
    SweepSplit(ships, flown, j, k, current);
    SweepPrefixStep(flown, j);
    var ship' := StepShip(current[k], planets, origin, Arrived(flown[..j]), dt, fm, flown[j], Arrived(flown[..j + 1]));
    if ship'.delivered {
      next := EraseById(current, front, ship'.id, ships[j + 1..]);
      k' := k;
    } else {
      next := current[k := ship'];
      k' := k + 1;
    }
    SweptAdvance(ships, flown, j, k, current, next, k');
  }

  /** The list after one pass of the sweep, from the list before it. */
  lemma SweptAdvance(ships: seq<Spaceship>, flown: seq<Spaceship>, j: nat, k: nat, current: seq<Spaceship>,
                     next: seq<Spaceship>, k': nat)
    requires j < |ships| == |flown|
    requires current == Undelivered(flown[..j]) + ships[j..] && k == |Undelivered(flown[..j])|
    requires flown[j].delivered ==> next == Undelivered(flown[..j]) + ships[j + 1..] && k' == k
    requires !flown[j].delivered ==> next == current[k := flown[j]] && k' == k + 1
    ensures next == Undelivered(flown[..j + 1]) + ships[j + 1..] && k' == |Undelivered(flown[..j + 1])|
  {
    SweepSplit(ships, flown, j, k, current);
    SweepPrefixStep(flown, j);
    if !flown[j].delivered {
      assert next == (Undelivered(flown[..j]) + [flown[j]]) + ships[j + 1..];
    }
  }

  /** The second loop of `Game::update`: each ship of the list is moved; a
      delivered one is erased, and the planets have received what the
      arrived ships carried. */
  method SweepShips(ships: seq<Spaceship>, planets: seq<Planet>, dt: real, fm: FloatModel)
    returns (ships': seq<Spaceship>)
    requires UniqueIds(ships)
    requires forall s | s in ships :: !s.delivered && s.destination in planets
    modifies planets`store
    ensures ships' == Undelivered(FlownAll(ships, planets, dt, fm))
    ensures forall i :: 0 <= i < |planets| ==>
      planets[i].store == Received(old(planets[i].store), Arrived(FlownAll(ships, planets, dt, fm)), planets[i])
  {
    ghost var origin := Stores(planets);
    ghost var flown := FlownAll(ships, planets, dt, fm);
    ships' := ships;
    var j, k := 0, 0;
    while j < |ships|
      invariant flown == FlownAll(ships, planets, dt, fm)
      invariant Swept(ships, flown, planets, origin, j, k, ships')
    {
      FlownAt(ships, planets, dt, fm, j);
      SweepIds(ships, planets, dt, fm, j);
      ships', k := SweepOne(ships, flown, planets, origin, j, k, ships', dt, fm);
      j := j + 1;
    }
    assert flown[..j] == flown;
  }

  /** The planets of a game, one by one: each is new to the list and keeps
      a total store. */
  ghost predicate PlanetsValid(planets: seq<Planet>)
    reads planets`store
    decreases |planets|
  {
    planets == [] ||
      var last := planets[|planets| - 1];
      PlanetsValid(planets[..|planets| - 1]) && last !in planets[..|planets| - 1] && last.Valid()
  }

  /** No planet is listed twice. */
  predicate Distinct(planets: seq<Planet>) {
    forall i, j :: 0 <= i < j < |planets| ==> planets[i] != planets[j]
  }

  /** Valid planets are pairwise distinct with total stores. */
  lemma {:induction false} PlanetsValidElim(planets: seq<Planet>)
    requires PlanetsValid(planets)
    ensures Distinct(planets) && forall p | p in planets :: p.Valid()
    decreases |planets|
  {
    if planets != [] {
      var front := planets[..|planets| - 1];
      PlanetsValidElim(front);
      assert planets == front + [planets[|planets| - 1]];
    }
  }

  /** Pairwise distinct planets with total stores are valid. */
  lemma {:induction false} PlanetsValidIntro(planets: seq<Planet>)
    requires Distinct(planets) && forall p | p in planets :: p.Valid()
    ensures PlanetsValid(planets)
    decreases |planets|
  {
    if planets != [] {
      var front := planets[..|planets| - 1];
      assert planets == front + [planets[|planets| - 1]];
      PlanetsValidIntro(front);
      assert planets[|planets| - 1] !in front by {
        forall i | 0 <= i < |front| ensures front[i] != planets[|planets| - 1] {
          assert front[i] == planets[i];
        }
      }
    }
  }

  /** Valid planets are exactly the pairwise distinct ones with total
      stores. */
  lemma PlanetsValidMeans(planets: seq<Planet>)
    ensures PlanetsValid(planets) <==> Distinct(planets) && forall p | p in planets :: p.Valid()
  {
    if PlanetsValid(planets) {
      PlanetsValidElim(planets);
    }
    if Distinct(planets) && forall p | p in planets :: p.Valid() {
      PlanetsValidIntro(planets);
    }
  }

  /** The ships of a game, in flight or queued, have unique ids and are in
      service. */
  ghost predicate FleetValid(planets: seq<Planet>, ships: seq<Spaceship>, next: nat)
    reads planets`shipQueue
  {
    FleetOk(ships + Queued(planets), planets, next)
  }

  /** The first loop's outcome on planets recorded as `before` that held
      `ships` in flight: every planet ticked from its recorded state, and
      `flying` is `ships` followed by the recorded queues in drain order. */
  ghost predicate FirstLoopDone(planets: seq<Planet>, ships: seq<Spaceship>, flying: seq<Spaceship>,
                                before: seq<Snapshot>, draws: seq<TickDraws>, dt: real, fm: FloatModel)
    reads planets
  {
    flying == ships + DrainedFrom(before) && AllTicked(planets, before, draws, dt, fm)
  }

  /** The first loop of `Game::update` on a valid game recorded as `before`:
      afterwards every planet advanced from its recorded angle and stepped
      its recorded store, every queued ship is in flight, in drain order,
      and the game is still valid. */
  method TickWorld(planets: seq<Planet>, ships: seq<Spaceship>, dt: real, draws: seq<TickDraws>,
                   fm: FloatModel, ghost next: nat, ghost before: seq<Snapshot>)
    returns (flying: seq<Spaceship>)
    requires PlanetsValid(planets) && FleetValid(planets, ships, next) && |draws| == |planets|
    requires before == Snapshots(planets)
    modifies planets`angle, planets`drawnAt, planets`store, planets`shipQueue
    ensures PlanetsValid(planets) && FleetOk(flying, planets, next) && Queued(planets) == []
    ensures FirstLoopDone(planets, ships, flying, before, draws, dt, fm)
  {
    ghost var all := ships + Queued(planets);
    DrainedPermutes(planets);
    DrainedFromSnapshots(planets);
    PlanetsValidElim(planets);
    flying := TickPlanets(planets, ships, dt, draws, fm);
    PlanetsValidIntro(planets);
    assert multiset(flying) == multiset(all);
    FleetOkSub(flying, all, planets, next);
    QueuedEmpty(planets);
  }

  /** The second loop of `Game::update` on a valid game whose queues are
      empty: the delivered ships leave, their destinations are credited,
      the game is still valid and nothing but the stores changed; `landed`
      tells whether any ship arrived. */
  method SweepWorld(planets: seq<Planet>, ships: seq<Spaceship>, dt: real, fm: FloatModel, ghost next: nat)
    returns (ships': seq<Spaceship>, landed: bool)
    requires PlanetsValid(planets) && FleetOk(ships, planets, next)
    modifies planets`store
    ensures PlanetsValid(planets) && FleetOk(ships', planets, next)
    ensures unchanged(planets`angle, planets`drawnAt, planets`shipQueue)
    ensures ships' == Undelivered(FlownAll(ships, planets, dt, fm))
    ensures forall i :: 0 <= i < |planets| ==>
      planets[i].store == Received(old(planets[i].store), Arrived(FlownAll(ships, planets, dt, fm)), planets[i])
    ensures landed <==> Arrived(FlownAll(ships, planets, dt, fm)) != []
  {
    PlanetsValidElim(planets);
    ships' := SweepShips(ships, planets, dt, fm);
    landed := |ships'| < |ships|;
    ghost var flown := FlownAll(ships, planets, dt, fm);
    SweepPartition(flown);
    assert |multiset(ships')| + |multiset(Arrived(flown))| == |multiset(flown)|;
    forall m | 0 <= m < |ships| ensures SameShip(flown[m], ships[m]) {
      FlownAt(ships, planets, dt, fm, m);
    }
    FlownFleet(ships, flown, planets, next);
    forall p | p in planets ensures p.Valid() {
      ReceivedTotal(old(p.store), Arrived(flown), p);
    }
    PlanetsValidIntro(planets);
  }

  /** Two states of one ship: same id, same planets. */
  predicate SameShip(a: Spaceship, b: Spaceship) {
    a.id == b.id && a.sender == b.sender && a.destination == b.destination
  }

  /** The moved ships still in flight form a sound fleet when the ships
      before the move did. */
  lemma FlownFleet(ships: seq<Spaceship>, flown: seq<Spaceship>, planets: seq<Planet>, next: nat)
    requires FleetOk(ships, planets, next) && |flown| == |ships|
    requires forall m :: 0 <= m < |ships| ==> SameShip(flown[m], ships[m])
    ensures FleetOk(Undelivered(flown), planets, next)
  {
    SweepPartition(flown);
    forall s | s in Undelivered(flown) ensures InService(s, planets, next) {
      var m :| 0 <= m < |flown| && flown[m] == s;
      assert ships[m] in ships;
    }
    forall a, b | 0 <= a < b < |flown| ensures flown[a].id != flown[b].id {
      UniqueIdsAt(ships, a, b);
    }
    PairwiseUnique(flown);
    UniqueIdsSub(Undelivered(flown), flown);
  }

  /** The stores after a game tick: each planet's store is the economic step
      of its recorded store, then the payloads of the arrived ships bound for
      it, in order. */
  predicate Settled(planets: seq<Planet>, now: seq<Ledger>, before: seq<Snapshot>, draws: seq<TickDraws>,
                    dt: real, fm: FloatModel, arrivals: seq<Spaceship>)
  {
    && |now| == |before| == |planets| == |draws|
    && forall i :: 0 <= i < |planets| ==>
         now[i] == Received(Tick(before[i].store, planets[i].traits, draws[i], dt, fm), arrivals, planets[i])
  }

  /** What the two loops of `Game::update` did to planets recorded as
      `before`: every planet advanced from its recorded angle, is drawn
      there and has an empty queue; the list the ship loop started from is
      the ships that were in flight followed by the recorded queues in drain
      order; every ship of it moved and the delivered ones left, in order;
      each planet's store is its economic step followed by the payloads of
      the delivered ships bound for it; `landed` tells whether any ship
      arrived. */
  ghost predicate Ticked(planets: seq<Planet>, ships: seq<Spaceship>, ships': seq<Spaceship>,
                         flying: seq<Spaceship>, landed: bool, dt: real, draws: seq<TickDraws>, fm: FloatModel,
                         before: seq<Snapshot>)
    reads planets
  {
    && AllAdvanced(planets, before, dt, fm)
    && flying == ships + DrainedFrom(before)
    && (forall s | s in flying :: s.destination in planets)
    && ships' == Undelivered(FlownAll(flying, planets, dt, fm))
    && Settled(planets, Stores(planets), before, draws, dt, fm, Arrived(FlownAll(flying, planets, dt, fm)))
    && (landed <==> Arrived(FlownAll(flying, planets, dt, fm)) != [])
  }

  /** One game tick seen from outside: the planets recorded as `before`
      with `ships` in flight, the list `flying` the ship loop started from,
      the list `ships'` it left and whether a ship landed. */
  datatype Round = Round(planets: seq<Planet>, ships: seq<Spaceship>, flying: seq<Spaceship>, ships': seq<Spaceship>,
                         landed: bool, dt: real, draws: seq<TickDraws>, fm: FloatModel, before: seq<Snapshot>)

  /** The first loop's outcome in the earlier state and the sweep's effect
      since then make up `Ticked`. */
  twostate lemma RoundTicked(r: Round)
    requires old(FirstLoopDone(r.planets, r.ships, r.flying, r.before, r.draws, r.dt, r.fm))
    requires forall s | s in r.flying :: s.destination in r.planets
    requires unchanged(r.planets`angle, r.planets`drawnAt, r.planets`shipQueue)
    requires r.ships' == Undelivered(FlownAll(r.flying, r.planets, r.dt, r.fm))
    requires forall i :: 0 <= i < |r.planets| ==>
      r.planets[i].store == Received(old(r.planets[i].store), Arrived(FlownAll(r.flying, r.planets, r.dt, r.fm)), r.planets[i])
    requires r.landed <==> Arrived(FlownAll(r.flying, r.planets, r.dt, r.fm)) != []
    ensures Ticked(r.planets, r.ships, r.ships', r.flying, r.landed, r.dt, r.draws, r.fm, r.before)
  {
  }

  /** A sound fleet is a valid one once every planet has advanced and so
      handed over its queue. */
  lemma AdvancedFleetValid(planets: seq<Planet>, before: seq<Snapshot>, dt: real, fm: FloatModel,
                           ships: seq<Spaceship>, next: nat)
    requires AllAdvanced(planets, before, dt, fm) && FleetOk(ships, planets, next)
    ensures FleetValid(planets, ships, next)
  {
    QueuedEmpty(planets);
    assert ships + Queued(planets) == ships;
  }

  /** The two loops of `Game::update` on a valid game recorded as `before`:
      the planets tick and hand over their queued ships, then the ships move
      and the delivered ones leave with their cargo credited; the game stays
      valid and every ship of the list the second loop started from was
      sound. */
  method StepWorld(planets: seq<Planet>, ships: seq<Spaceship>, dt: real, draws: seq<TickDraws>,
                   fm: FloatModel, ghost next: nat, ghost before: seq<Snapshot>)
    returns (ships': seq<Spaceship>, landed: bool, ghost flying: seq<Spaceship>)
    requires PlanetsValid(planets) && FleetValid(planets, ships, next) && |draws| == |planets|
    requires before == Snapshots(planets)
    modifies planets`angle, planets`drawnAt, planets`store, planets`shipQueue
    ensures PlanetsValid(planets) && FleetValid(planets, ships', next)
    ensures FleetOk(flying, planets, next)
    ensures Ticked(planets, ships, ships', flying, landed, dt, draws, fm, before)
  {
    var current := TickWorld(planets, ships, dt, draws, fm, next, before);
    flying := current;
    label ticked:
    ships', landed := SweepWorld(planets, current, dt, fm, next);
    RoundTicked@ticked(Round(planets, ships, current, ships', landed, dt, draws, fm, before));
    AdvancedFleetValid(planets, before, dt, fm, ships', next);
  }
}
