# Solar system simulation core, in Dafny

A model of the simulation core of a small SFML space-colonisation game:
planets on circular orbits, each with a resource store that evolves every
tick, and spaceships launched from one planet that fly to another and
deliver their cargo there. The model covers:

- **Planets** (`planet.cpp`):
  - random names, drawn from an explicit `rand()` stream;
  - demonyms;
  - the outgoing ship queue and its drain at the start of a tick;
  - the integer part of the per-tick economy: population, farmers, species, metal, wood, water, weaponry and food.
- **Spaceships** (`spaceship.cpp`):
  - the constructor debits the sender and takes the next id from the shared counter;
  - one step of flight credits the destination once the ship has reached it.
- **The game** (`game.cpp`):
  - the generate-until-acceptable loop of the constructor;
  - a tick: every planet, then every ship, with delivered ships erased by id;
  - the mouse handlers, `selectPlanet` and `removeSidebar`.
- **The sidebar** (`sidebar.cpp`):
  - the planet inspector's refresh timer;
  - the ship designer's slider bounds;
  - the launch button, which takes the ship's metal, compares the stores, launches, and resets the panel.

Planets are a class whose fields (`angle`, `store`, `shipQueue`, and the position the shape was drawn at) the methods update in place. Ships are values, since the source keeps them by value in vectors. The game is a class. Its ship list is a `seq` field, and its planets are a fixed `seq` of `Planet` references.

The invariant `Game.Valid` says four things:
- the planets are distinct and each has a store listing every category;
- every ship, in flight or still queued at a planet, carries an id of its own below the counter;
- every ship flies between planets of the game and is not yet delivered;
- the panel refers to planets of the game.

Every operation of the game keeps this invariant.

The two loops of `Game::update` are proved against `World.Ticked`. After the step:
- every planet's orbit angle has advanced by its angular rate times `dt`, its shape is drawn where the new angle puts it, and its queue is empty;
- the ship list is the list the ship loop started from (the ships in flight, then the drained queues), each ship moved once, with the delivered ones removed and the rest in order;
- each planet's store is its economic step followed by exactly the payloads of the delivered ships bound for it, one credit per ship.

Floating-point formulas (trigonometry, the logistic growth, the food yield, the thrust and drag of a ship, the hit tests) are fields of `Geometry.FloatModel`, which every operation receives as a parameter. Every `rand()` draw is a parameter too: a `Genesis` record per planet built, a `TickDraws` record per planet and tick, and a `nat -> nat` stream per name. The constants of `config.h` and `planet.h` are not part of this model. They are fields of `Configuration.Config`.

The model follows the code as written:
- The demonym of an empty planet is `"N/A"`.
- `Spaceship::update` does not look at `delivered`. A delivered ship stepped again would credit its cargo again. Exactly one credit per ship comes from the sweep erasing the ship in the same pass, and the model proves it of the sweep.
- The generation loop has no retry bound.
- The draws of `randRange(0, 10000)` may be 10000 itself, because `rand()` may return `RAND_MAX`.
- The transfer check is the store comparison `>` of a header that is not part of this model. It is a parameter `exceeds`.
- An empty planet's weaponry is left as it was, and food is clamped only from above.

## Model

| member | source | states |
|---|---|---|
| Names.RandomName | planet.cpp:217-250 | the name built from the `rand()` stream is `GeneratedName`, which the lemmas below characterise |
| Names.DrawLead | planet.cpp:218-227 | the letter budget is `rand() % 4 + 4`, the optional leading consonant is drawn when the second draw is below `RAND_MAX / 2`, and the pair loop then starts on the right draw |
| Names.AppendPairs | planet.cpp:229-241 | the vowel–consonant loop appends exactly the letters of the pair loop and consumes its draws |
| Names.AppendPass | planet.cpp:232-240 | one pass appends a vowel, a consonant and, after a `q`, a `u` when the pass starts at least three letters before the budget (`i + 2 < letters`); the counter advances by 2, or 3 with the `u` |
| Names.PairLoopCounter | planet.cpp:230-241 | each pass appends as many letters as it adds to `i`, and the loop exits with `letters <= i <= letters + 1` |
| Names.LetterBudget | planet.cpp:219-241 | the letter budget is in [4, 7], and the pairs cover it, overshooting by one letter at most |
| Names.PairLoopShape | planet.cpp:230-241 | the loop's text is vowel–consonant pairs with a `u` after every `q` that is not the last letter, and it is at least two letters long |
| Names.PairsQu | planet.cpp:236-239 | inside the pairs, a `q` that is not the last letter is followed by a `u` |
| Names.FinalPassNoU | planet.cpp:236-240 | a pass that starts fewer than three letters before the budget (`i + 2 >= letters`) appends just its vowel and consonant, with no `u` even after a `q`, and ends the loop |
| Names.LeadGetsNoU | planet.cpp:226-234 | a leading consonant, even a `q`, is followed by the first pair's vowel and never by an inserted `u` |
| Names.NameParts | planet.cpp:226-247 | a name is an optional leading consonant, then vowel–consonant pairs, then an optional `ia` |
| Names.CapitalInitial | planet.cpp:246-247 | the first letter is upper case, and it is the `- 32` form of a lower-case letter of the two alphabets |
| Names.Capitalise | planet.cpp:246-247 | `name[0] -= 32` gives an upper-case initial and keeps the other letters |
| Names.GeneratedName | planet.cpp:217-250 | a generated name has at least two letters, so it is never empty |
| Names.GeneratedEndsInA | planet.cpp:198-204 | a generated name ends in `a` exactly when it took the `ia` suffix, as the demonym rule assumes |
| Names.InhabitantName | planet.cpp:193-214 | an empty planet gives `"N/A"`; otherwise: a name ending in `a` gets `ns`, one ending in `s` has the `s` replaced by `t` and gets `ians`, any other gets `ians` |
| Names.DemonymMarksInhabited | planet.cpp:193-194 | for a population that is not negative, the demonym is `"N/A"` exactly when the planet is empty |
| Names.GeneratedDemonym | planet.cpp:196-211 | every generated name of an inhabited planet yields a demonym ending in `ians` |
| Economy.InitialPopulation | planet.cpp:48-49 | a new planet's population is 0 when the roll is at most 40% of `RAND_MAX`, and otherwise the truncated draw |
| Economy.Biodiversity | planet.cpp:62-64 | an earth-likeness within its range gives a biodiversity in [1, 10] |
| Economy.SpeciesDivisor | planet.cpp:149-150 | the divisor `int(100001 / biodiversity)` is at least 1, so `rand() % growth` is defined |
| Economy.SpeciesDivisorRange | planet.cpp:149-151 | with biodiversity in [1, 10], the species chance lies between one in 100001 and one in 10000 |
| Economy.Tick | planet.cpp:129-173 | a tick leaves every category stored |
| Economy.TickPopulation | planet.cpp:130-138 | an empty planet stays empty, and an inhabited one takes the logistic step |
| Economy.TickFood | planet.cpp:140-173 | food never exceeds the cap; it is 0 on an empty planet when the cap is not negative; otherwise it is the capped yield of `min(population, farmersCap)` farmers, so of the whole population while that is within the farmer cap |
| Economy.TickSpecies | planet.cpp:149-153 | species grow by 0 or 1, and by 1 exactly when the roll is a multiple of the divisor |
| Economy.TickStocks | planet.cpp:154-161 | metal, wood and water never decrease and grow by at most 10000; weaponry is a fresh draw in [0, 10000] on an inhabited planet and is untouched on an empty one |
| Numeric.TruncAddBounds | planet.cpp:154-156 | `store[c] += randRange(0, hi)` on an int never lowers the stock and raises it by at most `hi`, negative stocks included |
| Numeric.Trunc | planet.cpp:49 | C++'s `int(x)` truncates toward zero |
| Ledgers.Sub | spaceship.cpp:15 | the per-category difference, stored for every category and not clamped |
| Ledgers.Add | spaceship.cpp:52 | the per-category sum, stored for every category |
| Ledgers.Set | sidebar.cpp:201 | writing one category leaves the others as they were |
| Ledgers.SubThenAdd | spaceship.cpp:51-52 | crediting a payload back after debiting it restores a full store exactly |
| Seqs.Reverse | planet.cpp:123-127 | the order `pop_back` takes the queue in: the queue reversed |
| Seqs.ReversePermutes | planet.cpp:123-127 | the drain moves every queued ship exactly once |
| Seqs.RemoveAt | game.cpp:64-65 | `erase` drops exactly the element at the index and keeps the others in order |
| Bodies.IdCounter.constructor | spaceship.cpp:8 | ids start at 0 |
| Bodies.Planet.constructor | planet.cpp:45-73 | a new planet has the drawn population, every other category at 0, a biodiversity in [1, 10], a generated name and an empty queue |
| Bodies.Planet.InhabitantName | planet.cpp:193-214 | a planet's demonym is `"N/A"` exactly when its population is 0 |
| Bodies.Planet.IsInhabited | planet.cpp:257-259 | `isInhabited` holds exactly when the demonym is not `"N/A"`, for a population that is not negative |
| Bodies.Planet.Update | planet.cpp:115-174 | the orbit advances; the queue empties into the game's list in `pop_back` order, after the ships already there; the store takes one economic step |
| Bodies.Planet.LaunchShip | planet.cpp:252-255 | the queue grows by exactly one ship with this sender, the destination, the payload and the counter's id; the store is debited by the payload; the counter moves on by one |
| Bodies.NewSpaceship | spaceship.cpp:10-30 | the sender is debited by the payload without clamping; the ship takes the counter's value, which is post-incremented; it starts undelivered, at rest, where the sender is |
| Bodies.UpdateShip | spaceship.cpp:33-54 | once the moved ship has reached its destination it is delivered and the destination gains exactly the payload; otherwise no store changes and `delivered` keeps its value; `delivered` is never reset, and only the destination's store may change |
| Fleet.IndexOfId | game.cpp:55-62 | the search returns the first position holding the id, or -1 when no ship has it |
| Fleet.UniqueIdsAt | game.cpp:57-62 | in a list with unique ids, ships at different positions carry different ids, so the search by id finds the one ship |
| Fleet.UniqueIdsSub | game.cpp:64-65 | any part of a list with unique ids, in any order, still has unique ids |
| Fleet.SweepPartition | game.cpp:49-66 | each ship is either kept (undelivered) or removed (delivered), never both, and every undelivered ship is kept |
| Fleet.ReceivedCredits | spaceship.cpp:48-53 | each category of a planet's store gains exactly the payloads of the arrived ships bound for it, each counted once |
| Fleet.ReceivedTotal | spaceship.cpp:52 | deliveries keep a store that lists every category |
| Fleet.FleetLaunch | spaceship.cpp:19 | a ship that takes the counter's next id clashes with no id already handed out, so ids stay pairwise distinct |
| Fleet.FleetEnqueue | planet.cpp:252-255 | queuing a newly launched ship keeps the game's ships sound, in whatever order the queued ships are listed |
| World.DrainedPermutes | planet.cpp:123-127 | draining every planet moves every queued ship exactly once |
| World.TickPlanets | game.cpp:45-47 | every planet, in order, ticks from its state before the loop, and the game's list gains all the queued ships in drain order |
| World.TickWorld | game.cpp:45-47 | after the planet loop every planet has ticked from its recorded state, no ship is queued, the list is the ships in flight followed by the queues in drain order, and those ships are still sound |
| World.EraseById | game.cpp:55-66 | when the ships before it carry other ids, erasing by id removes exactly the current ship |
| World.SweepIds | game.cpp:57-62 | during the sweep, no ship kept so far shares the id of the ship being moved |
| World.StepShip | game.cpp:50 | `ship.update(dt)` in the sweep: the ship becomes its moved state, and the planets' stores, which held the earlier arrivals, now hold its payload too exactly when it arrived |
| World.SweepOne | game.cpp:49-66 | one pass moves the current ship, keeps it in place or erases it, and credits its destination if it arrived |
| World.SweepShips | game.cpp:49-66 | afterwards the list is the moved ships that were not delivered, in order, and each planet has received the payloads of the delivered ships bound for it |
| World.FlownFleet | game.cpp:49-66 | the ships still in flight after the sweep are sound |
| World.SweepWorld | game.cpp:49-73 | the sweep keeps the game valid, changes no orbit, drawn position or queue, leaves the moved undelivered ships in order, credits each planet with the arrivals bound for it, and reports a delivery exactly when some ship arrived |
| World.PlanetsValidMeans | game.cpp:21-28 | the game's planets are valid exactly when they are pairwise distinct with full stores |
| World.StepWorld | game.cpp:44-66 | all planets tick before any ship moves; the game stays valid; as `Ticked` describes, every orbit advances, every shape is redrawn there, every queue is empty, and the stores and the list are the tick's |
| Generation.SpacedIncreasing | game.cpp:23-29 | with pixel radii that are not negative, orbit distances increase outwards by at least 50 per planet |
| Generation.GenerateAttempt | game.cpp:21-30 | an attempt builds exactly `NUM_PLANETS` new, distinct planets from its draws, the first at `SUN_RADIUS + 100` and each next one past the previous diameter plus 50 |
| Generation.SpacedSnoc | game.cpp:23-29 | a planet placed at the next distance keeps the orbit distances spaced as the loop spaces them |
| Generation.Place | game.cpp:26-28 | one pass of the loop builds a new planet at the current distance from the attempt's next draw, and the placed planets stay distinct, well formed, queue-free, spaced and built from their draws |
| Generation.PartialSnoc | game.cpp:23-29 | a new well-formed planet with an empty queue, at the next distance and with the next draw's population, extends a correctly placed list |
| Generation.CountInhabitedLoop | game.cpp:32-36 | the count is the number of planets with population above 0 |
| Generation.CountMatchesDraws | game.cpp:32-36 | counting the built planets gives the count of the attempt's draws |
| Generation.Attempt | game.cpp:21-36 | one pass of the retry loop: a fresh set and its inhabited count |
| Generation.Generate | game.cpp:17-37 | the kept set has an acceptable inhabited count; no set is built when 0 is already acceptable; otherwise the set is that of the first acceptable attempt |
| Sidebar.TimerBounded | sidebar.cpp:113-117 | with steps no longer than the period, the inspector's timer stays in [0, period) |
| Sidebar.TimerFallsBehind | sidebar.cpp:113-117 | a step of two periods or more leaves the timer at a period or more, since only one period comes off per call |
| Sidebar.PlanetInspector.constructor | sidebar.cpp:11-17 | a new inspector has its planet and a timer at 0 |
| Sidebar.PlanetInspector.Update | sidebar.cpp:107-118 | without a planet the timer goes back to 0 and nothing refreshes; with one, the timer gains `dt`, loses one period and refreshes once when it reaches the period, and the time is accounted for |
| Sidebar.Manifest | sidebar.cpp:193-199 | the payload holds exactly the metal, population, food and weaponry slider values, and every other category reads 0 |
| Sidebar.Deduct | sidebar.cpp:201 | only the metal drops, by the ship's metal usage |
| Sidebar.SliderMax | sidebar.cpp:176-179 | a slider's maximum is the smaller of the cargo limit and the stock |
| Sidebar.ShipDesigner.constructor | sidebar.cpp:176-179 | the metal slider runs to `min(MAX_CARGO_PER_RESOURCE, metal - SHIP_METAL_USAGE)`, the others to `min(MAX_CARGO_PER_RESOURCE, stock)` |
| Sidebar.SlidersKeepStocks | sidebar.cpp:176-203 | slider values within those bounds, on the store the designer opened on, leave none of the four categories negative after the launch, and touch no other category |
| Sidebar.ShipDesigner.Launch | sidebar.cpp:192-204 | the metal usage is taken first, whatever follows; a ship is queued with the counter's id only if the rest of the store compares greater than the payload, and then the payload is debited too |
| Simulation.FirstContaining | game.cpp:156-163 | the first planet of the list that contains the point and is not the excluded one, or none when no planet qualifies |
| Simulation.GeneratedSound | game.cpp:17-37 | a generated system has distinct planets with full stores and no ship queued |
| Simulation.LaunchQueued | sidebar.cpp:201-203 | a launch from a planet of the game keeps the game's ships sound, the new ship taking a fresh id |
| Simulation.LaunchIn | sidebar.cpp:201-203 | a launch keeps the game's planets valid and its ships sound |
| Simulation.Game.constructor | game.cpp:9-42 | a new game has the inspector without a planet, the generated planets, no ships and nothing selected, and is valid |
| Simulation.Game.Step | game.cpp:44-66 | the two loops of a tick on the game's own list, as `Ticked` states (orbits advanced and redrawn, queues empty, stores and list as the tick leaves them), keeping the game valid |
| Simulation.Game.UpdatePanel | game.cpp:68-75 | after a delivery an inspector is reopened on its planet with its timer at 0; then the panel updates; a designer is left alone |
| Simulation.Game.Update | game.cpp:44-78 | planets, then ships, then the panel; the planets, stores and list end as `Ticked` states (orbits advanced and redrawn, queues empty); the game stays valid; the inspector is rebuilt exactly when some ship arrived |
| Simulation.Game.SelectPlanet | game.cpp:187-190 | a new inspector on the planet, which becomes the selection |
| Simulation.Game.RemoveSidebar | game.cpp:192-194 | a new inspector without a planet; the selection stays |
| Simulation.Game.MouseDown | game.cpp:149-167 | dragging stops; a press right of the sidebar selects the first planet under it, or nothing, and drags exactly when one was found; a press on the sidebar changes nothing else |
| Simulation.Game.PickTarget | game.cpp:174-183 | the search finds the first planet under the pointer other than the sender when the sender has population above 0, and none otherwise |
| Simulation.Game.MouseUp | game.cpp:169-185 | dragging stops; only a selected, inhabited planet and a release over another planet open a designer, from the selection to the first such planet; otherwise the panel stays |
| Simulation.Game.ShowDesigner | game.cpp:180 | a new designer from the selected planet to the target; the selection stays |
| Simulation.Game.LaunchCargo | sidebar.cpp:192-207 | the launch button does what `ShipDesigner.Launch` states, and then the panel becomes the inspector without a planet, whether or not a ship launched |

## Left out

- Rendering, shapes, colours, fonts, widget layout and text, `positionDragLine`, `PeopleManagement`, and `ShipDesigner::update`: the last only sets widget text.
- Event dispatch in `handleEvent`. The mouse handlers and the launch button are modelled as methods called directly.
- Floating-point arithmetic:
  - The formulas (orbit step, position, logistic growth, food yield, steering, drag, hit tests) are uninterpreted fields of `FloatModel`.
  - Sums such as `store[Metal] += randRange(...)` are computed exactly in reals and then truncated, without single-precision rounding.
  - The division by zero when a ship sits on its target is not modelled, since the steering is uninterpreted.
- `rand()` and `randRange` themselves. Their results are parameters. `randRange` is assumed to stay within its bounds.
- The radius, mass and gravity of a new planet are not modelled. Its capacity, pixel radius, starting angle and speed are given in `Genesis` rather than computed.
- The constants of `config.h` and `planet.h` are fields of `Config`. `RAND_MAX` is the glibc value.
- Bodies.Planet.Contains, Bodies.Planet.OrbitPosition, Bodies.Reaches: wrappers that apply the uninterpreted hit test and orbit position of `FloatModel` (planet.cpp:176-190, spaceship.cpp:68-73), so they carry no contract of their own.
- Economy.TickStocks: store values are unbounded integers. The source's 32-bit `int` store and its out-of-range float-to-int conversion are not modelled. The monotonicity also rests on exact real sums: above 2^24 a `float` sum can round to a value below the stock, which would lose a unit.
- The store comparison `sender->resources > resources` is defined in a header that is not part of this model. It is the parameter `exceeds`.
- Bodies.NewSpaceship: does not model the 32-bit wrap-around of the `unsigned int` id counter. The counter is unbounded, so ids never repeat.
- Generation.Generate: requires that some attempt (the ghost `accepted`) would be kept. The source loops forever otherwise, and the loop needs that attempt in order to terminate.
- World.SweepShips: models the intended "move each ship, erase a delivered one by id" semantics. Erasing from `ships` inside a range-`for`, as `game.cpp` does, invalidates the loop's iterator.
- Simulation.Game.UpdatePanel: reopens the inspector once when any ship was delivered, where the source reopens it once per delivered ship. Each reopening starts the same timer at 0, so only the number of allocations differs.
- Simulation.Game.Update: states the panel's timer outcome only through `UpdatePanel`, and returns which ships were delivered only as ghost results.
- The ship designer's sliders are not modelled as widgets. Their values are the `Cargo` given to the launch button. The bounds are the designer's fields and the hypothesis of `SlidersKeepStocks`.
- Ships are values rather than objects. The delivered flag and position are updated by replacing the ship in the game's list, which is what the source's by-value vectors amount to.
