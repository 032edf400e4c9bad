/** The game's list of ships in flight: uniqueness of ids, the search by id
    that the delivered-ship sweep uses, and the credit the sweep hands out. */
module Fleet {
  import opened Ledgers
  import opened Bodies
  import opened Seqs

  /** Every ship of the list carries an id that no ship before it
      carries. */
  predicate UniqueIds(ships: seq<Spaceship>)
    decreases |ships|
  {
    ships == [] ||
      (&& UniqueIds(ships[..|ships| - 1])
       && forall k :: 0 <= k < |ships| - 1 ==> ships[k].id != ships[|ships| - 1].id)
  }

  /** Ships at different positions of a list with unique ids carry
      different ids. */
  lemma {:induction false} UniqueIdsAt(ships: seq<Spaceship>, a: nat, b: nat)
    requires UniqueIds(ships) && a < b < |ships|
    ensures ships[a].id != ships[b].id
    decreases |ships|
  {
    if b < |ships| - 1 {
      UniqueIdsAt(ships[..|ships| - 1], a, b);
    }
  }

  /** A list whose ships pairwise carry different ids has unique ids. */
  lemma {:induction false} PairwiseUnique(ships: seq<Spaceship>)
    requires forall a, b :: 0 <= a < b < |ships| ==> ships[a].id != ships[b].id
    ensures UniqueIds(ships)
    decreases |ships|
  {
    if ships != [] {
      PairwiseUnique(ships[..|ships| - 1]);
    }
  }

  /** A ship found at two positions is counted twice. */
  lemma Occurrences(ships: seq<Spaceship>, lo: nat, hi: nat)
    requires lo < hi < |ships|
    ensures multiset(ships)[ships[lo]] >= if ships[lo] == ships[hi] then 2 else 1
  {
    assert ships == ships[..lo] + [ships[lo]] + ships[lo + 1..hi] + [ships[hi]] + ships[hi + 1..];
  }

  /** A list with unique ids holds each ship at most once. */
  lemma {:induction false} UniqueOnce(ships: seq<Spaceship>, s: Spaceship)
    requires UniqueIds(ships)
    ensures multiset(ships)[s] <= 1
    decreases |ships|
  {
    if ships != [] {
      var front := ships[..|ships| - 1];
      var last := ships[|ships| - 1];
      UniqueOnce(front, s);
      assert ships == front + [last];
      if last == s {
        assert s !in front;
      }
    }
  }

  /** Any part of a list with unique ids, in any order, has unique ids. */
  lemma UniqueIdsSub(a: seq<Spaceship>, b: seq<Spaceship>)
    requires multiset(a) <= multiset(b) && UniqueIds(b)
    ensures UniqueIds(a)
  {
    forall i, j | 0 <= i < j < |a| ensures a[i].id != a[j].id {
      UniqueOnce(b, a[i]);
      Occurrences(a, i, j);
      assert a[i] in multiset(b) && a[j] in multiset(b);
      var p :| 0 <= p < |b| && b[p] == a[i];
      var q :| 0 <= q < |b| && b[q] == a[j];
      if p < q {
        UniqueIdsAt(b, p, q);
      } else {
        UniqueIdsAt(b, q, p);
      }
    }
    PairwiseUnique(a);
  }

  /** The ships still in flight: those not delivered, in their order. */
  function Undelivered(ships: seq<Spaceship>): seq<Spaceship>
    decreases |ships|
  {
    if ships == [] then []
    else
      var front := Undelivered(ships[..|ships| - 1]);
      var last := ships[|ships| - 1];
      if last.delivered then front else front + [last]
  }

  /** The delivered ships of the list, in their order. */
  function Arrived(ships: seq<Spaceship>): seq<Spaceship>
    decreases |ships|
  {
    if ships == [] then []
    else
      var front := Arrived(ships[..|ships| - 1]);
      var last := ships[|ships| - 1];
      if last.delivered then front + [last] else front
  }

  /** Every ship of the list is either still in flight or has arrived, and
      not both: the two lists split the list, and the ships in flight are
      exactly its undelivered ones. */
  lemma {:induction false} SweepPartition(ships: seq<Spaceship>)
    ensures multiset(Undelivered(ships)) + multiset(Arrived(ships)) == multiset(ships)
    ensures forall s | s in Undelivered(ships) :: s in ships && !s.delivered
    ensures forall s | s in Arrived(ships) :: s in ships && s.delivered
    ensures forall s | s in ships && !s.delivered :: s in Undelivered(ships)
    decreases |ships|
  {
    if ships != [] {
      var last := ships[|ships| - 1];
      SweepPartition(ships[..|ships| - 1]);
      assert ships == ships[..|ships| - 1] + [last];
    }
  }

  /** One more ship of the list joins those in flight or those that have
      arrived, by its flag. */
  lemma SweepPrefixStep(ships: seq<Spaceship>, j: nat)
    requires j < |ships|
    ensures Undelivered(ships[..j + 1]) ==
      if ships[j].delivered then Undelivered(ships[..j]) else Undelivered(ships[..j]) + [ships[j]]
    ensures Arrived(ships[..j + 1]) ==
      if ships[j].delivered then Arrived(ships[..j]) + [ships[j]] else Arrived(ships[..j])
  {
    assert ships[..j + 1][..j] == ships[..j];
  }

  /** What the ships of `arrivals` bound for `p` credit to it in category
      `c`. */
  function Credited(arrivals: seq<Spaceship>, p: Planet, c: Resource): int
    decreases |arrivals|
  {
    if arrivals == [] then 0
    else
      var last := arrivals[|arrivals| - 1];
      Credited(arrivals[..|arrivals| - 1], p, c) + (if last.destination == p then Get(last.payload, c) else 0)
  }

  /** A planet's store after each ship of `arrivals` bound for it has added
      its payload, in list order. */
  function Received(store: Ledger, arrivals: seq<Spaceship>, p: Planet): Ledger
    decreases |arrivals|
  {
    if arrivals == [] then store
    else
      var last := arrivals[|arrivals| - 1];
      var front := Received(store, arrivals[..|arrivals| - 1], p);
      if last.destination == p then Add(front, last.payload) else front
  }

  /** One more arrival adds its payload if it is bound for the planet. */
  lemma ReceivedSnoc(store: Ledger, arrivals: seq<Spaceship>, s: Spaceship, p: Planet)
    ensures Received(store, arrivals + [s], p) ==
      if s.destination == p then Add(Received(store, arrivals, p), s.payload) else Received(store, arrivals, p)
  {
    assert (arrivals + [s])[..|arrivals|] == arrivals;
  }

  /** Each category of the received store is the old amount plus exactly the
      payloads of the arrivals bound for the planet, each counted once. */
  lemma {:induction false} ReceivedCredits(store: Ledger, arrivals: seq<Spaceship>, p: Planet, c: Resource)
    ensures Get(Received(store, arrivals, p), c) == Get(store, c) + Credited(arrivals, p, c)
    decreases |arrivals|
  {
    if arrivals != [] {
      ReceivedCredits(store, arrivals[..|arrivals| - 1], p, c);
    }
  }

  /** Receiving keeps a store that lists every category. */
  lemma {:induction false} ReceivedTotal(store: Ledger, arrivals: seq<Spaceship>, p: Planet)
    requires Total(store)
    ensures Total(Received(store, arrivals, p))
    decreases |arrivals|
  {
    if arrivals != [] {
      ReceivedTotal(store, arrivals[..|arrivals| - 1], p);
    }
  }

  /** A ship of the game: its id was handed out by the counter, it flies
      between planets of the game and has not been delivered. */
  predicate InService(s: Spaceship, planets: seq<Planet>, next: nat) {
    s.id < next && s.sender in planets && s.destination in planets && !s.delivered
  }

  /** The ships of a game, in flight and queued: unique ids, all in
      service. */
  predicate FleetOk(ships: seq<Spaceship>, planets: seq<Planet>, next: nat) {
    UniqueIds(ships) && forall s | s in ships :: InService(s, planets, next)
  }

  /** Any part of a sound fleet, in any order, is sound. */
  lemma FleetOkSub(a: seq<Spaceship>, b: seq<Spaceship>, planets: seq<Planet>, next: nat)
    requires multiset(a) <= multiset(b) && FleetOk(b, planets, next)
    ensures FleetOk(a, planets, next)
  {
    UniqueIdsSub(a, b);
    forall s | s in a ensures InService(s, planets, next) {
      assert s in multiset(b);
    }
  }

  /** A ship launched with the counter's next id joins a sound fleet without
      clashing with any ship in it, and the fleet stays sound once the
      counter has moved on. */
  lemma {:induction false} FleetLaunch(ships: seq<Spaceship>, planets: seq<Planet>, next: nat, s: Spaceship)
    requires FleetOk(ships, planets, next)
    requires s.id == next && s.sender in planets && s.destination in planets && !s.delivered
    ensures FleetOk(ships + [s], planets, next + 1)
  {
    var all := ships + [s];
    assert all[..|all| - 1] == ships;
    forall k | 0 <= k < |all| - 1 ensures all[k].id != s.id {
      assert all[k] in ships;
    }
  }

  /** A ship launched with the counter's next id and queued keeps a sound
      fleet sound once the counter has moved on, whatever order the queued
      ships are listed in. */
  lemma FleetEnqueue(ships: seq<Spaceship>, queued: seq<Spaceship>, queued': seq<Spaceship>,
                     planets: seq<Planet>, next: nat, s: Spaceship)
    requires FleetOk(ships + queued, planets, next)
    requires multiset(queued') == multiset(queued) + multiset{s}
    requires s.id == next && s.sender in planets && s.destination in planets && !s.delivered
    ensures FleetOk(ships + queued', planets, next + 1)
  {
    FleetLaunch(ships + queued, planets, next, s);
    assert multiset(ships + queued') == multiset(ships + queued + [s]);
    FleetOkSub(ships + queued', ships + queued + [s], planets, next + 1);
  }

  /** The sweep's search (`game.cpp`): the first position holding a ship with
      the given id, or -1. */
  method IndexOfId(ships: seq<Spaceship>, id: nat) returns (index: int)
    ensures -1 <= index < |ships|
    ensures index == -1 <==> forall s :: s in ships ==> s.id != id
    ensures index >= 0 ==> ships[index].id == id && forall j :: 0 <= j < index ==> ships[j].id != id
  {
    index := -1;
    var i := 0;
    while i < |ships|
      invariant 0 <= i <= |ships|
      invariant forall j :: 0 <= j < i ==> ships[j].id != id
    {
      if ships[i].id == id {
        index := i;
        return;
      }
      i := i + 1;
    }
  }
}
