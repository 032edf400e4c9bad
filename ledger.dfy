/** The resource ledger (`Resources`) that every planet owns and every ship
    carries as its payload. The store is a map from category to quantity in
    which a missing category reads as 0, as `std::map::operator[]` does. */
module Ledgers {

  datatype Resource = Population | Species | Metal | Wood | Water | Food | Weaponary

  const AllResources: set<Resource> := {Population, Species, Metal, Wood, Water, Food, Weaponary}

  type Ledger = map<Resource, int>

  /** The quantity of one category; absent categories hold 0. */
  function Get(l: Ledger, c: Resource): int {
    if c in l then l[c] else 0
  }

  /** A ledger that stores every category explicitly (a planet's store). */
  predicate Total(l: Ledger) {
    l.Keys == AllResources
  }

  lemma EveryResourceListed(c: Resource)
    ensures c in AllResources
  {
    match c
    case Population =>
    case Species =>
    case Metal =>
    case Wood =>
    case Water =>
    case Food =>
    case Weaponary =>
  }

  /** Overwrites one category (`store[c] = v`). */
  function Set(l: Ledger, c: Resource, v: int): (r: Ledger)
    ensures Get(r, c) == v
    ensures forall d :: d != c ==> Get(r, d) == Get(l, d)
    ensures Total(l) ==> Total(r)
  {
    EveryResourceListed(c);
    l[c := v]
  }

  /** `a + b`: the per-category sum, stored for every category. */
  function Add(a: Ledger, b: Ledger): (r: Ledger)
    ensures Total(r)
    ensures forall c :: Get(r, c) == Get(a, c) + Get(b, c)
  {
    forall c ensures c in AllResources { EveryResourceListed(c); }
    map c | c in AllResources :: Get(a, c) + Get(b, c)
  }

  /** `a - b`: the per-category difference, without clamping at zero. */
  function Sub(a: Ledger, b: Ledger): (r: Ledger)
    ensures Total(r)
    ensures forall c :: Get(r, c) == Get(a, c) - Get(b, c)
  {
    forall c ensures c in AllResources { EveryResourceListed(c); }
    map c | c in AllResources :: Get(a, c) - Get(b, c)
  }

  /** Crediting back what was debited restores a stored ledger exactly: the
      round trip of a ship's launch debit and its delivery credit. */
  lemma SubThenAdd(a: Ledger, b: Ledger)
    requires Total(a)
    ensures Add(Sub(a, b), b) == a
  {
    var r := Add(Sub(a, b), b);
    forall c | c in AllResources ensures c in r && r[c] == a[c] {
      assert Get(r, c) == Get(a, c);
    }
  }
}
