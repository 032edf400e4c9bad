/** Planet names (`Planet::randomName`) and the names of their inhabitants
    (`Planet::getInhabitantName`). The C library's `rand()` is an explicit
    stream: `rand(k)` is the value returned by the k-th call. */
module Names {
  import opened Configuration

  const Vowels: seq<char> := ['a', 'e', 'i', 'o', 'u']

  /** Some consonants are left out because they make poor names. */
  const Consonants: seq<char> :=
    ['b', 'c', 'd', 'f', 'g', 'k', 'l', 'm', 'n', 'p', 'q', 'r', 's', 't', 'v', 'z']

  /** What the vowel–consonant loop leaves behind: the letters it appended,
      its final counter `i`, and the index of the next `rand()` call. */
  datatype Run = Run(text: string, counter: int, next: nat)

  /** Whether the pass of the vowel–consonant loop at counter `i`, which
      draws `k` and `k + 1`, adds a `u`: its consonant is a `q` and the pass
      starts at least three letters before the budget (`i + 2 < letters`). */
  predicate AddsU(rand: nat -> nat, k: nat, i: int, letters: int) {
    ConsonantDraw(rand(k + 1)) == 'q' && i + 2 < letters
  }

  /** The letters one pass appends. */
  function Pass(rand: nat -> nat, k: nat, i: int, letters: int): string {
    [VowelDraw(rand(k)), ConsonantDraw(rand(k + 1))] + (if AddsU(rand, k, i, letters) then ['u'] else [])
  }

  /** The counter after one pass: 2 more, and 1 more again for a `u`. */
  function Advance(rand: nat -> nat, k: nat, i: int, letters: int): int {
    if AddsU(rand, k, i, letters) then i + 3 else i + 2
  }

  /** The vowel–consonant loop, entered with counter `i` and next draw `k`,
      run to the end. */
  function PairLoop(rand: nat -> nat, k: nat, i: int, letters: int): Run
    decreases letters - i
  {
    if i >= letters then Run([], i, k)
    else
      var rest := PairLoop(rand, k + 2, Advance(rand, k, i, letters), letters);
      Run(Pass(rand, k, i, letters) + rest.text, rest.counter, rest.next)
  }

  /** `vowels[rand() % sizeof(vowels)]` */
  function VowelDraw(r: nat): char
  {
    Vowels[r % |Vowels|]
  }

  /** `consonants[rand() % sizeof(consonants)]` */
  function ConsonantDraw(r: nat): char
  {
    Consonants[r % |Consonants|]
  }

  // The draws of one name, in the order the source makes them.

  /** The letter budget: `rand() % 4 + 4`. */
  function Letters(rand: nat -> nat): int {
    rand(0) % 4 + 4
  }

  function HasLead(rand: nat -> nat): bool {
    rand(1) < RAND_MAX / 2
  }

  /** The optional leading consonant. */
  function Lead(rand: nat -> nat): string {
    if HasLead(rand) then [ConsonantDraw(rand(2))] else []
  }

  /** The vowel–consonant pairs. */
  function Pairs(rand: nat -> nat): Run {
    PairLoop(rand, if HasLead(rand) then 3 else 2, 0, Letters(rand))
  }

  /** The `-ia` suffix, added a quarter of the time. */
  function Suffix(rand: nat -> nat): string {
    if rand(Pairs(rand).next) < RAND_MAX / 4 then "ia" else ""
  }

  function LowerName(rand: nat -> nat): string {
    Lead(rand) + Pairs(rand).text + Suffix(rand)
  }

  /** `name[0] -= 32`: the ASCII upper-case form of a lower-case first letter. */
  function Capitalise(s: string): (r: string)
    requires |s| > 0 && 'a' <= s[0] <= 'z'
    ensures |r| == |s| && r[1..] == s[1..]
    ensures 'A' <= r[0] <= 'Z' && r[0] as int + 32 == s[0] as int
  {
    s[0 := (s[0] as int - 32) as char]
  }

  /** Vowel–consonant pairs in which a `q` is followed by a `u` unless it is
      the last letter. */
  ghost predicate IsPairs(t: string)
    decreases |t|
  {
    if t == [] then true
    else
      && |t| >= 2 && t[0] in Vowels && t[1] in Consonants
      && if t[1] == 'q' && |t| > 2 then t[2] == 'u' && IsPairs(t[3..]) else IsPairs(t[2..])
  }

  lemma {:induction false} PairLoopCounter(rand: nat -> nat, k: nat, i: int, letters: int)
    requires i <= letters + 1
    ensures var r := PairLoop(rand, k, i, letters);
      && letters <= r.counter <= letters + 1
      && |r.text| == r.counter - i
      && k <= r.next
    decreases letters - i
  {
    if i < letters {
      var c := ConsonantDraw(rand(k + 1));
      if c == 'q' && i + 2 < letters {
        PairLoopCounter(rand, k + 2, i + 3, letters);
      } else {
        PairLoopCounter(rand, k + 2, i + 2, letters);
      }
    }
  }

  lemma {:induction false} PairLoopShape(rand: nat -> nat, k: nat, i: int, letters: int)
    ensures IsPairs(PairLoop(rand, k, i, letters).text)
    ensures i < letters ==> |PairLoop(rand, k, i, letters).text| >= 2
    decreases letters - i
  {
    if i < letters {
      var v := VowelDraw(rand(k));
      var c := ConsonantDraw(rand(k + 1));
      if c == 'q' && i + 2 < letters {
        var rest := PairLoop(rand, k + 2, i + 3, letters);
        PairLoopShape(rand, k + 2, i + 3, letters);
        assert ([v, c, 'u'] + rest.text)[3..] == rest.text;
      } else {
        var rest := PairLoop(rand, k + 2, i + 2, letters);
        PairLoopShape(rand, k + 2, i + 2, letters);
        assert ([v, c] + rest.text)[2..] == rest.text;
      }
    }
  }

  /** A pass that starts fewer than three letters before the budget
      (`i + 2 >= letters`) adds no `u`, even after a `q`: it appends its
      vowel and its consonant and nothing else, and it ends the loop. */
  lemma {:induction false} FinalPassNoU(rand: nat -> nat, k: nat, i: int, letters: int)
    requires i < letters <= i + 2
    ensures PairLoop(rand, k, i, letters).text == [VowelDraw(rand(k)), ConsonantDraw(rand(k + 1))]
    ensures PairLoop(rand, k, i, letters).counter == i + 2
  {
    assert !AddsU(rand, k, i, letters);
    assert PairLoop(rand, k + 2, i + 2, letters).text == [];
  }

  /** A leading consonant gets no `u`, even a `q`: the next letter is the
      vowel of the first pair, drawn right after it. */
  lemma LeadGetsNoU(rand: nat -> nat)
    requires HasLead(rand)
    ensures LowerName(rand)[0] == ConsonantDraw(rand(2))
    ensures LowerName(rand)[1] == VowelDraw(rand(3))
  {
    var t := Pairs(rand).text;
    assert t[0] == VowelDraw(rand(3));
    assert LowerName(rand) == ([ConsonantDraw(rand(2))] + t) + Suffix(rand);
  }

  /** A `q` inside the pairs is always followed by a `u`, unless it is the
      last letter of the pairs. */
  lemma {:induction false} PairsQu(t: string, j: int)
    requires IsPairs(t)
    requires 0 <= j < |t| - 1 && t[j] == 'q'
    ensures t[j + 1] == 'u'
    decreases |t|
  {
    assert t[0] != 'q';
    if t[1] == 'q' && |t| > 2 {
      if j > 2 { PairsQu(t[3..], j - 3); }
    } else if j > 1 {
      PairsQu(t[2..], j - 2);
    }
  }

  /** Non-empty pairs end in a consonant or in the `u` after a `q`. */
  lemma {:induction false} PairsLast(t: string)
    requires IsPairs(t) && t != []
    ensures t[|t| - 1] in Consonants || t[|t| - 1] == 'u'
    decreases |t|
  {
    if t[1] == 'q' && |t| > 2 {
      if |t| > 3 { PairsLast(t[3..]); }
    } else if |t| > 2 {
      PairsLast(t[2..]);
    }
  }

  lemma Lowercase(c: char)
    requires c in Vowels || c in Consonants
    ensures 'a' <= c <= 'z'
  {
  }

  /** The lower-case name has at least one pair, and so at least two letters,
      and it starts with a letter of the two alphabets. */
  lemma LowerNameStart(rand: nat -> nat)
    ensures |LowerName(rand)| >= 2
    ensures LowerName(rand)[0] in Vowels || LowerName(rand)[0] in Consonants
  {
    var t := Pairs(rand).text;
    PairLoopShape(rand, if HasLead(rand) then 3 else 2, 0, Letters(rand));
    assert |t| >= 2 && t[0] in Vowels;
    var lower := LowerName(rand);
    if HasLead(rand) {
      assert lower[0] == Lead(rand)[0];
    } else {
      assert lower[0] == t[0];
    }
  }

  function GeneratedName(rand: nat -> nat): (name: string)
    ensures |name| >= 2
  {
    LowerNameStart(rand);
    Lowercase(LowerName(rand)[0]);
    Capitalise(LowerName(rand))
  }

  /** The letter budget is in [4, 7] and the pairs cover it, one letter over
      when a `u` lands last; the loop's counter ends in the same range. */
  lemma LetterBudget(rand: nat -> nat)
    ensures 4 <= Letters(rand) <= 7
    ensures Letters(rand) <= Pairs(rand).counter <= Letters(rand) + 1
    ensures |Pairs(rand).text| == Pairs(rand).counter
  {
    PairLoopCounter(rand, if HasLead(rand) then 3 else 2, 0, Letters(rand));
  }

  /** Every generated name is an optional leading consonant, then
      vowel–consonant pairs, then an optional `-ia`, with its first letter in
      upper case. */
  lemma NameParts(rand: nat -> nat)
    ensures |Lead(rand)| <= 1 && (HasLead(rand) ==> Lead(rand)[0] in Consonants)
    ensures IsPairs(Pairs(rand).text) && |Pairs(rand).text| >= 2
    ensures Suffix(rand) in {"", "ia"}
    ensures GeneratedName(rand)[1..] == LowerName(rand)[1..]
  {
    PairLoopShape(rand, if HasLead(rand) then 3 else 2, 0, Letters(rand));
  }

  lemma CapitalInitial(rand: nat -> nat)
    ensures 'A' <= GeneratedName(rand)[0] <= 'Z'
    ensures (GeneratedName(rand)[0] as int + 32) as char in Vowels + Consonants
  {
    LowerNameStart(rand);
  }

  /** Capitalising leaves the last letter of a name of two or more letters. */
  lemma CapitaliseKeepsLast(s: string)
    requires |s| >= 2 && 'a' <= s[0] <= 'z'
    ensures Capitalise(s)[|s| - 1] == s[|s| - 1]
  {
    assert Capitalise(s)[1..][|s| - 2] == s[1..][|s| - 2];
  }

  /** The lower-case name ends in `a` exactly when it took the suffix: the
      pairs end in a consonant or a `u`. */
  lemma LowerNameEndsInA(rand: nat -> nat)
    ensures var lower := LowerName(rand);
      |lower| >= 2 && (lower[|lower| - 1] == 'a' <==> Suffix(rand) == "ia")
  {
    LowerNameStart(rand);
    var lower := LowerName(rand);
    var t := Pairs(rand).text;
    if Suffix(rand) == "ia" {
      assert lower == (Lead(rand) + t) + "ia";
      assert lower[|lower| - 1] == 'a';
    } else {
      NameParts(rand);
      PairsLast(t);
      assert lower == Lead(rand) + t;
      assert lower[|lower| - 1] == t[|t| - 1];
      NotA(t[|t| - 1]);
    }
  }

  lemma NotA(c: char)
    requires c in Consonants || c == 'u'
    ensures c != 'a'
  {
  }

  /** A generated name ends in `a` exactly when it got the `-ia` suffix,
      which is what the demonym rule relies on. */
  lemma GeneratedEndsInA(rand: nat -> nat)
    ensures var name := GeneratedName(rand);
      name[|name| - 1] == 'a' <==> Suffix(rand) == "ia"
  {
    LowerNameStart(rand);
    Lowercase(LowerName(rand)[0]);
    CapitaliseKeepsLast(LowerName(rand));
    LowerNameEndsInA(rand);
  }

  /** One pass of the vowel–consonant loop of `Planet::randomName`. */
  method AppendPass(rand: nat -> nat, k: nat, i: int, letters: int, name: string)
    returns (name': string, k': nat, i': int)
    ensures name' == name + Pass(rand, k, i, letters)
    ensures k' == k + 2 && i' == Advance(rand, k, i, letters)
  {
    name' := name + [VowelDraw(rand(k))];
    name' := name' + [ConsonantDraw(rand(k + 1))];
    k' := k + 2;
    i' := i;
    if name'[|name'| - 1] == 'q' && i' + 2 < letters {
      name' := name' + ['u'];
      i' := i' + 1;
    }
    i' := i' + 2;
  }

  /** What is left of the loop's text after one more pass. */
  lemma PassSplits(rand: nat -> nat, k: nat, i: int, letters: int, whole: string, name: string)
    requires i < letters && whole == name + PairLoop(rand, k, i, letters).text
    ensures var rest := PairLoop(rand, k + 2, Advance(rand, k, i, letters), letters);
      && whole == (name + Pass(rand, k, i, letters)) + rest.text
      && rest.next == PairLoop(rand, k, i, letters).next
  {
    var rest := PairLoop(rand, k + 2, Advance(rand, k, i, letters), letters);
    assert whole == name + (Pass(rand, k, i, letters) + rest.text);
  }

  /** The vowel–consonant loop of `Planet::randomName`, appending to `prefix`
      from draw `k0` on. */
  method AppendPairs(rand: nat -> nat, k0: nat, letters: nat, prefix: string)
    returns (name: string, k: nat)
    ensures name == prefix + PairLoop(rand, k0, 0, letters).text
    ensures k == PairLoop(rand, k0, 0, letters).next
  {
    name := prefix;
    k := k0;
    ghost var whole := prefix + PairLoop(rand, k0, 0, letters).text;
    var i := 0;
    while i < letters
      invariant whole == name + PairLoop(rand, k, i, letters).text
      invariant PairLoop(rand, k, i, letters).next == PairLoop(rand, k0, 0, letters).next
      decreases letters - i
    {
      PassSplits(rand, k, i, letters, whole, name);
      name, k, i := AppendPass(rand, k, i, letters, name);
    }
  }

  /** The first draws of `Planet::randomName`: the letter budget and the
      optional leading consonant. */
  method DrawLead(rand: nat -> nat) returns (letters: nat, name: string, k: nat)
    ensures letters == Letters(rand) && name == Lead(rand)
    ensures PairLoop(rand, k, 0, letters) == Pairs(rand)
  {
    k := 0;
    letters := rand(k) % 4 + 4;
    k := k + 1;
    name := [];
    if rand(k) < RAND_MAX / 2 {
      k := k + 1;
      name := name + [ConsonantDraw(rand(k))];
    }
    k := k + 1;
  }

  /** `Planet::randomName`: builds the name from the explicit `rand()`
      stream, drawing in the same order as the source. */
  method RandomName(rand: nat -> nat) returns (name: string)
    ensures name == GeneratedName(rand)
  {
    var letters, k;
    letters, name, k := DrawLead(rand);
    name, k := AppendPairs(rand, k, letters, name);
    if rand(k) < RAND_MAX / 4 {
      name := name + "ia";
    }
    assert name == LowerName(rand);
    LowerNameStart(rand);
    Lowercase(name[0]);
    name := name[0 := (name[0] as int - 32) as char];
  }

  /** `Planet::getInhabitantName`: "N/A" for an empty planet, otherwise the
      demonym derived from the planet's name. */
  function InhabitantName(name: string, population: int): (r: string)
    requires population == 0 || |name| > 0
    ensures population == 0 ==> r == "N/A"
    ensures population != 0 ==>
      && |r| >= |name| + 2
      && r[..|name| - 1] == name[..|name| - 1]
      && r[|r| - 2..] == "ns"
    ensures population != 0 && name[|name| - 1] == 'a' ==> r == name + "ns"
    ensures population != 0 && name[|name| - 1] == 's' ==> r == name[..|name| - 1] + "tians"
    ensures population != 0 && name[|name| - 1] !in "as" ==> r == name + "ians"
  {
    if population == 0 then "N/A"
    else
      var last := name[|name| - 1];
      if last == 'a' then name + "ns"
      else (if last == 's' then name[|name| - 1 := 't'] else name) + "ians"
  }

  /** For a non-negative population the demonym is "N/A" exactly when the
      planet is uninhabited (`isInhabited` is `population > 0`). */
  lemma DemonymMarksInhabited(name: string, population: int)
    requires population >= 0 && |name| > 0
    ensures population > 0 <==> InhabitantName(name, population) != "N/A"
  {
    if population > 0 {
      var r := InhabitantName(name, population);
      assert r[|r| - 1] == 's';
    }
  }

  /** Every generated name yields a demonym ending in "ians", whether it
      took the `-ia` suffix or not. */
  lemma GeneratedDemonym(rand: nat -> nat, population: int)
    requires population != 0
    ensures var r := InhabitantName(GeneratedName(rand), population);
      |r| >= 4 && r[|r| - 4..] == "ians"
  {
    var name := GeneratedName(rand);
    GeneratedEndsInA(rand);
    if Suffix(rand) == "ia" {
      var lower := LowerName(rand);
      assert name[|name| - 2] == lower[|lower| - 2] == 'i';
    }
  }
}
