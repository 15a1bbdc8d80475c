/** Value-level definitions of what the deck operations compute: the canonical
    card set, the pristine check, first-match removal, the index-swapping shuffle,
    sorting by a key and face-up updates, with the lemmas that relate them. */
module DeckSpec {
  import opened Cards

  // ----- Card numbers -----

  /** The card numbers of a sequence of cards, in order. */
  function Numbers(s: seq<Card>): (ns: seq<CardNumber>)
    ensures |ns| == |s|
  {
    seq(|s|, i requires 0 <= i < |s| => s[i].number)
  }

  lemma NumbersConcat(a: seq<Card>, b: seq<Card>)
    ensures Numbers(a + b) == Numbers(a) + Numbers(b)
  {
    assert forall i :: 0 <= i < |a + b| ==> Numbers(a + b)[i] == (Numbers(a) + Numbers(b))[i];
  }

  /** Taking out the element at k takes one copy of it out of the multiset. */
  lemma MultisetRemoveAt<T>(s: seq<T>, k: nat)
    requires k < |s|
    ensures multiset(s[..k] + s[k + 1..]) == multiset(s) - multiset{s[k]}
  {
    assert s == s[..k] + [s[k]] + s[k + 1..];
  }

  /** The last two parts of a multiset sum can trade places. */
  lemma MultisetSwap<T>(a: multiset<T>, b: multiset<T>, c: multiset<T>)
    ensures (a + b) + c == (a + c) + b
  {
    forall y ensures ((a + b) + c)[y] == ((a + c) + b)[y] {
    }
  }

  /** A common part added to both sides cancels. */
  lemma MultisetCancel<T>(a: multiset<T>, b: multiset<T>, m: multiset<T>)
    requires a + m == b + m
    ensures a == b
  {
    forall y ensures a[y] == b[y] {
      assert (a + m)[y] == (b + m)[y];
    }
  }

  /** Rearranging cards rearranges their numbers the same way. */
  lemma {:induction false} NumbersOfPermutation(a: seq<Card>, b: seq<Card>)
    requires multiset(a) == multiset(b)
    ensures multiset(Numbers(a)) == multiset(Numbers(b))
    decreases |a|
  {
    if a == [] {
      assert |b| == |multiset(b)| == 0;
    } else {
      var x := a[0];
      assert x in multiset(b);
      var k :| 0 <= k < |b| && b[k] == x;
      var rest := b[..k] + b[k + 1..];
      assert b == b[..k] + [x] + b[k + 1..];
      assert a == [x] + a[1..];
      MultisetRemoveAt(a, 0);
      assert a[..0] + a[1..] == a[1..];
      MultisetRemoveAt(b, k);
      NumbersOfPermutation(a[1..], rest);
      NumbersConcat([x], a[1..]);
      NumbersConcat(b[..k], [x]);
      NumbersConcat(b[..k] + [x], b[k + 1..]);
      NumbersConcat(b[..k], b[k + 1..]);
    }
  }

  /** Sum of f over a sequence of card numbers (recursion on the last element, so
      that a left-to-right loop extends a prefix). */
  function SumOver(ns: seq<CardNumber>, f: CardNumber -> int): int
  {
    if ns == [] then 0 else SumOver(ns[..|ns| - 1], f) + f(ns[|ns| - 1])
  }

  lemma {:induction false} SumOverConcat(a: seq<CardNumber>, b: seq<CardNumber>, f: CardNumber -> int)
    ensures SumOver(a + b, f) == SumOver(a, f) + SumOver(b, f)
    decreases |b|
  {
    if b == [] {
      assert a + b == a;
    } else {
      assert (a + b)[..|a + b| - 1] == a + b[..|b| - 1];
      SumOverConcat(a, b[..|b| - 1], f);
    }
  }

  /** A sum over card numbers does not depend on their order. */
  lemma {:induction false} SumOverPermutation(a: seq<CardNumber>, b: seq<CardNumber>, f: CardNumber -> int)
    requires multiset(a) == multiset(b)
    ensures SumOver(a, f) == SumOver(b, f)
    decreases |a|
  {
    if a == [] {
      assert |b| == |multiset(b)| == 0;
    } else {
      var x := a[|a| - 1];
      var init := a[..|a| - 1];
      assert a == init + [x];
      assert x in multiset(b);
      var k :| 0 <= k < |b| && b[k] == x;
      var rest := b[..k] + b[k + 1..];
      assert b == b[..k] + [x] + b[k + 1..];
      MultisetRemoveAt(a, |a| - 1);
      assert a[..|a| - 1] + a[|a|..] == init;
      MultisetRemoveAt(b, k);
      SumOverPermutation(init, rest, f);
      SumOverConcat(init, [x], f);
      SumOverConcat(b[..k] + [x], b[k + 1..], f);
      SumOverConcat(b[..k], [x], f);
      SumOverConcat(b[..k], b[k + 1..], f);
      assert SumOver([x], f) == f(x) by { assert [x][..0] == []; }
    }
  }

  /** The number of cards whose number is n; the model of a FindAll(...).Count. */
  function CountNumber(s: seq<Card>, n: int): (count: nat)
    ensures count == multiset(Numbers(s))[n]
  {
    if s == [] then 0
    else
      assert Numbers(s) == Numbers(s[..|s| - 1]) + [s[|s| - 1].number] by {
        NumbersConcat(s[..|s| - 1], [s[|s| - 1]]);
        assert s == s[..|s| - 1] + [s[|s| - 1]];
      }
      CountNumber(s[..|s| - 1], n) + (if s[|s| - 1].number == n then 1 else 0)
  }

  // ----- The canonical deck -----

  /** The 52 standard cards in number order, face down. */
  function Standard52(): (s: seq<Card>)
    ensures |s| == 52
  {
    seq(52, i requires 0 <= i < 52 => Card(i + 1, false))
  }

  /** What a populated deck holds: the 52 standard cards, then two Jokers if allowed. */
  function Canonical(jokers: bool): (s: seq<Card>)
    ensures |s| == if jokers then 54 else 52
  {
    Standard52() + (if jokers then [Card(JokerNum, false), Card(JokerNum, false)] else [])
  }

  /** The shared static card list: numbers 1..53 and then a second Joker. */
  const DefaultCards: seq<Card> := seq(53, i requires 0 <= i < 53 => Card(i + 1, false)) + [Card(JokerNum, false)]

  /** The cards of `ps` that a deck with the given Joker setting takes over. */
  function KeepAllowed(ps: seq<Card>, jokers: bool): seq<Card>
  {
    if ps == [] then []
    else KeepAllowed(ps[..|ps| - 1], jokers)
         + (if IsJoker(ps[|ps| - 1]) && !jokers then [] else [ps[|ps| - 1]])
  }

  lemma {:induction false} KeepAllowedConcat(a: seq<Card>, b: seq<Card>, jokers: bool)
    ensures KeepAllowed(a + b, jokers) == KeepAllowed(a, jokers) + KeepAllowed(b, jokers)
    decreases |b|
  {
    if b == [] {
      assert a + b == a;
    } else {
      assert (a + b)[..|a + b| - 1] == a + b[..|b| - 1];
      KeepAllowedConcat(a, b[..|b| - 1], jokers);
    }
  }

  lemma {:induction false} KeepAllowedNoJokers(ps: seq<Card>, jokers: bool)
    requires forall i :: 0 <= i < |ps| ==> !IsJoker(ps[i])
    ensures KeepAllowed(ps, jokers) == ps
    decreases |ps|
  {
    if ps != [] {
      KeepAllowedNoJokers(ps[..|ps| - 1], jokers);
    }
  }

  /** Filtering the static list by the Joker setting gives the canonical deck. */
  lemma StaticCardsAreCanonical(jokers: bool)
    ensures KeepAllowed(DefaultCards, jokers) == Canonical(jokers)
  {
    var j := Card(JokerNum, false);
    assert DefaultCards == Standard52() + [j] + [j];
    KeepAllowedConcat(Standard52() + [j], [j], jokers);
    KeepAllowedConcat(Standard52(), [j], jokers);
    KeepAllowedNoJokers(Standard52(), jokers);
    assert KeepAllowed([j], jokers) == (if jokers then [j] else []) by {
      assert [j][..0] == [];
    }
  }

  // ----- The pristine check -----

  /** IsPristine: the right count, every standard number present, and with Jokers
      allowed exactly two Jokers. */
  predicate Pristine(s: seq<Card>, jokers: bool)
  {
    && |s| == (if jokers then 54 else 52)
    && (forall n :: CardNumMin <= n <= CardNumMax ==> n in Numbers(s))
    && (jokers ==> CountNumber(s, JokerNum) == 2)
  }

  predicate Distinct<T(==)>(ns: seq<T>)
  {
    forall i, j :: 0 <= i < j < |ns| ==> ns[i] != ns[j]
  }

  /** ns without any occurrence of x. */
  function Without<T(==)>(ns: seq<T>, x: T): (w: seq<T>)
    ensures multiset(w) == multiset(ns)[x := 0]
    ensures |w| == |ns| - multiset(ns)[x]
  {
    if ns == [] then []
    else
      assert ns == [ns[0]] + ns[1..];
      (if ns[0] == x then [] else [ns[0]]) + Without(ns[1..], x)
  }

  /** Pigeonhole: a sequence as long as a duplicate-free one that contains all of its
      elements is a rearrangement of it. */
  lemma {:induction false} DistinctCover<T>(ns: seq<T>, r: seq<T>)
    requires |ns| == |r| && Distinct(r)
    requires forall x :: x in r ==> x in ns
    ensures multiset(ns) == multiset(r)
    decreases |r|
  {
    if r == [] {
      assert ns == [];
    } else {
      var x := r[0];
      assert x in ns;
      var k :| 0 <= k < |ns| && ns[k] == x;
      var rest := ns[..k] + ns[k + 1..];
      assert ns == ns[..k] + [x] + ns[k + 1..];
      forall y | y in r[1..]
        ensures y in rest
      {
        var m :| 1 <= m < |r| && r[m] == y;
        assert y != x;
        assert y in r;
        var q :| 0 <= q < |ns| && ns[q] == y;
        if q < k { assert rest[q] == y; } else { assert rest[q - 1] == y; }
      }
      assert Distinct(r[1..]);
      DistinctCover(rest, r[1..]);
      assert r == [x] + r[1..];
    }
  }

  lemma StandardNumbers()
    ensures forall i :: 0 <= i < 52 ==> Numbers(Standard52())[i] == i + 1
    ensures Distinct(Numbers(Standard52()))
    ensures forall n :: n in Numbers(Standard52()) <==> CardNumMin <= n <= CardNumMax
  {
    var ns := Numbers(Standard52());
    forall n | CardNumMin <= n <= CardNumMax ensures n in ns {
      assert ns[n - 1] == n;
    }
  }

  /** With the Jokers counted out, a pristine deck holds each standard number once. */
  lemma PristineToCanonical(s: seq<Card>, jokers: bool)
    requires Pristine(s, jokers)
    ensures multiset(Numbers(s)) == multiset(Numbers(Canonical(jokers)))
  {
    var ns: seq<CardNumber> := Numbers(s);
    var std: seq<CardNumber> := Numbers(Standard52());
    StandardNumbers();
    NumbersConcat(Standard52(), if jokers then [Card(JokerNum, false), Card(JokerNum, false)] else []);
    if jokers {
      var w: seq<CardNumber> := Without<CardNumber>(ns, JokerNum);
      forall y | y in std ensures y in w {
        assert CardNumMin <= y <= CardNumMax;
        assert y in ns;
        assert multiset(w)[y] == multiset(ns)[y];
      }
      DistinctCover(w, std);
      var cn: seq<CardNumber> := Numbers(Canonical(jokers));
      assert cn == std + [JokerNum, JokerNum];
      assert multiset(ns)[JokerNum] == 2;
      var j: CardNumber := JokerNum;
      assert multiset(ns) == multiset(w) + multiset{j, j};
    } else {
      forall y | y in std ensures y in ns {
        assert CardNumMin <= y <= CardNumMax;
      }
      DistinctCover(ns, std);
    }
  }

  lemma CanonicalToPristine(s: seq<Card>, jokers: bool)
    requires multiset(Numbers(s)) == multiset(Numbers(Canonical(jokers)))
    ensures Pristine(s, jokers)
  {
    var ns: seq<CardNumber> := Numbers(s);
    var std: seq<CardNumber> := Numbers(Standard52());
    var cn: seq<CardNumber> := Numbers(Canonical(jokers));
    StandardNumbers();
    NumbersConcat(Standard52(), if jokers then [Card(JokerNum, false), Card(JokerNum, false)] else []);
    assert |s| == |ns| == |multiset(ns)| == |multiset(cn)| == |cn|;
    forall n | CardNumMin <= n <= CardNumMax ensures n in ns {
      assert n in std;
      assert n in multiset(cn);
    }
    if jokers {
      assert cn == std + [JokerNum, JokerNum];
      assert JokerNum !in std;
      assert multiset(cn)[JokerNum] == 2;
    }
  }

  /** The pristine check holds exactly when the deck holds the canonical multiset of numbers. */
  lemma PristineIffCanonical(s: seq<Card>, jokers: bool)
    ensures Pristine(s, jokers) <==> multiset(Numbers(s)) == multiset(Numbers(Canonical(jokers)))
  {
    if Pristine(s, jokers) {
      PristineToCanonical(s, jokers);
    }
    if multiset(Numbers(s)) == multiset(Numbers(Canonical(jokers))) {
      CanonicalToPristine(s, jokers);
    }
  }

  /** A freshly populated deck is pristine. */
  lemma CanonicalIsPristine(jokers: bool)
    ensures Pristine(Canonical(jokers), jokers)
  {
    PristineIffCanonical(Canonical(jokers), jokers);
  }

  /** Only the multiset of numbers matters to the pristine check. */
  lemma PristinePermutation(s: seq<Card>, t: seq<Card>, jokers: bool)
    requires multiset(Numbers(s)) == multiset(Numbers(t))
    ensures Pristine(s, jokers) <==> Pristine(t, jokers)
  {
    PristineIffCanonical(s, jokers);
    PristineIffCanonical(t, jokers);
  }

  // ----- First-match removal (List.Remove with the number-only equality) -----

  /** The index of the first card whose number is n, or -1 when there is none. */
  function FirstIndex(s: seq<Card>, n: CardNumber): (k: int)
    ensures -1 <= k < |s|
    ensures k == -1 <==> forall i :: 0 <= i < |s| ==> s[i].number != n
    ensures k >= 0 ==> s[k].number == n && forall i :: 0 <= i < k ==> s[i].number != n
  {
    if s == [] then -1
    else if s[0].number == n then 0
    else
      var k := FirstIndex(s[1..], n);
      if k < 0 then -1 else k + 1
  }

  /** The cards after removing the first one whose number is n (all of them when none is). */
  function RemoveFirst(s: seq<Card>, n: CardNumber): seq<Card>
  {
    var k := FirstIndex(s, n);
    if k < 0 then s else s[..k] + s[k + 1..]
  }

  lemma NumbersRemoveAt(s: seq<Card>, k: nat)
    requires k < |s|
    ensures Numbers(s[..k] + s[k + 1..]) == Numbers(s)[..k] + Numbers(s)[k + 1..]
  {
    var t := s[..k] + s[k + 1..];
    forall i | 0 <= i < |t|
      ensures Numbers(t)[i] == (Numbers(s)[..k] + Numbers(s)[k + 1..])[i]
    {
      if i >= k {
        assert t[i] == s[i + 1];
      }
    }
  }

  /** Removal takes out exactly one card with number n when there is one, the first
      such, and changes nothing otherwise. */
  lemma RemoveFirstSpec(s: seq<Card>, n: CardNumber)
    ensures (n in Numbers(s)) == (FirstIndex(s, n) >= 0)
    ensures n !in Numbers(s) ==> RemoveFirst(s, n) == s
    ensures n in Numbers(s) ==>
      var k := FirstIndex(s, n);
      && |RemoveFirst(s, n)| == |s| - 1
      && RemoveFirst(s, n) == s[..k] + s[k + 1..]
      && multiset(RemoveFirst(s, n)) == multiset(s) - multiset{s[k]}
      && multiset(Numbers(RemoveFirst(s, n))) == multiset(Numbers(s)) - multiset{n}
  {
    var k := FirstIndex(s, n);
    if k >= 0 {
      assert Numbers(s)[k] == n;
      MultisetRemoveAt(s, k);
      NumbersRemoveAt(s, k);
      MultisetRemoveAt(Numbers(s), k);
    }
  }

  // ----- Face-up updates -----

  /** The same cards, all turned to the given side. */
  function FacedAs(s: seq<Card>, up: bool): (r: seq<Card>)
    ensures |r| == |s|
    ensures forall i :: 0 <= i < |r| ==> r[i].faceUp == up
    ensures Numbers(r) == Numbers(s)
  {
    seq(|s|, i requires 0 <= i < |s| => Card(s[i].number, up))
  }

  /** The same cards with the last one turned face up (the card just dealt or hit). */
  function FaceUpLast(s: seq<Card>): (r: seq<Card>)
    requires s != []
    ensures |r| == |s| && r[..|s| - 1] == s[..|s| - 1]
    ensures r[|s| - 1] == Card(s[|s| - 1].number, true)
    ensures Numbers(r) == Numbers(s)
  {
    var r := s[|s| - 1 := Card(s[|s| - 1].number, true)];
    assert forall i :: 0 <= i < |s| ==> Numbers(r)[i] == Numbers(s)[i];
    r
  }

  // ----- The shuffle -----

  /** The random indices a shuffle of n cards draws: at step i, one from [i+1, n-1]. */
  predicate ValidDraws(draws: seq<int>, n: int) {
    |draws| >= n - 1 && forall i :: 0 <= i < n - 1 ==> i + 1 <= draws[i] < n
  }

  function Swap<T>(s: seq<T>, i: nat, j: nat): (r: seq<T>)
    requires i < |s| && j < |s|
    ensures |r| == |s| && r[i] == s[j] && r[j] == s[i]
    ensures forall k :: 0 <= k < |s| && k != i && k != j ==> r[k] == s[k]
    ensures multiset(r) == multiset(s)
  {
    var r := seq(|s|, k requires 0 <= k < |s| => if k == j then s[i] else if k == i then s[j] else s[k]);
    assert r == s[i := s[j]][j := s[i]];
    r
  }

  /** Swapping is two updates, as the shuffle loop writes it. */
  lemma SwapAsUpdates<T>(s: seq<T>, i: nat, j: nat)
    requires i < |s| && j < |s|
    ensures Swap(s, i, j) == s[i := s[j]][j := s[i]]
  {
  }

  /** The shuffle from step i on: swap position i with position draws[i], for each
      i up to the second-to-last position. */
  function Shuffled<T>(s: seq<T>, draws: seq<int>, i: nat): (r: seq<T>)
    requires ValidDraws(draws, |s|)
    ensures |r| == |s|
    decreases |s| - i
  {
    if i + 1 >= |s| then s else Shuffled(Swap(s, i, draws[i]), draws, i + 1)
  }

  /** One step of the shuffle: swap position i with position draws[i]. */
  lemma ShuffledStep<T>(s: seq<T>, draws: seq<int>, i: nat)
    requires ValidDraws(draws, |s|) && i + 1 < |s|
    ensures ValidDraws(draws, |Swap(s, i, draws[i])|)
    ensures Shuffled(s, draws, i) == Shuffled(Swap(s, i, draws[i]), draws, i + 1)
  {
  }

  /** The shuffle only rearranges. */
  lemma {:induction false} ShuffledPermutes<T>(s: seq<T>, draws: seq<int>, i: nat)
    requires ValidDraws(draws, |s|)
    ensures multiset(Shuffled(s, draws, i)) == multiset(s)
    decreases |s| - i
  {
    if i + 1 < |s| {
      var t := Swap(s, i, draws[i]);
      ShuffledStep(s, draws, i);
      ShuffledPermutes(t, draws, i + 1);
      assert multiset(t) == multiset(s);
    }
  }

  /** Fewer than two cards: the shuffle returns at once. */
  lemma ShuffleSmallIsIdentity<T>(s: seq<T>, draws: seq<int>)
    requires |s| < 2
    ensures ValidDraws(draws, |s|) && Shuffled(s, draws, 0) == s
  {
  }

  /** Two cards: the only draw is 1, so the shuffle always swaps them. */
  lemma ShuffleTwoSwaps<T>(s: seq<T>, draws: seq<int>)
    requires |s| == 2 && ValidDraws(draws, 2)
    ensures Shuffled(s, draws, 0) == [s[1], s[0]]
  {
    assert Shuffled(Swap(s, 0, 1), draws, 1) == Swap(s, 0, 1);
  }

  function Iota(n: nat): (p: seq<int>)
    ensures |p| == n && forall k :: 0 <= k < n ==> p[k] == k
  {
    seq(n, k requires 0 <= k < n => k)
  }

  predicate IndicesOf<T>(p: seq<int>, s: seq<T>) {
    forall k :: 0 <= k < |p| ==> 0 <= p[k] < |s|
  }

  /** The elements of s at the positions listed in p. */
  function Gather<T>(s: seq<T>, p: seq<int>): (r: seq<T>)
    requires IndicesOf(p, s)
    ensures |r| == |p| && forall k :: 0 <= k < |p| ==> r[k] == s[p[k]]
  {
    seq(|p|, k requires 0 <= k < |p| => s[p[k]])
  }

  lemma GatherSwap<T>(s: seq<T>, p: seq<int>, i: nat, j: nat)
    requires IndicesOf(p, s) && i < |p| && j < |p|
    ensures IndicesOf(Swap(p, i, j), s)
    ensures Swap(Gather(s, p), i, j) == Gather(s, Swap(p, i, j))
  {
  }

  /** Shuffling the cards is shuffling their positions: the card at k after the
      shuffle is the card that was at position Shuffled(Iota)[k]. */
  lemma {:induction false} ShuffledGather<T>(s: seq<T>, p: seq<int>, draws: seq<int>, i: nat)
    requires IndicesOf(p, s) && ValidDraws(draws, |p|)
    ensures IndicesOf(Shuffled(p, draws, i), s)
    ensures Shuffled(Gather(s, p), draws, i) == Gather(s, Shuffled(p, draws, i))
    decreases |p| - i
  {
    if i + 1 < |p| {
      GatherSwap(s, p, i, draws[i]);
      ShuffledGather(s, Swap(p, i, draws[i]), draws, i + 1);
    }
  }

  /** The invariant of the swap loop on positions: every position before i already
      holds another position's card; from i on, a position holds its own card or one
      from before i; and the position swapped last holds one from before i. */
  lemma {:induction false} SattoloStep(p: seq<int>, draws: seq<int>, i: nat)
    requires |p| >= 2 && ValidDraws(draws, |p|) && i <= |p| - 1
    requires forall k :: 0 <= k < i ==> p[k] != k
    requires forall k :: i <= k < |p| ==> p[k] == k || p[k] < i
    requires i >= 1 ==> p[draws[i - 1]] < i
    ensures forall k :: 0 <= k < |p| ==> Shuffled(p, draws, i)[k] != k
    decreases |p| - i
  {
    if i + 1 < |p| {
      var j := draws[i];
      var q := Swap(p, i, j);
      assert q[i] != i;
      assert q[j] < i + 1;
      SattoloStep(q, draws, i + 1);
    } else {
      assert draws[i - 1] == |p| - 1;
    }
  }

  /** Because every draw excludes the current position, the shuffle leaves no card
      where it was: with two or more cards of distinct numbers, every position ends
      up holding a different card. */
  lemma ShuffleMovesEveryCard(s: seq<Card>, draws: seq<int>)
    requires |s| >= 2 && ValidDraws(draws, |s|) && Distinct(Numbers(s))
    ensures forall k :: 0 <= k < |s| ==> Shuffled(s, draws, 0)[k].number != s[k].number
  {
    var id := Iota(|s|);
    assert Gather(s, id) == s;
    SattoloStep(id, draws, 0);
    ShuffledGather(s, id, draws, 0);
    var p := Shuffled(id, draws, 0);
    assert Shuffled(s, draws, 0) == Gather(s, p);
    GatherDerangement(s, p);
  }

  /** Gathering distinct cards by a position list that fixes no position moves every card. */
  lemma GatherDerangement(s: seq<Card>, p: seq<int>)
    requires IndicesOf(p, s) && |p| == |s| && Distinct(Numbers(s))
    requires forall k :: 0 <= k < |p| ==> p[k] != k
    ensures forall k :: 0 <= k < |s| ==> Gather(s, p)[k].number != s[k].number
  {
    forall k | 0 <= k < |s|
      ensures Gather(s, p)[k].number != s[k].number
    {
      DistinctAt(Numbers(s), p[k], k);
    }
  }

  lemma DistinctAt<T>(ns: seq<T>, i: int, j: int)
    requires Distinct(ns) && 0 <= i < |ns| && 0 <= j < |ns| && i != j
    ensures ns[i] != ns[j]
  {
    if i > j {
      DistinctAt(ns, j, i);
    }
  }

  // ----- Sorting -----

  predicate SortedBy(s: seq<Card>, key: Card -> int) {
    forall i, j :: 0 <= i < j < |s| ==> key(s[i]) <= key(s[j])
  }

  /** A card no greater than any of a sorted sequence's cards can go in front. */
  lemma ConsSorted(x: Card, r: seq<Card>, key: Card -> int)
    requires SortedBy(r, key)
    requires forall y :: y in multiset(r) ==> key(x) <= key(y)
    ensures SortedBy([x] + r, key)
  {
    var t := [x] + r;
    forall i, j | 0 <= i < j < |t|
      ensures key(t[i]) <= key(t[j])
    {
      assert t[j] == r[j - 1];
      assert r[j - 1] in multiset(r);
      if i > 0 {
        assert t[i] == r[i - 1];
      }
    }
  }

  function InsertByKey(c: Card, s: seq<Card>, key: Card -> int): (r: seq<Card>)
    requires SortedBy(s, key)
    ensures SortedBy(r, key)
    ensures multiset(r) == multiset(s) + multiset{c}
    ensures |r| == |s| + 1
  {
    if |s| == 0 then [c]
    else if key(c) <= key(s[0]) then
      InsertInFront(c, s, key);
      [c] + s
    else
      var rest := InsertByKey(c, s[1..], key);
      InsertBehind(c, s, key, rest);
      [s[0]] + rest
  }

  /** A card keyed no higher than the first of a sorted sequence goes in front. */
  lemma InsertInFront(c: Card, s: seq<Card>, key: Card -> int)
    requires SortedBy(s, key) && s != [] && key(c) <= key(s[0])
    ensures SortedBy([c] + s, key)
  {
    forall y | y in multiset(s) ensures key(c) <= key(y) {
      var i :| 0 <= i < |s| && s[i] == y;
      if i > 0 {
        assert key(s[0]) <= key(s[i]);
      }
    }
    ConsSorted(c, s, key);
  }

  /** A card keyed higher than the first of a sorted sequence goes into its tail. */
  lemma InsertBehind(c: Card, s: seq<Card>, key: Card -> int, rest: seq<Card>)
    requires SortedBy(s, key) && s != [] && key(c) > key(s[0])
    requires SortedBy(rest, key) && multiset(rest) == multiset(s[1..]) + multiset{c}
    ensures SortedBy([s[0]] + rest, key)
    ensures multiset([s[0]] + rest) == multiset(s) + multiset{c}
  {
    assert s == [s[0]] + s[1..];
    forall y | y in multiset(rest) ensures key(s[0]) <= key(y) {
      if y != c {
        assert y in multiset(s[1..]);
        var i :| 0 <= i < |s[1..]| && s[1..][i] == y;
        assert s[i + 1] == y;
      }
    }
    ConsSorted(s[0], rest, key);
  }

  /** One sort that meets the library sort's contract: ordered by the key, and a
      rearrangement of its input. */
  function SortByKey(s: seq<Card>, key: Card -> int): (r: seq<Card>)
    ensures SortedBy(r, key)
    ensures multiset(r) == multiset(s)
    ensures |r| == |s|
  {
    if s == [] then []
    else
      assert s == [s[0]] + s[1..];
      InsertByKey(s[0], SortByKey(s[1..], key), key)
  }

  function ByNumber(c: Card): int { c.number }
  function ByRank(c: Card): int { Rank(c) as int }
  function BySuit(c: Card): int { Suit(c) as int }

  lemma MultisetTail<T>(s: seq<T>)
    requires s != []
    ensures multiset(s[1..]) == multiset(s) - multiset{s[0]}
  {
    assert s == [s[0]] + s[1..];
  }

  predicate Ascending(a: seq<int>) {
    forall i, j :: 0 <= i < j < |a| ==> a[i] <= a[j]
  }

  lemma AscendingHeadsEqual(a: seq<int>, b: seq<int>)
    requires Ascending(a) && Ascending(b)
    requires multiset(a) == multiset(b) && a != []
    ensures b != [] && a[0] == b[0]
  {
    assert a[0] in multiset(b);
    var i :| 0 <= i < |b| && b[i] == a[0];
    assert b[0] in multiset(a);
    var j :| 0 <= j < |a| && a[j] == b[0];
    assert b[0] <= b[i];
    assert a[0] <= a[j];
  }

  /** An ascending sequence is fixed by its multiset. */
  lemma {:induction false} AscendingUnique(a: seq<int>, b: seq<int>)
    requires Ascending(a) && Ascending(b)
    requires multiset(a) == multiset(b)
    ensures a == b
    decreases |a|
  {
    if a == [] {
      assert |b| == |multiset(b)| == 0;
    } else {
      AscendingHeadsEqual(a, b);
      MultisetTail(a);
      MultisetTail(b);
      assert Ascending(a[1..]) && Ascending(b[1..]);
      AscendingUnique(a[1..], b[1..]);
      assert a == [a[0]] + a[1..];
      assert b == [b[0]] + b[1..];
    }
  }

  /** Sorting a pristine deck by number lays its numbers out in order: 1..52 and
      then the Jokers. */
  lemma SortPristineIsCanonical(s: seq<Card>, jokers: bool)
    requires Pristine(s, jokers)
    ensures Numbers(SortByKey(s, ByNumber)) == Numbers(Canonical(jokers))
  {
    var r := SortByKey(s, ByNumber);
    NumbersOfPermutation(r, s);
    PristineToCanonical(s, jokers);
    var cn := Numbers(Canonical(jokers));
    StandardNumbers();
    NumbersConcat(Standard52(), if jokers then [Card(JokerNum, false), Card(JokerNum, false)] else []);
    assert forall i :: 0 <= i < |cn| ==> cn[i] == if i < 52 then i + 1 else JokerNum;
    assert Ascending(cn);
    assert forall i :: 0 <= i < |r| ==> Numbers(r)[i] == ByNumber(r[i]);
    assert Ascending(Numbers(r));
    AscendingUnique(Numbers(r), cn);
  }

  /** Sorting by any key keeps a pristine deck pristine. */
  lemma SortPreservesPristine(s: seq<Card>, key: Card -> int, jokers: bool)
    ensures Pristine(SortByKey(s, key), jokers) == Pristine(s, jokers)
  {
    NumbersOfPermutation(SortByKey(s, key), s);
    PristinePermutation(SortByKey(s, key), s, jokers);
  }

  // ----- Suit counts -----

  function SuitIndicator(suit: Suits): CardNumber -> int {
    (n: CardNumber) => if Suit(Card(n, false)) == suit then 1 else 0
  }

  /** The number of cards of the given suit. */
  function SuitCount(s: seq<Card>, suit: Suits): int {
    SumOver(Numbers(s), SuitIndicator(suit))
  }

  lemma {:induction false} SuitCountBounds(s: seq<Card>, suit: Suits)
    ensures 0 <= SuitCount(s, suit) <= |s|
    decreases |s|
  {
    if s != [] {
      var ns := Numbers(s);
      assert Numbers(s[..|s| - 1]) == ns[..|ns| - 1];
      SuitCountBounds(s[..|s| - 1], suit);
    }
  }

  /** Each card has exactly one of the five suits, so the five counts add up to the count. */
  lemma {:induction false} SuitCountsPartition(s: seq<Card>)
    ensures SuitCount(s, Clubs) + SuitCount(s, Diamonds) + SuitCount(s, Hearts)
            + SuitCount(s, Spades) + SuitCount(s, JokerSuit) == |s|
    decreases |s|
  {
    if s != [] {
      var ns := Numbers(s);
      assert Numbers(s[..|s| - 1]) == ns[..|ns| - 1];
      SuitCountsPartition(s[..|s| - 1]);
    }
  }

  /** Suit counts depend only on the multiset of card numbers. */
  lemma SuitCountPermutation(s: seq<Card>, t: seq<Card>, suit: Suits)
    requires multiset(Numbers(s)) == multiset(Numbers(t))
    ensures SuitCount(s, suit) == SuitCount(t, suit)
  {
    SumOverPermutation(Numbers(s), Numbers(t), SuitIndicator(suit));
  }

  /** The numbers 1..m. */
  function UpTo(m: nat): (ns: seq<CardNumber>)
    requires m <= 53
    ensures |ns| == m && forall i :: 0 <= i < m ==> ns[i] == i + 1
  {
    seq(m, i requires 0 <= i < m => i + 1)
  }

  /** Among the numbers 1..m, a standard suit has the ones in its block of 13. */
  lemma {:induction false} SuitCountUpTo(m: nat, suit: Suits)
    requires m <= 52 && Clubs <= suit <= JokerSuit
    ensures SumOver(UpTo(m), SuitIndicator(suit))
            == if suit == JokerSuit then 0
               else if m <= 13 * (suit as int - 1) then 0
               else if m >= 13 * suit as int then 13
               else m - 13 * (suit as int - 1)
  {
    if m > 0 {
      assert UpTo(m)[..m - 1] == UpTo(m - 1);
      SuitCountUpTo(m - 1, suit);
      assert Suit(Card(m, false)) == ((m - 1) / 13 + 1) as Suits;
    }
  }

  /** A pristine deck holds 13 cards of each standard suit, and the Jokers are its
      only cards of the Joker suit. */
  lemma PristineSuitCounts(s: seq<Card>, jokers: bool, suit: Suits)
    requires Pristine(s, jokers) && Clubs <= suit <= JokerSuit
    ensures SuitCount(s, suit) == if suit == JokerSuit then (if jokers then 2 else 0) else 13
  {
    PristineToCanonical(s, jokers);
    SuitCountPermutation(s, Canonical(jokers), suit);
    var extra := if jokers then [Card(JokerNum, false), Card(JokerNum, false)] else [];
    NumbersConcat(Standard52(), extra);
    assert Numbers(Standard52()) == UpTo(52);
    SumOverConcat(Numbers(Standard52()), Numbers(extra), SuitIndicator(suit));
    SuitCountUpTo(52, suit);
    if jokers {
      var j: CardNumber := JokerNum;
      var f := SuitIndicator(suit);
      assert Numbers(extra) == [j, j];
      assert [j, j][..1] == [j];
      assert [j][..0] == [];
      assert SumOver([j], f) == f(j);
      assert SumOver([j, j], f) == 2 * f(j);
      assert f(j) == if suit == JokerSuit then 1 else 0;
    }
  }
}
