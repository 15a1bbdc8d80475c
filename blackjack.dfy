/** The BlackJack engine: one pile and numPlayers + 1 hands, hand 0 being the
    house. Cards only ever move between the pile and the hands, and every hand's
    cached total is the BlackJack value of its cards. */
module BlackJackGame {
  import opened Results
  import opened Cards
  import opened DeckSpec
  import opened Decks
  import opened BlackJackRules

  // ----- The cards held by a list of hands -----

  /** The multiset of card numbers held by all the hands together. */
  function BagOf(hcs: seq<seq<Card>>): multiset<CardNumber>
  {
    if |hcs| == 0 then multiset{}
    else BagOf(hcs[..|hcs| - 1]) + multiset(Numbers(hcs[|hcs| - 1]))
  }

  /** The hands' cards laid end to end, in hand order. */
  function Flatten(hcs: seq<seq<Card>>): seq<Card>
  {
    if |hcs| == 0 then []
    else Flatten(hcs[..|hcs| - 1]) + hcs[|hcs| - 1]
  }

  lemma {:induction false} BagOfFlatten(hcs: seq<seq<Card>>)
    ensures multiset(Numbers(Flatten(hcs))) == BagOf(hcs)
    decreases |hcs|
  {
    if hcs != [] {
      BagOfFlatten(hcs[..|hcs| - 1]);
      NumbersConcat(Flatten(hcs[..|hcs| - 1]), hcs[|hcs| - 1]);
    }
  }

  /** Replacing one hand's cards changes the bag by exactly that hand's difference. */
  lemma {:induction false} BagOfUpdate(hcs: seq<seq<Card>>, k: nat, c: seq<Card>)
    requires k < |hcs|
    ensures BagOf(hcs[k := c]) + multiset(Numbers(hcs[k])) == BagOf(hcs) + multiset(Numbers(c))
    decreases |hcs|
  {
    var n := |hcs|;
    var u := hcs[k := c];
    var pre := hcs[..n - 1];
    var mk, mc := multiset(Numbers(hcs[k])), multiset(Numbers(c));
    var last := multiset(Numbers(hcs[n - 1]));
    assert BagOf(hcs) == BagOf(pre) + last;
    if k == n - 1 {
      assert u[..n - 1] == pre;
      assert BagOf(u) == BagOf(pre) + mc;
    } else {
      var init, bp := BagOf(pre[k := c]), BagOf(pre);
      assert u[..n - 1] == pre[k := c];
      assert BagOf(u) == init + last;
      BagOfUpdate(pre, k, c);
      MultisetSwap(init, last, mk);
      MultisetSwap(bp, mc, last);
    }
  }

  /** Replacing one hand's cards by the same numbers keeps the bag. */
  lemma BagOfSameNumbers(hcs: seq<seq<Card>>, k: nat, c: seq<Card>)
    requires k < |hcs| && Numbers(c) == Numbers(hcs[k])
    ensures BagOf(hcs[k := c]) == BagOf(hcs)
  {
    BagOfUpdate(hcs, k, c);
    MultisetCancel(BagOf(hcs[k := c]), BagOf(hcs), multiset(Numbers(c)));
  }

  lemma FlattenSnoc(hcs: seq<seq<Card>>, k: nat)
    requires k < |hcs|
    ensures Flatten(hcs[..k + 1]) == Flatten(hcs[..k]) + hcs[k]
  {
    assert hcs[..k + 1][..k] == hcs[..k];
  }

  /** Hands that are all empty hold nothing. */
  lemma {:induction false} BagOfEmpty(hcs: seq<seq<Card>>)
    requires forall k :: 0 <= k < |hcs| ==> hcs[k] == []
    ensures BagOf(hcs) == multiset{} && Flatten(hcs) == []
    decreases |hcs|
  {
    if hcs != [] {
      BagOfEmpty(hcs[..|hcs| - 1]);
    }
  }

  /** Moving the pile's top card into hand k, as it is or turned over, keeps the
      combined multiset of pile and hands. */
  lemma MoveTopCard(pile: seq<Card>, hcs: seq<seq<Card>>, k: nat, hand: seq<Card>)
    requires pile != [] && k < |hcs|
    requires Numbers(hand) == Numbers(hcs[k] + [pile[0]])
    ensures multiset(Numbers(pile[1..])) + BagOf(hcs[k := hand])
            == multiset(Numbers(pile)) + BagOf(hcs)
  {
    var x: CardNumber := pile[0].number;
    TopNumber(pile);
    NumbersConcat(hcs[k], [pile[0]]);
    var mk := multiset(Numbers(hcs[k]));
    assert multiset(Numbers(hand)) == mk + multiset{x};
    BagOfUpdate(hcs, k, hand);
    var bu, b := BagOf(hcs[k := hand]), BagOf(hcs);
    MultisetSwap(b, multiset{x}, mk);
    MultisetCancel(bu, b + multiset{x}, mk);
    MultisetSwap(multiset(Numbers(pile[1..])), multiset{x}, b);
  }

  /** The pile's numbers are its top card's number and the rest's. */
  lemma TopNumber(pile: seq<Card>)
    requires pile != []
    ensures multiset(Numbers(pile)) == multiset(Numbers(pile[1..])) + multiset{pile[0].number}
  {
    assert pile == [pile[0]] + pile[1..];
    NumbersConcat([pile[0]], pile[1..]);
  }

  function PlayerName(i: nat): string {
    "Player " + NatToString(i)
  }

  lemma PlayerNameIsNotHouse(i: nat)
    ensures PlayerName(i) != "House"
  {
    assert PlayerName(i)[0] == 'P';
  }

  /** The name the constructor gives hand i. */
  function HandName(i: nat): string {
    if i == HouseHand then "House" else PlayerName(i)
  }

  /** Hand d carries the name of hand i. */
  ghost predicate Named(d: Deck, i: nat) {
    d.name == HandName(i)
  }

  /** The BlackJack calculation's running sums, one card further. */
  lemma PointsStep(cards: seq<Card>, i: nat)
    requires i < |cards|
    ensures SumOver(Numbers(cards[..i + 1]), BasePoints)
            == SumOver(Numbers(cards[..i]), BasePoints) + BasePoints(cards[i].number)
    ensures SumOver(Numbers(cards[..i + 1]), AcePoint)
            == SumOver(Numbers(cards[..i]), AcePoint) + AcePoint(cards[i].number)
  {
    assert Numbers(cards[..i + 1])[..i] == Numbers(cards[..i]);
  }

  // ----- Hitting until 17 -----

  /** The pile holds enough cards for the house rule of hitting until 17 to finish. */
  predicate CanAutoHit(hand: seq<Card>, pile: seq<Card>)
    decreases |pile|
  {
    HandValue(hand) > 16
    || (pile != [] && CanAutoHit(hand + [Card(pile[0].number, true)], pile[1..]))
  }

  /** How many cards hitting until 17 takes from the pile. */
  function AutoHitTaken(hand: seq<Card>, pile: seq<Card>): (t: nat)
    requires CanAutoHit(hand, pile)
    ensures t <= |pile|
    ensures t == 0 <==> HandValue(hand) > 16
    decreases |pile|
  {
    if HandValue(hand) > 16 then 0
    else 1 + AutoHitTaken(hand + [Card(pile[0].number, true)], pile[1..])
  }

  /** The hand and the pile once the hand has been hit, face up from the top of the
      pile, until its value exceeds 16. */
  function AutoHitResult(hand: seq<Card>, pile: seq<Card>): (r: (seq<Card>, seq<Card>))
    requires CanAutoHit(hand, pile)
  {
    var t := AutoHitTaken(hand, pile);
    (hand + FacedAs(pile[..t], true), pile[t..])
  }

  lemma FacedAsCons(x: Card, s: seq<Card>, up: bool)
    ensures FacedAs([x] + s, up) == [Card(x.number, up)] + FacedAs(s, up)
  {
  }

  /** One hit of the house rule: a hand at 16 or less takes the top card face up and
      the rule carries on from there. */
  lemma AutoHitStep(hand: seq<Card>, pile: seq<Card>)
    requires CanAutoHit(hand, pile) && HandValue(hand) <= 16
    ensures pile != []
    ensures CanAutoHit(hand + [Card(pile[0].number, true)], pile[1..])
    ensures AutoHitResult(hand, pile)
            == AutoHitResult(hand + [Card(pile[0].number, true)], pile[1..])
  {
    var t' := AutoHitTaken(hand + [Card(pile[0].number, true)], pile[1..]);
    assert AutoHitTaken(hand, pile) == t' + 1;
    HitSplit(hand, pile, t');
  }

  /** Taking t + 1 cards face up is taking the top one, then t more. */
  lemma HitSplit(hand: seq<Card>, pile: seq<Card>, t: nat)
    requires t < |pile|
    ensures hand + FacedAs(pile[..t + 1], true)
            == (hand + [Card(pile[0].number, true)]) + FacedAs(pile[1..][..t], true)
    ensures pile[t + 1..] == pile[1..][t..]
  {
    assert pile[1..][..t] == pile[1..t + 1];
    assert pile[..t + 1] == [pile[0]] + pile[1..t + 1];
    FacedAsCons(pile[0], pile[1..t + 1], true);
  }

  /** The house rule stops only above 16, and a hand already above 16 is left alone. */
  lemma {:induction false} AutoHitStopsAbove16(hand: seq<Card>, pile: seq<Card>)
    requires CanAutoHit(hand, pile)
    ensures HandValue(AutoHitResult(hand, pile).0) > 16
    ensures HandValue(hand) > 16 ==> AutoHitResult(hand, pile) == (hand, pile)
    decreases |pile|
  {
    if HandValue(hand) > 16 {
      assert pile[..0] == [] && pile[0..] == pile;
      assert hand + FacedAs([], true) == hand;
    } else {
      AutoHitStep(hand, pile);
      AutoHitStopsAbove16(hand + [Card(pile[0].number, true)], pile[1..]);
    }
  }

  /** Hitting until 17 only moves cards from the pile to the hand. */
  lemma AutoHitConserves(hand: seq<Card>, pile: seq<Card>)
    requires CanAutoHit(hand, pile)
    ensures var r := AutoHitResult(hand, pile);
      multiset(Numbers(r.0)) + multiset(Numbers(r.1)) == multiset(Numbers(hand)) + multiset(Numbers(pile))
  {
    var t := AutoHitTaken(hand, pile);
    NumbersConcat(hand, FacedAs(pile[..t], true));
    NumbersConcat(pile[..t], pile[t..]);
    assert pile == pile[..t] + pile[t..];
  }

  // ----- The engine -----

  /** A new empty hand subscribed to the BlackJack calculation. */
  method NewHand(name: string) returns (d: Deck)
    ensures fresh(d) && d.name == name && !d.allowJokers
    ensures d.cards == [] && Scored(d)
  {
    d := new Deck(name, false, false, true);
    d.SubscribeCalculate(HandValue);
    HandValueEmpty();
  }

  /** Hand k as the constructor leaves it: empty, without Jokers, scored by the
      BlackJack calculation, and named for its place. */
  ghost predicate Blank(d: Deck, k: nat)
    reads d
  {
    d.cards == [] && !d.allowJokers && Scored(d) && d.name == HandName(k)
  }

  /** The hands the engine deals to: "House", then "Player 1" to "Player players". */
  method NewHands(players: nat) returns (hs: seq<Deck>)
    ensures |hs| == players + 1
    ensures forall k :: 0 <= k < |hs| ==> fresh(hs[k]) && Blank(hs[k], k)
    ensures forall k, m :: 0 <= k < m < |hs| ==> hs[k] != hs[m]
  {
    hs := [];
    var i := 0;
    while i <= players
      invariant 0 <= i <= players + 1 && |hs| == i
      invariant forall k :: 0 <= k < i ==> fresh(hs[k]) && Blank(hs[k], k)
      invariant forall k, m :: 0 <= k < m < i ==> hs[k] != hs[m]
    {
      var d := NewHand(HandName(i));
      assert Blank(d, i);
      hs := hs + [d];
      i := i + 1;
    }
  }

  /** Two different hand objects. It is a predicate only so that the distinctness
      quantifier in Valid has a trigger mentioning both hands; `a != b` gives none. */
  predicate Apart(a: Deck, b: Deck) {
    a != b
  }

  /** A hand subscribed to the BlackJack calculation, its cached total up to date. */
  ghost predicate Scored(d: Deck)
    reads d
  {
    d.onCalculate == Some(HandValue) && d.totalValue == HandValue(d.cards)
  }

  class BlackJack {
    const numPlayers: nat
    const pile: Deck
    const hands: seq<Deck>

    /** The structure the constructor sets up and every operation keeps: distinct
        hands named "House", "Player 1", ..., each scored by the BlackJack rule with
        its cached total up to date, and a pile without Jokers or hook. */
    ghost predicate Valid()
      reads this, pile, hands
    {
      && |hands| == numPlayers + 1
      && (forall i, j {:trigger Apart(hands[i], hands[j])} ::
            0 <= i < |hands| && 0 <= j < |hands| && i != j ==> Apart(hands[i], hands[j]))
      && (forall i :: 0 <= i < |hands| ==> hands[i] != pile)
      && pile.onCalculate == None && pile.totalValue == 0 && !pile.allowJokers
      && (forall i {:trigger Named(hands[i], i)} :: 0 <= i < |hands| ==> Named(hands[i], i))
      && (forall i {:trigger Scored(hands[i])} :: 0 <= i < |hands| ==> Scored(hands[i]))
    }

    /** The cards of every hand, in hand order. */
    ghost function HandCards(): (hcs: seq<seq<Card>>)
      reads this, hands
      ensures |hcs| == |hands| && forall i :: 0 <= i < |hands| ==> hcs[i] == hands[i].cards
    {
      seq(|hands|, i requires 0 <= i < |hands| reads hands => hands[i].cards)
    }

    /** Every card number in the game, pile and hands together. */
    ghost function AllCards(): multiset<CardNumber>
      reads this, pile, hands
    {
      multiset(Numbers(pile.cards)) + BagOf(HandCards())
    }

    /** What collecting the cards leaves in the pile: the pile, then every hand in
        hand order, all face down. */
    ghost function Gathered(): seq<Card>
      reads this, pile, hands
    {
      FacedAs(pile.cards + Flatten(HandCards()), false)
    }

    /** The game holds exactly the 52 standard cards. */
    ghost predicate Conserved()
      reads this, pile, hands
    {
      AllCards() == multiset(Numbers(Canonical(false)))
    }

    /** A full pile, and empty hands subscribed to the BlackJack calculation. */
    constructor (players: nat)
      ensures Valid() && numPlayers == players
      ensures pile.cards == Canonical(false) && pile.name == "Pile"
      ensures forall i :: 0 <= i < |hands| ==> hands[i].cards == []
      ensures Conserved()
      ensures fresh(pile) && forall i :: 0 <= i < |hands| ==> fresh(hands[i])
    {
      numPlayers := players;
      var p := new Deck("Pile", false, true, true);
      var hs := NewHands(players);
      pile := p;
      hands := hs;
      new;
      forall k | 0 <= k < |hands| ensures Scored(hands[k]) && Named(hands[k], k) && hands[k].cards == [] {
        assert Blank(hands[k], k);
      }
      BagOfEmpty(HandCards());
    }

    /** The BlackJack calculation: sums the non-Ace cards, then adds the Aces. */
    method BJCalculate(deck: Deck)
      modifies deck`totalValue
      ensures deck.totalValue == HandValue(deck.cards)
    {
      var numAces := 0;
      deck.totalValue := 0;
      var i := 0;
      while i < |deck.cards|
        invariant 0 <= i <= |deck.cards|
        invariant deck.totalValue == SumOver(Numbers(deck.cards[..i]), BasePoints)
        invariant numAces == SumOver(Numbers(deck.cards[..i]), AcePoint)
      {
        var p := deck.cards[i];
        PointsStep(deck.cards, i);
        var rank := Rank(p);
        if rank == JokerRank {
        } else if rank == Jack || rank == Queen || rank == King {
          deck.totalValue := deck.totalValue + 10;
        } else if rank == Ace {
          numAces := numAces + 1;
        } else {
          deck.totalValue := deck.totalValue + RankAsInt(p);
        }
        i := i + 1;
      }
      assert deck.cards[..i] == deck.cards;
      while numAces > 0
        invariant AddAces(deck.totalValue, numAces) == HandValue(deck.cards)
      {
        numAces := numAces - 1;
        deck.totalValue := deck.totalValue + 11;
        if deck.totalValue > MaxHandValue {
          deck.totalValue := deck.totalValue - 10;
        }
      }
    }

    /** The cards left in the pile: while no card is lost, the 52 less those in the hands. */
    function NumPileCards(): (n: nat)
      reads this, pile, hands
      ensures Conserved() ==> n + |Flatten(HandCards())| == CardNumMax
    {
      BagOfFlatten(HandCards());
      assert |multiset(Numbers(Flatten(HandCards())))| == |Flatten(HandCards())|;
      assert |multiset(Numbers(Canonical(false)))| == CardNumMax;
      assert |AllCards()| == |pile.cards| + |Flatten(HandCards())|;
      |pile.cards|
    }

    /** The cards of a hand, or none for an index past the last player. */
    function GetEnumerableHand(hand: nat): (r: Option<seq<Card>>)
      requires Valid()
      reads this, pile, hands
      ensures r.Some? <==> hand <= numPlayers
      ensures r.Some? ==> r.value == hands[hand].cards
    {
      if hand > numPlayers then None else Some(hands[hand].cards)
    }

    /** A hand's cached total, which is its BlackJack value; 0 past the last player. */
    function GetHandValue(hand: nat): (v: int)
      requires Valid()
      reads this, pile, hands
      ensures hand <= numPlayers ==> v == HandValue(hands[hand].cards)
      ensures hand > numPlayers ==> v == 0
    {
      if hand <= numPlayers then
        assert Scored(hands[hand]);
        hands[hand].totalValue
      else 0
    }

    /** The hand's second card (index 1), if it has one; for the house, its up card. */
    function Peek(player: nat): (r: Option<Card>)
      requires Valid()
      reads this, pile, hands
      ensures player > numPlayers ==> r == None
      ensures player <= numPlayers ==>
        r == if |hands[player].cards| >= 2 then Some(hands[player].cards[1]) else None
    {
      if player <= numPlayers then hands[player].Peek(1) else None
    }

    /** Turns a hand's cards face up. */
    method ShowHand(hand: nat)
      requires Valid()
      modifies hands
      ensures Valid() && AllCards() == old(AllCards())
      ensures hand <= numPlayers ==> hands[hand].cards == FacedAs(old(hands[hand].cards), true)
      ensures forall k :: 0 <= k < |hands| && k != hand ==> hands[k].cards == old(hands[k].cards)
    {
      if hand > numPlayers {
        return;
      }
      ghost var hc := HandCards();
      ghost var c := hands[hand].cards;
      assert Scored(hands[hand]);
      hands[hand].SetAllFaceUp(true);
      HandValueFaceIndependent(c, true);
      assert Scored(hands[hand]);
      forall i | 0 <= i < |hands| && i != hand ensures Scored(hands[i]) && hands[i].cards == old(hands[i].cards) {
        assert Apart(hands[i], hands[hand]);
        assert old(Scored(hands[i]));
      }
      assert HandCards() == hc[hand := hands[hand].cards];
      BagOfSameNumbers(hc, hand, hands[hand].cards);
      assert BagOf(HandCards()) == BagOf(hc);
    }

    /** One pass of the collecting loop: hand k's cards go to the end of the pile. */
    method CollectHand(k: nat)
      requires Valid() && k < |hands|
      modifies pile, hands[k]
      ensures Valid()
      ensures pile.cards == old(pile.cards) + old(hands[k].cards) && hands[k].cards == []
      ensures forall m :: 0 <= m < |hands| && m != k ==> hands[m].cards == old(hands[m].cards)
    {
      assert Scored(hands[k]);
      var _ := pile.CollectFrom(hands[k]);
      assert Scored(hands[k]);
      forall i | 0 <= i < |hands| && i != k ensures Scored(hands[i]) && hands[i].cards == old(hands[i].cards) {
        assert Apart(hands[i], hands[k]);
        assert old(Scored(hands[i]));
      }
    }

    /** Collects every hand into the pile, in hand order, and turns the pile face down. */
    method CollectCards()
      requires Valid()
      modifies pile, hands
      ensures Valid() && AllCards() == old(AllCards())
      ensures pile.cards == old(Gathered())
      ensures forall k :: 0 <= k < |hands| ==> hands[k].cards == []
    {
      ghost var hc := HandCards();
      ghost var p0 := pile.cards;
      var k := 0;
      while k < |hands|
        invariant 0 <= k <= |hands|
        invariant Valid()
        invariant pile.cards == p0 + Flatten(hc[..k])
        invariant forall m :: 0 <= m < k ==> hands[m].cards == []
        invariant forall m :: k <= m < |hands| ==> hands[m].cards == hc[m]
      {
        FlattenSnoc(hc, k);
        CollectHand(k);
        k := k + 1;
      }
      assert hc[..k] == hc;
      label Collected:
      pile.SetAllFaceUp(false);
      forall i | 0 <= i < |hands| ensures Scored(hands[i]) {
        assert old@Collected(Scored(hands[i]));
      }
      BagOfEmpty(HandCards());
      BagOfFlatten(hc);
      NumbersConcat(p0, Flatten(hc));
    }

    /** The part of dealing before the first card: collect, shuffle with the given
        draws, and check that the pile is pristine. */
    method CollectAndShuffle(draws: seq<int>) returns (pristine: bool)
      requires Valid()
      requires ValidDraws(draws, |Gathered()|)
      modifies pile, hands
      ensures Valid()
      ensures pile.cards == Shuffled(old(Gathered()), draws, 0)
      ensures forall k :: 0 <= k < |hands| ==> hands[k].cards == []
      ensures pristine == Pristine(pile.cards, false)
      ensures forall i :: 0 <= i < |pile.cards| ==> !pile.cards[i].faceUp
    {
      CollectCards();
      ghost var collected := pile.cards;
      ShufflePile(draws);
      pristine := pile.IsPristine();
      ShuffledKeepsFaceDown(collected, draws);
    }

    /** Shuffles the pile (Deck.Shuffle); the hands keep their cards. */
    method ShufflePile(draws: seq<int>)
      requires Valid() && ValidDraws(draws, |pile.cards|)
      modifies pile
      ensures Valid() && AllCards() == old(AllCards())
      ensures pile.cards == Shuffled(old(pile.cards), draws, 0)
      ensures forall k :: 0 <= k < |hands| ==> hands[k].cards == old(hands[k].cards)
    {
      ghost var hc := HandCards();
      ghost var p0 := pile.cards;
      pile.Shuffle(draws);
      forall i | 0 <= i < |hands| ensures Scored(hands[i]) && hands[i].cards == hc[i] {
        assert old(Scored(hands[i]));
      }
      assert HandCards() == hc;
      NumbersOfPermutation(pile.cards, p0);
    }

    /** Deals: collect, shuffle with the given draws, check that the pile is pristine,
        then two rounds of one card per hand in hand order, the house's second card
        face up. */
    method Deal(draws: seq<int>) returns (r: Outcome)
      requires Valid()
      requires 2 * (numPlayers + 1) <= CardNumMax
      requires ValidDraws(draws, |Gathered()|)
      modifies pile, hands
      ensures Valid()
      ensures var s := Shuffled(old(Gathered()), draws, 0);
        && (r.Pass? <==> Pristine(s, false))
        && (r.Fail? ==> r.error == PileNotPristine)
        && (r.Fail? ==> pile.cards == s && forall k :: 0 <= k < |hands| ==> hands[k].cards == [])
        && (r.Pass? ==>
             var h := |hands|;
             && |s| == CardNumMax
             && pile.cards == s[2 * h..]
             && (forall m :: 0 <= m < h ==> hands[m].cards == Dealt(s, h, m, 2))
             && (forall i :: 0 <= i < |s| ==> !s[i].faceUp))
    {
      var pristine := CollectAndShuffle(draws);
      if !pristine {
        return Fail(PileNotPristine);
      }
      DealRounds();
      return Pass;
    }

    /** The two rounds of dealing: each hand in hand order takes one card per round
        from the top of the pile, the house's second card face up. */
    method DealRounds()
      requires Valid() && 2 * |hands| <= |pile.cards|
      requires forall m :: 0 <= m < |hands| ==> hands[m].cards == []
      modifies pile, hands
      ensures Valid()
      ensures pile.cards == old(pile.cards)[2 * |hands|..]
      ensures forall m :: 0 <= m < |hands| ==> hands[m].cards == Dealt(old(pile.cards), |hands|, m, 2)
    {
      ghost var s := pile.cards;
      ghost var h := |hands|;
      DealRound(0);
      forall m | 0 <= m < h ensures hands[m].cards == Dealt(s, h, m, 1) {
        DealtNext(s, h, m, 0, 0);
      }
      assert pile.cards == s[h..];
      DealRound(1);
      forall m | 0 <= m < h ensures hands[m].cards == Dealt(s, h, m, 2) {
        assert s[h..][m] == s[h + m];
        DealtNext(s, h, m, 1, h);
      }
      assert s[h..][h..] == s[2 * h..];
    }

    /** One pass of the dealing loop: each hand in order takes the top card of the
        pile, and in the second round the house turns its card face up. */
    method DealRound(round: nat)
      requires Valid() && |pile.cards| >= |hands|
      modifies pile, hands
      ensures Valid()
      ensures pile.cards == old(pile.cards)[|hands|..]
      ensures forall m :: 0 <= m < |hands| ==>
        hands[m].cards == old(hands[m].cards) + [DealtCard(old(pile.cards)[m], m, round)]
    {
      ghost var p0 := pile.cards;
      var k := 0;
      while k < |hands|
        invariant 0 <= k <= |hands|
        invariant Valid()
        invariant pile.cards == p0[k..]
        invariant forall m :: 0 <= m < k ==> hands[m].cards == old(hands[m].cards) + [DealtCard(p0[m], m, round)]
        invariant forall m :: k <= m < |hands| ==> hands[m].cards == old(hands[m].cards)
      {
        assert p0[k..][1..] == p0[k + 1..];
        DealTo(k, round);
        k := k + 1;
      }
    }

    /** One step of the dealing loop: hand k takes the top card of the pile, and the
        house turns it face up in the second round. */
    method DealTo(k: nat, round: nat)
      requires Valid() && k < |hands| && pile.cards != []
      modifies pile, hands[k]
      ensures Valid()
      ensures pile.cards == old(pile.cards)[1..]
      ensures hands[k].cards == old(hands[k].cards) + [DealtCard(old(pile.cards)[0], k, round)]
      ensures forall m :: 0 <= m < |hands| && m != k ==> hands[m].cards == old(hands[m].cards)
    {
      assert Named(hands[k], k);
      if k > 0 {
        PlayerNameIsNotHouse(k);
      }
      var isHouse := hands[k].name == "House";
      assert isHouse <==> k == HouseHand;
      var _ := DealCard(k);
      if isHouse && round == 1 {
        TurnUpLast(k);
      }
    }

    /** The pile's top card moves onto the end of hand k (AddCardFrom); the hand's
        calculation keeps its total. */
    method DealCard(k: nat) returns (p: Card)
      requires Valid() && k < |hands| && pile.cards != []
      modifies pile, hands[k]
      ensures Valid() && AllCards() == old(AllCards())
      ensures p == old(pile.cards)[0]
      ensures pile.cards == old(pile.cards)[1..]
      ensures hands[k].cards == old(hands[k].cards) + [p]
      ensures forall m :: 0 <= m < |hands| && m != k ==> hands[m].cards == old(hands[m].cards)
    {
      assert Scored(hands[k]);
      ghost var hc := HandCards();
      ghost var before := pile.cards;
      var taken := hands[k].AddCardFrom(pile);
      p := taken.value;
      assert Scored(hands[k]);
      forall i | 0 <= i < |hands| && i != k ensures Scored(hands[i]) && hands[i].cards == old(hands[i].cards) {
        assert Apart(hands[i], hands[k]);
        assert old(Scored(hands[i]));
      }
      assert HandCards() == hc[k := hands[k].cards];
      MoveTopCard(before, hc, k, hands[k].cards);
    }

    /** Turns the card just given to hand k (its last card) face up. */
    method TurnUpLast(k: nat)
      requires Valid() && k < |hands| && hands[k].cards != []
      modifies hands[k]
      ensures Valid() && AllCards() == old(AllCards())
      ensures hands[k].cards == FaceUpLast(old(hands[k].cards))
      ensures forall m :: 0 <= m < |hands| && m != k ==> hands[m].cards == old(hands[m].cards)
    {
      ghost var hc := HandCards();
      ghost var c := hands[k].cards;
      assert Scored(hands[k]);
      hands[k].SetLastFaceUp();
      HandValueByNumbers(c, hands[k].cards);
      assert Scored(hands[k]);
      forall i | 0 <= i < |hands| && i != k ensures Scored(hands[i]) && hands[i].cards == old(hands[i].cards) {
        assert Apart(hands[i], hands[k]);
        assert old(Scored(hands[i]));
      }
      assert HandCards() == hc[k := hands[k].cards];
      BagOfSameNumbers(hc, k, hands[k].cards);
      assert BagOf(HandCards()) == BagOf(hc);
    }

    /** Hits a hand whose total is under 21: the top card of the pile goes face up
        onto the hand and is returned. */
    method Hit(player: nat) returns (r: Option<Card>)
      requires Valid() && player <= numPlayers
      requires HandValue(hands[player].cards) < MaxHandValue ==> pile.cards != []
      modifies pile, hands[player]
      ensures Valid() && AllCards() == old(AllCards())
      ensures old(HandValue(hands[player].cards)) >= MaxHandValue ==>
        r == None && pile.cards == old(pile.cards) && hands[player].cards == old(hands[player].cards)
      ensures old(HandValue(hands[player].cards)) < MaxHandValue ==>
        && r == Some(Card(old(pile.cards)[0].number, true))
        && pile.cards == old(pile.cards)[1..]
        && hands[player].cards == old(hands[player].cards) + [r.value]
      ensures forall k :: 0 <= k < |hands| && k != player ==> hands[k].cards == old(hands[k].cards)
    {
      assert Scored(hands[player]);
      if hands[player].totalValue < MaxHandValue {
        var p := DealCard(player);
        TurnUpLast(player);
        return Some(Card(p.number, true));
      }
      return None;
    }

    /** Hits a hand while its total is 16 or less. */
    method AutoHit(player: nat)
      requires Valid()
      requires player <= numPlayers ==> CanAutoHit(hands[player].cards, pile.cards)
      modifies pile, hands
      ensures Valid() && AllCards() == old(AllCards())
      ensures player > numPlayers ==> pile.cards == old(pile.cards)
      ensures player <= numPlayers ==>
        && (hands[player].cards, pile.cards) == AutoHitResult(old(hands[player].cards), old(pile.cards))
        && HandValue(hands[player].cards) > 16
      ensures forall k :: 0 <= k < |hands| && k != player ==> hands[k].cards == old(hands[k].cards)
    {
      if player <= numPlayers {
        assert Scored(hands[player]);
        while hands[player].totalValue <= 16
          invariant Valid() && AllCards() == old(AllCards())
          invariant hands[player].totalValue == HandValue(hands[player].cards)
          invariant CanAutoHit(hands[player].cards, pile.cards)
          invariant AutoHitResult(hands[player].cards, pile.cards)
                    == AutoHitResult(old(hands[player].cards), old(pile.cards))
          invariant forall k :: 0 <= k < |hands| && k != player ==> hands[k].cards == old(hands[k].cards)
          decreases |pile.cards|
        {
          AutoHitStep(hands[player].cards, pile.cards);
          var _ := Hit(player);
          assert Scored(hands[player]);
        }
        AutoHitStopsAbove16(hands[player].cards, pile.cards);
      }
    }

    /** The player's result against the house; fails for an index past the last player. */
    method WinLoseOrBust(player: nat) returns (r: Result<HandResult>)
      requires Valid()
      ensures player > numPlayers ==> r == Err(InvalidHandIndex)
      ensures player <= numPlayers ==>
        r == Ok(Adjudicate(HandValue(hands[player].cards), HandValue(hands[HouseHand].cards)))
    {
      if player > numPlayers {
        return Err(InvalidHandIndex);
      }
      var houseValue := GetHandValue(HouseHand);
      var playerValue := GetHandValue(player);
      if playerValue > MaxHandValue {
        return Ok(Bust);
      } else if houseValue > MaxHandValue || playerValue > houseValue {
        return Ok(Win);
      } else if playerValue < houseValue {
        return Ok(Lose);
      }
      return Ok(Push);
    }

    method SortPile()
      requires Valid()
      modifies pile
      ensures Valid() && AllCards() == old(AllCards())
      ensures SortedBy(pile.cards, ByNumber) && multiset(pile.cards) == multiset(old(pile.cards))
    {
      pile.Sort();
      NumbersOfPermutation(pile.cards, old(pile.cards));
    }

    method ClonePile() returns (d: Deck)
      ensures fresh(d) && d.cards == pile.cards && d.name == pile.name
      ensures d.onCalculate == pile.onCalculate && d.allowJokers == pile.allowJokers
      ensures d.totalValue == d.Recalculated(0)
    {
      d := pile.Clone();
    }
  }

  /** The card hand m receives when dealt `top` in the given round: the house's
      second card is turned face up. */
  function DealtCard(top: Card, m: nat, round: nat): Card {
    if m == HouseHand && round == 1 then Card(top.number, true) else top
  }

  /** The hand m after `rounds` rounds of dealing from s to h hands. */
  function Dealt(s: seq<Card>, h: nat, m: nat, rounds: nat): seq<Card>
    requires m < h && rounds <= 2 && 2 * h <= |s|
  {
    if rounds == 0 then []
    else if rounds == 1 then [s[m]]
    else [s[m], if m == HouseHand then Card(s[h + m].number, true) else s[h + m]]
  }

  /** Collecting then shuffling keeps every card number of the pile and the hands. */
  lemma GatherBag(p: seq<Card>, hcs: seq<seq<Card>>, draws: seq<int>)
    requires ValidDraws(draws, |p| + |Flatten(hcs)|)
    ensures multiset(Numbers(Shuffled(FacedAs(p + Flatten(hcs), false), draws, 0)))
            == multiset(Numbers(p)) + BagOf(hcs)
  {
    var c := FacedAs(p + Flatten(hcs), false);
    ShuffledPermutes(c, draws, 0);
    NumbersOfPermutation(Shuffled(c, draws, 0), c);
    NumbersConcat(p, Flatten(hcs));
    BagOfFlatten(hcs);
  }

  /** The first j hands of a two-round deal hold the first j cards of each round. */
  lemma {:induction false} DealtPrefixBag(s: seq<Card>, h: nat, j: nat, hcs: seq<seq<Card>>)
    requires |hcs| == h && j <= h && 2 * h <= |s|
    requires forall m :: 0 <= m < h ==> hcs[m] == Dealt(s, h, m, 2)
    ensures BagOf(hcs[..j]) == multiset(Numbers(s[..j])) + multiset(Numbers(s[h..h + j]))
    decreases j
  {
    if j > 0 {
      DealtPrefixBag(s, h, j - 1, hcs);
      var before := multiset(Numbers(s[..j - 1])) + multiset(Numbers(s[h..h + (j - 1)]));
      var added := multiset(Numbers(hcs[j - 1]));
      assert hcs[..j][..j - 1] == hcs[..j - 1];
      assert BagOf(hcs[..j]) == before + added;
      DealtStep(s, h, j, hcs[j - 1]);
    }
  }

  /** Hand j - 1 of the deal adds card j - 1 of each round. */
  lemma DealtStep(s: seq<Card>, h: nat, j: nat, hand: seq<Card>)
    requires 0 < j <= h && 2 * h <= |s| && hand == Dealt(s, h, j - 1, 2)
    ensures multiset(Numbers(s[..j - 1])) + multiset(Numbers(s[h..h + (j - 1)])) + multiset(Numbers(hand))
            == multiset(Numbers(s[..j])) + multiset(Numbers(s[h..h + j]))
  {
    var a, b := multiset{s[j - 1].number}, multiset{s[h + j - 1].number};
    assert Numbers(hand) == [s[j - 1].number] + [s[h + j - 1].number];
    assert multiset(Numbers(hand)) == a + b;
    NumbersSnoc(s, 0, j);
    assert s[0..j] == s[..j] && s[0..j - 1] == s[..j - 1];
    NumbersSnoc(s, h, h + j);
    assert h + (j - 1) == h + j - 1;
    MultisetRegroup(multiset(Numbers(s[..j - 1])), multiset(Numbers(s[h..h + (j - 1)])), a, b);
  }

  /** One more card at the end of a slice adds its number. */
  lemma NumbersSnoc(s: seq<Card>, lo: nat, hi: nat)
    requires lo < hi <= |s|
    ensures multiset(Numbers(s[lo..hi])) == multiset(Numbers(s[lo..hi - 1])) + multiset{s[hi - 1].number}
  {
    assert s[lo..hi] == s[lo..hi - 1] + [s[hi - 1]];
    NumbersConcat(s[lo..hi - 1], [s[hi - 1]]);
  }

  lemma MultisetRegroup<T>(x: multiset<T>, y: multiset<T>, a: multiset<T>, b: multiset<T>)
    ensures (x + y) + (a + b) == (x + a) + (y + b)
  {
    forall z ensures ((x + y) + (a + b))[z] == ((x + a) + (y + b))[z] {
    }
  }

  /** A two-round deal from s to h hands moves cards from the pile to the hands and
      loses none. */
  lemma DealtConserves(s: seq<Card>, h: nat, hcs: seq<seq<Card>>)
    requires |hcs| == h && 2 * h <= |s|
    requires forall m :: 0 <= m < h ==> hcs[m] == Dealt(s, h, m, 2)
    ensures multiset(Numbers(s[2 * h..])) + BagOf(hcs) == multiset(Numbers(s))
  {
    DealtPrefixBag(s, h, h, hcs);
    assert hcs[..h] == hcs;
    assert s == s[..h] + s[h..2 * h] + s[2 * h..];
    NumbersConcat(s[..h] + s[h..2 * h], s[2 * h..]);
    NumbersConcat(s[..h], s[h..2 * h]);
    var x, y, z := multiset(Numbers(s[..h])), multiset(Numbers(s[h..2 * h])), multiset(Numbers(s[2 * h..]));
    forall w ensures (z + (x + y))[w] == (x + y + z)[w] {
    }
  }

  /** A deal from a pristine shuffled pile leaves exactly the 52 standard cards
      between the pile and the hands: what Deal's Pass case guarantees. */
  lemma DealKeepsFullDeck(s: seq<Card>, h: nat, hcs: seq<seq<Card>>)
    requires Pristine(s, false) && |hcs| == h && 2 * h <= |s|
    requires forall m :: 0 <= m < h ==> hcs[m] == Dealt(s, h, m, 2)
    ensures multiset(Numbers(s[2 * h..])) + BagOf(hcs) == multiset(Numbers(Canonical(false)))
  {
    DealtConserves(s, h, hcs);
    PristineToCanonical(s, false);
  }

  /** Round i adds to hand m the card at position dealt + m of s. */
  lemma DealtNext(s: seq<Card>, h: nat, m: nat, i: nat, dealt: nat)
    requires m < h && i < 2 && 2 * h <= |s| && dealt == (if i == 0 then 0 else h)
    ensures Dealt(s, h, m, i) + [DealtCard(s[dealt + m], m, i)] == Dealt(s, h, m, i + 1)
  {
  }

  /** Shuffling face-down cards leaves them all face down. */
  lemma ShuffledKeepsFaceDown(s: seq<Card>, draws: seq<int>)
    requires ValidDraws(draws, |s|) && forall i :: 0 <= i < |s| ==> !s[i].faceUp
    ensures forall i :: 0 <= i < |s| ==> !Shuffled(s, draws, 0)[i].faceUp
  {
    var t := Shuffled(s, draws, 0);
    ShuffledPermutes(s, draws, 0);
    forall i | 0 <= i < |t| ensures !t[i].faceUp {
      assert t[i] in multiset(s);
    }
  }
}
