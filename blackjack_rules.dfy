/** The scoring and adjudication rules of the BlackJack engine, as functions of the
    cards. */
module BlackJackRules {
  import opened Cards
  import opened DeckSpec

  const HouseHand: nat := 0
  const MaxHandValue: int := 21

  /** What a card adds before the Aces are counted: nothing for a Joker, 10 for a
      Jack, Queen or King, nothing yet for an Ace, the face value otherwise. */
  function BasePoints(n: CardNumber): int {
    var r := Rank(Card(n, false));
    if r == JokerRank then 0
    else if r == Jack || r == Queen || r == King then 10
    else if r == Ace then 0
    else RankAsInt(Card(n, false))
  }

  function AcePoint(n: CardNumber): int {
    if Rank(Card(n, false)) == Ace then 1 else 0
  }

  /** The hand total before the Aces. */
  function BaseValue(cards: seq<Card>): int {
    SumOver(Numbers(cards), BasePoints)
  }

  /** The number of Aces in the hand. */
  function AceCount(cards: seq<Card>): int {
    SumOver(Numbers(cards), AcePoint)
  }

  /** The Ace loop: each of `aces` Aces adds 11, and 10 comes off again whenever the
      running total then exceeds 21. */
  function AddAces(total: int, aces: int): int
    decreases aces
  {
    if aces <= 0 then total
    else
      var t := total + 11;
      AddAces(if t > MaxHandValue then t - 10 else t, aces - 1)
  }

  /** The value the calculate hook gives a hand. It lies between "every Ace is 1"
      and "every Ace is 11", and is never negative. */
  function HandValue(cards: seq<Card>): (v: int)
    ensures 0 <= AceCount(cards) <= |cards|
    ensures BaseValue(cards) + AceCount(cards) <= v <= BaseValue(cards) + 11 * AceCount(cards)
    ensures v >= 0
  {
    PointsNonNegative(Numbers(cards));
    AddAcesBounds(BaseValue(cards), AceCount(cards));
    AddAces(BaseValue(cards), AceCount(cards))
  }

  // ----- Properties -----

  lemma {:induction false} PointsNonNegative(ns: seq<CardNumber>)
    ensures 0 <= SumOver(ns, BasePoints) <= 10 * |ns|
    ensures 0 <= SumOver(ns, AcePoint) <= |ns|
    decreases |ns|
  {
    if ns != [] {
      PointsNonNegative(ns[..|ns| - 1]);
      assert 0 <= BasePoints(ns[|ns| - 1]) <= 10;
    }
  }

  /** Each Ace counts as 1 or as 11. */
  lemma {:induction false} AddAcesBounds(total: int, aces: nat)
    ensures total + aces <= AddAces(total, aces) <= total + 11 * aces
    decreases aces
  {
    if aces > 0 {
      var t := total + 11;
      AddAcesBounds(if t > MaxHandValue then t - 10 else t, aces - 1);
    }
  }

  /** The value depends only on the multiset of card numbers: not on order nor on
      which cards face up. */
  lemma HandValueByNumbers(a: seq<Card>, b: seq<Card>)
    requires multiset(Numbers(a)) == multiset(Numbers(b))
    ensures HandValue(a) == HandValue(b)
  {
    SumOverPermutation(Numbers(a), Numbers(b), BasePoints);
    SumOverPermutation(Numbers(a), Numbers(b), AcePoint);
  }

  lemma HandValueOfPermutation(a: seq<Card>, b: seq<Card>)
    requires multiset(a) == multiset(b)
    ensures HandValue(a) == HandValue(b)
  {
    NumbersOfPermutation(a, b);
    HandValueByNumbers(a, b);
  }

  lemma HandValueFaceIndependent(a: seq<Card>, up: bool)
    ensures HandValue(FacedAs(a, up)) == HandValue(a)
  {
  }

  lemma HandValueEmpty()
    ensures HandValue([]) == 0
  {
  }

  /** One Ace counts 11, two Aces 12, four Aces 14. */
  lemma HandValueAceExamples()
    ensures HandValue([Card(13, false)]) == 11
    ensures HandValue([Card(13, false), Card(26, false)]) == 12
    ensures HandValue([Card(13, false), Card(26, false), Card(39, false), Card(52, false)]) == 14
  {
    var a1: seq<CardNumber> := [13];
    var a2: seq<CardNumber> := [13, 26];
    var a4: seq<CardNumber> := [13, 26, 39, 52];
    assert Numbers([Card(13, false)]) == a1;
    assert Numbers([Card(13, false), Card(26, false)]) == a2;
    assert Numbers([Card(13, false), Card(26, false), Card(39, false), Card(52, false)]) == a4;
    assert a1[..0] == [] && a2[..1] == a1 && a4[..1] == a1;
    assert a4[..3][..2] == a2 && a4[..3] == [13, 26, 39];
  }

  /** King and Ace make 21; Ten, Six and Six make 22. */
  lemma HandValueMixedExamples()
    ensures HandValue([Card(12, false), Card(13, false)]) == 21
    ensures HandValue([Card(9, false), Card(5, false), Card(18, false)]) == 22
  {
    var ka: seq<CardNumber> := [12, 13];
    var t66: seq<CardNumber> := [9, 5, 18];
    assert Numbers([Card(12, false), Card(13, false)]) == ka;
    assert Numbers([Card(9, false), Card(5, false), Card(18, false)]) == t66;
    assert ka[..1] == [12] && [12][..0] == [];
    assert t66[..2] == [9, 5] && [9, 5][..1] == [9] && [9][..0] == [];
  }

  /** The Ace rule is greedy: Ten, Ace, Ace scores 22, a bust, although counting
      both Aces as 1 gives 12. */
  lemma GreedyAceRuleNotOptimal()
    ensures HandValue([Card(9, false), Card(13, false), Card(26, false)]) == 22
    ensures BaseValue([Card(9, false), Card(13, false), Card(26, false)])
            + AceCount([Card(9, false), Card(13, false), Card(26, false)]) == 12
  {
    var ns: seq<CardNumber> := [9, 13, 26];
    assert Numbers([Card(9, false), Card(13, false), Card(26, false)]) == ns;
    assert ns[..2] == [9, 13] && [9, 13][..1] == [9] && [9][..0] == [];
  }

  // ----- Adjudication -----

  datatype HandResult = Win | Lose | Bust | Push

  /** The player's result against the house, from the two hand values. */
  function Adjudicate(playerValue: int, houseValue: int): (r: HandResult)
    ensures r == Bust <==> playerValue > MaxHandValue
    ensures r == Win <==> playerValue <= MaxHandValue && (houseValue > MaxHandValue || playerValue > houseValue)
    ensures r == Lose <==> playerValue <= MaxHandValue && houseValue <= MaxHandValue && playerValue < houseValue
    ensures r == Push <==> playerValue <= MaxHandValue && houseValue <= MaxHandValue && playerValue == houseValue
  {
    if playerValue > MaxHandValue then Bust
    else if houseValue > MaxHandValue || playerValue > houseValue then Win
    else if playerValue < houseValue then Lose
    else Push
  }

  /** A busted player loses even when the house busts too. */
  lemma BustBeatsHouseBust(playerValue: int, houseValue: int)
    requires playerValue > MaxHandValue && houseValue > MaxHandValue
    ensures Adjudicate(playerValue, houseValue) == Bust
  {
  }

  /** Between two standing hands the rule is symmetric: one wins exactly when the
      other would lose, and a push is a push both ways. */
  lemma AdjudicateSymmetric(a: int, b: int)
    requires a <= MaxHandValue && b <= MaxHandValue
    ensures Adjudicate(a, b) == Win <==> Adjudicate(b, a) == Lose
    ensures Adjudicate(a, b) == Push <==> Adjudicate(b, a) == Push
  {
  }
}
