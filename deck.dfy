/** The deck: an ordered list of cards used both as the pile and as a hand, with a
    cached total value that an optional hook recomputes after every change to the
    list of cards. */
module Decks {
  import opened Results
  import opened Cards
  import opened DeckSpec

  class Deck {
    var cards: seq<Card>
    const allowJokers: bool
    var totalValue: int
    const name: string
    /** The subscriber of the calculate event, as the function it computes from the cards. */
    var onCalculate: Option<seq<Card> -> int>

    /** The number of cards held, duplicates included. */
    function Count(): (n: nat)
      reads this
      ensures n == |multiset(cards)| && (n == 0 <==> cards == [])
    {
      |cards|
    }

    function IsEmpty(): (e: bool)
      reads this
      ensures e <==> Count() == 0
    {
      cards == []
    }

    /** The total value after the calculate event: the hook's value of the current
        cards, or `previous` when nobody subscribed. */
    function Recalculated(previous: int): (r: int)
      reads this
      ensures onCalculate.None? ==> r == previous
      ensures onCalculate.Some? ==> r == onCalculate.value(cards)
    {
      if onCalculate.Some? then onCalculate.value(cards) else previous
    }

    /** A deck named `name`; populated with the canonical cards when `withCards` holds,
        taken from the shared static list or freshly made. */
    constructor (name: string, hasJokers: bool, withCards: bool, useStaticCards: bool)
      ensures this.name == name && allowJokers == hasJokers
      ensures cards == if withCards then Canonical(hasJokers) else []
      ensures totalValue == 0 && onCalculate == None
    {
      this.name := name;
      allowJokers := hasJokers;
      cards := [];
      totalValue := 0;
      onCalculate := None;
      new;
      if withCards {
        if useStaticCards {
          AddStaticCards();
          StaticCardsAreCanonical(allowJokers);
        } else {
          AddDefaultCards();
        }
        OnCalculate();
      }
    }

    /** The parameterless constructor: a populated deck without Jokers. */
    constructor Unnamed()
      ensures name == "Unnamed" && !allowJokers
      ensures cards == Canonical(false) && Pristine(cards, false)
      ensures totalValue == 0 && onCalculate == None
    {
      name := "Unnamed";
      allowJokers := false;
      cards := [];
      totalValue := 0;
      onCalculate := None;
      new;
      AddStaticCards();
      StaticCardsAreCanonical(false);
      OnCalculate();
      CanonicalIsPristine(false);
    }

    /** Appends the static cards, skipping the Jokers when they are not allowed. */
    method AddStaticCards()
      modifies this`cards
      ensures cards == old(cards) + KeepAllowed(DefaultCards, allowJokers)
    {
      var i := 0;
      while i < |DefaultCards|
        invariant 0 <= i <= |DefaultCards|
        invariant cards == old(cards) + KeepAllowed(DefaultCards[..i], allowJokers)
      {
        var p := DefaultCards[i];
        assert DefaultCards[..i + 1][..i] == DefaultCards[..i];
        if IsJoker(p) {
          if allowJokers {
            cards := cards + [p];
          }
        } else {
          cards := cards + [p];
        }
        i := i + 1;
      }
      assert DefaultCards[..i] == DefaultCards;
    }

    /** Appends new cards 1..52, then two new Jokers when they are allowed. */
    method AddDefaultCards()
      modifies this`cards
      ensures cards == old(cards) + Canonical(allowJokers)
    {
      var s := CardNumMin;
      while s <= CardNumMax
        invariant CardNumMin <= s <= CardNumMax + 1
        invariant cards == old(cards) + Standard52()[..s - 1]
      {
        assert Standard52()[..s] == Standard52()[..s - 1] + [Card(s, false)];
        cards := cards + [Card(s, false)];
        s := s + 1;
      }
      assert Standard52()[..52] == Standard52();
      if allowJokers {
        cards := cards + [Card(JokerNum, false)];
        cards := cards + [Card(JokerNum, false)];
      }
    }

    /** Raises the calculate event. */
    method OnCalculate()
      modifies this`totalValue
      ensures totalValue == Recalculated(old(totalValue))
    {
      if onCalculate.Some? {
        totalValue := onCalculate.value(cards);
      }
    }

    /** Subscribes a calculation to the calculate event. */
    method SubscribeCalculate(hook: seq<Card> -> int)
      modifies this`onCalculate
      ensures onCalculate == Some(hook)
    {
      onCalculate := Some(hook);
    }

    /** The pristine check: the canonical count, then each number 1..52 present, then
        with Jokers exactly two of them. */
    method IsPristine() returns (b: bool)
      ensures b == Pristine(cards, allowJokers)
    {
      if |cards| != (if allowJokers then 54 else 52) {
        return false;
      }
      var cardNum := CardNumMin;
      while cardNum <= CardNumMax
        invariant CardNumMin <= cardNum <= CardNumMax + 1
        invariant forall n :: CardNumMin <= n < cardNum ==> n in Numbers(cards)
      {
        if cardNum !in Numbers(cards) {
          return false;
        }
        cardNum := cardNum + 1;
      }
      if allowJokers {
        if CountNumber(cards, JokerNum) != 2 {
          return false;
        }
      }
      return true;
    }

    /** Turns every card to the given side, one card at a time. */
    method SetAllFaceUp(isFaceUp: bool)
      modifies this`cards
      ensures cards == FacedAs(old(cards), isFaceUp)
    {
      var i := 0;
      while i < |cards|
        invariant 0 <= i <= |cards| == |old(cards)|
        invariant forall k :: 0 <= k < i ==> cards[k] == Card(old(cards)[k].number, isFaceUp)
        invariant forall k :: i <= k < |cards| ==> cards[k] == old(cards)[k]
      {
        cards := cards[i := Card(cards[i].number, isFaceUp)];
        i := i + 1;
      }
    }

    /** Turns the last card face up: what the engine does through the reference to a
        card it has just added. */
    method SetLastFaceUp()
      requires cards != []
      modifies this`cards
      ensures cards == FaceUpLast(old(cards))
    {
      cards := cards[|cards| - 1 := Card(cards[|cards| - 1].number, true)];
    }

    /** Sorts by card number (the cards' own ordering). */
    method Sort()
      modifies this`cards
      ensures SortedBy(cards, ByNumber) && multiset(cards) == multiset(old(cards))
    {
      cards := SortByKey(cards, ByNumber);
    }

    /** Sorts by rank with a comparison that looks at the rank only. */
    method SortByRank()
      modifies this`cards
      ensures SortedBy(cards, ByRank) && multiset(cards) == multiset(old(cards))
    {
      cards := SortByKey(cards, ByRank);
    }

    /** Sorts by suit with a comparison that looks at the suit only. */
    method SortBySuit()
      modifies this`cards
      ensures SortedBy(cards, BySuit) && multiset(cards) == multiset(old(cards))
    {
      cards := SortByKey(cards, BySuit);
    }

    method Add(p: Card) returns (r: Card)
      modifies this`cards, this`totalValue
      ensures r == p
      ensures cards == old(cards) + [p]
      ensures totalValue == Recalculated(old(totalValue))
    {
      cards := cards + [p];
      OnCalculate();
      r := p;
    }

    /** Removes the first card equal to p (same number); the event fires only when a
        card was removed. */
    method Remove(p: Card) returns (removed: bool)
      modifies this`cards, this`totalValue
      ensures removed == (p.number in Numbers(old(cards)))
      ensures cards == RemoveFirst(old(cards), p.number)
      ensures totalValue == if removed then Recalculated(old(totalValue)) else old(totalValue)
    {
      RemoveFirstSpec(cards, p.number);
      var k := FirstIndex(cards, p.number);
      if k >= 0 {
        cards := cards[..k] + cards[k + 1..];
        OnCalculate();
        removed := true;
      } else {
        removed := false;
      }
    }

    /** Swaps each position i but the last with position draws[i], drawn from
        [i + 1, Count - 1]; returns at once with fewer than two cards. */
    method Shuffle(draws: seq<int>)
      requires ValidDraws(draws, |cards|)
      modifies this`cards
      ensures cards == Shuffled(old(cards), draws, 0)
      ensures multiset(cards) == multiset(old(cards))
    {
      ShuffledPermutes(cards, draws, 0);
      if |cards| < 2 {
        return;
      }
      cards := SwapEach(cards, draws);
    }

    /** Collects the other deck's cards into this one, then shuffles. */
    method ShuffleWithDeck(d2: Deck, draws: seq<int>)
      requires ValidDraws(draws, if d2 == this then 0 else |cards| + |d2.cards|)
      modifies this`cards, this`totalValue, d2`cards, d2`totalValue
      ensures d2 != this ==> cards == Shuffled(old(cards) + old(d2.cards), draws, 0) && d2.cards == []
      ensures d2 == this ==> cards == []
      ensures d2 != this ==> d2.totalValue == d2.Recalculated(old(d2.totalValue))
      ensures totalValue == if onCalculate.None? then old(totalValue)
                            else onCalculate.value(if d2 == this then [] else old(cards) + old(d2.cards))
    {
      var _ := CollectFrom(d2);
      Shuffle(draws);
    }

    /** The card at `index`, or none when the index is past the end. */
    function Peek(index: nat): (r: Option<Card>)
      reads this
      ensures r.Some? <==> index < |cards|
      ensures r.Some? ==> r.value == cards[index]
    {
      if index > |cards| - 1 then None else Some(cards[index])
    }

    /** Takes the first card off the deck. */
    method DrawOne() returns (r: Option<Card>)
      modifies this`cards, this`totalValue
      ensures old(cards) == [] ==> r == None && cards == [] && totalValue == old(totalValue)
      ensures old(cards) != [] ==>
        && r == Some(old(cards)[0])
        && cards == old(cards)[1..]
        && totalValue == Recalculated(old(totalValue))
    {
      if |cards| > 0 {
        var returnCard := cards[0];
        assert FirstIndex(cards, returnCard.number) == 0;
        assert Numbers(cards)[0] == returnCard.number;
        var _ := Remove(returnCard);
        return Some(returnCard);
      }
      return None;
    }

    /** Empties the deck; the calculate event does not fire. */
    method RemoveCards()
      modifies this`cards
      ensures cards == []
    {
      cards := [];
    }

    /** Moves the first card of `fromDeck` to the end of this deck. */
    method AddCardFrom(fromDeck: Deck) returns (r: Option<Card>)
      modifies this`cards, this`totalValue, fromDeck`cards, fromDeck`totalValue
      ensures old(fromDeck.cards) == [] ==>
        r == None && cards == old(cards) && fromDeck.cards == []
        && totalValue == old(totalValue) && fromDeck.totalValue == old(fromDeck.totalValue)
      ensures old(fromDeck.cards) != [] ==> r == Some(old(fromDeck.cards)[0])
      ensures old(fromDeck.cards) != [] && fromDeck != this ==>
        && cards == old(cards) + [old(fromDeck.cards)[0]]
        && fromDeck.cards == old(fromDeck.cards)[1..]
        && fromDeck.totalValue == fromDeck.Recalculated(old(fromDeck.totalValue))
      ensures old(fromDeck.cards) != [] && fromDeck == this ==>
        cards == old(cards)[1..] + [old(cards)[0]]
      ensures old(fromDeck.cards) != [] ==> totalValue == Recalculated(old(totalValue))
    {
      if |fromDeck.cards| == 0 {
        return None;
      }
      var p := fromDeck.DrawOne();
      var added := Add(p.value);
      r := Some(added);
    }

    /** Moves the card at position `pick` of `fromDeck` (the random draw from
        [0, Count - 1]) to the end of this deck. The removal takes the first card
        equal to it, which may be an earlier card with the same number. */
    method AddRandomCardFrom(fromDeck: Deck, pick: nat) returns (moved: bool)
      requires fromDeck.cards != [] ==> pick < |fromDeck.cards|
      modifies this`cards, this`totalValue, fromDeck`cards, fromDeck`totalValue
      ensures moved == (old(fromDeck.cards) != [])
      ensures !moved ==>
        cards == old(cards) && fromDeck.cards == []
        && totalValue == old(totalValue) && fromDeck.totalValue == old(fromDeck.totalValue)
      ensures moved && fromDeck != this ==>
        var theCard := old(fromDeck.cards)[pick];
        && fromDeck.cards == RemoveFirst(old(fromDeck.cards), theCard.number)
        && cards == old(cards) + [theCard]
        && fromDeck.totalValue == fromDeck.Recalculated(old(fromDeck.totalValue))
      ensures moved && fromDeck != this ==>
        && |fromDeck.cards| == old(|fromDeck.cards|) - 1
        && multiset(Numbers(cards)) + multiset(Numbers(fromDeck.cards))
           == old(multiset(Numbers(cards)) + multiset(Numbers(fromDeck.cards)))
      ensures moved && fromDeck == this ==>
        cards == RemoveFirst(old(cards), old(cards)[pick].number) + [old(cards)[pick]]
      ensures moved ==> totalValue == Recalculated(old(totalValue))
    {
      if |fromDeck.cards| == 0 {
        return false;
      }
      var theCard := fromDeck.cards[pick];
      assert theCard.number in Numbers(fromDeck.cards) by {
        assert Numbers(fromDeck.cards)[pick] == theCard.number;
      }
      RemoveFirstSpec(fromDeck.cards, theCard.number);
      var _ := fromDeck.Remove(theCard);
      var _ := Add(theCard);
      NumbersConcat(old(cards), [theCard]);
      return true;
    }

    /** Appends the other deck's cards and empties it; both decks then raise the
        calculate event. Collecting a deck into itself empties it. */
    method CollectFrom(d1: Deck) returns (r: Deck)
      modifies this`cards, this`totalValue, d1`cards, d1`totalValue
      ensures r == this
      ensures d1 != this ==> cards == old(cards) + old(d1.cards) && d1.cards == []
      ensures d1 == this ==> cards == []
      ensures d1 != this ==> d1.totalValue == d1.Recalculated(old(d1.totalValue))
      ensures totalValue == Recalculated(if d1 == this then d1.Recalculated(old(totalValue)) else old(totalValue))
    {
      cards := cards + d1.cards;
      d1.cards := [];
      d1.OnCalculate();
      OnCalculate();
      r := this;
    }

    /** The number of cards of suit s, counted one card at a time. */
    method CountOfSuit(s: Suits) returns (counter: int)
      ensures counter == SuitCount(cards, s)
      ensures 0 <= counter <= |cards|
    {
      SuitCountBounds(cards, s);
      counter := 0;
      var i := 0;
      while i < |cards|
        invariant 0 <= i <= |cards|
        invariant counter == SuitCount(cards[..i], s)
      {
        assert cards[..i + 1][..i] == cards[..i];
        assert Numbers(cards[..i + 1])[..i] == Numbers(cards[..i]);
        if Suit(cards[i]) == s {
          counter := counter + 1;
        }
        i := i + 1;
      }
      assert cards[..i] == cards;
    }

    /** A new deck with the same name, Joker setting, hook and cards, whose calculate
        event fires once. */
    method Clone() returns (d: Deck)
      ensures fresh(d)
      ensures d.name == name && d.allowJokers == allowJokers && d.onCalculate == onCalculate
      ensures d.cards == cards
      ensures d.totalValue == d.Recalculated(0)
    {
      d := new Deck(name, allowJokers, false, true);
      d.onCalculate := onCalculate;
      d.cards := d.cards + cards;
      d.OnCalculate();
    }

    /** `d1 + d2`: collects d2 into d1. */
    static method PlusDeck(d1: Deck, d2: Deck) returns (r: Deck)
      modifies d1`cards, d1`totalValue, d2`cards, d2`totalValue
      ensures r == d1
      ensures d1 != d2 ==> d1.cards == old(d1.cards) + old(d2.cards) && d2.cards == []
      ensures d1 == d2 ==> d1.cards == []
      ensures d1 != d2 ==> d2.totalValue == d2.Recalculated(old(d2.totalValue))
      ensures d1 != d2 ==> d1.totalValue == d1.Recalculated(old(d1.totalValue))
      ensures d1 == d2 ==> d1.totalValue == d1.Recalculated(d1.Recalculated(old(d1.totalValue)))
    {
      r := d1.CollectFrom(d2);
    }

    /** `d + p`: adds the card. */
    static method PlusCard(d: Deck, p: Card) returns (r: Deck)
      modifies d`cards, d`totalValue
      ensures r == d && d.cards == old(d.cards) + [p]
      ensures d.totalValue == d.Recalculated(old(d.totalValue))
    {
      var _ := d.Add(p);
      r := d;
    }

    /** `d - p`: removes the first card equal to p. */
    static method MinusCard(d: Deck, p: Card) returns (r: Deck)
      modifies d`cards, d`totalValue
      ensures r == d && d.cards == RemoveFirst(old(d.cards), p.number)
      ensures d.totalValue == if p.number in Numbers(old(d.cards)) then d.Recalculated(old(d.totalValue))
                              else old(d.totalValue)
    {
      var _ := d.Remove(p);
      r := d;
    }
  }

  /** The swap loop of the shuffle: for each position i but the last, exchange the
      cards at i and draws[i]. */
  method SwapEach(s: seq<Card>, draws: seq<int>) returns (c: seq<Card>)
    requires |s| >= 2 && ValidDraws(draws, |s|)
    ensures c == Shuffled(s, draws, 0)
  {
    c := s;
    var i := 0;
    while i < |c| - 1
      invariant 0 <= i <= |c| - 1
      invariant |c| == |s|
      invariant Shuffled(c, draws, i) == Shuffled(s, draws, 0)
    {
      var j := draws[i];
      ghost var before := c;
      ShuffledStep(before, draws, i);
      SwapAsUpdates(before, i, j);
      var temp := c[i];
      c := c[i := c[j]];
      c := c[j := temp];
      i := i + 1;
    }
  }
}
