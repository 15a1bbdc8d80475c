/** A playing card: an identity number in 1..53 (53 is the Joker) with a face-up flag.
    Suit, rank, colour and the short display name are all derived from the number. */
module Cards {
  import opened Results

  /** The suit and rank enums are integers underneath: any integer can be cast into
      them, which is how an invalid suit or rank reaches the card constructor. The
      arithmetic on them here is unbounded, not the 32-bit arithmetic of the program. */
  newtype Suits = int
  newtype Ranks = int

  const Clubs: Suits := 1
  const Diamonds: Suits := 2
  const Hearts: Suits := 3
  const Spades: Suits := 4
  const JokerSuit: Suits := 5

  const Two: Ranks := 1
  const Three: Ranks := 2
  const Four: Ranks := 3
  const Five: Ranks := 4
  const Six: Ranks := 5
  const Seven: Ranks := 6
  const Eight: Ranks := 7
  const Nine: Ranks := 8
  const Ten: Ranks := 9
  const Jack: Ranks := 10
  const Queen: Ranks := 11
  const King: Ranks := 12
  const Ace: Ranks := 13
  const JokerRank: Ranks := 14

  datatype Colors = Red | Black

  const CardNumMin: int := 1
  const CardNumMax: int := 52
  const JokerNum: int := 53

  /** The identity of a card; the constructor refuses every other integer. */
  type CardNumber = n: int | 1 <= n <= 53 witness 1

  /** Identity is fixed at construction; only the face-up flag ever changes. */
  datatype Card = Card(number: CardNumber, faceUp: bool)

  /** The valid numbers are the 52 standard cards and the Joker, nothing else. */
  function IsValid(cardNum: int): (b: bool)
    ensures b <==> cardNum == JokerNum || CardNumMin <= cardNum <= CardNumMax
  {
    CardNumMin <= cardNum <= JokerNum
  }

  /** The constructor from a card number: throws unless the number is valid.
      A new card lies face down. */
  function MakeCard(cardNum: int): (r: Result<Card>)
    ensures r.Ok? <==> 1 <= cardNum <= 53
    ensures r.Err? ==> r.error == InvalidCard
    ensures r.Ok? ==> r.value.number == cardNum && !r.value.faceUp
  {
    if IsValid(cardNum) then Ok(Card(cardNum, false)) else Err(InvalidCard)
  }

  /** Maps a suit and a rank to a card number; either one being Joker gives the Joker. */
  function GetCardInt(suit: Suits, rank: Ranks): (n: int)
    ensures Clubs <= suit <= Spades && Two <= rank <= Ace ==> 1 <= n <= 52
    ensures n == JokerNum <== suit == JokerSuit || rank == JokerRank
  {
    if suit == JokerSuit || rank == JokerRank then JokerNum
    else (suit as int - 1) * 13 + rank as int
  }

  function Rank(c: Card): (r: Ranks)
    ensures r == JokerRank <==> c.number == JokerNum
    ensures r != JokerRank ==> Two <= r <= Ace
  {
    if c.number == JokerNum then JokerRank else ((c.number - 1) % 13 + 1) as Ranks
  }

  function Suit(c: Card): (s: Suits)
    ensures s == JokerSuit <==> c.number == JokerNum
    ensures s != JokerSuit ==> Clubs <= s <= Spades
  {
    if c.number == JokerNum then JokerSuit else ((c.number - 1) / 13 + 1) as Suits
  }

  /** The constructor from a suit and a rank: fails only when the computed number is invalid. */
  function MakeCardFromSuitRank(suit: Suits, rank: Ranks): (r: Result<Card>)
    ensures r.Ok? <==> 1 <= GetCardInt(suit, rank) <= 53
  {
    MakeCard(GetCardInt(suit, rank))
  }

  /** The parameterless constructor builds a Joker. */
  function DefaultCard(): (r: Result<Card>)
    ensures r.Ok? && IsJoker(r.value) && !r.value.faceUp
  {
    MakeCardFromSuitRank(JokerSuit, JokerRank)
  }

  /** A random card; `draw` is the value the random generator returned, from
      [1, 53] with Jokers and from [1, 52] without. */
  function MakeRandomCard(includeJokers: bool, draw: int): (r: Result<Card>)
    requires CardNumMin <= draw < (if includeJokers then JokerNum + 1 else CardNumMax + 1)
    ensures r.Ok? && r.value.number == draw
    ensures !includeJokers ==> !IsJoker(r.value)
  {
    MakeCard(draw)
  }

  /** The Joker is the one card of the Joker suit, and the one card of the Joker rank. */
  function IsJoker(c: Card): (b: bool)
    ensures b <==> Suit(c) == JokerSuit
    ensures b <==> Rank(c) == JokerRank
  {
    c.number == JokerNum
  }

  /** The rank's enum value plus one: 2..14 for Two..Ace, read off the number, and 15 for the Joker. */
  function RankAsInt(c: Card): (v: int)
    ensures IsJoker(c) ==> v == 15
    ensures !IsJoker(c) ==> v == (c.number - 1) % 13 + 2 && 2 <= v <= 14
  {
    Rank(c) as int + 1
  }

  /** Red are exactly Diamonds and Hearts, numbers 14..39; the Joker is Black. */
  function Color(c: Card): (col: Colors)
    ensures col == Red <==> 14 <= c.number <= 39
    ensures IsJoker(c) ==> col == Black
  {
    if Suit(c) == Diamonds || Suit(c) == Hearts then Red else Black
  }

  /** The first letter of a suit's name. */
  function SuitInitial(s: Suits): char
    requires Clubs <= s <= JokerSuit
  {
    if s == Clubs then 'C'
    else if s == Diamonds then 'D'
    else if s == Hearts then 'H'
    else if s == Spades then 'S'
    else 'J'
  }

  /** The first letter of the name of a rank from Ten upwards. */
  function RankInitial(r: Ranks): char
    requires Ten <= r <= JokerRank
  {
    if r == Ten then 'T'
    else if r == Jack then 'J'
    else if r == Queen then 'Q'
    else if r == King then 'K'
    else if r == Ace then 'A'
    else 'J'
  }

  function Digit(d: nat): (c: char)
    requires d < 10
  {
    ('0' as int + d) as char
  }

  /** Decimal digits of a natural number, as int.ToString() writes them. */
  function NatToString(n: nat): (s: string)
    ensures |s| >= 1 && (n < 10 ==> s == [Digit(n)])
  {
    if n < 10 then [Digit(n)] else NatToString(n / 10) + [Digit(n % 10)]
  }

  /** The two-character display code: suit initial plus the value for Two..Nine,
      suit initial plus rank initial for Ten..Ace, and "J" for the Joker. */
  function ShortName(c: Card): (name: string)
    ensures IsJoker(c) ==> name == "J"
    ensures !IsJoker(c) ==> |name| == 2 && name[0] == SuitInitial(Suit(c))
  {
    if IsJoker(c) then "J"
    else if Rank(c) <= Nine then [SuitInitial(Suit(c))] + NatToString(RankAsInt(c))
    else [SuitInitial(Suit(c))] + [RankInitial(Rank(c))]
  }

  /** Reads a card number back from a short name (an independent inverse of ShortName). */
  function ParseShortName(name: string): (r: Option<CardNumber>)
  {
    if name == "J" then Some(JokerNum)
    else if |name| != 2 then None
    else
      match (SuitFromInitial(name[0]), RankFromChar(name[1]))
      case (Some(s), Some(rk)) => Some(GetCardInt(s, rk))
      case _ => None
  }

  function SuitFromInitial(ch: char): (r: Option<Suits>)
    ensures r.Some? ==> Clubs <= r.value <= Spades
  {
    if ch == 'C' then Some(Clubs)
    else if ch == 'D' then Some(Diamonds)
    else if ch == 'H' then Some(Hearts)
    else if ch == 'S' then Some(Spades)
    else None
  }

  function RankFromChar(ch: char): (r: Option<Ranks>)
    ensures r.Some? ==> Two <= r.value <= Ace
  {
    if '2' <= ch <= '9' then Some((ch as int - '2' as int + 1) as Ranks)
    else if ch == 'T' then Some(Ten)
    else if ch == 'J' then Some(Jack)
    else if ch == 'Q' then Some(Queen)
    else if ch == 'K' then Some(King)
    else if ch == 'A' then Some(Ace)
    else None
  }

  /** Equality, ordering and hashing look at the card number only: two cards are
      equal exactly when they differ at most in the face-up flag, that is, when
      they have the same suit and rank. */
  function Equals(a: Card, b: Card): (eq: bool)
    ensures eq <==> a.(faceUp := false) == b.(faceUp := false)
    ensures eq <==> Suit(a) == Suit(b) && Rank(a) == Rank(b)
  {
    CardIntRoundTrip(a);
    CardIntRoundTrip(b);
    a.number == b.number
  }

  /** Zero for equal cards, negative when the first card has the lower number. */
  function CompareTo(a: Card, b: Card): (r: int)
    ensures r == 0 <==> Equals(a, b)
    ensures r < 0 <==> a.number < b.number
  {
    a.number - b.number
  }

  function Less(a: Card, b: Card): (lt: bool)
    ensures lt <==> CompareTo(a, b) < 0
  {
    a.number < b.number
  }

  function Greater(a: Card, b: Card): (gt: bool)
    ensures gt <==> CompareTo(a, b) > 0
  {
    a.number > b.number
  }

  /** The hash is the card number, which suit and rank determine. */
  function HashCode(c: Card): (h: int)
    ensures 1 <= h <= 53 && h == GetCardInt(Suit(c), Rank(c))
  {
    CardIntRoundTrip(c);
    c.number
  }

  /** A clone is a new card with the same number; like every new card it lies face down. */
  function Clone(c: Card): (r: Card)
    ensures Equals(r, c) && CompareTo(r, c) == 0 && HashCode(r) == HashCode(c)
    ensures !r.faceUp
  {
    Card(c.number, false)
  }

  // ----- Properties -----

  /** Every integer in 1..53, the Joker included, makes a card; every other integer throws. */
  lemma ConstructorAcceptsExactlyValidNumbers()
    ensures MakeCard(JokerNum).Ok? && IsJoker(MakeCard(JokerNum).value)
    ensures MakeCard(CardNumMax).Ok? && MakeCard(CardNumMin).Ok?
    ensures MakeCard(CardNumMin - 1).Err? && MakeCard(-1).Err? && MakeCard(JokerNum + 1).Err?
  {
  }

  /** Card numbers of the 52 standard cards, as the tests state them. */
  lemma GetCardIntExamples()
    ensures GetCardInt(Clubs, Three) == 2 && GetCardInt(Spades, Ace) == 52
    ensures GetCardInt(JokerSuit, Two) == 53 && GetCardInt(Hearts, JokerRank) == 53
  {
  }

  /** Building a card from a standard suit and rank and reading them back gives the same pair. */
  lemma {:induction false} SuitRankRoundTrip(suit: Suits, rank: Ranks)
    requires Clubs <= suit <= Spades && Two <= rank <= Ace
    ensures MakeCardFromSuitRank(suit, rank).Ok?
    ensures Suit(MakeCardFromSuitRank(suit, rank).value) == suit
    ensures Rank(MakeCardFromSuitRank(suit, rank).value) == rank
  {
    var n := GetCardInt(suit, rank);
    assert n - 1 == (suit as int - 1) * 13 + (rank as int - 1);
    assert 0 <= rank as int - 1 < 13;
    DivModUnique(n - 1, suit as int - 1, rank as int - 1);
  }

  lemma DivModUnique(x: int, q: int, r: int)
    requires 0 <= q && 0 <= r < 13 && x == q * 13 + r
    ensures x / 13 == q && x % 13 == r
  {
  }

  /** The other direction: suit and rank determine the number of every card. */
  lemma {:induction false} CardIntRoundTrip(c: Card)
    ensures GetCardInt(Suit(c), Rank(c)) == c.number
    ensures MakeCardFromSuitRank(Suit(c), Rank(c)) == Ok(Card(c.number, false))
  {
    if c.number != JokerNum {
      var x := c.number - 1;
      assert x == (x / 13) * 13 + x % 13;
    }
  }

  lemma ColorExamples()
    ensures Color(MakeCardFromSuitRank(Hearts, Two).value) == Red
    ensures Color(MakeCardFromSuitRank(Diamonds, Ten).value) == Red
    ensures Color(MakeCardFromSuitRank(Clubs, Ace).value) == Black
    ensures Color(MakeCardFromSuitRank(Spades, Eight).value) == Black
    ensures Color(MakeCardFromSuitRank(JokerSuit, JokerRank).value) == Black
  {
  }

  /** Two..Ten have RankAsInt 2..10, the pip value they score in BlackJack: a Two
      gives 2, a Ten gives 10, and for Two..Nine it is the digit of the short name. */
  lemma RankAsIntOfNumberCards(c: Card)
    requires Two <= Rank(c) <= Ten
    ensures 2 <= RankAsInt(c) <= 10 && RankAsInt(c) == (c.number - 1) % 13 + 2
    ensures Rank(c) == Two ==> RankAsInt(c) == 2
    ensures Rank(c) == Ten ==> RankAsInt(c) == 10
    ensures Rank(c) <= Nine ==> ShortName(c) == [SuitInitial(Suit(c)), Digit(RankAsInt(c))]
  {
  }

  lemma ShortNameExamples()
    ensures ShortName(MakeCardFromSuitRank(Hearts, Two).value) == "H2"
    ensures ShortName(MakeCardFromSuitRank(JokerSuit, JokerRank).value) == "J"
    ensures ShortName(MakeCardFromSuitRank(Clubs, Queen).value) == "CQ"
    ensures ShortName(MakeCardFromSuitRank(Hearts, Ten).value) == "HT"
  {
  }

  /** The short name identifies the card: parsing it gives back the card number. */
  lemma {:induction false} ShortNameRoundTrip(c: Card)
    ensures ParseShortName(ShortName(c)) == Some(c.number)
  {
    if !IsJoker(c) {
      var s, r := Suit(c), Rank(c);
      var name := ShortName(c);
      assert SuitFromInitial(name[0]) == Some(s);
      if r <= Nine {
        assert name[1] == Digit(RankAsInt(c));
        assert RankFromChar(name[1]) == Some(r);
      } else {
        assert RankFromChar(name[1]) == Some(r);
      }
      CardIntRoundTrip(c);
    }
  }

  /** Hence two cards share a short name only if they are equal. */
  lemma ShortNameInjective(a: Card, b: Card)
    requires ShortName(a) == ShortName(b)
    ensures Equals(a, b)
  {
    ShortNameRoundTrip(a);
    ShortNameRoundTrip(b);
  }

  /** The comparison is a total order: antisymmetric, with exactly one of <, equal
      and > holding; equal cards hash alike; and the face-up flag plays no part. */
  lemma OrderingByNumber(a: Card, b: Card, up: bool)
    ensures CompareTo(a, b) == -CompareTo(b, a)
    ensures Less(a, b) <==> Greater(b, a)
    ensures (if Less(a, b) then 1 else 0) + (if Equals(a, b) then 1 else 0) + (if Greater(a, b) then 1 else 0) == 1
    ensures Equals(a, b) ==> HashCode(a) == HashCode(b)
    ensures Equals(a, a.(faceUp := up)) && CompareTo(a.(faceUp := up), b) == CompareTo(a, b)
  {
  }

  // ----- Finding: an out-of-range rank can alias a real card -----

  /** As written, (Clubs, Joker + 1) gets number 15 and builds the Three of Diamonds
      instead of failing, although the rank is outside the enum. */
  lemma RankOutOfRangeAliases()
    ensures GetCardInt(Clubs, JokerRank + 1) == 15
    ensures MakeCardFromSuitRank(Clubs, JokerRank + 1) == Ok(Card(15, false))
    ensures Suit(Card(15, false)) == Diamonds && Rank(Card(15, false)) == Three
  {
  }

  /** The evidently intended constructor: a suit or rank outside its enum fails. */
  function MakeCardFromSuitRankChecked(suit: Suits, rank: Ranks): (r: Result<Card>)
    ensures r.Ok? <==> Clubs <= suit <= JokerSuit && Two <= rank <= JokerRank
    ensures r.Ok? ==> (IsJoker(r.value) <==> suit == JokerSuit || rank == JokerRank)
    ensures r.Ok? && !IsJoker(r.value) ==> Suit(r.value) == suit && Rank(r.value) == rank
  {
    if !(Clubs <= suit <= JokerSuit && Two <= rank <= JokerRank) then Err(InvalidCard)
    else if suit == JokerSuit || rank == JokerRank then MakeCardFromSuitRank(suit, rank)
    else
      SuitRankRoundTrip(suit, rank);
      MakeCardFromSuitRank(suit, rank)
  }
}
