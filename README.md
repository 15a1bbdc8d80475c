# BlackJack card engine in Dafny

This project models the card, deck and hand engine of a small BlackJack program
(the `PlayingCards` library) and proves properties of it:

- **Cards** (module `Cards`). A card is an identity number in 1..53, where 53 is the
  Joker, plus a face-up flag. Suit and rank come from the number by division and
  remainder by 13, and so do the colour and the two-character short name.
  Equality, ordering and hashing look at the number only.
- **Decks** (modules `DeckSpec` and `Decks`). A deck is a mutable ordered list of
  cards, used both as the pile and as a hand. It has a cached total value, which an
  optional calculate hook recomputes after every structural change. Its operations
  are:
  - filling the deck from the shared static card list, or with new cards;
  - the pristine check;
  - the in-place shuffle;
  - three sorts;
  - adding, removing and drawing cards;
  - moving cards between decks;
  - counting a suit, cloning, and the `+`/`-` operators.

  `DeckSpec` holds the value-level specification: canonical decks, the pristine
  predicate, the shuffle as a function of the draws, the sorts, and suit counts.
  `Decks.Deck` is the class whose methods change `cards` and `totalValue` in place.
- **The BlackJack engine** (modules `BlackJackRules` and `BlackJackGame`).
  - The engine owns one pile and `numPlayers + 1` hands. Hand 0 is the house.
  - Every hand subscribes to the BlackJack calculation. It gives 10 for Jack, Queen
    and King, face value for Two..Ten and 0 for a Joker. Aces are counted last: each
    adds 11, and 10 comes off again when the total then exceeds 21.
  - The engine collects and shuffles the cards, deals two rounds with the house's
    second card face up, hits, hits until 17, and decides win, lose, bust or push.

`BlackJackGame.BlackJack` is a class over `Deck` objects. Its invariant `Valid()`
says:

- the hands are distinct objects, none of them the pile;
- the hands are named "House", "Player 1", …;
- each hand is scored by the BlackJack rule, and its cached total equals the value
  of its cards;
- the pile has no hook, no Jokers and a total of 0.

Every operation keeps `Valid()`. The operations that move cards also keep the
multiset of card numbers held by the pile and the hands together.

Randomness is a parameter:

- The shuffle takes a sequence `draws`, with `draws[i]` in `[i + 1, Count - 1]`.
  This is the range of `rand.Next(i + 1, Count)`, whose upper bound is exclusive.
- `AddRandomCardFrom` takes the drawn index `pick`.
- `MakeRandomCard` takes the drawn number.

The C# event machinery is reduced to its one use. `EvCalculate` is a field holding
an optional function from the cards to the total, and raising the event stores that
function's value in `totalValue`. A crash in the C# code (a null dereference, an
index out of range) becomes a precondition. A thrown exception that is part of the
behaviour is modelled as an error value of `Result` or `Outcome`.

Points of the code's behaviour that the model makes explicit:

- **The shuffle.** Position `i` is always swapped with a position strictly after it,
  drawn from `i + 1` up to the last (PlayingCards/Deck.cs:165).
  `DeckSpec.ShuffleMovesEveryCard` proves the consequence: a shuffled deck of
  distinct cards has no card left in its old place.
- **The Ace rule.** Each Ace adds 11, and 10 comes off whenever the running total
  then exceeds 21 (PlayingCards/BlackJack.cs:68-73). Ten, Ace, Ace therefore scores
  22, although counting both Aces as 1 gives 12
  (`BlackJackRules.GreedyAceRuleNotOptimal`).
- **`BlackJack.Peek`.** It returns the card at index 1 of the hand
  (PlayingCards/BlackJack.cs:101).
- **Card 53.** It is a valid card number, the Joker
  (PlayingCards/PlayingCard.cs:37). The unit tests at
  PlayingCardsUnitTests/CardTests.cs:13 and :100 expect it to be invalid; the model
  follows the code.
- **AutoHit on an empty pile.** `AutoHit` calls `Hit` while the total is at most 16
  (PlayingCards/BlackJack.cs:121-122). `Hit` sets the face-up flag of the card
  `AddCardFrom` returns (PlayingCards/BlackJack.cs:112-113), which is null on an
  empty pile (PlayingCards/Deck.cs:199-200). So `AutoHit` requires a pile deep
  enough for the rule to finish (`BlackJackGame.CanAutoHit`).

## Model

| member | source | states |
|---|---|---|
| Cards.MakeCard | PlayingCards/PlayingCard.cs:96-104 | construction from a number succeeds exactly for 1..53 and otherwise fails with InvalidCard; the card keeps the number and lies face down |
| Cards.GetCardInt | PlayingCards/PlayingCard.cs:52-61 | a Joker suit or rank gives 53; a standard suit and rank give a number in 1..52 |
| Cards.Rank | PlayingCards/PlayingCard.cs:68-79 | the rank is Joker exactly for card 53, otherwise it lies in Two..Ace |
| Cards.Suit | PlayingCards/PlayingCard.cs:84-95 | the suit is Joker exactly for card 53, otherwise it lies in Clubs..Spades |
| Cards.MakeCardFromSuitRank | PlayingCards/PlayingCard.cs:105-106 | the (suit, rank) constructor succeeds exactly when GetCardInt lands in 1..53 |
| Cards.DefaultCard | PlayingCards/PlayingCard.cs:107-108 | the parameterless constructor builds a face-down Joker |
| Cards.MakeRandomCard | PlayingCards/PlayingCard.cs:25-33 | a random card always succeeds, has the drawn number, and is never a Joker when Jokers are excluded |
| Cards.ShortName | PlayingCards/PlayingCard.cs:125-136 | the Joker's name is "J"; every other card's is two characters starting with its suit initial |
| Cards.Clone | PlayingCards/PlayingCard.cs:137 | a clone equals the original, compares 0 with it, hashes alike and lies face down |
| Cards.ConstructorAcceptsExactlyValidNumbers | PlayingCards/PlayingCard.cs:35-39 | 1, 52 and 53 make cards (53 a Joker); 0, -1 and 54 fail |
| Cards.GetCardIntExamples | PlayingCards/PlayingCard.cs:52-61 | (Clubs, Three) is 2, (Spades, Ace) is 52, and a Joker suit or rank gives 53 |
| Cards.SuitRankRoundTrip | PlayingCards/PlayingCard.cs:52-95 | building from a standard suit and rank and reading them back gives the same pair |
| Cards.CardIntRoundTrip | PlayingCards/PlayingCard.cs:52-95 | every card's suit and rank give back its number, and rebuilding from them gives the same card face down |
| Cards.Color | PlayingCards/PlayingCard.cs:115 | a card is Red exactly when its number is in 14..39 (Diamonds and Hearts); the Joker is Black |
| Cards.ColorExamples | PlayingCards/PlayingCard.cs:115 | Two of Hearts and Ten of Diamonds are Red; Ace of Clubs, Eight of Spades and the Joker are Black |
| Cards.RankAsIntOfNumberCards | PlayingCards/PlayingCard.cs:44 | RankAsInt of Two..Ten is its pip value 2..10, read off the number: a Two gives 2, a Ten 10, and for Two..Nine it is the digit of the short name |
| Cards.ShortNameExamples | PlayingCards/PlayingCard.cs:125-136 | the names of the Two of Hearts, the Joker, the Queen of Clubs and the Ten of Hearts are "H2", "J", "CQ" and "HT" |
| Cards.ShortNameRoundTrip | PlayingCards/PlayingCard.cs:125-136 | the short name identifies the card: an independent parser gives back its number |
| Cards.ShortNameInjective | PlayingCards/PlayingCard.cs:125-136 | two cards with the same short name are equal |
| Cards.IsValid | PlayingCards/PlayingCard.cs:35-39 | the valid numbers are the 52 standard cards and the Joker, nothing else |
| Cards.IsJoker | PlayingCards/PlayingCard.cs:117 | a card is the Joker exactly when its suit is the Joker suit, and exactly when its rank is the Joker rank |
| Cards.RankAsInt | PlayingCards/PlayingCard.cs:44 | 15 for the Joker; for every other card (number - 1) mod 13 + 2, in 2..14 |
| Cards.Equals | PlayingCards/PlayingCard.cs:143-147 | two cards are equal exactly when they differ at most in the face-up flag, that is, when suit and rank agree |
| Cards.CompareTo | PlayingCards/PlayingCard.cs:148 | zero exactly for equal cards, negative exactly when the first card has the lower number |
| Cards.Less | PlayingCards/PlayingCard.cs:156 | `<` holds exactly when CompareTo is negative |
| Cards.Greater | PlayingCards/PlayingCard.cs:155 | `>` holds exactly when CompareTo is positive |
| Cards.HashCode | PlayingCards/PlayingCard.cs:157 | the hash lies in 1..53 and is the number the card's suit and rank give |
| Cards.OrderingByNumber | PlayingCards/PlayingCard.cs:143-157 | the comparison is a total order: antisymmetric, with exactly one of `<`, equal and `>` holding; equal cards hash alike; the face-up flag plays no part |
| Cards.RankOutOfRangeAliases | PlayingCards/PlayingCard.cs:52-61 | as written, (Clubs, Joker + 1) builds card 15, the Three of Diamonds, instead of failing |
| Cards.MakeCardFromSuitRankChecked | PlayingCards/PlayingCard.cs:105-106 | the corrected constructor fails exactly when the suit or the rank is outside its enum; otherwise the card has that suit and rank, or is the Joker when either is Joker |
| DeckSpec.CountNumber | PlayingCards/Deck.cs:93 | the count of cards with a number is that number's multiplicity among the deck's numbers |
| DeckSpec.StaticCardsAreCanonical | PlayingCards/Deck.cs:34-52 | the static list (1..53 and a second Joker) with the Jokers skipped unless allowed is the canonical deck |
| DeckSpec.PristineToCanonical | PlayingCards/Deck.cs:81-97 | a pristine deck holds exactly the canonical multiset of numbers |
| DeckSpec.CanonicalToPristine | PlayingCards/Deck.cs:81-97 | a deck holding exactly the canonical multiset of numbers is pristine |
| DeckSpec.PristineIffCanonical | PlayingCards/Deck.cs:81-97 | pristine holds if and only if the numbers are exactly the canonical 52 (or 54 with two Jokers) |
| DeckSpec.CanonicalIsPristine | PlayingCards/Deck.cs:65-77 | the canonical deck a constructor builds is pristine |
| DeckSpec.PristinePermutation | PlayingCards/Deck.cs:81-97 | decks with the same numbers are pristine together or not at all |
| DeckSpec.FirstIndex | PlayingCards/Deck.cs:148 | the index found is the first card with the number, or -1 exactly when none has it |
| DeckSpec.RemoveFirstSpec | PlayingCards/Deck.cs:144-154 | removal takes out the first card with the number and keeps the others in order; with no such card nothing changes |
| DeckSpec.FacedAs | PlayingCards/Deck.cs:102-106 | every card is turned to the given side and keeps its number |
| DeckSpec.FaceUpLast | PlayingCards/BlackJack.cs:95-96 | only the last card changes: it is turned face up with the same number |
| DeckSpec.Swap | PlayingCards/Deck.cs:166-168 | the two positions exchange their cards, every other position is unchanged, and the multiset is kept |
| DeckSpec.ShuffledStep | PlayingCards/Deck.cs:163-169 | one pass of the shuffle loop swaps position i with draws[i] and leaves the rest of the loop to do |
| DeckSpec.ShuffledPermutes | PlayingCards/Deck.cs:157-170 | the shuffle is a permutation for every choice of draws within their bounds |
| DeckSpec.ShuffleSmallIsIdentity | PlayingCards/Deck.cs:161-162 | with fewer than two cards the shuffle changes nothing |
| DeckSpec.ShuffleTwoSwaps | PlayingCards/Deck.cs:163-169 | a two-card deck is always reversed (the only draw is 1) |
| DeckSpec.ShuffleMovesEveryCard | PlayingCards/Deck.cs:165 | because j is drawn from [i + 1, Count - 1], a shuffled deck of distinct cards has every card moved |
| DeckSpec.InsertByKey | PlayingCards/Deck.cs:107-134 | inserting into a sorted list keeps it sorted and adds exactly that card |
| DeckSpec.SortByKey | PlayingCards/Deck.cs:107-134 | the sort result is ordered by the key and is a permutation of the input |
| DeckSpec.SortPristineIsCanonical | PlayingCards/Deck.cs:107-110 | sorting a pristine deck by number gives the numbers of the canonical deck in order |
| DeckSpec.SortPreservesPristine | PlayingCards/Deck.cs:107-134 | each sort keeps the deck pristine, or not pristine |
| DeckSpec.SuitCountBounds | PlayingCards/Deck.cs:223-231 | a suit count lies between 0 and the number of cards |
| DeckSpec.SuitCountsPartition | PlayingCards/Deck.cs:223-231 | the five suit counts add up to the number of cards |
| DeckSpec.SuitCountPermutation | PlayingCards/Deck.cs:223-231 | the suit count does not depend on the order of the cards |
| DeckSpec.PristineSuitCounts | PlayingCards/Deck.cs:223-231 | a pristine deck has 13 cards of each suit, and 2 Jokers or none |
| Decks.Deck.constructor | PlayingCards/Deck.cs:65-77 | a populated deck holds the canonical cards (52, or 54 with Jokers); an unpopulated one is empty; name and Joker setting as given |
| Decks.Deck.Unnamed | PlayingCards/Deck.cs:78-79 | the parameterless constructor gives a pristine 52-card deck named "Unnamed" |
| Decks.Deck.AddStaticCards | PlayingCards/Deck.cs:40-52 | appends the static cards, skipping the Jokers unless they are allowed |
| Decks.Deck.AddDefaultCards | PlayingCards/Deck.cs:53-64 | appends new cards 1..52, then two Jokers when allowed: the canonical deck |
| Decks.Deck.Count | PlayingCards/Deck.cs:24 | the count is the number of cards held, duplicates included, and is 0 exactly for no cards |
| Decks.Deck.IsEmpty | PlayingCards/Deck.cs:22 | a deck is empty exactly when its count is 0 |
| Decks.Deck.Recalculated | PlayingCards/Deck.cs:29 | raising the calculate event keeps the previous total without a subscriber, and gives the subscriber's value of the current cards otherwise |
| Decks.Deck.OnCalculate | PlayingCards/Deck.cs:29 | the total becomes the hook's value of the cards, or stays as it was without a subscriber |
| Decks.Deck.SubscribeCalculate | PlayingCards/BlackJack.cs:27 | the deck's calculate hook becomes the given calculation |
| Decks.Deck.IsPristine | PlayingCards/Deck.cs:81-97 | the loop's answer is the pristine predicate: count 52/54, every number 1..52 present, two Jokers when allowed |
| Decks.Deck.SetAllFaceUp | PlayingCards/Deck.cs:102-106 | every card is turned to the given side and keeps its number and place |
| Decks.Deck.SetLastFaceUp | PlayingCards/BlackJack.cs:95-96 | turns the card just added (the last) face up and changes nothing else |
| Decks.Deck.Sort | PlayingCards/Deck.cs:107-110 | the cards end ascending by number and are a permutation of the old cards |
| Decks.Deck.SortByRank | PlayingCards/Deck.cs:111-123 | the cards end non-decreasing by rank and are a permutation of the old cards |
| Decks.Deck.SortBySuit | PlayingCards/Deck.cs:124-134 | the cards end non-decreasing by suit and are a permutation of the old cards |
| Decks.Deck.Add | PlayingCards/Deck.cs:135-143 | appends the card, returns it, and recalculates the total |
| Decks.Deck.Remove | PlayingCards/Deck.cs:144-154 | returns whether a card with that number was present, removes the first one, and recalculates only when something was removed |
| Decks.Deck.Shuffle | PlayingCards/Deck.cs:157-170 | the cards become the shuffle of the old cards by the draws, a permutation of them |
| Decks.SwapEach | PlayingCards/Deck.cs:163-169 | the swap loop computes exactly the shuffle of its input by the draws |
| Decks.Deck.ShuffleWithDeck | PlayingCards/Deck.cs:171-175 | the result is the shuffle of this deck's cards followed by the other deck's, which ends empty; both decks raise the calculate event, this one on the collected cards before the shuffle, so the total is the hook's value of those |
| Decks.Deck.Peek | PlayingCards/Deck.cs:176-181 | gives the card at the index, or none exactly when the index is past the end |
| Decks.Deck.DrawOne | PlayingCards/Deck.cs:182-192 | a non-empty deck gives up its first card and keeps the rest, recalculated; an empty deck gives none and is unchanged |
| Decks.Deck.RemoveCards | PlayingCards/Deck.cs:193-196 | the deck ends empty |
| Decks.Deck.AddCardFrom | PlayingCards/Deck.cs:197-202 | with a non-empty source its first card moves to the end of this deck and is returned; with an empty source nothing changes and none is returned |
| Decks.Deck.AddRandomCardFrom | PlayingCards/Deck.cs:204-213 | on a non-empty source the picked card moves to the end of this deck, the source loses one card, and the two decks together keep their numbers; an empty source gives false and no change |
| Decks.Deck.CollectFrom | PlayingCards/Deck.cs:214-222 | this deck becomes its cards followed by the other deck's, which ends empty; both totals are recalculated |
| Decks.Deck.CountOfSuit | PlayingCards/Deck.cs:223-231 | the counting loop's result is the number of cards of that suit, between 0 and the count |
| Decks.Deck.Clone | PlayingCards/Deck.cs:279-290 | a new deck with the same name, Joker setting, hook and cards, its total calculated once |
| Decks.Deck.PlusDeck | PlayingCards/Deck.cs:261-264 | `d1 + d2` collects d2 into d1 and returns d1; each deck then raises the calculate event once, on its new cards (the same deck twice when added to itself) |
| Decks.Deck.PlusCard | PlayingCards/Deck.cs:265-269 | `d + p` appends p and returns d |
| Decks.Deck.MinusCard | PlayingCards/Deck.cs:270-274 | `d - p` removes the first card equal to p and returns d; the calculate event fires exactly when a card was removed |
| BlackJackRules.PointsNonNegative | PlayingCards/BlackJack.cs:49-67 | the card loop adds between 0 and 10 per card and counts at most one Ace per card |
| BlackJackRules.AddAcesBounds | PlayingCards/BlackJack.cs:68-73 | each Ace in the Ace loop counts between 1 and 11 |
| BlackJackRules.HandValue | PlayingCards/BlackJack.cs:43-75 | the value lies between "every Ace is 1" and "every Ace is 11", and is never negative |
| BlackJackRules.HandValueByNumbers | PlayingCards/BlackJack.cs:43-75 | the value depends only on the multiset of card numbers |
| BlackJackRules.HandValueOfPermutation | PlayingCards/BlackJack.cs:43-75 | reordering the cards keeps the value, which is why shuffling and sorting skip recalculation |
| BlackJackRules.HandValueFaceIndependent | PlayingCards/BlackJack.cs:43-75 | turning the cards over keeps the value, which is why SetAllFaceUp skips recalculation |
| BlackJackRules.HandValueEmpty | PlayingCards/BlackJack.cs:48 | an empty hand is worth 0 |
| BlackJackRules.HandValueAceExamples | PlayingCards/BlackJack.cs:60-73 | one Ace is 11, two Aces 12, four Aces 14 |
| BlackJackRules.HandValueMixedExamples | PlayingCards/BlackJack.cs:51-73 | King and Ace are 21; Ten, Six and Six are 22 |
| BlackJackRules.GreedyAceRuleNotOptimal | PlayingCards/BlackJack.cs:68-73 | Ten, Ace, Ace scores 22 although both Aces as 1 would give 12 |
| BlackJackRules.Adjudicate | PlayingCards/BlackJack.cs:130-145 | Bust iff the player is over 21; else Win iff the house is over 21 or below the player; else Lose iff the player is below; else Push |
| BlackJackRules.BustBeatsHouseBust | PlayingCards/BlackJack.cs:130-133 | a busted player busts even when the house busts too |
| BlackJackRules.AdjudicateSymmetric | PlayingCards/BlackJack.cs:134-145 | between two standing hands, one wins exactly when the other would lose, and a push is mutual |
| BlackJackGame.MoveTopCard | PlayingCards/Deck.cs:197-202 | moving the pile's top card to a hand, as it is or turned over, keeps the multiset of pile and hands |
| BlackJackGame.PlayerNameIsNotHouse | PlayingCards/BlackJack.cs:24-26 | no player hand is named "House", so the name test in the dealing loop picks out hand 0 alone |
| BlackJackGame.AutoHitTaken | PlayingCards/BlackJack.cs:121-122 | hitting until 17 takes no more cards than the pile holds, and none exactly when the hand is already above 16 |
| BlackJackGame.AutoHitStep | PlayingCards/BlackJack.cs:121-122 | one pass of the loop takes the top card face up and leaves the same final result to reach |
| BlackJackGame.AutoHitStopsAbove16 | PlayingCards/BlackJack.cs:118-123 | the hand ends above 16, and a hand already above 16 is left alone |
| BlackJackGame.AutoHitConserves | PlayingCards/BlackJack.cs:118-123 | hitting until 17 only moves cards from the pile to the hand |
| BlackJackGame.NewHand | PlayingCards/BlackJack.cs:24-27 | a new hand is empty, without Jokers, named as given, and scored by the BlackJack rule |
| BlackJackGame.NewHands | PlayingCards/BlackJack.cs:21-28 | the constructor loop makes numPlayers + 1 distinct empty scored hands named "House", "Player 1", … |
| BlackJackGame.BlackJack.constructor | PlayingCards/BlackJack.cs:15-29 | a full "Pile" of the 52 canonical cards, empty scored hands, the invariant, and exactly the 52 standard cards in the game |
| BlackJackGame.BlackJack.BJCalculate | PlayingCards/BlackJack.cs:43-75 | the two loops store the BlackJack value of the deck's cards in its total |
| BlackJackGame.BlackJack.NumPileCards | PlayingCards/BlackJack.cs:30 | while no card is lost, the pile holds the 52 cards less those in the hands |
| BlackJackGame.BlackJack.GetEnumerableHand | PlayingCards/BlackJack.cs:31-36 | gives a hand's cards, or none exactly for an index past the last player |
| BlackJackGame.BlackJack.GetHandValue | PlayingCards/BlackJack.cs:102 | the cached total is the BlackJack value of the hand's cards; 0 past the last player |
| BlackJackGame.BlackJack.Peek | PlayingCards/BlackJack.cs:101 | gives a hand's second card (index 1), none when it has fewer than two cards or the index is past the last player |
| BlackJackGame.BlackJack.ShowHand | PlayingCards/BlackJack.cs:37-42 | turns one hand's cards face up and changes nothing else; the invariant and the cards of the game are kept |
| BlackJackGame.BlackJack.CollectHand | PlayingCards/BlackJack.cs:79-80 | one pass of the collecting loop: the hand's cards go to the end of the pile and the hand ends empty |
| BlackJackGame.BlackJack.CollectCards | PlayingCards/BlackJack.cs:76-82 | the pile becomes the old pile followed by every hand in order, all face down; the hands end empty; the cards of the game are kept |
| BlackJackGame.BlackJack.CollectAndShuffle | PlayingCards/BlackJack.cs:85-90 | the pile becomes the shuffle of the collected cards, all face down, the hands are empty, and the result is the pristine check of that pile |
| BlackJackGame.BlackJack.ShufflePile | PlayingCards/BlackJack.cs:86 | the pile is shuffled by the draws and the hands keep their cards; the cards of the game are kept |
| BlackJackGame.BlackJack.Deal | PlayingCards/BlackJack.cs:83-98 | fails with PileNotPristine exactly when the shuffled collected cards are not pristine; otherwise each hand m holds cards m and h + m of the 52 shuffled cards, the house's second one face up and all others face down, and the pile keeps the remaining 52 - 2h |
| BlackJackGame.BlackJack.DealRounds | PlayingCards/BlackJack.cs:91-97 | two rounds deal cards m and h + m to hand m and take 2h cards off the pile |
| BlackJackGame.BlackJack.DealRound | PlayingCards/BlackJack.cs:92-97 | one round gives each hand in order the next card of the pile, the house's turned up in the second round |
| BlackJackGame.BlackJack.DealTo | PlayingCards/BlackJack.cs:94-96 | hand k takes the top card, turned up when it is the house's second-round card; other hands unchanged |
| BlackJackGame.BlackJack.DealCard | PlayingCards/BlackJack.cs:94 | the pile's top card moves to the end of hand k; the hand's total stays its value; the cards of the game are kept |
| BlackJackGame.BlackJack.TurnUpLast | PlayingCards/BlackJack.cs:95-96 | the hand's last card is turned face up, its total still its value; the cards of the game are kept |
| BlackJackGame.BlackJack.Hit | PlayingCards/BlackJack.cs:108-117 | a hand at 21 or more gets none and nothing changes; otherwise the pile's top card moves face up to the end of the hand and is returned; the cards of the game are kept |
| BlackJackGame.BlackJack.AutoHit | PlayingCards/BlackJack.cs:118-123 | the hand and pile end as "hit until above 16" gives from the old ones, with the hand's value at least 17; past the last player nothing changes; the cards of the game are kept |
| BlackJackGame.BlackJack.WinLoseOrBust | PlayingCards/BlackJack.cs:124-146 | fails with InvalidHandIndex past the last player; otherwise it adjudicates the two hands' BlackJack values |
| BlackJackGame.BlackJack.SortPile | PlayingCards/BlackJack.cs:99 | the pile ends sorted by number, a permutation of before; the cards of the game are kept |
| BlackJackGame.BlackJack.ClonePile | PlayingCards/BlackJack.cs:100 | a new deck with the pile's name, cards, hook and Joker setting, whose total is the hook's value of those cards |
| BlackJackGame.GatherBag | PlayingCards/BlackJack.cs:85-86 | collecting and shuffling keeps every card number of the pile and the hands |
| BlackJackGame.DealtPrefixBag | PlayingCards/BlackJack.cs:91-97 | the first j hands of a two-round deal hold the first j cards of each round |
| BlackJackGame.DealtStep | PlayingCards/BlackJack.cs:91-97 | hand j - 1 of the deal adds card j - 1 of each round |
| BlackJackGame.DealtConserves | PlayingCards/BlackJack.cs:91-97 | a two-round deal moves cards from the pile to the hands and loses none |
| BlackJackGame.DealKeepsFullDeck | PlayingCards/BlackJack.cs:83-98 | after a successful deal the pile and the hands hold exactly the 52 standard cards |
| BlackJackGame.DealtNext | PlayingCards/BlackJack.cs:91-97 | round i adds to hand m the card at position m of that round |
| BlackJackGame.ShuffledKeepsFaceDown | PlayingCards/BlackJack.cs:81-86 | shuffling face-down cards leaves them all face down |

## Left out

- The user interfaces (WpfBlackJack, WpfBlackJackCore, ConsoleBlackJack) are not part of this model; they only call the engine.
- JSON and XML serialisation, `ToString`, `LongName`, `SuitToString` and `PrintHand` are left out: they are library calls and text formatting.
- The `CardGUID` and `DeckGUID` fields are left out: they are random and play no part in equality.
- `System.Random` is replaced by caller-supplied draws within the bounds of `rand.Next`; their distribution is not modelled.
- The `EvDraw` and `EvCombine` events have no subscriber and are not modelled. `EvCalculate` holds at most one subscriber (`Option`), which is all the engine ever attaches.
- Cards are values (number and face-up flag). Sharing one card object between decks through the static card list, and `Clone`'s shallow copy of card references, are not modelled, so neither are face-up changes seen through another deck.
- Decks.Deck.Clone: copies the hook and the cards as values; aliasing between the two decks' card objects is not modelled.
- Null cards are not modelled: `Add(null)`, `Remove(null)` and a null hand from `GetEnumerableHand` become a total `Card` type and an `Option` result.
- Negative hand and card indices are excluded by `nat` parameters.
- BlackJackGame.BlackJack.constructor: `players: nat` excludes negative player counts. In the source, `new BlackJack(-1)` allocates no hands (`new Deck[0]` at PlayingCards/BlackJack.cs:18, with the loop at :21 running zero times), giving a game with no hands. From −2 on, `new Deck[numPlayers + 1]` throws.
- `Deconstruct`, the `SuitAndRank` tuple and the type tests of `Equals(object)` and `CompareTo(object)` are left out; they only repackage Suit, Rank and the number test.
- `DeckName` has a public setter that nothing in the engine uses; the model keeps the name constant.
- The C# default parameter values are written out at each call; `BlackJack(int players = 1)` takes `players` explicitly.
- `BJCalculate` takes the deck it scores directly, instead of testing an `object` sender.
- `List.Sort` is unstable, so the order of equal keys after `SortByRank` and `SortBySuit` is unspecified. The model sorts by insertion, and the contracts claim only what holds for any order: sorted by the key and a permutation.
- BlackJackGame.BlackJack.Hit: requires a non-empty pile when the hand is under 21; the source dereferences a null card there.
- BlackJackGame.BlackJack.AutoHit: requires a pile deep enough for the hand to pass 16 (`CanAutoHit`); the source crashes in `Hit` once the pile runs out.
- BlackJackGame.BlackJack.Deal: requires 2 · (numPlayers + 1) ≤ 52, so every hand gets two cards. The short deal is not modelled. With 26..50 players the source gives the last hands only one card: `AddCardFrom` returns null on the empty pile (PlayingCards/Deck.cs:199-200), and only the house's second card is dereferenced (PlayingCards/BlackJack.cs:94-96). The house is dealt first, so that dereference fails only from 51 players on. Its contract gives the dealt hands and the pile, but not the conservation of the 52 cards; that follows from the contract by `DealKeepsFullDeck`, and collecting and shuffling keep the numbers by `GatherBag`.
- BlackJackGame.BlackJack.CollectAndShuffle: states the new pile as the shuffle of the collected cards but not the conservation of the cards; `GatherBag` gives that from its contract.
- BlackJackGame.BlackJack.DealRounds: states the dealt hands and the remaining pile but not the conservation of the cards; `DealtConserves` gives that from its contract.
- The `for` loop over two rounds in `Deal` is written as two calls of `DealRound`, one per value of `i`.
- Cards.GetCardInt: computes with unbounded integers. In C#, `((int)suit - 1) * 13 + (int)rank` is unchecked 32-bit arithmetic, The product wraps once a cast suit's magnitude passes about 1.65 · 10⁸, and the sum wraps once it leaves the range −2³¹ .. 2³¹ − 1. With Clubs the sum is just the rank, so a rank alone never wraps it. A wrapped result can land in 1..53: `(Suits)330382101` with `Ranks.Queen` gives card 15, the Three of Diamonds, where the model returns InvalidCard.
- Other integers are unbounded too. Card numbers, counts and hand totals stay far from the 32-bit limits, so no other wrap-around is modelled.

## Findings

| source | as written | input that shows it | evidently intended | confidence | as-written member | corrected member |
|---|---|---|---|---|---|---|
| PlayingCards/PlayingCard.cs:52-61 | the (suit, rank) constructor computes `(suit - 1) * 13 + rank` without checking that the rank is in range | `new PlayingCard(Suits.Clubs, (Ranks)15)` gives number 15, the Three of Diamonds | a suit or rank outside its enum fails, as the out-of-range tests expect (PlayingCardsUnitTests/CardTests.cs:28 passes only because Spades pushes the sum to 54) | not executed | Cards.RankOutOfRangeAliases | Cards.MakeCardFromSuitRankChecked |
