/** Playing cards and the 52-card deck (the `Card` record and `createDeck`). */
module Cards {

  datatype Suit = Hearts | Diamonds | Clubs | Spades

  datatype Rank = Ace | Two | Three | Four | Five | Six | Seven | Eight | Nine | Ten | Jack | Queen | King

  /** A card; an absent `hidden` flag is `false`. */
  datatype Card = Card(suit: Suit, rank: Rank, value: int, hidden: bool)

  /** The suits and ranks in the order the deck is built. */
  const Suits: seq<Suit> := [Hearts, Diamonds, Clubs, Spades]
  const Ranks: seq<Rank> := [Ace, Two, Three, Four, Five, Six, Seven, Eight, Nine, Ten, Jack, Queen, King]

  /** The value a fresh card gets: the numeric rank, 11 for an ace, 10 for a face card. */
  function RankValue(r: Rank): (v: int)
    ensures 2 <= v <= 11
    ensures v == 11 <==> r == Ace
    ensures r in {Ten, Jack, Queen, King} <==> v == 10
  {
    match r
    case Ace => 11
    case Two => 2
    case Three => 3
    case Four => 4
    case Five => 5
    case Six => 6
    case Seven => 7
    case Eight => 8
    case Nine => 9
    case Ten => 10
    case Jack | Queen | King => 10
  }

  /** The card `createDeck` produces for a suit and a rank. */
  function FreshCard(s: Suit, r: Rank): Card {
    Card(s, r, RankValue(r), false)
  }

  /** A card as it comes out of a fresh deck: face up, valued by its rank. */
  predicate IsDeckCard(c: Card) {
    !c.hidden && c.value == RankValue(c.rank)
  }

  predicate AllDeckCards(cards: seq<Card>) {
    forall c | c in cards :: IsDeckCard(c)
  }

  /** The deck before the shuffle: suits in the outer loop, ranks in the inner one. */
  function OrderedDeck(): (d: seq<Card>)
    ensures |d| == |Suits| * |Ranks| == 52
  {
    seq(52, i requires 0 <= i < 52 => FreshCard(Suits[i / 13], Ranks[i % 13]))
  }

  /** What every shuffle of a fresh deck has in common. */
  ghost predicate IsShuffledDeck(d: seq<Card>) {
    multiset(d) == multiset(OrderedDeck())
  }

  function SuitIndex(s: Suit): (i: nat)
    ensures i < |Suits| && Suits[i] == s
  {
    match s
    case Hearts => 0
    case Diamonds => 1
    case Clubs => 2
    case Spades => 3
  }

  function RankIndex(r: Rank): (i: nat)
    ensures i < |Ranks| && Ranks[i] == r
  {
    match r
    case Ace => 0
    case Two => 1
    case Three => 2
    case Four => 3
    case Five => 4
    case Six => 5
    case Seven => 6
    case Eight => 7
    case Nine => 8
    case Ten => 9
    case Jack => 10
    case Queen => 11
    case King => 12
  }

  /** Builds the deck with two nested loops, then permutes it. The source permutes with a
      random comparator; here the permutation is an arbitrary one. */
  method CreateDeck() returns (deck: seq<Card>)
    ensures IsShuffledDeck(deck)
  {
    var ordered: seq<Card> := [];
    for s := 0 to |Suits|
      invariant ordered == OrderedDeck()[..13 * s]
    {
      for r := 0 to |Ranks|
        invariant ordered == OrderedDeck()[..13 * s + r]
      {
        OrderedAt(s, r);
        ordered := ordered + [FreshCard(Suits[s], Ranks[r])];
      }
    }
    assert ordered == OrderedDeck();
    deck :| multiset(deck) == multiset(ordered);
  }

  /** Suit `s` and rank `r` sit at position `13 * s + r` of the ordered deck. */
  lemma OrderedAt(s: nat, r: nat)
    requires s < 4 && r < 13
    ensures OrderedDeck()[..13 * s + r + 1] == OrderedDeck()[..13 * s + r] + [FreshCard(Suits[s], Ranks[r])]
  {
    var k := 13 * s + r;
    assert k / 13 == s && k % 13 == r;
    TakeOneMore(OrderedDeck(), k);
  }

  lemma TakeOneMore(d: seq<Card>, k: nat)
    requires k < |d|
    ensures d[..k + 1] == d[..k] + [d[k]]
  {
  }

  /** The card at position `i` of the ordered deck tells its position back. */
  lemma OrderedPosition(i: nat)
    requires i < 52
    ensures 13 * SuitIndex(OrderedDeck()[i].suit) + RankIndex(OrderedDeck()[i].rank) == i
  {
    var c := OrderedDeck()[i];
    assert c == FreshCard(Suits[i / 13], Ranks[i % 13]);
    assert SuitIndex(c.suit) == i / 13 && RankIndex(c.rank) == i % 13;
  }

  /** In a sequence without repeats, every element occurs exactly once. */
  lemma {:induction false} DistinctCountsOnce(s: seq<Card>, x: Card)
    requires forall i, j | 0 <= i < j < |s| :: s[i] != s[j]
    ensures multiset(s)[x] == if x in s then 1 else 0
  {
    if s != [] {
      var last := s[|s| - 1];
      var init := s[..|s| - 1];
      assert s == init + [last];
      DistinctCountsOnce(init, x);
      assert last !in init by {
        forall k | 0 <= k < |init| ensures init[k] != last {
          assert s[k] != s[|s| - 1];
        }
      }
    }
  }

  /** No two positions of the ordered deck hold the same card. */
  lemma OrderedDeckDistinct()
    ensures forall i, j | 0 <= i < j < 52 :: OrderedDeck()[i] != OrderedDeck()[j]
  {
    var o := OrderedDeck();
    forall i, j | 0 <= i < j < 52 ensures o[i] != o[j] {
      OrderedPosition(i);
      OrderedPosition(j);
    }
  }

  /** Each (suit, rank) pair occurs exactly once in the ordered deck. */
  lemma OrderedDeckCountsOnce(s: Suit, r: Rank)
    ensures multiset(OrderedDeck())[FreshCard(s, r)] == 1
  {
    var o := OrderedDeck();
    var k := 13 * SuitIndex(s) + RankIndex(r);
    assert k / 13 == SuitIndex(s) && k % 13 == RankIndex(r);
    assert o[k] == FreshCard(s, r);
    OrderedDeckDistinct();
    DistinctCountsOnce(o, FreshCard(s, r));
  }

  /** A shuffled fresh deck has 52 cards, each (suit, rank) pair exactly once, and every
      card face up and valued by its rank. */
  lemma ShuffledDeckFacts(d: seq<Card>)
    requires IsShuffledDeck(d)
    ensures |d| == 52
    ensures forall c | c in d :: c == FreshCard(c.suit, c.rank)
    ensures AllDeckCards(d)
    ensures forall s: Suit, r: Rank :: multiset(d)[FreshCard(s, r)] == 1
  {
    assert |d| == |multiset(d)| == |multiset(OrderedDeck())|;
    forall c | c in d ensures c in OrderedDeck() {
      assert c in multiset(d);
    }
    forall s: Suit, r: Rank ensures multiset(d)[FreshCard(s, r)] == 1 {
      OrderedDeckCountsOnce(s, r);
    }
  }

  /** No card occurs twice in a shuffled fresh deck. */
  lemma ShuffledDeckDistinct(d: seq<Card>)
    requires IsShuffledDeck(d)
    ensures forall i, j | 0 <= i < j < |d| :: d[i] != d[j]
  {
    ShuffledDeckFacts(d);
    forall i, j | 0 <= i < j < |d| ensures d[i] != d[j] {
      var c := d[i];
      assert d == d[..i] + [c] + d[i + 1..j] + [d[j]] + d[j + 1..];
      assert multiset(d)[FreshCard(c.suit, c.rank)] == 1;
    }
  }
}
