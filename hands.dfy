/** The hand evaluator (`calculateHandValue`): aces count 11 and drop to 1 while the
    total is over 21; hidden cards are skipped. */
module Hands {
  import opened Cards

  datatype HandValue = HandValue(value: int, soft: bool)

  /** What a card adds with every ace counted as 1; a hidden card adds nothing. */
  function HardPoints(c: Card): int {
    if c.hidden then 0 else if c.rank == Ace then 1 else c.value
  }

  /** The total of the face-up cards with every ace counted as 1. */
  function HardTotal(cards: seq<Card>): int {
    if cards == [] then 0 else HardTotal(cards[..|cards| - 1]) + HardPoints(cards[|cards| - 1])
  }

  /** The number of face-up aces. */
  function AceCount(cards: seq<Card>): nat {
    if cards == [] then 0
    else AceCount(cards[..|cards| - 1]) + (if !cards[|cards| - 1].hidden && cards[|cards| - 1].rank == Ace then 1 else 0)
  }

  /** The face-up cards, in order (`cards.filter(c => !c.hidden)`). */
  function VisibleCards(cards: seq<Card>): seq<Card> {
    if cards == [] then []
    else VisibleCards(cards[..|cards| - 1]) + (if cards[|cards| - 1].hidden then [] else [cards[|cards| - 1]])
  }

  /** Counting `t` of the aces as 11 keeps the hand at 21 or under. */
  predicate Fits(hard: int, t: int) {
    hard + 10 * t <= 21
  }

  /** How many aces stay at 11: as many as fit under 21, and none when none fit. */
  function SoftAces(hard: int, aces: nat): (s: nat)
    ensures s <= aces
    ensures s > 0 ==> Fits(hard, s)
    ensures forall t :: s < t <= aces ==> !Fits(hard, t)
  {
    if Fits(hard, aces) then aces else if hard > 21 then 0 else (21 - hard) / 10
  }

  /** The value of a hand and whether it is soft, stated without the demotion loop. */
  function Evaluate(cards: seq<Card>): (r: HandValue)
    ensures HardTotal(cards) <= r.value <= HardTotal(cards) + 10 * AceCount(cards)
    ensures r.soft ==> r.value <= 21
    ensures r.value > 21 ==> !r.soft && r.value == HardTotal(cards)
    ensures r.soft <==> AceCount(cards) > 0 && Fits(HardTotal(cards), 1)
    ensures forall t :: 0 <= t <= AceCount(cards) && Fits(HardTotal(cards), t) ==> HardTotal(cards) + 10 * t <= r.value
  {
    var hard := HardTotal(cards);
    var s := SoftAces(hard, AceCount(cards));
    HandValue(hard + 10 * s, s > 0)
  }

  lemma AppendCard(cards: seq<Card>, c: Card)
    ensures HardTotal(cards + [c]) == HardTotal(cards) + HardPoints(c)
    ensures AceCount(cards + [c]) == AceCount(cards) + (if !c.hidden && c.rank == Ace then 1 else 0)
  {
    assert (cards + [c])[..|cards|] == cards;
  }

  /** `calculateHandValue`: one pass over the face-up cards counting aces as 11, then one
      ace at a time drops to 1 while the total is over 21. */
  method CalculateHandValue(cards: seq<Card>) returns (r: HandValue)
    ensures r == Evaluate(cards)
  {
    var visible := VisibleCards(cards);
    var value := 0;
    var aces := 0;
    for i := 0 to |visible|
      invariant value == HardTotal(visible[..i]) + 10 * AceCount(visible[..i])
      invariant aces == AceCount(visible[..i])
    {
      VisibleCardsAreFaceUp(cards);
      var card := visible[i];
      assert visible[..i + 1] == visible[..i] + [card];
      AppendCard(visible[..i], card);
      if card.rank == Ace {
        aces := aces + 1;
        value := value + 11;
      } else {
        value := value + card.value;
      }
    }
    assert visible[..|visible|] == visible;
    VisibleCardsSameTotals(cards);
    ghost var hard := HardTotal(cards);
    ghost var total := aces;
    while value > 21 && aces > 0
      invariant 0 <= aces <= total
      invariant value == hard + 10 * aces
      invariant aces < total ==> !Fits(hard, aces + 1)
    {
      value := value - 10;
      aces := aces - 1;
    }
    r := HandValue(value, aces > 0);
  }

  lemma {:induction false} VisibleCardsAreFaceUp(cards: seq<Card>)
    ensures forall c | c in VisibleCards(cards) :: !c.hidden
  {
    if cards != [] {
      VisibleCardsAreFaceUp(cards[..|cards| - 1]);
    }
  }

  /** Filtering out the hidden cards changes neither total nor ace count. */
  lemma {:induction false} VisibleCardsSameTotals(cards: seq<Card>)
    ensures HardTotal(VisibleCards(cards)) == HardTotal(cards)
    ensures AceCount(VisibleCards(cards)) == AceCount(cards)
  {
    if cards != [] {
      var init, last := cards[..|cards| - 1], cards[|cards| - 1];
      VisibleCardsSameTotals(init);
      if !last.hidden {
        AppendCard(VisibleCards(init), last);
      } else {
        assert VisibleCards(init) + [] == VisibleCards(init);
        assert VisibleCards(cards) == VisibleCards(init);
      }
    }
  }

  /** Hidden cards are ignored entirely: a hand is worth what its face-up cards are worth. */
  lemma HiddenCardsIgnored(cards: seq<Card>)
    ensures Evaluate(cards) == Evaluate(VisibleCards(cards))
  {
    VisibleCardsSameTotals(cards);
  }

  /** An empty or all-hidden hand is worth 0 and is not soft. */
  lemma {:induction false} AllHiddenHandIsZero(cards: seq<Card>)
    requires forall c | c in cards :: c.hidden
    ensures Evaluate(cards) == HandValue(0, false)
  {
    if cards != [] {
      AllHiddenHandIsZero(cards[..|cards| - 1]);
    }
  }

  /** Every card of a fresh deck adds at least 1 to the hard total, so a hand of deck cards
      has at most as many cards as its hard total. */
  lemma {:induction false} HardTotalCountsCards(cards: seq<Card>)
    requires AllDeckCards(cards)
    ensures HardTotal(cards) >= |cards|
  {
    if cards != [] {
      var init := cards[..|cards| - 1];
      assert forall c | c in init :: c in cards;
      HardTotalCountsCards(init);
      assert IsDeckCard(cards[|cards| - 1]);
    }
  }

  /** Worked values: an empty hand, a blackjack, two aces and a nine (one ace drops to 1),
      and a bust with no ace to drop. */
  lemma EvaluateExamples()
    ensures Evaluate([]) == HandValue(0, false)
    ensures Evaluate([FreshCard(Spades, Ace), FreshCard(Hearts, King)]) == HandValue(21, true)
    ensures Evaluate([FreshCard(Spades, Ace), FreshCard(Hearts, Ace), FreshCard(Clubs, Nine)]) == HandValue(21, true)
    ensures Evaluate([FreshCard(Spades, Ten), FreshCard(Hearts, Nine), FreshCard(Clubs, Five)]) == HandValue(24, false)
  {
    var ak := [FreshCard(Spades, Ace), FreshCard(Hearts, King)];
    assert ak[..1] == [ak[0]] && [ak[0]][..0] == [];
    var aa9 := [FreshCard(Spades, Ace), FreshCard(Hearts, Ace), FreshCard(Clubs, Nine)];
    assert aa9[..2] == [aa9[0], aa9[1]] && [aa9[0], aa9[1]][..1] == [aa9[0]] && [aa9[0]][..0] == [];
    var t95 := [FreshCard(Spades, Ten), FreshCard(Hearts, Nine), FreshCard(Clubs, Five)];
    assert t95[..2] == [t95[0], t95[1]] && [t95[0], t95[1]][..1] == [t95[0]] && [t95[0]][..0] == [];
    assert HardTotal([t95[0]]) == 10 && HardTotal([t95[0], t95[1]]) == 19 && HardTotal(t95) == 24;
    assert AceCount([t95[0]]) == 0 && AceCount([t95[0], t95[1]]) == 0 && AceCount(t95) == 0;
  }
}
