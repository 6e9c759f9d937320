/** What both blackjack tables share: the phases of a round, turning cards face up, and
    the dealer's fixed policy of drawing to 17. */
module Round {
  import opened Cards
  import opened Hands

  datatype Phase = Betting | Dealing | Playing | DealerTurn | GameOver

  /** Every card face up (`cards.map(c => ({ ...c, hidden: false }))`). */
  function Revealed(cards: seq<Card>): (r: seq<Card>)
    ensures |r| == |cards|
    ensures forall i | 0 <= i < |cards| :: r[i] == cards[i].(hidden := false)
  {
    seq(|cards|, i requires 0 <= i < |cards| => cards[i].(hidden := false))
  }

  predicate AllFaceUp(cards: seq<Card>) {
    forall c | c in cards :: !c.hidden
  }

  /** The cards that repeated `pop()`s take from `deck` until `k` are left, in the order taken. */
  function Popped(deck: seq<Card>, k: nat): (r: seq<Card>)
    requires k <= |deck|
  {
    seq(|deck| - k, i requires 0 <= i < |deck| - k => deck[|deck| - 1 - i])
  }

  /** A deck from which the dealer can always draw to 17: each fresh card adds at least 1. */
  predicate DealerCanFinish(deck: seq<Card>, dealer: seq<Card>) {
    AllDeckCards(deck) && |deck| + HardTotal(dealer) >= 17
  }

  /** The dealer's policy: while the hand is under 17 (a soft 17 included as 17), pop the
      deck's last card and add it face up. Gives the remaining deck and the final hand. */
  function DealerFinish(deck: seq<Card>, dealer: seq<Card>): (r: (seq<Card>, seq<Card>))
    requires DealerCanFinish(deck, dealer)
    ensures Evaluate(r.1).value >= 17
    ensures Evaluate(dealer).value >= 17 ==> r == (deck, dealer)
    decreases |deck|
  {
    if Evaluate(dealer).value >= 17 then (deck, dealer)
    else
      DealerCanDraw(deck, dealer);
      DealerFinish(deck[..|deck| - 1], dealer + [deck[|deck| - 1].(hidden := false)])
  }

  /** Under 17 the deck still has a card, and after drawing it the dealer can still finish. */
  lemma DealerCanDraw(deck: seq<Card>, dealer: seq<Card>)
    requires DealerCanFinish(deck, dealer) && Evaluate(dealer).value < 17
    ensures |deck| > 0
    ensures DealerCanFinish(deck[..|deck| - 1], dealer + [deck[|deck| - 1].(hidden := false)])
  {
    var c := deck[|deck| - 1];
    assert c in deck;
    AppendCard(dealer, c.(hidden := false));
    assert forall x | x in deck[..|deck| - 1] :: x in deck;
  }

  /** The dealer only appends to the hand, takes cards from the end of the deck in pop order,
      and loses no card and invents none. */
  lemma {:induction false} DealerFinishShape(deck: seq<Card>, dealer: seq<Card>)
    requires DealerCanFinish(deck, dealer)
    ensures var r := DealerFinish(deck, dealer);
      && |r.0| <= |deck| && r.0 == deck[..|r.0|]
      && r.1 == dealer + Popped(deck, |r.0|)
      && multiset(r.0) + multiset(r.1) == multiset(deck) + multiset(dealer)
    decreases |deck|
  {
    if Evaluate(dealer).value < 17 {
      DealerCanDraw(deck, dealer);
      var c := deck[|deck| - 1];
      var rest := deck[..|deck| - 1];
      assert c in deck && c.(hidden := false) == c;
      DealerFinishShape(rest, dealer + [c]);
      var r := DealerFinish(deck, dealer);
      assert r == DealerFinish(rest, dealer + [c]);
      ShapeStep(deck, dealer, r.0, r.1);
    } else {
      assert deck[..|deck|] == deck;
      assert Popped(deck, |deck|) == [];
    }
  }

  /** The shape after drawing the deck's last card carries over to the deck before the draw. */
  lemma ShapeStep(deck: seq<Card>, dealer: seq<Card>, r0: seq<Card>, r1: seq<Card>)
    requires |deck| > 0
    requires var rest, c := deck[..|deck| - 1], deck[|deck| - 1];
      && |r0| <= |rest| && r0 == rest[..|r0|]
      && r1 == (dealer + [c]) + Popped(rest, |r0|)
      && multiset(r0) + multiset(r1) == multiset(rest) + multiset(dealer + [c])
    ensures |r0| <= |deck| && r0 == deck[..|r0|]
    ensures r1 == dealer + Popped(deck, |r0|)
    ensures multiset(r0) + multiset(r1) == multiset(deck) + multiset(dealer)
  {
    var rest, c := deck[..|deck| - 1], deck[|deck| - 1];
    assert deck == rest + [c];
    PoppedStep(deck, |r0|);
    assert (dealer + [c]) + Popped(rest, |r0|) == dealer + ([c] + Popped(rest, |r0|));
  }

  /** Popping down to `k` cards takes the last card first, then pops the rest down to `k`. */
  lemma PoppedStep(deck: seq<Card>, k: nat)
    requires k < |deck|
    ensures Popped(deck, k) == [deck[|deck| - 1]] + Popped(deck[..|deck| - 1], k)
  {
    var rest := deck[..|deck| - 1];
    forall i | 0 <= i < |deck| - k
      ensures Popped(deck, k)[i] == ([deck[|deck| - 1]] + Popped(rest, k))[i]
    {
      if i > 0 {
        assert Popped(rest, k)[i - 1] == rest[|rest| - 1 - (i - 1)];
      }
    }
  }

  /** One draw of the dealer's loop leads to the same final hand. */
  lemma DealerStep(deck: seq<Card>, dealer: seq<Card>)
    requires DealerCanFinish(deck, dealer) && Evaluate(dealer).value < 17
    ensures |deck| > 0
    ensures DealerCanFinish(deck[..|deck| - 1], dealer + [deck[|deck| - 1].(hidden := false)])
    ensures DealerFinish(deck[..|deck| - 1], dealer + [deck[|deck| - 1].(hidden := false)]) == DealerFinish(deck, dealer)
  {
    DealerCanDraw(deck, dealer);
  }

  /** The dealer's draw loop of `playDealerHand`, with the deck as a stack. */
  method DrawDealerCards(deck0: seq<Card>, dealer0: seq<Card>) returns (deck: seq<Card>, dealer: seq<Card>)
    requires DealerCanFinish(deck0, dealer0)
    ensures (deck, dealer) == DealerFinish(deck0, dealer0)
  {
    deck, dealer := deck0, dealer0;
    var hand := CalculateHandValue(dealer);
    while hand.value < 17
      invariant DealerCanFinish(deck, dealer)
      invariant DealerFinish(deck, dealer) == DealerFinish(deck0, dealer0)
      invariant hand == Evaluate(dealer)
      decreases |deck|
    {
      DealerStep(deck, dealer);
      var newCard := deck[|deck| - 1];
      deck := deck[..|deck| - 1];
      dealer := dealer + [newCard.(hidden := false)];
      hand := CalculateHandValue(dealer);
    }
  }

  /** Two cards of a fresh deck are at most 21 (two aces count 12). */
  lemma TwoCardsNeverBust(a: Card, b: Card)
    requires IsDeckCard(a) && IsDeckCard(b)
    ensures Evaluate([a, b]).value <= 21
  {
    assert [a, b][..1] == [a];
    assert [a][..0] == [];
    assert HardTotal([a]) == HardPoints(a);
    assert HardTotal([a, b]) == HardPoints(a) + HardPoints(b) <= 20;
  }

  /** The dealer stands on a soft 17 (an ace and a six): nothing is drawn. */
  lemma SoftSeventeenStands(deck: seq<Card>)
    requires DealerCanFinish(deck, [FreshCard(Hearts, Ace), FreshCard(Clubs, Six)])
    ensures DealerFinish(deck, [FreshCard(Hearts, Ace), FreshCard(Clubs, Six)])
      == (deck, [FreshCard(Hearts, Ace), FreshCard(Clubs, Six)])
  {
    var a6 := [FreshCard(Hearts, Ace), FreshCard(Clubs, Six)];
    assert a6[..1] == [a6[0]] && [a6[0]][..0] == [];
    assert HardTotal([a6[0]]) == 1 && HardTotal(a6) == 7;
    assert AceCount([a6[0]]) == 1 && AceCount(a6) == 1;
  }

  /** A dealer on a hard 16 (a six and a ten) draws at least one card. */
  lemma SixteenDraws(deck: seq<Card>)
    requires DealerCanFinish(deck, [FreshCard(Hearts, Six), FreshCard(Clubs, Ten)])
    ensures |DealerFinish(deck, [FreshCard(Hearts, Six), FreshCard(Clubs, Ten)]).1| > 2
  {
    var h := [FreshCard(Hearts, Six), FreshCard(Clubs, Ten)];
    assert h[..1] == [h[0]] && [h[0]][..0] == [];
    assert HardTotal([h[0]]) == 6 && HardTotal(h) == 16;
    assert AceCount([h[0]]) == 0 && AceCount(h) == 0;
    DealerFinishShape(deck, h);
    DealerCanDraw(deck, h);
    var r := DealerFinish(deck, h);
    assert r == DealerFinish(deck[..|deck| - 1], h + [deck[|deck| - 1].(hidden := false)]);
    DealerFinishShape(deck[..|deck| - 1], h + [deck[|deck| - 1].(hidden := false)]);
  }
}
