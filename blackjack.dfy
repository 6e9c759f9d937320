/** The single-seat table (`BlackjackGame`): one player against the dealer, a round running
    betting -> dealing -> playing -> dealer-turn -> game-over -> betting.

    Money is counted in HALF-UNITS, because a blackjack pays two and a half times the bet:
    `playerMoney == 2000` is the starting bankroll of 1000. Bets are whole chip amounts. */
module Blackjack {
  import opened Wrappers
  import opened Cards
  import opened Hands
  import opened Round

  datatype Outcome = Win | Lose | Push | Blackjack

  /** The dealer's line; only which line is shown is modelled, not its text. */
  datatype DealerSays =
    | Welcome | DealingCards | YourMove | DealerRule | PlayerWins
    | HouseWins | PushReturned | BlackjackWin | PlayerBust | DealerBusts

  datatype GameState = GameState(
    dealerCards: seq<Card>,
    playerCards: seq<Card>,
    currentBet: nat,
    playerMoney: int,
    gamePhase: Phase,
    gameResult: Option<Outcome>,
    dealerMessage: DealerSays)

  /** The starting bankroll, in whole units. */
  const StartingMoney: nat := 1000

  /** The settlement chain after the dealer's turn: a dealer bust wins, then the higher
      total wins, and equal totals push. */
  function Settle(dealerValue: int, playerValue: int): (r: (Outcome, DealerSays))
    ensures r.0 == Win <==> dealerValue > 21 || playerValue > dealerValue
    ensures r.0 == Lose <==> dealerValue <= 21 && dealerValue > playerValue
    ensures r.0 == Push <==> dealerValue <= 21 && dealerValue == playerValue
    ensures r.0 != Blackjack
    ensures r.1 == DealerBusts <==> dealerValue > 21
  {
    if dealerValue > 21 then (Win, DealerBusts)
    else if dealerValue > playerValue then (Lose, HouseWins)
    else if playerValue > dealerValue then (Win, PlayerWins)
    else (Push, PushReturned)
  }

  /** What `endGame` credits, in half-units, for a bet of `bet` whole units that has already
      been taken from the bankroll. */
  function Winnings(result: Outcome, bet: nat): (halves: nat)
    ensures halves == 0 <==> result == Lose || bet == 0
    ensures result == Push ==> halves == 2 * bet
    ensures result == Win ==> halves - 2 * bet == 2 * bet
    ensures result == Blackjack ==> 2 * (halves - 2 * bet) == 3 * (2 * bet)
  {
    match result
    case Win => 4 * bet
    case Blackjack => 5 * bet
    case Push => 2 * bet
    case Lose => 0
  }

  /** Worked rounds from a bankroll of 1000 and a bet of 50: a blackjack against a dealer
      without 21 ends at 1075; a 20 against a dealer's 18 wins twice the bet; a player who
      busts gets nothing back. */
  lemma SettlementExamples()
    ensures 2 * StartingMoney - 2 * 50 + Winnings(Blackjack, 50) == 2 * 1075
    ensures Settle(18, 20).0 == Win && Winnings(Settle(18, 20).0, 50) == 2 * (2 * 50)
    ensures Winnings(Lose, 50) == 0
  {
  }

  /** Dealt cards are never lost or duplicated: deck, dealer hand (face up) and player hand
      together are exactly one fresh deck. */
  ghost predicate Conserved(deck: seq<Card>, dealer: seq<Card>, player: seq<Card>) {
    multiset(deck) + multiset(Revealed(dealer)) + multiset(player) == multiset(OrderedDeck())
  }

  lemma ConservedFacts(deck: seq<Card>, dealer: seq<Card>, player: seq<Card>)
    requires Conserved(deck, dealer, player)
    ensures |deck| + |dealer| + |player| == 52
    ensures AllDeckCards(deck) && AllDeckCards(Revealed(dealer)) && AllDeckCards(player)
  {
    var full := multiset(OrderedDeck());
    assert |full| == 52;
    assert |multiset(deck) + multiset(Revealed(dealer)) + multiset(player)| == |deck| + |dealer| + |player|;
    forall c | c in deck ensures IsDeckCard(c) {
      assert c in full;
    }
    forall c | c in Revealed(dealer) ensures IsDeckCard(c) {
      assert c in full;
    }
    forall c | c in player ensures IsDeckCard(c) {
      assert c in full;
    }
  }

  /** The four cards of the initial deal leave the cards conserved. */
  lemma DealConserves(d: seq<Card>)
    requires Conserved(d, [], []) && AllFaceUp(d)
    ensures |d| == 52
    ensures var n := |d|;
      && Conserved(d[..n - 4], [d[n - 4], d[n - 3].(hidden := true)], [d[n - 1], d[n - 2]])
      && AllFaceUp(d[..n - 4]) && AllFaceUp([d[n - 1], d[n - 2]])
      && !d[n - 4].hidden && Evaluate([d[n - 1], d[n - 2]]).value <= 21
  {
    assert Revealed([]) == [];
    ConservedFacts(d, [], []);
    var n := |d|;
    TopFour(d);
    FaceUpTop(d, 4);
    assert Revealed([d[n - 4], d[n - 3].(hidden := true)]) == [d[n - 4], d[n - 3]];
    assert d[n - 1] in d && d[n - 2] in d;
    TwoCardsNeverBust(d[n - 1], d[n - 2]);
  }

  /** The deck's multiset splits into the rest, the dealer's two cards and the player's two. */
  lemma TopFour(d: seq<Card>)
    requires |d| >= 4
    ensures var n := |d|;
      multiset(d) == multiset(d[..n - 4]) + multiset([d[n - 4], d[n - 3]]) + multiset([d[n - 1], d[n - 2]])
  {
    var n := |d|;
    assert d == d[..n - 4] + [d[n - 4], d[n - 3]] + [d[n - 2], d[n - 1]];
  }

  /** In a face-up deck, the cards below the top `k` and each of the top `k` are face up. */
  lemma FaceUpTop(d: seq<Card>, k: nat)
    requires AllFaceUp(d) && k <= |d|
    ensures AllFaceUp(d[..|d| - k])
    ensures forall i | |d| - k <= i < |d| :: !d[i].hidden
  {
    assert forall c | c in d[..|d| - k] :: c in d;
  }

  /** Popping the deck's last card into the player's hand keeps the cards conserved and face
      up, whether or not the dealer's hand is then turned up. */
  lemma HitConserves(deck: seq<Card>, dealer: seq<Card>, player: seq<Card>)
    requires Conserved(deck, dealer, player) && AllFaceUp(deck) && AllFaceUp(player) && |deck| > 0
    ensures var rest, c := deck[..|deck| - 1], deck[|deck| - 1];
      && Conserved(rest, dealer, player + [c]) && Conserved(rest, Revealed(dealer), player + [c])
      && AllFaceUp(rest) && AllFaceUp(player + [c]) && AllFaceUp(Revealed(dealer))
  {
    var rest, c := deck[..|deck| - 1], deck[|deck| - 1];
    assert deck == rest + [c];
    assert multiset(deck) == multiset(rest) + multiset{c};
    FaceUpTop(deck, 1);
    assert Revealed(Revealed(dealer)) == Revealed(dealer);
  }

  /** A hand that is not bust holds at most 21 deck cards. */
  lemma ShortHand(cards: seq<Card>)
    requires AllDeckCards(cards) && Evaluate(cards).value <= 21
    ensures |cards| <= 21
  {
    HardTotalCountsCards(cards);
  }

  /** The bet is taken from the bankroll when it is placed and comes back only through the
      settlement: it is never in both places. `moneyBeforeBet` is the bankroll before this
      round's bet, in half-units. */
  ghost predicate BankrollKept(s: GameState, moneyBeforeBet: int) {
    match s.gamePhase
    case Betting => s.currentBet == 0 && s.playerMoney == moneyBeforeBet
    case GameOver =>
      s.gameResult.Some? &&
      s.playerMoney == moneyBeforeBet - 2 * s.currentBet + Winnings(s.gameResult.value, s.currentBet)
    case _ => s.playerMoney == moneyBeforeBet - 2 * s.currentBet
  }

  /** What each phase looks like. */
  ghost predicate PhaseShape(deck: seq<Card>, s: GameState) {
    match s.gamePhase
    case Betting | Dealing => s.dealerCards == [] && s.playerCards == [] && s.gameResult == None
    case Playing =>
      && |s.dealerCards| == 2 && !s.dealerCards[0].hidden && s.dealerCards[1].hidden
      && |s.playerCards| >= 2 && Evaluate(s.playerCards).value <= 21 && s.gameResult == None
    case DealerTurn =>
      && |s.dealerCards| == 2 && AllFaceUp(s.dealerCards)
      && |s.playerCards| >= 2 && Evaluate(s.playerCards).value <= 21 && s.gameResult == None
      && DealerCanFinish(deck, s.dealerCards)
    case GameOver => AllFaceUp(s.dealerCards) && s.gameResult.Some?
  }

  /** The single-seat game's invariant. */
  ghost predicate GameValid(deck: seq<Card>, s: GameState, moneyBeforeBet: int) {
    && AllFaceUp(deck) && AllFaceUp(s.playerCards)
    && Conserved(deck, s.dealerCards, s.playerCards)
    && s.playerMoney >= 0
    && PhaseShape(deck, s)
    && BankrollKept(s, moneyBeforeBet)
  }

  /** The state `endGame` may be called in: a round in play whose dealer hand is about to be
      replaced by `finalDealerCards`. */
  ghost predicate ReadyToEnd(deck: seq<Card>, s: GameState, moneyBeforeBet: int, finalDealerCards: seq<Card>) {
    && (s.gamePhase == Playing || s.gamePhase == DealerTurn)
    && s.gameResult == None
    && AllFaceUp(deck) && AllFaceUp(s.playerCards) && AllFaceUp(finalDealerCards)
    && Conserved(deck, finalDealerCards, s.playerCards)
    && s.playerMoney >= 0
    && s.playerMoney == moneyBeforeBet - 2 * s.currentBet
  }

  lemma DealKeepsGame(d: seq<Card>, s: GameState, m: int)
    requires GameValid(d, s, m) && s.gamePhase == Dealing
    ensures |d| == 52
    ensures var n := |d|;
      GameValid(d[..n - 4], s.(
        playerCards := [d[n - 1], d[n - 2]],
        dealerCards := [d[n - 4], d[n - 3].(hidden := true)],
        gamePhase := Playing,
        dealerMessage := YourMove), m)
  {
    DealConserves(d);
  }

  lemma HitKeepsGame(d: seq<Card>, s: GameState, m: int)
    requires GameValid(d, s, m) && s.gamePhase == Playing
    ensures |d| > 0
    ensures var newCards := s.playerCards + [d[|d| - 1]];
      && (Evaluate(newCards).value > 21 ==> GameValid(d[..|d| - 1], s.(
          playerCards := newCards,
          gamePhase := GameOver,
          gameResult := Some(Lose),
          dealerMessage := PlayerBust,
          dealerCards := Revealed(s.dealerCards)), m))
      && (Evaluate(newCards).value <= 21 ==> GameValid(d[..|d| - 1], s.(playerCards := newCards), m))
  {
    ConservedFacts(d, s.dealerCards, s.playerCards);
    ShortHand(s.playerCards);
    HitConserves(d, s.dealerCards, s.playerCards);
  }

  lemma StandKeepsGame(d: seq<Card>, s: GameState, m: int)
    requires GameValid(d, s, m) && s.gamePhase == Playing
    ensures GameValid(d, s.(
      gamePhase := DealerTurn,
      dealerMessage := DealerRule,
      dealerCards := Revealed(s.dealerCards)), m)
  {
    ConservedFacts(d, s.dealerCards, s.playerCards);
    ShortHand(s.playerCards);
    var revealed := Revealed(s.dealerCards);
    assert Revealed(revealed) == revealed;
    HardTotalCountsCards(revealed);
  }

  lemma EndKeepsGame(d: seq<Card>, s: GameState, m: int, result: Outcome, message: DealerSays, finalDealerCards: seq<Card>)
    requires ReadyToEnd(d, s, m, finalDealerCards)
    ensures GameValid(d, s.(
      gamePhase := GameOver,
      gameResult := Some(result),
      dealerMessage := message,
      dealerCards := finalDealerCards,
      playerMoney := s.playerMoney + Winnings(result, s.currentBet)), m)
  {
  }

  /** In play, the dealer's hand turned up is ready to settle. */
  lemma RevealReady(d: seq<Card>, s: GameState, m: int)
    requires GameValid(d, s, m) && s.gamePhase == Playing
    ensures ReadyToEnd(d, s, m, Revealed(s.dealerCards))
  {
    var revealed := Revealed(s.dealerCards);
    assert Revealed(revealed) == revealed;
  }

  /** After the dealer's draws, the round is ready to settle. */
  lemma DealerReady(d: seq<Card>, s: GameState, m: int)
    requires GameValid(d, s, m) && s.gamePhase == DealerTurn
    ensures var r := DealerFinish(d, s.dealerCards);
      ReadyToEnd(r.0, s, m, r.1)
  {
    var r := DealerFinish(d, s.dealerCards);
    DealerFinishShape(d, s.dealerCards);
    assert forall c | c in Popped(d, |r.0|) :: c in d;
    assert forall c | c in r.0 :: c in d;
    assert Revealed(s.dealerCards) == s.dealerCards;
    assert AllFaceUp(r.1);
    assert Revealed(r.1) == r.1;
  }

  lemma NewGameKeepsGame(d: seq<Card>, s: GameState, m: int, newDeck: seq<Card>)
    requires GameValid(d, s, m) && s.gamePhase == GameOver && IsShuffledDeck(newDeck)
    ensures GameValid(newDeck, s.(
      dealerCards := [],
      playerCards := [],
      currentBet := 0,
      gamePhase := Betting,
      gameResult := None,
      dealerMessage := Welcome), s.playerMoney)
  {
    ShuffledDeckFacts(newDeck);
    assert Revealed([]) == [];
  }

  class BlackjackGame {
    var deck: seq<Card>
    var state: GameState
    /** The bankroll before this round's bet, in half-units. */
    ghost var moneyBeforeBet: int

    ghost predicate Valid()
      reads this
    {
      GameValid(deck, state, moneyBeforeBet)
    }

    /** The component as mounted: a fresh deck, no cards dealt, a bankroll of 1000. */
    constructor ()
      ensures Valid() && IsShuffledDeck(deck)
      ensures state == GameState([], [], 0, 2 * StartingMoney, Betting, None, Welcome)
    {
      var newDeck := CreateDeck();
      ShuffledDeckFacts(newDeck);
      deck := newDeck;
      state := GameState([], [], 0, 2 * StartingMoney, Betting, None, Welcome);
      moneyBeforeBet := 2 * StartingMoney;
      assert Revealed([]) == [];
    }

    /** `placeBet`: a bet above the bankroll is refused and changes nothing; otherwise it is
        taken from the bankroll and the deal is scheduled. */
    method PlaceBet(amount: nat) returns (accepted: bool)
      requires Valid() && state.gamePhase == Betting
      modifies this
      ensures Valid() && deck == old(deck)
      ensures accepted <==> 2 * amount <= old(state.playerMoney)
      ensures !accepted ==> state == old(state)
      ensures accepted ==> state == old(state).(
        currentBet := amount,
        playerMoney := old(state.playerMoney) - 2 * amount,
        gamePhase := Dealing,
        dealerMessage := DealingCards)
    {
      if 2 * amount > state.playerMoney {
        return false;
      }
      state := state.(
        currentBet := amount,
        playerMoney := state.playerMoney - 2 * amount,
        gamePhase := Dealing,
        dealerMessage := DealingCards);
      accepted := true;
    }

    /** `dealInitialCards`: four pops; the player gets the first two cards popped, the dealer
        the fourth and then the third face down. Reports whether the player's two cards make
        21, which schedules the blackjack check. */
    method DealInitialCards() returns (blackjackCheck: bool)
      requires Valid() && state.gamePhase == Dealing
      modifies this
      ensures Valid()
      ensures var d := old(deck); var n := |d|;
        && n == 52 && deck == d[..n - 4]
        && state == old(state).(
          playerCards := [d[n - 1], d[n - 2]],
          dealerCards := [d[n - 4], d[n - 3].(hidden := true)],
          gamePhase := Playing,
          dealerMessage := YourMove)
      ensures blackjackCheck <==> Evaluate(state.playerCards).value == 21
    {
      DealKeepsGame(deck, state, moneyBeforeBet);
      ghost var d, n := deck, |deck|;
      var newDeck := deck;
      var first := newDeck[|newDeck| - 1];
      newDeck := newDeck[..|newDeck| - 1];
      var second := newDeck[|newDeck| - 1];
      newDeck := newDeck[..|newDeck| - 1];
      var playerCards := [first, second];
      var dealerHiddenCard := newDeck[|newDeck| - 1];
      newDeck := newDeck[..|newDeck| - 1];
      var dealerUpCard := newDeck[|newDeck| - 1];
      newDeck := newDeck[..|newDeck| - 1];
      var dealerCards := [dealerUpCard, dealerHiddenCard.(hidden := true)];
      assert newDeck == d[..n - 4];
      assert playerCards == [d[n - 1], d[n - 2]];
      assert dealerCards == [d[n - 4], d[n - 3].(hidden := true)];

      deck := newDeck;
      state := state.(
        playerCards := playerCards,
        dealerCards := dealerCards,
        gamePhase := Playing,
        dealerMessage := YourMove);
      var playerValue := CalculateHandValue(playerCards);
      blackjackCheck := playerValue.value == 21;
    }

    /** `endGame`: record the result, show the dealer's final hand and pay the winnings. */
    method EndGame(result: Outcome, message: DealerSays, finalDealerCards: seq<Card>)
      requires ReadyToEnd(deck, state, moneyBeforeBet, finalDealerCards)
      modifies this
      ensures Valid() && deck == old(deck)
      ensures state == old(state).(
        gamePhase := GameOver,
        gameResult := Some(result),
        dealerMessage := message,
        dealerCards := finalDealerCards,
        playerMoney := old(state.playerMoney) + Winnings(result, old(state.currentBet)))
    {
      EndKeepsGame(deck, state, moneyBeforeBet, result, message, finalDealerCards);
      var winnings := Winnings(result, state.currentBet);
      state := state.(
        gamePhase := GameOver,
        gameResult := Some(result),
        dealerMessage := message,
        dealerCards := finalDealerCards,
        playerMoney := state.playerMoney + winnings);
    }

    /** `checkForBlackjack`: with the dealer's hand turned up, a dealer 21 pushes and
        anything else pays the blackjack. */
    method CheckForBlackjack()
      requires Valid() && state.gamePhase == Playing
      requires |state.playerCards| == 2 && Evaluate(state.playerCards).value == 21
      modifies this
      ensures Valid() && deck == old(deck)
      ensures var revealed := Revealed(old(state.dealerCards));
        var result := if Evaluate(revealed).value == 21 then Push else Blackjack;
        state == old(state).(
          gamePhase := GameOver,
          gameResult := Some(result),
          dealerMessage := if result == Push then PushReturned else BlackjackWin,
          dealerCards := revealed,
          playerMoney := old(state.playerMoney) + Winnings(result, old(state.currentBet)))
    {
      RevealReady(deck, state, moneyBeforeBet);
      var revealed := Revealed(state.dealerCards);
      var dealerValue := CalculateHandValue(revealed);
      if dealerValue.value == 21 {
        EndGame(Push, PushReturned, revealed);
      } else {
        EndGame(Blackjack, BlackjackWin, revealed);
      }
    }

    /** `hit`: the deck's last card goes to the player; over 21 the round is lost at once,
        with the dealer's hand turned up and nothing paid. */
    method Hit()
      requires Valid() && state.gamePhase == Playing
      modifies this
      ensures Valid()
      ensures |old(deck)| > 0 && deck == old(deck)[..|old(deck)| - 1]
      ensures var newCards := old(state.playerCards) + [old(deck)[|old(deck)| - 1]];
        state == if Evaluate(newCards).value > 21 then old(state).(
            playerCards := newCards,
            gamePhase := GameOver,
            gameResult := Some(Lose),
            dealerMessage := PlayerBust,
            dealerCards := Revealed(old(state.dealerCards)))
          else old(state).(playerCards := newCards)
    {
      HitKeepsGame(deck, state, moneyBeforeBet);
      var newDeck := deck;
      var newCard := newDeck[|newDeck| - 1];
      newDeck := newDeck[..|newDeck| - 1];
      var newPlayerCards := state.playerCards + [newCard];
      deck := newDeck;
      var hand := CalculateHandValue(newPlayerCards);
      if hand.value > 21 {
        var revealed := Revealed(state.dealerCards);
        state := state.(
          playerCards := newPlayerCards,
          gamePhase := GameOver,
          gameResult := Some(Lose),
          dealerMessage := PlayerBust,
          dealerCards := revealed);
      } else {
        state := state.(playerCards := newPlayerCards);
      }
    }

    /** `stand`: the dealer's hand is turned up and the dealer's turn is scheduled. */
    method Stand()
      requires Valid() && state.gamePhase == Playing
      modifies this
      ensures Valid() && deck == old(deck)
      ensures state == old(state).(
        gamePhase := DealerTurn,
        dealerMessage := DealerRule,
        dealerCards := Revealed(old(state.dealerCards)))
    {
      StandKeepsGame(deck, state, moneyBeforeBet);
      var revealed := Revealed(state.dealerCards);
      state := state.(
        gamePhase := DealerTurn,
        dealerMessage := DealerRule,
        dealerCards := revealed);
    }

    /** `playDealerHand`: the dealer draws to 17, then the round is settled by `Settle`. */
    method PlayDealerHand()
      requires Valid() && state.gamePhase == DealerTurn
      modifies this
      ensures Valid()
      ensures var r := DealerFinish(old(deck), old(state.dealerCards));
        var settled := Settle(Evaluate(r.1).value, Evaluate(old(state.playerCards)).value);
        && deck == r.0
        && state == old(state).(
          gamePhase := GameOver,
          gameResult := Some(settled.0),
          dealerMessage := settled.1,
          dealerCards := r.1,
          playerMoney := old(state.playerMoney) + Winnings(settled.0, old(state.currentBet)))
    {
      DealerReady(deck, state, moneyBeforeBet);
      var dealerCards := Revealed(state.dealerCards);
      assert dealerCards == state.dealerCards;
      var newDeck, finalDealer := DrawDealerCards(deck, dealerCards);
      deck := newDeck;
      var dealerValue := CalculateHandValue(finalDealer);
      var playerValue := CalculateHandValue(state.playerCards);
      var (result, message) := Settle(dealerValue.value, playerValue.value);
      EndGame(result, message, finalDealer);
    }

    /** `newGame`: a fresh deck, empty hands, no bet and no result; the bankroll stays. */
    method NewGame()
      requires Valid() && state.gamePhase == GameOver
      modifies this
      ensures Valid() && IsShuffledDeck(deck)
      ensures state == old(state).(
        dealerCards := [],
        playerCards := [],
        currentBet := 0,
        gamePhase := Betting,
        gameResult := None,
        dealerMessage := Welcome)
    {
      var newDeck := CreateDeck();
      NewGameKeepsGame(deck, state, moneyBeforeBet, newDeck);
      deck := newDeck;
      state := state.(
        dealerCards := [],
        playerCards := [],
        currentBet := 0,
        gamePhase := Betting,
        gameResult := None,
        dealerMessage := Welcome);
      moneyBeforeBet := state.playerMoney;
    }
  }
}
