/** The multi-seat table (`CasinoTable`): every seat has its own bankroll, bet and hand, and
    all seats are settled against one dealer hand. Money here is in whole units: the table
    pays no fractional amount. */
module Table {
  import opened Cards
  import opened Hands
  import opened Round
  import Blackjack

  datatype Player = Player(
    id: string,
    name: string,
    money: int,
    cards: seq<Card>,
    bet: int,
    isActive: bool,
    hasBust: bool,
    hasStood: bool)

  /** The dealer's line at the table; only which line is shown is modelled, not its text. */
  datatype TableSays =
    | TableWelcome(tableId: string) | DealingCards | YourTurn | BustYouLose | HitOrStand
    | DealerRule | TurnOver | DealerBusts | DealerHas(dealerValue: int) | NewRound

  datatype TableState = TableState(
    dealerCards: seq<Card>,
    players: seq<Player>,
    currentPlayerIndex: nat,
    gamePhase: Phase,
    deck: seq<Card>,
    dealerMessage: TableSays)

  /** The id of the seat the local user plays, the only one `placeBet` touches. */
  const LocalId: string := "player1"

  /** The seat the table opens with. */
  const LocalSeat: Player := Player(LocalId, "You", 1000, [], 0, true, false, false)

  // ---------------------------------------------------------------------------------------
  // Seats as a whole

  predicate UniqueIds(players: seq<Player>) {
    forall i, j | 0 <= i < j < |players| :: players[i].id != players[j].id
  }

  /** No seat holds a card. */
  predicate NoHands(players: seq<Player>) {
    forall i | 0 <= i < |players| :: players[i].cards == []
  }

  /** Every seat's bust flag says whether its hand is over 21. */
  predicate BustFlagsRight(players: seq<Player>) {
    forall i | 0 <= i < |players| :: players[i].hasBust == (Evaluate(players[i].cards).value > 21)
  }

  /** All cards held by the seats, counted with repeats. */
  function SeatCards(players: seq<Player>): multiset<Card> {
    if players == [] then multiset{}
    else SeatCards(players[..|players| - 1]) + multiset(players[|players| - 1].cards)
  }

  /** The number of seats with a bet on them: the seats `dealInitialCards` deals to. */
  function CountBets(players: seq<Player>): nat {
    if players == [] then 0
    else CountBets(players[..|players| - 1]) + (if players[|players| - 1].bet > 0 then 1 else 0)
  }

  /** The seats `nextPlayer` counts as still to act: a bet on them, not bust, not stood. */
  function WaitingSeats(players: seq<Player>): nat {
    if players == [] then 0
    else
      var p := players[|players| - 1];
      WaitingSeats(players[..|players| - 1]) + (if p.bet > 0 && !p.hasBust && !p.hasStood then 1 else 0)
  }

  lemma SeatCardsAppend(players: seq<Player>, p: Player)
    ensures SeatCards(players + [p]) == SeatCards(players) + multiset(p.cards)
  {
    assert (players + [p])[..|players|] == players;
  }

  /** Rewrites that keep every hand keep the seats' cards. */
  lemma {:induction false} SameHandsSameCards(ps: seq<Player>, qs: seq<Player>)
    requires |ps| == |qs|
    requires forall i | 0 <= i < |ps| :: ps[i].cards == qs[i].cards
    ensures SeatCards(ps) == SeatCards(qs)
  {
    if ps != [] {
      SameHandsSameCards(ps[..|ps| - 1], qs[..|qs| - 1]);
    }
  }

  /** Seats with empty hands hold no card. */
  lemma {:induction false} NoHandsNoCards(players: seq<Player>)
    requires NoHands(players)
    ensures SeatCards(players) == multiset{}
  {
    if players != [] {
      NoHandsNoCards(players[..|players| - 1]);
    }
  }

  /** Rewrites that keep every id, hand and bust flag keep the seats' invariant and cards. */
  lemma SameSeats(ps: seq<Player>, qs: seq<Player>)
    requires |ps| == |qs| && UniqueIds(ps) && BustFlagsRight(ps)
    requires forall i | 0 <= i < |ps| ::
      qs[i].id == ps[i].id && qs[i].cards == ps[i].cards && qs[i].hasBust == ps[i].hasBust
    ensures UniqueIds(qs) && BustFlagsRight(qs) && SeatCards(qs) == SeatCards(ps)
  {
    SameHandsSameCards(ps, qs);
  }

  /** Adding cards to one seat's hand adds exactly those cards to the seats' cards. */
  lemma {:induction false} GrowSeat(players: seq<Player>, i: nat, q: Player, extra: seq<Card>)
    requires i < |players| && q.cards == players[i].cards + extra
    ensures SeatCards(players[i := q]) == SeatCards(players) + multiset(extra)
  {
    var n := |players|;
    var init, last := players[..n - 1], players[n - 1];
    assert players == init + [last];
    SeatCardsAppend(init, last);
    if i == n - 1 {
      assert players[i := q] == init + [q];
      SeatCardsAppend(init, q);
    } else {
      assert players[i := q] == init[i := q] + [last];
      SeatCardsAppend(init[i := q], last);
      GrowSeat(init, i, q, extra);
    }
  }

  lemma {:induction false} CountBetsPrefix(players: seq<Player>, i: nat)
    requires i <= |players|
    ensures CountBets(players[..i]) <= CountBets(players)
  {
    if i < |players| {
      assert players[..|players| - 1][..i] == players[..i];
      CountBetsPrefix(players[..|players| - 1], i);
    } else {
      assert players[..i] == players;
    }
  }

  // ---------------------------------------------------------------------------------------
  // The per-seat rewrites (`players.map(...)`)

  /** `placeBet`'s rewrite: the seat `player1` takes the bet out of its money; no funds check. */
  function BetSeats(players: seq<Player>, amount: int): (r: seq<Player>)
    ensures |r| == |players|
    ensures forall i | 0 <= i < |players| && players[i].id != LocalId :: r[i] == players[i]
    ensures forall i | 0 <= i < |players| && players[i].id == LocalId ::
      && r[i].bet == amount
      && r[i].money + r[i].bet == players[i].money
      && r[i].(money := players[i].money, bet := players[i].bet) == players[i]
  {
    seq(|players|, i requires 0 <= i < |players| => BetSeat(players[i], amount))
  }

  function BetSeat(p: Player, amount: int): Player {
    if p.id == LocalId then p.(bet := amount, money := p.money - amount) else p
  }

  /** `dealInitialCards`' rewrite, seat after seat in array order: a seat with a bet gets the
      next two cards popped; the others are passed over. Gives the seats and the deck left. */
  function DealSeats(players: seq<Player>, deck: seq<Card>): (r: (seq<Player>, seq<Card>))
    requires 2 * CountBets(players) <= |deck|
    ensures |r.0| == |players|
    ensures r.1 == deck[..|deck| - 2 * CountBets(players)]
  {
    if players == [] then ([], deck)
    else
      var last := players[|players| - 1];
      var dealt := DealSeats(players[..|players| - 1], deck);
      var seats, rest := dealt.0, dealt.1;
      if last.bet > 0 then
        (seats + [last.(cards := [rest[|rest| - 1], rest[|rest| - 2]])], rest[..|rest| - 2])
      else
        (seats + [last], rest)
  }

  /** The `players.map` of `dealInitialCards` as the loop it runs: each seat with a bet pops
      two cards off the copied deck. */
  method DealToSeats(players: seq<Player>, deck: seq<Card>) returns (updatedPlayers: seq<Player>, newDeck: seq<Card>)
    requires 2 * CountBets(players) <= |deck|
    ensures (updatedPlayers, newDeck) == DealSeats(players, deck)
  {
    newDeck := deck;
    updatedPlayers := [];
    for i := 0 to |players|
      invariant 2 * CountBets(players[..i]) <= |deck|
      invariant (updatedPlayers, newDeck) == DealSeats(players[..i], deck)
    {
      CountBetsPrefix(players, i + 1);
      assert players[..i + 1][..i] == players[..i];
      var player := players[i];
      assert players[..i + 1][i] == player;
      if player.bet > 0 {
        ghost var before := newDeck;
        var first := newDeck[|newDeck| - 1];
        newDeck := newDeck[..|newDeck| - 1];
        var second := newDeck[|newDeck| - 1];
        newDeck := newDeck[..|newDeck| - 1];
        assert second == before[|before| - 2] && newDeck == before[..|before| - 2];
        updatedPlayers := updatedPlayers + [player.(cards := [first, second])];
      } else {
        updatedPlayers := updatedPlayers + [player];
      }
    }
    assert players[..|players|] == players;
  }

  /** Which cards seat `i` gets: with `k` bets before it, the cards at positions `n-1-2k`
      and `n-2-2k` of the deck, and only its hand changes; a seat without a bet is untouched. */
  ghost predicate DealtAt(players: seq<Player>, deck: seq<Card>, seats: seq<Player>, i: nat)
    requires i < |players| && i < |seats|
  {
    if players[i].bet > 0 then
      var k := |deck| - 2 * CountBets(players[..i]);
      2 <= k <= |deck| && seats[i] == players[i].(cards := [deck[k - 1], deck[k - 2]])
    else seats[i] == players[i]
  }

  /** Every seat is dealt as `DealtAt` says. */
  lemma {:induction false} DealSeatsCards(players: seq<Player>, deck: seq<Card>)
    requires 2 * CountBets(players) <= |deck|
    ensures forall i | 0 <= i < |players| :: DealtAt(players, deck, DealSeats(players, deck).0, i)
  {
    if players != [] {
      var n := |players|;
      var init := players[..n - 1];
      DealSeatsCards(init, deck);
      var seats := DealSeats(init, deck).0;
      var r := DealSeats(players, deck);
      forall i | 0 <= i < n ensures DealtAt(players, deck, r.0, i) {
        if i < n - 1 {
          assert players[..i] == init[..i] && players[i] == init[i] && r.0[i] == seats[i];
          assert DealtAt(init, deck, seats, i);
        } else {
          assert players[..i] == init;
        }
      }
    }
  }

  /** If no seat held a card, dealing loses no card and duplicates none. */
  lemma {:induction false} DealSeatsConserves(players: seq<Player>, deck: seq<Card>)
    requires 2 * CountBets(players) <= |deck|
    requires NoHands(players)
    ensures var r := DealSeats(players, deck);
      SeatCards(r.0) + multiset(r.1) == multiset(deck)
  {
    if players != [] {
      var n := |players|;
      var init, last := players[..n - 1], players[n - 1];
      assert init + [last] == players;
      DealSeatsConserves(init, deck);
      DealLastSeat(init, last, deck);
    }
  }

  /** Dealing to one more seat moves that seat's cards, if any, from the deck to the seat. */
  lemma DealLastSeat(init: seq<Player>, last: Player, deck: seq<Card>)
    requires 2 * CountBets(init + [last]) <= |deck|
    requires last.cards == []
    ensures 2 * CountBets(init) <= |deck|
    ensures var r, before := DealSeats(init + [last], deck), DealSeats(init, deck);
      SeatCards(r.0) + multiset(r.1) == SeatCards(before.0) + multiset(before.1)
  {
    var players := init + [last];
    assert players[..|players| - 1] == init;
    var before := DealSeats(init, deck);
    var seats, rest := before.0, before.1;
    if last.bet > 0 {
      var m := |rest|;
      assert DealSeats(players, deck) == (seats + [last.(cards := [rest[m - 1], rest[m - 2]])], rest[..m - 2]);
      PopTwoToSeat(seats, last, rest);
    } else {
      assert DealSeats(players, deck) == (seats + [last], rest);
      SeatCardsAppend(seats, last);
    }
  }

  lemma PopTwoToSeat(seats: seq<Player>, p: Player, deck: seq<Card>)
    requires |deck| >= 2 && p.cards == []
    ensures var m := |deck|;
      SeatCards(seats + [p.(cards := [deck[m - 1], deck[m - 2]])]) + multiset(deck[..m - 2])
        == SeatCards(seats) + multiset(deck)
  {
    var m := |deck|;
    SeatCardsAppend(seats, p.(cards := [deck[m - 1], deck[m - 2]]));
    TopTwo(deck);
  }

  /** Popping two cards splits a deck's cards into the two popped and the rest. */
  lemma TopTwo(deck: seq<Card>)
    requires |deck| >= 2
    ensures multiset(deck) == multiset(deck[..|deck| - 2]) + multiset([deck[|deck| - 1], deck[|deck| - 2]])
  {
    assert deck == deck[..|deck| - 2] + [deck[|deck| - 2], deck[|deck| - 1]];
  }

  /** `hit`'s rewrite: the seat with the given id gets the new hand and its bust flag. */
  function HitSeats(players: seq<Player>, id: string, cards: seq<Card>, bust: bool): (r: seq<Player>)
    ensures |r| == |players|
    ensures forall i | 0 <= i < |players| && players[i].id != id :: r[i] == players[i]
  {
    seq(|players|, i requires 0 <= i < |players| =>
      if players[i].id == id then players[i].(cards := cards, hasBust := bust) else players[i])
  }

  /** `stand`'s rewrite: the seat with the given id has stood. */
  function StandSeats(players: seq<Player>, id: string): (r: seq<Player>)
    ensures |r| == |players|
    ensures forall i | 0 <= i < |players| && players[i].id != id :: r[i] == players[i]
  {
    seq(|players|, i requires 0 <= i < |players| =>
      if players[i].id == id then players[i].(hasStood := true) else players[i])
  }

  /** With unique ids, rewriting "the seat with this id" rewrites that one seat. */
  lemma HitOneSeat(players: seq<Player>, i: nat, cards: seq<Card>, bust: bool)
    requires UniqueIds(players) && i < |players|
    ensures HitSeats(players, players[i].id, cards, bust) == players[i := players[i].(cards := cards, hasBust := bust)]
  {
    var r := HitSeats(players, players[i].id, cards, bust);
    forall j | 0 <= j < |players| && j != i ensures players[j].id != players[i].id {
      if j < i {
        assert players[j].id != players[i].id;
      }
    }
  }

  lemma StandOneSeat(players: seq<Player>, i: nat)
    requires UniqueIds(players) && i < |players|
    ensures StandSeats(players, players[i].id) == players[i := players[i].(hasStood := true)]
  {
    forall j | 0 <= j < |players| && j != i ensures players[j].id != players[i].id {
      if j < i {
        assert players[j].id != players[i].id;
      }
    }
  }

  /** What `determineWinners` adds to a seat with a bet. A bust seat is checked FIRST, so it
      wins nothing even when the dealer busts; then a dealer bust or a higher total pays twice
      the bet, equal totals return the bet, and a lower total pays nothing. */
  function SeatPayout(p: Player, dealerValue: int): (w: int)
    ensures p.hasBust ==> w == 0
    ensures !p.hasBust && dealerValue > 21 ==> w == 2 * p.bet
    ensures w == 0 || w == p.bet || w == 2 * p.bet
  {
    var playerValue := Evaluate(p.cards).value;
    if p.hasBust then 0
    else if dealerValue > 21 then 2 * p.bet
    else if playerValue > dealerValue then 2 * p.bet
    else if playerValue == dealerValue then p.bet
    else 0
  }

  /** `determineWinners`' rewrite: only money changes, a seat without a bet not at all. */
  function SettleSeats(players: seq<Player>, dealerValue: int): (r: seq<Player>)
    ensures |r| == |players|
    ensures forall i | 0 <= i < |players| :: r[i].(money := players[i].money) == players[i]
    ensures forall i | 0 <= i < |players| && players[i].bet == 0 :: r[i] == players[i]
    ensures forall i | 0 <= i < |players| && players[i].bet != 0 ::
      r[i].money - players[i].money == SeatPayout(players[i], dealerValue)
  {
    seq(|players|, i requires 0 <= i < |players| =>
      if players[i].bet == 0 then players[i]
      else players[i].(money := players[i].money + SeatPayout(players[i], dealerValue)))
  }

  /** For a seat that is not bust, the table settles exactly as the single-seat game does
      (there in half-units), except that the table has no 3:2 blackjack payout. */
  lemma SeatPayoutAgreesWithSingleSeat(p: Player, dealerValue: int)
    requires !p.hasBust && p.bet >= 0
    ensures 2 * SeatPayout(p, dealerValue)
      == Blackjack.Winnings(Blackjack.Settle(dealerValue, Evaluate(p.cards).value).0, p.bet)
  {
  }

  /** The rule orders differ on one case: a seat that went bust loses at the table even when
      the dealer busts too, where the settlement chain alone would call it a win. */
  lemma BustSeatLosesToBustDealer(p: Player, dealerValue: int)
    requires p.hasBust && p.bet > 0 && dealerValue > 21
    ensures SeatPayout(p, dealerValue) == 0
    ensures Blackjack.Settle(dealerValue, Evaluate(p.cards).value).0 == Blackjack.Win
  {
  }

  /** `newGame`'s rewrite: hands, bets and flags cleared; id, name, money and `isActive` kept. */
  function ResetSeats(players: seq<Player>): (r: seq<Player>)
    ensures |r| == |players|
    ensures forall i | 0 <= i < |players| ::
      && r[i].id == players[i].id && r[i].name == players[i].name
      && r[i].money == players[i].money && r[i].isActive == players[i].isActive
      && r[i].cards == [] && r[i].bet == 0 && !r[i].hasBust && !r[i].hasStood
  {
    seq(|players|, i requires 0 <= i < |players| =>
      players[i].(cards := [], bet := 0, hasBust := false, hasStood := false))
  }

  // ---------------------------------------------------------------------------------------
  // The table's invariant

  /** No card is lost or duplicated: deck, dealer hand (face up) and the seats' hands are
      exactly one fresh deck. */
  ghost predicate TableConserved(s: TableState) {
    multiset(s.deck) + multiset(Revealed(s.dealerCards)) + SeatCards(s.players) == multiset(OrderedDeck())
  }

  ghost predicate TableShape(s: TableState) {
    match s.gamePhase
    case Betting =>
      && s.dealerCards == [] && NoHands(s.players)
      && forall i | 0 <= i < |s.players| :: s.players[i].bet == 0 && !s.players[i].hasStood
    case Dealing =>
      && s.dealerCards == [] && NoHands(s.players)
      && forall i | 0 <= i < |s.players| :: !s.players[i].hasStood
    case Playing => |s.dealerCards| == 2 && !s.dealerCards[0].hidden && s.dealerCards[1].hidden
    case DealerTurn | GameOver => AllFaceUp(s.dealerCards)
  }

  ghost predicate ValidTable(s: TableState) {
    && AllFaceUp(s.deck)
    && TableConserved(s)
    && UniqueIds(s.players)
    && BustFlagsRight(s.players)
    && s.currentPlayerIndex == 0
    && TableShape(s)
  }

  lemma TableDeckCards(s: TableState)
    requires TableConserved(s)
    ensures AllDeckCards(s.deck)
  {
    forall c | c in s.deck ensures IsDeckCard(c) {
      assert c in multiset(OrderedDeck());
    }
  }

  /** The state `dealInitialCards` leaves: seats dealt in order, then the dealer's two cards,
      the second face down. */
  function DealtTable(s: TableState): (r: TableState)
    requires 2 * CountBets(s.players) + 2 <= |s.deck|
    ensures |r.deck| == |s.deck| - 2 * CountBets(s.players) - 2 && r.deck == s.deck[..|r.deck|]
    ensures |r.dealerCards| == 2 && r.dealerCards[1].hidden
  {
    var (seats, rest) := DealSeats(s.players, s.deck);
    var m := |rest|;
    s.(deck := rest[..m - 2],
       players := seats,
       dealerCards := [rest[m - 2], rest[m - 1].(hidden := true)],
       gamePhase := Playing,
       currentPlayerIndex := 0,
       dealerMessage := YourTurn)
  }

  /** The deal keeps the table's invariant: every seat with a bet holds two cards of the deck,
      which never bust, and the dealer holds the next two. */
  lemma DealKeepsTable(s: TableState)
    requires ValidTable(s) && s.gamePhase == Dealing
    requires 2 * CountBets(s.players) + 2 <= |s.deck|
    ensures ValidTable(DealtTable(s))
  {
    DealConservesTable(s);
    DealKeepsSeats(s);
  }

  lemma DealConservesTable(s: TableState)
    requires TableConserved(s) && AllFaceUp(s.deck) && s.dealerCards == []
    requires NoHands(s.players)
    requires 2 * CountBets(s.players) + 2 <= |s.deck|
    ensures var r := DealtTable(s);
      && TableConserved(r) && AllFaceUp(r.deck)
      && |r.dealerCards| == 2 && !r.dealerCards[0].hidden && r.dealerCards[1].hidden
  {
    var r := DealtTable(s);
    var dealt := DealSeats(s.players, s.deck);
    var rest := dealt.1;
    var m := |rest|;
    assert r.deck == rest[..m - 2] && r.players == dealt.0;
    assert r.dealerCards == [rest[m - 2], rest[m - 1].(hidden := true)];
    assert Revealed([]) == [];
    DealKeepsCards(s.players, s.deck);
    calc {
      multiset(r.deck) + multiset(Revealed(r.dealerCards)) + SeatCards(r.players);
      multiset(rest[..m - 2]) + multiset(Revealed([rest[m - 2], rest[m - 1].(hidden := true)])) + SeatCards(dealt.0);
      multiset(s.deck) + SeatCards(s.players);
      { assert multiset(Revealed(s.dealerCards)) == multiset{}; }
      multiset(s.deck) + multiset(Revealed(s.dealerCards)) + SeatCards(s.players);
    }
  }

  lemma DealKeepsCards(players: seq<Player>, deck: seq<Card>)
    requires 2 * CountBets(players) + 2 <= |deck|
    requires AllFaceUp(deck) && NoHands(players)
    ensures var dealt := DealSeats(players, deck); var rest := dealt.1; var m := |rest|;
      && multiset(rest[..m - 2]) + multiset(Revealed([rest[m - 2], rest[m - 1].(hidden := true)])) + SeatCards(dealt.0)
         == multiset(deck) + SeatCards(players)
      && AllFaceUp(rest[..m - 2]) && !rest[m - 2].hidden
  {
    var dealt := DealSeats(players, deck);
    var rest := dealt.1;
    var m := |rest|;
    FaceUpPrefix(deck, m);
    assert rest == deck[..m];
    HiddenPairRevealed(rest[m - 2], rest[m - 1]);
    DealKeepsCount(players, deck);
  }

  lemma DealKeepsCount(players: seq<Player>, deck: seq<Card>)
    requires 2 * CountBets(players) + 2 <= |deck|
    requires AllFaceUp(deck) && NoHands(players)
    ensures var dealt := DealSeats(players, deck); var rest := dealt.1; var m := |rest|;
      multiset(rest[..m - 2]) + multiset([rest[m - 1], rest[m - 2]]) + SeatCards(dealt.0)
        == multiset(deck) + SeatCards(players)
  {
    var dealt := DealSeats(players, deck);
    NoHandsNoCards(players);
    DealSeatsConserves(players, deck);
    TopTwo(dealt.1);
  }

  /** A prefix of a face-up deck is face up, and so are its last two cards. */
  lemma FaceUpPrefix(deck: seq<Card>, m: nat)
    requires AllFaceUp(deck) && 2 <= m <= |deck|
    ensures AllFaceUp(deck[..m][..m - 2]) && !deck[..m][m - 1].hidden && !deck[..m][m - 2].hidden
  {
    assert deck[m - 1] in deck && deck[m - 2] in deck;
    assert forall c | c in deck[..m][..m - 2] :: c in deck;
  }

  /** The dealer's two cards, the second turned down, are the two cards popped. */
  lemma HiddenPairRevealed(up: Card, down: Card)
    requires !up.hidden && !down.hidden
    ensures Revealed([up, down.(hidden := true)]) == [up, down]
    ensures multiset(Revealed([up, down.(hidden := true)])) == multiset([down, up])
  {
    assert Revealed([up, down.(hidden := true)]) == [up, down];
  }

  lemma DealKeepsSeats(s: TableState)
    requires ValidTable(s) && s.gamePhase == Dealing
    requires 2 * CountBets(s.players) + 2 <= |s.deck|
    ensures var seats := DealtTable(s).players;
      UniqueIds(seats) && BustFlagsRight(seats)
  {
    TableDeckCards(s);
    DealSeatsValid(s.players, s.deck);
  }

  /** Dealing keeps ids, and a dealt seat holds two deck cards, which never bust. */
  lemma DealSeatsValid(players: seq<Player>, d: seq<Card>)
    requires 2 * CountBets(players) <= |d| && AllDeckCards(d)
    requires UniqueIds(players) && BustFlagsRight(players) && NoHands(players)
    ensures var seats := DealSeats(players, d).0;
      UniqueIds(seats) && BustFlagsRight(seats)
  {
    var seats := DealSeats(players, d).0;
    DealSeatsCards(players, d);
    forall i | 0 <= i < |players|
      ensures seats[i].id == players[i].id
      ensures seats[i].hasBust == (Evaluate(seats[i].cards).value > 21)
    {
      DealtSeatRight(players, d, seats, i);
    }
  }

  /** One dealt seat: same id, and a bust flag that is still right. */
  lemma DealtSeatRight(players: seq<Player>, d: seq<Card>, seats: seq<Player>, i: nat)
    requires i < |players| && i < |seats| && DealtAt(players, d, seats, i) && AllDeckCards(d)
    requires players[i].cards == [] && players[i].hasBust == (Evaluate(players[i].cards).value > 21)
    ensures seats[i].id == players[i].id
    ensures seats[i].hasBust == (Evaluate(seats[i].cards).value > 21)
  {
    if players[i].bet > 0 {
      assert Evaluate(players[i].cards).value == 0;
      var k := |d| - 2 * CountBets(players[..i]);
      assert d[k - 1] in d && d[k - 2] in d;
      TwoCardsNeverBust(d[k - 1], d[k - 2]);
    }
  }

  /** The state after the seat at `i` draws the deck's last card. */
  function HitTable(s: TableState, i: nat): (r: TableState)
    requires i < |s.players| && |s.deck| > 0
    ensures |r.deck| + 1 == |s.deck| && |r.players| == |s.players|
    ensures |r.players[i].cards| == |s.players[i].cards| + 1
  {
    var newCards := s.players[i].cards + [s.deck[|s.deck| - 1]];
    var bust := Evaluate(newCards).value > 21;
    s.(deck := s.deck[..|s.deck| - 1],
       players := s.players[i := s.players[i].(cards := newCards, hasBust := bust)],
       dealerMessage := if bust then BustYouLose else HitOrStand)
  }

  /** A hit moves one card from the deck to one seat and keeps the bust flags right. */
  lemma HitKeepsTable(s: TableState, i: nat)
    requires ValidTable(s) && s.gamePhase == Playing && i < |s.players| && |s.deck| > 0
    ensures ValidTable(HitTable(s, i))
  {
    HitConserves(s, i);
    var r := HitTable(s, i);
    assert forall p | p in r.players :: p in s.players || p == r.players[i];
  }

  lemma HitConserves(s: TableState, i: nat)
    requires TableConserved(s) && AllFaceUp(s.deck) && i < |s.players| && |s.deck| > 0
    ensures TableConserved(HitTable(s, i)) && AllFaceUp(HitTable(s, i).deck)
  {
    var r := HitTable(s, i);
    var d, c := s.deck[..|s.deck| - 1], s.deck[|s.deck| - 1];
    assert s.deck == d + [c];
    assert r.deck == d;
    GrowSeat(s.players, i, r.players[i], [c]);
    assert forall x | x in d :: x in s.deck;
  }

  lemma BetKeepsTable(s: TableState, amount: int)
    requires ValidTable(s) && s.gamePhase == Betting
    ensures ValidTable(s.(players := BetSeats(s.players, amount), gamePhase := Dealing, dealerMessage := DealingCards))
  {
    SameSeats(s.players, BetSeats(s.players, amount));
  }

  lemma StandKeepsTable(s: TableState, i: nat)
    requires ValidTable(s) && s.gamePhase == Playing && i < |s.players|
    ensures ValidTable(s.(players := s.players[i := s.players[i].(hasStood := true)]))
  {
    SameSeats(s.players, s.players[i := s.players[i].(hasStood := true)]);
  }

  lemma RevealKeepsTable(s: TableState, message: TableSays)
    requires ValidTable(s) && s.gamePhase == Playing
    ensures ValidTable(s.(gamePhase := DealerTurn, dealerMessage := message, dealerCards := Revealed(s.dealerCards)))
  {
    assert Revealed(Revealed(s.dealerCards)) == Revealed(s.dealerCards);
  }

  lemma DealerKeepsTable(s: TableState)
    requires ValidTable(s) && s.gamePhase == DealerTurn
    requires DealerCanFinish(s.deck, Revealed(s.dealerCards))
    ensures var r := DealerFinish(s.deck, Revealed(s.dealerCards));
      ValidTable(s.(deck := r.0, dealerCards := r.1, gamePhase := GameOver))
  {
    var dealer := Revealed(s.dealerCards);
    var r := DealerFinish(s.deck, dealer);
    DealerFinishShape(s.deck, dealer);
    assert forall c | c in Popped(s.deck, |r.0|) :: c in s.deck;
    assert forall c | c in r.0 :: c in s.deck;
    assert AllFaceUp(r.1);
    assert Revealed(r.1) == r.1;
  }

  lemma SettleKeepsTable(s: TableState, dealerValue: int, message: TableSays)
    requires ValidTable(s) && s.gamePhase == GameOver
    ensures ValidTable(s.(players := SettleSeats(s.players, dealerValue), dealerMessage := message))
  {
    SameSeats(s.players, SettleSeats(s.players, dealerValue));
  }

  lemma ResetKeepsTable(s: TableState, newDeck: seq<Card>)
    requires ValidTable(s) && IsShuffledDeck(newDeck)
    ensures ValidTable(s.(
      dealerCards := [],
      players := ResetSeats(s.players),
      currentPlayerIndex := 0,
      gamePhase := Betting,
      deck := newDeck,
      dealerMessage := NewRound))
  {
    ShuffledDeckFacts(newDeck);
    var players := ResetSeats(s.players);
    NoHandsNoCards(players);
    assert Evaluate([]).value == 0;
    assert Revealed([]) == [];
  }

  class CasinoTable {
    var state: TableState

    ghost predicate Valid()
      reads this
    {
      ValidTable(state)
    }

    /** The table as mounted: one seat with 1000, a fresh deck, no cards dealt. */
    constructor (tableId: string)
      ensures Valid() && IsShuffledDeck(state.deck)
      ensures state == TableState([], [LocalSeat], 0, Betting, state.deck, TableWelcome(tableId))
    {
      var newDeck := CreateDeck();
      ShuffledDeckFacts(newDeck);
      state := TableState([], [LocalSeat], 0, Betting, newDeck, TableWelcome(tableId));
      assert Revealed([]) == [];
      assert SeatCards([LocalSeat]) == SeatCards([]) + multiset(LocalSeat.cards);
    }

    /** `placeBet`: the local seat's bet is taken from its money, unchecked, and the deal
        follows. */
    method PlaceBet(amount: int)
      requires Valid() && state.gamePhase == Betting
      modifies this
      ensures Valid()
      ensures state == old(state).(
        players := BetSeats(old(state.players), amount),
        gamePhase := Dealing,
        dealerMessage := DealingCards)
    {
      BetKeepsTable(state, amount);
      var players := BetSeats(state.players, amount);
      state := state.(players := players, gamePhase := Dealing, dealerMessage := DealingCards);
    }

    /** `dealInitialCards`: two pops per seat with a bet, in seat order, then two pops for the
        dealer, the first of which is turned face down. */
    method DealInitialCards()
      requires Valid() && state.gamePhase == Dealing
      requires 2 * CountBets(state.players) + 2 <= |state.deck|
      modifies this
      ensures Valid()
      ensures state == DealtTable(old(state))
    {
      DealKeepsTable(state);
      var updatedPlayers, newDeck := DealToSeats(state.players, state.deck);
      var dealerHiddenCard := newDeck[|newDeck| - 1];
      newDeck := newDeck[..|newDeck| - 1];
      var dealerUpCard := newDeck[|newDeck| - 1];
      newDeck := newDeck[..|newDeck| - 1];
      var dealerCards := [dealerUpCard, dealerHiddenCard.(hidden := true)];
      state := state.(
        deck := newDeck,
        players := updatedPlayers,
        dealerCards := dealerCards,
        gamePhase := Playing,
        currentPlayerIndex := 0,
        dealerMessage := YourTurn);
    }

    /** `hit`: with no current seat nothing happens; otherwise the deck's last card goes to the
        current seat, whose bust flag records whether it is now over 21. Reports whether it
        is, which schedules `nextPlayer`. */
    method Hit() returns (bustPending: bool)
      requires Valid() && state.gamePhase == Playing
      requires state.currentPlayerIndex < |state.players| ==> |state.deck| > 0
      modifies this
      ensures Valid()
      ensures old(state.currentPlayerIndex) >= |old(state.players)| ==> !bustPending && state == old(state)
      ensures old(state.currentPlayerIndex) < |old(state.players)| ==>
        var s := old(state);
        var i := s.currentPlayerIndex;
        var newCards := s.players[i].cards + [s.deck[|s.deck| - 1]];
        var bust := Evaluate(newCards).value > 21;
        && bustPending == bust
        && state == s.(
          deck := s.deck[..|s.deck| - 1],
          players := s.players[i := s.players[i].(cards := newCards, hasBust := bust)],
          dealerMessage := if bust then BustYouLose else HitOrStand)
    {
      var i := state.currentPlayerIndex;
      if i >= |state.players| {
        return false;
      }
      var currentPlayer := state.players[i];
      var newDeck := state.deck;
      var newCard := newDeck[|newDeck| - 1];
      newDeck := newDeck[..|newDeck| - 1];
      var newCards := currentPlayer.cards + [newCard];
      var handValue := CalculateHandValue(newCards);
      bustPending := handValue.value > 21;
      var players := HitSeats(state.players, currentPlayer.id, newCards, bustPending);
      HitOneSeat(state.players, i, newCards, bustPending);
      HitKeepsTable(state, i);
      state := state.(
        deck := newDeck,
        players := players,
        dealerMessage := if bustPending then BustYouLose else HitOrStand);
    }

    /** `stand`: the current seat has stood; nothing else changes until `nextPlayer`. */
    method Stand()
      requires Valid() && state.gamePhase == Playing
      requires state.currentPlayerIndex < |state.players|
      modifies this
      ensures Valid()
      ensures var i := old(state.currentPlayerIndex);
        state == old(state).(players := old(state.players)[i := old(state.players)[i].(hasStood := true)])
    {
      var i := state.currentPlayerIndex;
      var currentPlayer := state.players[i];
      var players := StandSeats(state.players, currentPlayer.id);
      StandOneSeat(state.players, i);
      StandKeepsTable(state, i);
      state := state.(players := players);
    }

    /** `nextPlayer`: whichever seats are still to act, the dealer's turn begins and the
        dealer's hand is turned up; only the dealer's line depends on those seats. */
    method NextPlayer()
      requires Valid() && state.gamePhase == Playing
      modifies this
      ensures Valid()
      ensures state == old(state).(
        gamePhase := DealerTurn,
        dealerMessage := if WaitingSeats(old(state.players)) == 0 then DealerRule else TurnOver,
        dealerCards := Revealed(old(state.dealerCards)))
    {
      RevealKeepsTable(state, DealerRule);
      RevealKeepsTable(state, TurnOver);
      var revealed := Revealed(state.dealerCards);
      if WaitingSeats(state.players) == 0 {
        state := state.(gamePhase := DealerTurn, dealerMessage := DealerRule, dealerCards := revealed);
      } else {
        state := state.(gamePhase := DealerTurn, dealerMessage := TurnOver, dealerCards := revealed);
      }
    }

    /** `playDealerHand`: the dealer draws to 17 with the shared policy; the seats are settled
        afterwards with the final hand returned here. */
    method PlayDealerHand() returns (finalDealerCards: seq<Card>)
      requires Valid() && state.gamePhase == DealerTurn
      requires DealerCanFinish(state.deck, Revealed(state.dealerCards))
      modifies this
      ensures Valid()
      ensures var r := DealerFinish(old(state.deck), Revealed(old(state.dealerCards)));
        && finalDealerCards == r.1
        && state == old(state).(deck := r.0, dealerCards := r.1, gamePhase := GameOver)
    {
      var newDeck := state.deck;
      var dealerCards := Revealed(state.dealerCards);
      newDeck, dealerCards := DrawDealerCards(newDeck, dealerCards);
      DealerKeepsTable(state);
      state := state.(deck := newDeck, dealerCards := dealerCards, gamePhase := GameOver);
      finalDealerCards := dealerCards;
    }

    /** `determineWinners`: every seat with a bet is paid by `SeatPayout` against the final
        dealer hand. */
    method DetermineWinners(finalDealerCards: seq<Card>)
      requires Valid() && state.gamePhase == GameOver
      modifies this
      ensures Valid()
      ensures var dealerValue := Evaluate(finalDealerCards).value;
        state == old(state).(
          players := SettleSeats(old(state.players), dealerValue),
          dealerMessage := if dealerValue > 21 then DealerBusts else DealerHas(dealerValue))
    {
      var dealerValue := CalculateHandValue(finalDealerCards);
      var players := SettleSeats(state.players, dealerValue.value);
      var message := if dealerValue.value > 21 then DealerBusts else DealerHas(dealerValue.value);
      SettleKeepsTable(state, dealerValue.value, message);
      state := state.(
        players := players,
        dealerMessage := message);
    }

    /** `newGame`: seats cleared but keeping their money, dealer hand emptied, a fresh deck. */
    method NewGame()
      requires Valid() && state.gamePhase == GameOver
      modifies this
      ensures Valid() && IsShuffledDeck(state.deck)
      ensures state == old(state).(
        dealerCards := [],
        players := ResetSeats(old(state.players)),
        currentPlayerIndex := 0,
        gamePhase := Betting,
        deck := state.deck,
        dealerMessage := NewRound)
    {
      var newDeck := CreateDeck();
      ResetKeepsTable(state, newDeck);
      var players := ResetSeats(state.players);
      state := state.(
        dealerCards := [],
        players := players,
        currentPlayerIndex := 0,
        gamePhase := Betting,
        deck := newDeck,
        dealerMessage := NewRound);
    }
  }
}
