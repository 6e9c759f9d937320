# Blackjack rules engine, in Dafny

This project models the game logic of a browser blackjack game. The logic sits in three
React components: the single-seat game `BlackjackGame`, the multi-seat table `CasinoTable`
and the chip picker `ChipBetting`. The model proves properties of that logic.

- `cards.dfy` (module `Cards`): the `Card` record and `createDeck`. The deck is built suit
  by suit and rank by rank, then permuted. The permutation is proved to hold 52 face-up
  cards, each (suit, rank) pair exactly once, valued A=11, J/Q/K=10 and otherwise the number.
- `hands.dfy` (module `Hands`): `calculateHandValue`. It is a method with both of the
  source's loops, proved equal to `Evaluate`, a loop-free statement of the value. `Evaluate`
  is the hard total plus 10 for each ace kept at 11, with as many aces kept as fit under 21.
- `round.dfy` (module `Round`): what both tables share.
  - the round's phases;
  - turning a hand face up;
  - the dealer's draw-to-17 loop, proved equal to the recursive `DealerFinish`.
- `blackjack.dfy` (module `Blackjack`): the single-seat game, as the class `BlackjackGame`
  with the fields `deck` and `state`. There is one method per intent.
  - Money is counted in half-units, because a blackjack pays 2.5 times the bet: 2000 is
    the starting 1000.
  - The class invariant keeps every card accounted for. Deck, dealer hand and player hand
    are always exactly one deck.
  - The bankroll always equals the amount before the bet, minus the bet, plus what the
    settlement paid.
  - From the invariant the model derives that the deck never runs out during a round.
- `table.dfy` (module `Table`): the multi-seat table, as the class `CasinoTable` with one
  `state` field. Its `players.map` rewrites are functions over the seats. Its invariant keeps:
  - card conservation across the seats;
  - unique seat ids;
  - every seat's bust flag equal to "value over 21".
- `chips.dfy` (module `Chips`): the chip picker, as the class `ChipBetting`. Its selected bet
  stays between 0 and the bankroll.

The source's timers (`setTimeout`) only pace the round. Each delayed step is a method of its
own, with the phase it runs in as a precondition. An intent that schedules a step reports
whether it did:
- `PlaceBet` returns `accepted`;
- `DealInitialCards` returns `blackjackCheck`;
- the table's `Hit` returns `bustPending`.

The source never checks the phase; its views show each control only in its phase. Here an
intent called in the wrong phase is excluded by a precondition.

## Model

| member | source | states |
|---|---|---|
| Cards.RankValue | src/components/BlackjackGame.tsx:25-27 | a card's value is between 2 and 11; it is 11 exactly for an ace and 10 exactly for 10, J, Q and K |
| Cards.OrderedDeck | src/components/BlackjackGame.tsx:19-31 | the suit-by-rank product has 4 × 13 = 52 cards |
| Cards.CreateDeck | src/components/BlackjackGame.tsx:18-34 | the two nested loops build the ordered deck, and the result is a permutation of it (same multiset) |
| Cards.OrderedDeckDistinct | src/components/BlackjackGame.tsx:23-31 | no two positions of the ordered deck hold the same card |
| Cards.OrderedDeckCountsOnce | src/components/BlackjackGame.tsx:23-31 | every (suit, rank) pair occurs exactly once in the ordered deck |
| Cards.ShuffledDeckFacts | src/components/BlackjackGame.tsx:18-34 | any permutation of a fresh deck has 52 cards; each is face up and valued by its rank; each (suit, rank) pair occurs once |
| Cards.ShuffledDeckDistinct | src/components/BlackjackGame.tsx:18-34 | no card occurs twice in a shuffled fresh deck |
| Hands.SoftAces | src/components/BlackjackGame.tsx:49-54 | the aces left at 11 number at most the aces held; if any are left, the hand with them fits under 21; no larger number of aces would fit |
| Hands.Evaluate | src/components/BlackjackGame.tsx:36-55 | value lies between the hard total and the hard total plus 10 per ace; soft hands are at most 21; a value over 21 is the hard total and not soft; soft iff some ace still counts 11 without busting; the value is the best total at or under 21 |
| Hands.CalculateHandValue | src/components/BlackjackGame.tsx:36-55 | the filter, the counting loop and the demotion loop compute exactly `Evaluate` |
| Hands.HiddenCardsIgnored | src/components/BlackjackGame.tsx:40 | a hand is worth exactly what its face-up cards are worth |
| Hands.VisibleCardsSameTotals | src/components/BlackjackGame.tsx:40 | dropping hidden cards changes neither the hard total nor the ace count |
| Hands.AllHiddenHandIsZero | src/components/BlackjackGame.tsx:36-55 | an empty or all-hidden hand evaluates to value 0, not soft |
| Hands.HardTotalCountsCards | src/components/BlackjackGame.tsx:25-27 | every deck card adds at least 1, so a hand's hard total is at least its number of cards |
| Hands.EvaluateExamples | src/components/BlackjackGame.tsx:36-55 | [] is 0 hard; A,K is 21 soft; A,A,9 is 21 soft; 10,9,5 is 24 hard |
| Round.Revealed | src/components/BlackjackGame.tsx:176 | turning cards up keeps their number and changes only the hidden flag of each |
| Round.DealerFinish | src/components/BlackjackGame.tsx:184-190 | the dealer ends at 17 or more, and draws nothing when already at 17 or more (soft 17 included) |
| Round.DealerCanDraw | src/components/BlackjackGame.tsx:186-189 | under 17, a deck the dealer can finish from still has a card, and after drawing it the dealer can still finish |
| Round.DealerFinishShape | src/components/BlackjackGame.tsx:182-190 | the dealer only appends to the hand; the cards come off the end of the deck in pop order; deck plus hand lose and gain no card |
| Round.DrawDealerCards | src/components/BlackjackGame.tsx:183-190 | the while loop computes exactly `DealerFinish` |
| Round.TwoCardsNeverBust | src/components/BlackjackGame.tsx:113 | two cards of a fresh deck are worth at most 21 |
| Round.SoftSeventeenStands | src/components/BlackjackGame.tsx:186 | a dealer holding A,6 (soft 17) draws nothing |
| Round.SixteenDraws | src/components/BlackjackGame.tsx:186 | a dealer holding 6,10 draws at least one card |
| Blackjack.Settle | src/components/BlackjackGame.tsx:196-210 | win iff the dealer busts or the player is higher; lose iff the dealer is at most 21 and higher; push iff the dealer is at most 21 and equal; never blackjack; the bust line iff the dealer busts |
| Blackjack.Winnings | src/components/BlackjackGame.tsx:217-225 | in half-units: nothing iff lose or no bet; a push returns the bet; a win returns the bet plus as much again; a blackjack returns the bet plus 3/2 of it |
| Blackjack.SettlementExamples | src/components/BlackjackGame.tsx:216-234 | a blackjack on 50 from 1000 ends at 1075; 20 against 18 wins twice the bet; a bust pays nothing |
| Blackjack.ConservedFacts | src/components/BlackjackGame.tsx:111-131 | if deck and hands are one deck, they hold 52 cards between them, all fresh deck cards |
| Blackjack.DealConserves | src/components/BlackjackGame.tsx:111-131 | the four-card deal keeps deck and hands one deck, and the player's two cards are at most 21 |
| Blackjack.ShortHand | src/components/BlackjackGame.tsx:145-169 | a hand that is not bust holds at most 21 cards |
| Blackjack.BlackjackGame.constructor | src/components/BlackjackGame.tsx:72-87 | a fresh deck; empty hands; no bet; bankroll 1000; betting phase |
| Blackjack.BlackjackGame.PlaceBet | src/components/BlackjackGame.tsx:89-109 | a bet above the bankroll is refused and changes nothing; otherwise the bankroll drops by the bet, the bet is recorded, and the phase becomes dealing |
| Blackjack.BlackjackGame.DealInitialCards | src/components/BlackjackGame.tsx:111-131 | from a 52-card deck, the player gets the last two cards and the dealer the fourth and third from the end, the latter face down; the deck loses exactly those four; the blackjack check follows iff the player has 21 |
| Blackjack.BlackjackGame.EndGame | src/components/BlackjackGame.tsx:216-235 | the result and the dealer's final hand are recorded, the bankroll grows by exactly the winnings, and the phase becomes game over |
| Blackjack.BlackjackGame.CheckForBlackjack | src/components/BlackjackGame.tsx:133-143 | with the dealer's hand turned up, a dealer 21 is a push and anything else is a blackjack paid 3:2 |
| Blackjack.BlackjackGame.Hit | src/components/BlackjackGame.tsx:145-169 | the deck is not empty; its last card is appended to the player's hand; over 21 the round ends lost, with the dealer's hand turned up and the bankroll unchanged; otherwise only the hand changes |
| Blackjack.BlackjackGame.Stand | src/components/BlackjackGame.tsx:171-180 | the dealer's hand is turned up and the dealer's turn begins; nothing else changes |
| Blackjack.BlackjackGame.PlayDealerHand | src/components/BlackjackGame.tsx:182-214 | the dealer's draws are `DealerFinish` on the deck; the result is `Settle` of the two totals and is paid as in `EndGame` |
| Blackjack.BlackjackGame.NewGame | src/components/BlackjackGame.tsx:237-248 | a fresh deck, empty hands, no bet and no result, phase betting; the bankroll is unchanged |
| Table.BetSeats | src/components/CasinoTable.tsx:93-97 | only the seat `player1` changes, and only in bet and money: its bet becomes the amount and money plus bet is unchanged; no funds check |
| Table.DealSeats | src/components/CasinoTable.tsx:106-115 | the seats keep their number, and the deck left is the original minus two cards per seat with a bet, taken from the end |
| Table.DealToSeats | src/components/CasinoTable.tsx:106-115 | the map with its pops computes exactly `DealSeats` |
| Table.DealSeatsCards | src/components/CasinoTable.tsx:107-115 | a seat with k bets before it gets the deck's cards at n-1-2k and n-2-2k; only its hand changes; a seat without a bet is untouched |
| Table.DealSeatsConserves | src/components/CasinoTable.tsx:106-115 | dealing to empty seats loses and duplicates no card |
| Table.DealtTable | src/components/CasinoTable.tsx:105-129 | after the deal the deck has shrunk by two per seat with a bet plus two, from the end, and the dealer holds two cards, the second face down |
| Table.DealKeepsTable | src/components/CasinoTable.tsx:105-129 | the deal keeps the table invariant: every card accounted for, ids unique, no dealt seat bust |
| Table.HitSeats | src/components/CasinoTable.tsx:142-146 | every seat whose id differs from the current one is unchanged |
| Table.HitOneSeat | src/components/CasinoTable.tsx:142-146 | with unique ids, the rewrite by id changes exactly the current seat's hand and bust flag |
| Table.HitTable | src/components/CasinoTable.tsx:134-148 | a hit takes exactly one card off the deck and adds exactly one card to the current hand |
| Table.HitKeepsTable | src/components/CasinoTable.tsx:131-153 | a hit keeps the table invariant, including "bust flag iff over 21" |
| Table.StandSeats | src/components/CasinoTable.tsx:158-162 | every seat whose id differs from the current one is unchanged |
| Table.StandOneSeat | src/components/CasinoTable.tsx:158-162 | with unique ids, standing changes exactly the current seat's flag |
| Table.SeatPayout | src/components/CasinoTable.tsx:221-238 | a bust seat is paid nothing, even when the dealer busts; a dealer bust pays a standing seat twice the bet; every payout is 0, the bet or twice the bet |
| Table.SettleSeats | src/components/CasinoTable.tsx:216-246 | only money changes; a seat without a bet is untouched; each other seat gains exactly its payout |
| Table.SeatPayoutAgreesWithSingleSeat | src/components/CasinoTable.tsx:225-238 | for a seat that is not bust, the table pays what the single-seat settlement pays (win, push, lose) |
| Table.BustSeatLosesToBustDealer | src/components/CasinoTable.tsx:225-229 | a bust seat gets nothing against a bust dealer, where the settlement chain alone would call it a win |
| Table.ResetSeats | src/components/CasinoTable.tsx:253-259 | every seat keeps id, name, money and `isActive`, and its hand, bet and flags are cleared |
| Table.CasinoTable.constructor | src/components/CasinoTable.tsx:75-84 | one seat `player1` with 1000, a fresh deck, no cards dealt, betting phase |
| Table.CasinoTable.PlaceBet | src/components/CasinoTable.tsx:90-103 | the seats become `BetSeats` and the phase dealing; nothing else changes |
| Table.CasinoTable.DealInitialCards | src/components/CasinoTable.tsx:105-129 | the new state is `DealtTable` of the old: the seats are dealt, the dealer gets two cards with the second face down, the index is 0 and the phase playing |
| Table.CasinoTable.Hit | src/components/CasinoTable.tsx:131-153 | with no current seat nothing changes; otherwise the deck's last card goes to the current seat only, its bust flag becomes "over 21", and `nextPlayer` is scheduled iff it busts |
| Table.CasinoTable.Stand | src/components/CasinoTable.tsx:155-166 | only the current seat's stood flag is set |
| Table.CasinoTable.NextPlayer | src/components/CasinoTable.tsx:168-192 | whichever seats are still to act, the dealer's turn begins and the dealer's hand is turned up; only the dealer's line depends on them |
| Table.CasinoTable.PlayDealerHand | src/components/CasinoTable.tsx:194-211 | the dealer draws as `DealerFinish` on the turned-up hand; the phase becomes game over; seats untouched |
| Table.CasinoTable.DetermineWinners | src/components/CasinoTable.tsx:213-247 | the seats become `SettleSeats` against the final dealer total; the line says whether the dealer busted |
| Table.CasinoTable.NewGame | src/components/CasinoTable.tsx:249-265 | the seats become `ResetSeats`; dealer hand empty; index 0; phase betting; a fresh deck |
| Chips.ChipBetting.constructor | src/components/ChipBetting.tsx:12-13 | the selected bet starts at 0 |
| Chips.ChipBetting.AddChip | src/components/ChipBetting.tsx:16-20 | the chip is added iff the bet stays within the bankroll; otherwise nothing changes |
| Chips.ChipBetting.ClearBet | src/components/ChipBetting.tsx:22-24 | the selected bet becomes 0 |
| Chips.ChipBetting.AllIn | src/components/ChipBetting.tsx:26-28 | the selected bet becomes the whole bankroll |
| Chips.ChipBetting.PlaceBet | src/components/ChipBetting.tsx:30-35 | a positive bet is handed over once and then cleared; a zero bet hands over nothing; what is handed over is positive and within the bankroll |

## Left out

- Rendering, styling, the toast notice and the dealer's message texts. A line is modelled only as the label of which text is shown.
- The per-seat message computed in `determineWinners` (src/components/CasinoTable.tsx:223-237). The source computes it and never uses it.
- Timing. Every delayed step is a separate method that the caller invokes in order. React's asynchronous state updates and the stale state captured by a delayed callback are not modelled: each step sees the state the previous step left.
- Randomness. The shuffle, which sorts with a random comparator, is an arbitrary permutation (`:|` with a multiset equality). Uniformity cannot be stated.
- The single-seat deck starts empty and is filled by an effect after mounting (src/components/BlackjackGame.tsx:72, 85-87). `Blackjack.BlackjackGame.constructor` installs the fresh deck at once.
- Controls gated by the views are not modelled as such. The single-seat and table new-game buttons are disabled at zero money; `NewGame` allows any bankroll. The table shows hit and stand only for a seat that has neither bust nor stood; `Table.CasinoTable.Hit` does not require it, since its contract holds either way.
- Table.CasinoTable.DealInitialCards: requires the deck to hold two cards per seat with a bet plus two. An empty `pop()` yields `undefined` in the source, which the model does not represent.
- Table.CasinoTable.Hit: requires a card in the deck when there is a current seat, for the same reason.
- Table.CasinoTable.PlayDealerHand: requires a deck the dealer can finish from. In the single-seat game this is derived from the invariant instead.
- Table.CasinoTable.Stand: requires a current seat. The source reads `currentPlayer.id` without a check.
- The `isActive` seat flag is carried but never read, as in the source.
- Chips.ChipBetting.AddChip: requires one of the five chip values, the only amounts its callers pass.
- Chips.ChipBetting: the bankroll is a constant for one picker. A bankroll that changes while a bet is being picked is not modelled.
- The `disabled` flag of the chip picker is presentation only.
- The lobby (TableLobby.tsx), the chip stack and deck pictures (ChipStack.tsx, VisualDeck.tsx) and card rendering (PlayingCard.tsx beyond the `Card` record) are not part of this model: they are presentation and navigation.
