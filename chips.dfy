/** The bet picker (`ChipBetting`): chips are added to a selected bet that never exceeds the
    bankroll it was given, and placing the bet hands the amount over once and clears it. */
module Chips {
  import opened Wrappers

  /** The chip denominations offered. */
  const ChipValues: seq<int> := [5, 10, 25, 50, 100]

  class ChipBetting {
    /** The bankroll passed in by the table; it does not change while bets are picked. */
    const playerMoney: int
    var selectedBet: int

    /** The selected bet lies between 0 and the bankroll. A negative bankroll (the multi-seat
        table does not check funds) admits only 0 and the all-in amount. */
    ghost predicate Valid()
      reads this
    {
      if playerMoney >= 0 then 0 <= selectedBet <= playerMoney
      else selectedBet == 0 || selectedBet == playerMoney
    }

    constructor (playerMoney: int)
      ensures Valid()
      ensures this.playerMoney == playerMoney && selectedBet == 0
    {
      this.playerMoney := playerMoney;
      selectedBet := 0;
    }

    /** `addChip`: the chip is added only if the bet stays within the bankroll. */
    method AddChip(value: int)
      requires Valid() && value in ChipValues
      modifies this
      ensures Valid()
      ensures old(selectedBet) + value <= playerMoney ==> selectedBet == old(selectedBet) + value
      ensures old(selectedBet) + value > playerMoney ==> selectedBet == old(selectedBet)
    {
      if selectedBet + value <= playerMoney {
        selectedBet := selectedBet + value;
      }
    }

    /** `clearBet`. */
    method ClearBet()
      requires Valid()
      modifies this
      ensures Valid() && selectedBet == 0
    {
      selectedBet := 0;
    }

    /** `allIn`: the whole bankroll. */
    method AllIn()
      requires Valid()
      modifies this
      ensures Valid() && selectedBet == playerMoney
    {
      selectedBet := playerMoney;
    }

    /** `placeBet`: a positive selected bet is handed to `onBet` (the result here) and then
        cleared; a zero bet does nothing. What is handed over is never zero and never above
        the bankroll. */
    method PlaceBet() returns (onBet: Option<int>)
      requires Valid()
      modifies this
      ensures Valid()
      ensures old(selectedBet) > 0 ==> onBet == Some(old(selectedBet)) && selectedBet == 0
      ensures old(selectedBet) <= 0 ==> onBet == None && selectedBet == old(selectedBet)
      ensures onBet.Some? ==> 0 < onBet.value <= playerMoney
    {
      if selectedBet > 0 {
        onBet := Some(selectedBet);
        selectedBet := 0;
      } else {
        onBet := None;
      }
    }
  }
}
