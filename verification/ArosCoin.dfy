/** The unit ledger: three running tallies, and the supply figures derived from them. */
module ArosCoin {
  import opened Folds

  datatype Coin = Coin(processMinted: real, processBurned: real, earnedRetained: real) {
    function TotalSupply(): real { (processMinted - processBurned) + earnedRetained }
  }

  const ZERO_COIN := Coin(0.0, 0.0, 0.0)

  class ArosCoinService {
    /** The single ledger row; absent until first access. */
    var row: Option<Coin>

    constructor ()
      ensures Ledger() == ZERO_COIN
    {
      row := None;
    }

    /** The tallies, whether or not the row exists yet. */
    ghost function Ledger(): Coin
      reads this
    {
      if row.None? then ZERO_COIN else row.value
    }

    /** Reads the ledger row, creating the zero row on first access. */
    method ReadLedger() returns (coin: Coin)
      modifies this
      ensures coin == Ledger() == old(Ledger()) && row == Some(coin)
    {
      if row.None? {
        row := Some(ZERO_COIN);
      }
      coin := row.value;
    }

    method RecordMint(amount: real)
      modifies this
      ensures Ledger() == old(Ledger()).(processMinted := old(Ledger()).processMinted + amount)
    {
      var coin := ReadLedger();
      row := Some(coin.(processMinted := coin.processMinted + amount));
    }

    method RecordBurn(amount: real)
      modifies this
      ensures Ledger() == old(Ledger()).(processBurned := old(Ledger()).processBurned + amount)
    {
      var coin := ReadLedger();
      row := Some(coin.(processBurned := coin.processBurned + amount));
    }

    method RecordEarned(amount: real)
      modifies this
      ensures Ledger() == old(Ledger()).(earnedRetained := old(Ledger()).earnedRetained + amount)
    {
      var coin := ReadLedger();
      row := Some(coin.(earnedRetained := coin.earnedRetained + amount));
    }

    method TotalSupply() returns (supply: real)
      modifies this
      ensures Ledger() == old(Ledger()) && supply == Ledger().TotalSupply()
    {
      var coin := ReadLedger();
      supply := (coin.processMinted - coin.processBurned) + coin.earnedRetained;
    }

    method Retained() returns (retained: real)
      modifies this
      ensures Ledger() == old(Ledger()) && retained == Ledger().earnedRetained
    {
      var coin := ReadLedger();
      retained := coin.earnedRetained;
    }

    /** The view the Eye compares. */
    method SupplyView() returns (totalSupply: real, retained: real)
      modifies this
      ensures Ledger() == old(Ledger())
      ensures totalSupply == Ledger().TotalSupply() && retained == Ledger().earnedRetained
    {
      var coin := ReadLedger();
      totalSupply := (coin.processMinted - coin.processBurned) + coin.earnedRetained;
      retained := coin.earnedRetained;
    }
  }
}
