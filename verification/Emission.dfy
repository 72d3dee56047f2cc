/** The sole minter: supply changes behind the verdict gate, each recorded in NodeChain. */
module Emission {
  import opened Events
  import opened NodeChain
  import opened Pot
  import opened ArosCoin

  /** A supply change and its record. */
  function MintJournal(env: Env, j: Journal, processId: string, amount: real): Journal
  {
    Log(env, j, EmissionMinted, MintRecord(processId, amount))
  }

  function BurnJournal(env: Env, j: Journal, processId: string, amount: real): Journal
  {
    Log(env, j, EmissionBurned, BurnRecord(processId, amount))
  }

  datatype EmitResult = EmitResult(authorized: bool, minted: real, burned: real, processId: string)

  class EmissionService {
    const coin: ArosCoinService
    const pot: PotService
    const chain: NodeChainService

    constructor (coin: ArosCoinService, pot: PotService, chain: NodeChainService)
      ensures this.coin == coin && this.pot == pot && this.chain == chain
    {
      this.coin := coin;
      this.pot := pot;
      this.chain := chain;
    }

    /** Mints for a confirmed process; refuses, changing nothing, for any other. */
    method Mint(processId: string, amount: real) returns (refused: bool, minted: real)
      modifies coin, chain, chain.clock
      ensures refused <==> !Confirmed(pot.verdicts, processId)
      ensures refused ==> coin.Ledger() == old(coin.Ledger()) && chain.View() == old(chain.View())
      ensures !refused ==>
                && minted == amount
                && coin.Ledger() == old(coin.Ledger()).(processMinted := old(coin.Ledger()).processMinted + amount)
                && chain.View() == MintJournal(chain.env, old(chain.View()), processId, amount)
    {
      var verdict := pot.GetVerdict(processId);
      if verdict.None? || !verdict.value.verified {
        return true, 0.0;
      }
      coin.RecordMint(amount);
      var _ := chain.Append(EmissionMinted, MintRecord(processId, amount));
      return false, amount;
    }

    method Burn(processId: string, amount: real) returns (burned: real)
      modifies coin, chain, chain.clock
      ensures burned == amount
      ensures coin.Ledger() == old(coin.Ledger()).(processBurned := old(coin.Ledger()).processBurned + amount)
      ensures chain.View() == BurnJournal(chain.env, old(chain.View()), processId, amount)
    {
      coin.RecordBurn(amount);
      var _ := chain.Append(EmissionBurned, BurnRecord(processId, amount));
      return amount;
    }

    /** The whole cycle: authorized iff confirmed, and then the process part nets to zero. */
    method Emit(processId: string, amount: real) returns (result: EmitResult)
      modifies coin, chain, chain.clock
      ensures result.authorized <==> Confirmed(pot.verdicts, processId)
      ensures result.processId == processId
      ensures result.minted == result.burned == if result.authorized then amount else 0.0
      ensures !result.authorized ==> coin.Ledger() == old(coin.Ledger()) && chain.View() == old(chain.View())
      ensures coin.Ledger().TotalSupply() == old(coin.Ledger()).TotalSupply()
      ensures result.authorized ==>
                && coin.Ledger() == old(coin.Ledger()).(
                     processMinted := old(coin.Ledger()).processMinted + amount,
                     processBurned := old(coin.Ledger()).processBurned + amount)
                && chain.View() == BurnJournal(chain.env,
                     MintJournal(chain.env, old(chain.View()), processId, amount), processId, amount)
    {
      var verdict := pot.GetVerdict(processId);
      if verdict.None? || !verdict.value.verified {
        return EmitResult(false, 0.0, 0.0, processId);
      }
      var _, minted := Mint(processId, amount);
      var burned := Burn(processId, minted);
      return EmitResult(true, minted, burned, processId);
    }
  }
}
