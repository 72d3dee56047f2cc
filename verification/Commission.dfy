/** The settlement controller: fee pools per epoch, paid out post-factum by confirmed weight. */
module Commission {
  import opened Folds
  import opened Strings
  import opened Events
  import opened NodeChain
  import opened Pot
  import opened Nodes
  import opened ArosCoin
  import opened Reserve
  import opened Settlement

  /** The durable epoch rows and the participations remembered in memory. */
  datatype Pools = Pools(epochs: seq<Epoch>, participation: ParticipationIndex)

  /** The row a fee lands in: the stored one, whatever its status, or a new open one. */
  function RowFor(pools: Pools, tick: int, n: int): Epoch
  {
    if HasEpoch(pools.epochs, n) then EpochRow(pools.epochs, n) else OpenedRow(n, tick + 1)
  }

  function AccrualTick(pools: Pools, tick: int, n: int): int
  {
    if HasEpoch(pools.epochs, n) then tick else tick + 1
  }

  function Accrued(pools: Pools, tick: int, n: int, fee: real, parts: seq<Participation>): Pools
  {
    var row := RowFor(pools, tick, n);
    Pools(SavedEpoch(pools.epochs, row.(totalFees := row.totalFees + fee)),
          pools.participation[n := PartsOf(pools.participation, n) + parts])
  }

  datatype Finalization = Finalization(journal: Journal, coin: Coin, pools: Pools, result: FinalizeResult)

  ghost predicate Payees(ws: Weights, nodes: seq<Node>)
  {
    forall n :: n in ws.order ==> Registered(nodes, n)
  }

  lemma PayeesRegistered(ws: Weights, nodes: seq<Node>, total: real)
    requires Payees(ws, nodes)
    ensures forall e :: e in Distribution(ws, total) ==> Registered(nodes, e.nodeId)
  {
    DistributionIsWork(ws, total);
    forall n | n in Sort(ws.order) ensures n in ws.order { SameElements(Sort(ws.order), ws.order, n); }
  }

  /** Everything finalizing an open epoch changes. */
  function Finalize(env: Env, j: Journal, coin: Coin, pools: Pools, nodes: seq<Node>, ws: Weights, n: int): Finalization
    requires HasEpoch(pools.epochs, n) && Payees(ws, nodes)
  {
    var e := EpochRow(pools.epochs, n);
    var split := SplitPool(ws, e.totalFees);
    PayeesRegistered(ws, nodes, e.totalFees);
    var paidOut := Log(env, Receipts(env, j, nodes, split.payments), AfcAccrual, AfcRecord(split.margin));
    var closing := Tick(paidOut);
    var reconciled := Abs(split.paid + split.margin - e.totalFees) < RECONCILE_EPSILON;
    var row := e.(distributionLog := split.Entries(), operationalMargin := split.margin,
                  status := Finalized, endTime := closing.tick);
    Finalization(
      Log(env, closing, EpochFinalized,
          EpochRecord(n, e.totalFees, split.margin, split.paid, reconciled, split.Entries())),
      coin.(earnedRetained := coin.earnedRetained + split.paid),
      Pools(SavedEpoch(pools.epochs, row), pools.participation - {n}),
      FinalizeResult(n, split.Entries(), split.margin, split.paid, e.totalFees, reconciled))
  }

  datatype FinalizeOutcome = NoSuchEpoch | UnknownNode | Done(result: FinalizeResult)

  lemma WeighedArePayees(parts: seq<Participation>, verdicts: VerdictTable, nodes: seq<Node>)
    requires Weigh(parts, verdicts, nodes).Some?
    ensures Payees(Weigh(parts, verdicts, nodes).value, nodes)
  {
    WeighRight(parts, verdicts, nodes);
    var ws := Weigh(parts, verdicts, nodes).value;
    forall n | n in ws.order ensures Registered(nodes, n) {
      assert WeighedRight(ws, parts, verdicts, nodes, n);
    }
  }

  lemma UnknownParticipant(parts: seq<Participation>, verdicts: VerdictTable, nodes: seq<Node>, i: nat)
    requires i < |parts| && Confirmed(verdicts, parts[i].processId) && !Registered(nodes, parts[i].nodeId)
    ensures Weigh(parts, verdicts, nodes) == None
  {
    WeighRight(parts, verdicts, nodes);
    assert parts[i] in parts;
  }

  class CommissionService {
    const nodes: NodesService
    const pot: PotService
    const chain: NodeChainService
    const coin: ArosCoinService
    const reserve: ReserveService
    var epochs: seq<Epoch>
    var participation: ParticipationIndex

    constructor (nodes: NodesService, pot: PotService, chain: NodeChainService, coin: ArosCoinService,
                 reserve: ReserveService)
      requires nodes.chain == chain && pot.chain == chain && reserve.chain == chain
      ensures this.nodes == nodes && this.pot == pot && this.chain == chain && this.coin == coin
                && this.reserve == reserve
      ensures Wired() && View() == Pools([], map[])
    {
      this.nodes := nodes;
      this.pot := pot;
      this.chain := chain;
      this.coin := coin;
      this.reserve := reserve;
      epochs := [];
      participation := map[];
    }

    ghost predicate Wired() { nodes.chain == chain && pot.chain == chain && reserve.chain == chain }

    ghost function View(): Pools
      reads this
    {
      Pools(epochs, participation)
    }

    /** Adds a fee to the pool of an epoch, open or not, and remembers who took part. */
    method Accrue(epochNumber: int, fee: real, participants: seq<Participation> := []) returns (saved: Epoch)
      modifies this, chain.clock
      ensures var row := RowFor(old(View()), old(chain.clock.t), epochNumber);
              saved == row.(totalFees := row.totalFees + fee)
      ensures View() == Accrued(old(View()), old(chain.clock.t), epochNumber, fee, participants)
      ensures chain.clock.t == AccrualTick(old(View()), old(chain.clock.t), epochNumber)
    {
      if HasEpoch(epochs, epochNumber) {
        saved := EpochRow(epochs, epochNumber);
      } else {
        var startTime := chain.clock.Now();
        saved := OpenedRow(epochNumber, startTime);
      }
      saved := saved.(totalFees := saved.totalFees + fee);
      epochs := SavedEpoch(epochs, saved);
      var recorded := PartsOf(participation, epochNumber);
      participation := participation[epochNumber := recorded + participants];
    }

    /** The verdict-cached accumulation loop; it computes the uncached specification. */
    method ConfirmedWeights(epochNumber: int) returns (weights: Option<Weights>)
      ensures weights == Weigh(PartsOf(participation, epochNumber), pot.verdicts, nodes.nodes)
    {
      hide Position;
      var ws := NO_WEIGHTS;
      var parts := PartsOf(participation, epochNumber);
      var verdictCache: map<string, bool> := map[];
      for i := 0 to |parts|
        invariant Weigh(parts[..i], pot.verdicts, nodes.nodes) == Some(ws)
        invariant forall p :: p in verdictCache ==> verdictCache[p] == Confirmed(pot.verdicts, p)
      {
        var part := parts[i];
        assert parts[..i + 1][..i] == parts[..i] && parts[..i + 1][i] == part;
        if part.processId !in verdictCache {
          var verdict := pot.GetVerdict(part.processId);
          verdictCache := verdictCache[part.processId := verdict.Some? && verdict.value.verified];
        }
        if !verdictCache[part.processId] {
          continue;
        }
        var weight := nodes.CurrentWeight(part.nodeId);
        if weight.None? {
          UnknownParticipant(parts, pot.verdicts, nodes.nodes, i);
          return None;
        }
        ws := ws.Plus(part.nodeId, weight.value);
      }
      assert parts[..|parts|] == parts;
      return Some(ws);
    }

    /** Pays the listed nodes their shares: one receipt and one earned amount each. */
    method PayNodes(ws: Weights, distributable: real, nodeIds: seq<string>)
      returns (paid: real, distributionLog: seq<DistributionEntry>)
      requires Wired() && TotalWeight(ws) != 0.0
      requires forall n :: n in nodeIds ==> Registered(nodes.nodes, n)
      modifies chain, chain.clock, coin
      ensures distributionLog == Payments(ShareOf(ws, distributable), nodeIds)
      ensures paid == Sum(AmountOf(), distributionLog)
      ensures forall e :: e in distributionLog ==> Registered(nodes.nodes, e.nodeId)
      ensures chain.View() == Receipts(chain.env, old(chain.View()), nodes.nodes, distributionLog)
      ensures coin.Ledger() == old(coin.Ledger()).(earnedRetained := old(coin.Ledger()).earnedRetained + paid)
    {
      hide Portion, Position;
      paid := 0.0;
      distributionLog := [];
      var totalWeight := TotalWeight(ws);
      for i := 0 to |nodeIds|
        invariant distributionLog == Payments(ShareOf(ws, distributable), nodeIds[..i])
        invariant paid == Sum(AmountOf(), distributionLog)
        invariant forall e :: e in distributionLog ==> Registered(nodes.nodes, e.nodeId)
        invariant chain.View() == Receipts(chain.env, old(chain.View()), nodes.nodes, distributionLog)
        invariant coin.Ledger() == old(coin.Ledger()).(earnedRetained := old(coin.Ledger()).earnedRetained + paid)
      {
        var nodeId := nodeIds[i];
        assert nodeIds[..i + 1][..i] == nodeIds[..i];
        var amount := Portion(ws.Get(nodeId), distributable, totalWeight);
        var _ := nodes.ReceivePayment(nodeId, amount);
        coin.RecordEarned(amount);
        paid := paid + amount;
        SumSnoc(AmountOf(), distributionLog, DistributionEntry(nodeId, amount, WorkWeight));
        ghost var before := distributionLog;
        distributionLog := distributionLog + [DistributionEntry(nodeId, amount, WorkWeight)];
        assert distributionLog[..|before|] == before;
      }
      assert nodeIds[..|nodeIds|] == nodeIds;
    }

    /**
     * Finalizes an epoch once. A finalized epoch is only read back; an unknown epoch or an unknown
     * confirmed participant is refused before anything changes.
     */
    method FinalizeEpoch(epochNumber: int) returns (outcome: FinalizeOutcome)
      requires Wired()
      modifies this, chain, chain.clock, coin
      ensures var before, found := old(View()), HasEpoch(old(epochs), epochNumber);
              var settles := found && EpochRow(before.epochs, epochNumber).status == Open;
              var weights := Weigh(PartsOf(before.participation, epochNumber), pot.verdicts, nodes.nodes);
              if settles && weights.Some? then
                Payees(weights.value, nodes.nodes)
                && var f :=
                     Finalize(chain.env, old(chain.View()), old(coin.Ledger()), before, nodes.nodes, weights.value,
                              epochNumber);
                   outcome == Done(f.result) && View() == f.pools && chain.View() == f.journal
                       && coin.Ledger() == f.coin
              else
                && View() == before && chain.View() == old(chain.View()) && coin.Ledger() == old(coin.Ledger())
                && outcome == if !found then NoSuchEpoch else if settles then UnknownNode
                              else Done(ToResult(EpochRow(before.epochs, epochNumber)))
    {
      if !HasEpoch(epochs, epochNumber) {
        return NoSuchEpoch;
      }
      var epoch := EpochRow(epochs, epochNumber);
      if epoch.status != Open {
        return Done(ToResult(epoch));
      }
      var weights := ConfirmedWeights(epochNumber);
      if weights.None? {
        return UnknownNode;
      }
      WeighedArePayees(PartsOf(participation, epochNumber), pot.verdicts, nodes.nodes);
      var result := Settle(epoch, weights.value);
      return Done(result);
    }

    /** Pays a pool out to the confirmed weights, or to nobody when there are none. */
    method PayPool(ws: Weights, total: real) returns (paid: real, distributionLog: seq<DistributionEntry>)
      requires Wired() && Payees(ws, nodes.nodes)
      modifies chain, chain.clock, coin
      ensures distributionLog == SplitPool(ws, total).payments && paid == SplitPool(ws, total).paid
      ensures forall e :: e in distributionLog ==> Registered(nodes.nodes, e.nodeId)
      ensures chain.View() == Receipts(chain.env, old(chain.View()), nodes.nodes, distributionLog)
      ensures coin.Ledger() == old(coin.Ledger()).(earnedRetained := old(coin.Ledger()).earnedRetained + paid)
    {
      hide Portion;
      distributionLog := [];
      paid := 0.0;
      if TotalWeight(ws) > 0.0 {
        var nodeIds := Sort(ws.order);
        forall n | n in nodeIds ensures n in ws.order { SameElements(nodeIds, ws.order, n); }
        paid, distributionLog := PayNodes(ws, Distributable(total), nodeIds);
      }
    }

    method Settle(epoch: Epoch, ws: Weights) returns (result: FinalizeResult)
      requires Wired() && Payees(ws, nodes.nodes)
      requires HasEpoch(epochs, epoch.epochNumber) && epoch == EpochRow(epochs, epoch.epochNumber)
      modifies this, chain, chain.clock, coin
      ensures var f :=
                Finalize(chain.env, old(chain.View()), old(coin.Ledger()), old(View()), nodes.nodes, ws,
                         epoch.epochNumber);
              result == f.result && View() == f.pools && chain.View() == f.journal && coin.Ledger() == f.coin
    {
      hide Distribution, Receipts, SavedEpoch, NextSnapshot;
      var total := epoch.totalFees;
      var paid, distributionLog := PayPool(ws, total);
      var allocatedMargin := total - paid;
      reserve.AddAfcAccrual(allocatedMargin);
      distributionLog := distributionLog + [DistributionEntry(MARGIN_RECIPIENT, allocatedMargin, AfcReserve)];
      ghost var accrued := chain.View();
      var endTime := chain.clock.Now();
      assert chain.View() == Tick(accrued);
      epochs := SavedEpoch(epochs, epoch.(distributionLog := distributionLog, operationalMargin := allocatedMargin,
                                          status := Finalized, endTime := endTime));
      var reconciled := Abs(paid + allocatedMargin - total) < RECONCILE_EPSILON;
      var _ := chain.Append(EpochFinalized,
        EpochRecord(epoch.epochNumber, total, allocatedMargin, paid, reconciled, distributionLog));
      participation := participation - {epoch.epochNumber};
      return FinalizeResult(epoch.epochNumber, distributionLog, allocatedMargin, paid, total, reconciled);
    }

    method GetEpoch(epochNumber: int) returns (epoch: Option<Epoch>)
      ensures epoch == if HasEpoch(epochs, epochNumber) then Some(EpochRow(epochs, epochNumber)) else None
    {
      epoch := if HasEpoch(epochs, epochNumber) then Some(EpochRow(epochs, epochNumber)) else None;
    }
  }
}
