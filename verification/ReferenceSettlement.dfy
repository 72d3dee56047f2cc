/** The workforce, the unit ledger and the single-pool settlement of the reference implementation. */
module ReferenceSettlement {
  import opened Folds
  import opened ArosCoin
  import N = Nodes
  import S = Settlement

  const UPTIME := 0.99
  const MARGIN_RATE := 0.25

  datatype Worker = Worker(id: string, kind: string, uptime: real, successes: nat, total: nat, status: N.Status,
                           reputation: real, weight: real, earned: real)

  function NewWorker(id: string, kind: string): Worker { Worker(id, kind, UPTIME, 0, 0, N.Active, 0.0, 0.0, 0.0) }

  function PositionOf(registry: seq<Worker>, id: string): (i: nat)
    ensures i <= |registry|
    ensures i < |registry| ==> registry[i].id == id
    ensures forall j :: 0 <= j < i ==> registry[j].id != id
  {
    IndexOf((w: Worker) => w.id, registry, id)
  }

  function Entered(registry: seq<Worker>, w: Worker): seq<Worker>
  {
    var i := PositionOf(registry, w.id);
    if i < |registry| then registry[i := w] else registry + [w]
  }

  /** One more unit of work: here the weight grows with the number of units, not only with their quality. */
  function AfterWork(w: Worker, success: bool): Worker
  {
    var total := w.total + 1;
    var successes := if success then w.successes + 1 else w.successes;
    var reputation := (successes as real / total as real) * w.uptime;
    w.(total := total, successes := successes, reputation := reputation, weight := reputation * total as real)
  }

  function RecordedWork(registry: seq<Worker>, id: string, success: bool): seq<Worker>
  {
    var i := PositionOf(registry, id);
    if i < |registry| then registry[i := AfterWork(registry[i], success)] else registry
  }

  function WorkEach(registry: seq<Worker>, ids: seq<string>): seq<Worker>
  {
    if ids == [] then registry else RecordedWork(WorkEach(registry, ids[..|ids| - 1]), ids[|ids| - 1], true)
  }

  function ActiveWorkers(registry: seq<Worker>): seq<string>
  {
    if registry == [] then []
    else
      var front, last := ActiveWorkers(registry[..|registry| - 1]), registry[|registry| - 1];
      if last.status == N.Active then front + [last.id] else front
  }

  // ----- settlement -----

  datatype Payment = Payment(nodeId: string, payment: real)

  datatype Settled = Settled(distributionLog: seq<Payment>, margin: real, paid: real, total: real, reconciled: bool)

  function WeightIn(): Worker -> real { (w: Worker) => w.weight }

  function PaymentIn(): Payment -> real { (p: Payment) => p.payment }

  /** The divisor: the sum of all weights, or 1 when that sum is zero. */
  function TotalOr1(registry: seq<Worker>): real
  {
    var sum := Sum(WeightIn(), registry);
    if sum == 0.0 then 1.0 else sum
  }

  function Due(w: Worker, distributable: real, totalWeight: real): real
    requires totalWeight != 0.0
  {
    (w.weight * distributable) / totalWeight
  }

  function Dues(registry: seq<Worker>, distributable: real, totalWeight: real): seq<Payment>
    requires totalWeight != 0.0
  {
    seq(|registry|,
        i requires 0 <= i < |registry| => Payment(registry[i].id, Due(registry[i], distributable, totalWeight)))
  }

  function PaidWorker(w: Worker, distributable: real, totalWeight: real): Worker
    requires totalWeight != 0.0
  {
    w.(earned := w.earned + Due(w, distributable, totalWeight))
  }

  function PaidWorkers(registry: seq<Worker>, distributable: real, totalWeight: real): seq<Worker>
    requires totalWeight != 0.0
  {
    seq(|registry|, i requires 0 <= i < |registry| => PaidWorker(registry[i], distributable, totalWeight))
  }

  function SettledPool(pool: real, registry: seq<Worker>): Settled
  {
    var dues := Dues(registry, pool * (1.0 - MARGIN_RATE), TotalOr1(registry));
    var margin, paid := pool * MARGIN_RATE, Sum(PaymentIn(), dues);
    Settled(dues, margin, paid, pool, S.Abs((paid + margin) - pool) < S.RECONCILE_EPSILON)
  }

  class CoinLedger {
    var processMinted: real
    var processBurned: real
    var earnedRetained: real

    constructor ()
      ensures View() == ZERO_COIN
    {
      processMinted, processBurned, earnedRetained := 0.0, 0.0, 0.0;
    }

    ghost function View(): Coin
      reads this
    {
      Coin(processMinted, processBurned, earnedRetained)
    }

    method RecordMint(amount: real)
      modifies this
      ensures View() == old(View()).(processMinted := old(View()).processMinted + amount)
    {
      processMinted := processMinted + amount;
    }

    method RecordBurn(amount: real)
      modifies this
      ensures View() == old(View()).(processBurned := old(View()).processBurned + amount)
    {
      processBurned := processBurned + amount;
    }

    method RecordEarned(amount: real)
      modifies this
      ensures View() == old(View()).(earnedRetained := old(View()).earnedRetained + amount)
    {
      earnedRetained := earnedRetained + amount;
    }
  }

  class Workforce {
    var registry: seq<Worker>

    constructor ()
      ensures registry == []
    {
      registry := [];
    }

    method Register(id: string, kind: string)
      modifies this
      ensures registry == Entered(old(registry), NewWorker(id, kind))
    {
      registry := Entered(registry, NewWorker(id, kind));
    }

    /** An unknown id is ignored, where production refuses it. */
    method RecordWork(id: string, success: bool)
      modifies this
      ensures registry == RecordedWork(old(registry), id, success)
    {
      var i := PositionOf(registry, id);
      if i == |registry| { return; }
      var n := registry[i];
      n := n.(total := n.total + 1);
      if success { n := n.(successes := n.successes + 1); }
      n := n.(reputation := (n.successes as real / n.total as real) * n.uptime);
      n := n.(weight := n.reputation * n.total as real);
      assert n == AfterWork(registry[i], success);
      registry := registry[i := n];
    }
  }

  class Commission {
    var pool: real
    var contributions: seq<(string, real)>

    constructor ()
      ensures pool == 0.0 && contributions == []
    {
      pool, contributions := 0.0, [];
    }

    method Accrue(processId: string, fee: real)
      modifies this
      ensures pool == old(pool) + fee && contributions == old(contributions) + [(processId, fee)]
    {
      pool := pool + fee;
      contributions := contributions + [(processId, fee)];
    }

    /** Pays every worker by weight and empties the pool. */
    method FinalizeEpoch(nodes: Workforce, coin: CoinLedger) returns (result: Settled)
      modifies this, nodes, coin
      ensures result == SettledPool(old(pool), old(nodes.registry))
      ensures pool == 0.0 && contributions == old(contributions)
      ensures nodes.registry ==
                PaidWorkers(old(nodes.registry), old(pool) * (1.0 - MARGIN_RATE), TotalOr1(old(nodes.registry)))
      ensures coin.View() == old(coin.View()).(earnedRetained := old(coin.View()).earnedRetained + result.paid)
    {
      hide Dues, PaidWorkers, S.Abs;
      var distributable, margin := pool * (1.0 - MARGIN_RATE), pool * MARGIN_RATE;
      var sum := TotalWeight(nodes.registry);
      var totalWeight := if sum == 0.0 then 1.0 else sum;
      var distributionLog, paid := PayEach(nodes, coin, distributable, totalWeight);
      var reconciled := S.Abs((paid + margin) - pool) < S.RECONCILE_EPSILON;
      var total := pool;
      pool := 0.0;
      result := Settled(distributionLog, margin, paid, total, reconciled);
    }

    method PayEach(nodes: Workforce, coin: CoinLedger, distributable: real, totalWeight: real)
      returns (distributionLog: seq<Payment>, paid: real)
      requires totalWeight != 0.0
      modifies nodes, coin
      ensures distributionLog == Dues(old(nodes.registry), distributable, totalWeight)
      ensures paid == Sum(PaymentIn(), distributionLog)
      ensures nodes.registry == PaidWorkers(old(nodes.registry), distributable, totalWeight)
      ensures coin.View() == old(coin.View()).(earnedRetained := old(coin.View()).earnedRetained + paid)
    {
      assert Sum(PaymentIn(), []) == 0.0;
      hide Due, Sum;
      distributionLog := [];
      paid := 0.0;
      ghost var was := nodes.registry;
      assert paid == Sum(PaymentIn(), distributionLog);
      for i := 0 to |nodes.registry|
        invariant |nodes.registry| == |was| && |distributionLog| == i
        invariant forall j :: 0 <= j < i ==> nodes.registry[j] == PaidWorker(was[j], distributable, totalWeight)
        invariant forall j :: i <= j < |was| ==> nodes.registry[j] == was[j]
        invariant forall j :: 0 <= j < i ==>
            distributionLog[j] == Payment(was[j].id, Due(was[j], distributable, totalWeight))
        invariant paid == Sum(PaymentIn(), distributionLog)
        invariant coin.View() == old(coin.View()).(earnedRetained := old(coin.View()).earnedRetained + paid)
      {
        var n := nodes.registry[i];
        var payment := Due(n, distributable, totalWeight);
        nodes.registry := nodes.registry[i := n.(earned := n.earned + payment)];
        coin.RecordEarned(payment);
        paid := paid + payment;
        SumSnoc(PaymentIn(), distributionLog, Payment(n.id, payment));
        distributionLog := distributionLog + [Payment(n.id, payment)];
      }
    }

    static method TotalWeight(registry: seq<Worker>) returns (sum: real)
      ensures sum == Sum(WeightIn(), registry)
    {
      sum := 0.0;
      for i := 0 to |registry|
        invariant sum == Sum(WeightIn(), registry[..i])
      {
        assert registry[..i + 1] == registry[..i] + [registry[i]];
        SumSnoc(WeightIn(), registry[..i], registry[i]);
        sum := sum + registry[i].weight;
      }
      assert registry[..|registry|] == registry;
    }
  }
}
