/** Epoch pools and the weighted split of a pool: the arithmetic of Commission, free of any service. */
module Settlement {
  import opened Folds
  import opened Strings
  import opened Events
  import opened NodeChain
  import opened Pot
  import opened Nodes

  const FEE_RATE := 0.005
  const RECONCILE_EPSILON := 0.000000001
  const MARGIN_RECIPIENT := "AFC_RESERVE"

  datatype Participation = Participation(processId: string, nodeId: string)

  datatype EpochStatus = Open | Finalized

  datatype Epoch = Epoch(epochNumber: int, startTime: int, endTime: int, totalFees: real,
                         distributionLog: seq<DistributionEntry>, status: EpochStatus, operationalMargin: real)

  datatype FinalizeResult = FinalizeResult(epochNumber: int, distributionLog: seq<DistributionEntry>,
                                           operationalMargin: real, paid: real, totalFees: real, reconciled: bool)

  function ComputeFee(amount: real, overloadRate: real := 0.0): real
  {
    var fee := amount * FEE_RATE;
    fee * (1.0 + overloadRate)
  }

  // ----- the epoch table -----

  function EpochPosition(epochs: seq<Epoch>, n: int): (i: nat)
    ensures i <= |epochs|
    ensures i < |epochs| ==> epochs[i].epochNumber == n
    ensures forall j :: 0 <= j < i ==> epochs[j].epochNumber != n
  {
    IndexOf((e: Epoch) => e.epochNumber, epochs, n)
  }

  predicate HasEpoch(epochs: seq<Epoch>, n: int) { EpochPosition(epochs, n) < |epochs| }

  function EpochRow(epochs: seq<Epoch>, n: int): (e: Epoch)
    requires HasEpoch(epochs, n)
    ensures e.epochNumber == n && e in epochs
  {
    epochs[EpochPosition(epochs, n)]
  }

  function SavedEpoch(epochs: seq<Epoch>, e: Epoch): seq<Epoch>
  {
    if HasEpoch(epochs, e.epochNumber) then epochs[EpochPosition(epochs, e.epochNumber) := e] else epochs + [e]
  }

  /** One row per epoch number, as the primary key demands. */
  ghost predicate UniqueEpochs(epochs: seq<Epoch>)
  {
    forall i, j :: 0 <= i < j < |epochs| ==> epochs[i].epochNumber != epochs[j].epochNumber
  }

  lemma RowOfMember(epochs: seq<Epoch>, e: Epoch)
    requires UniqueEpochs(epochs) && e in epochs
    ensures HasEpoch(epochs, e.epochNumber) && EpochRow(epochs, e.epochNumber) == e
  {
    var i :| 0 <= i < |epochs| && epochs[i] == e;
    assert EpochPosition(epochs, e.epochNumber) <= i;
  }

  lemma SavedEpochRows(epochs: seq<Epoch>, e: Epoch)
    requires UniqueEpochs(epochs)
    ensures UniqueEpochs(SavedEpoch(epochs, e))
    ensures forall x :: x in SavedEpoch(epochs, e) <==> x == e || (x in epochs && x.epochNumber != e.epochNumber)
  {
    var rows, k := SavedEpoch(epochs, e), EpochPosition(epochs, e.epochNumber);
    forall i | 0 <= i < |rows| && i != k
        ensures i < |epochs| && rows[i] == epochs[i] && rows[i].epochNumber != e.epochNumber {
      if k < |epochs| && i < k { assert epochs[i].epochNumber != epochs[k].epochNumber; }
    }
    assert k < |rows| && rows[k] == e;
    forall x | x in epochs && x.epochNumber != e.epochNumber ensures x in rows {
      var i :| 0 <= i < |epochs| && epochs[i] == x;
      assert rows[i] == x;
    }
  }

  lemma SavedEpochHas(epochs: seq<Epoch>, e: Epoch, n: int)
    requires UniqueEpochs(epochs)
    ensures HasEpoch(SavedEpoch(epochs, e), n) <==> n == e.epochNumber || HasEpoch(epochs, n)
    ensures HasEpoch(SavedEpoch(epochs, e), n) ==>
              EpochRow(SavedEpoch(epochs, e), n) == if n == e.epochNumber then e else EpochRow(epochs, n)
  {
    SavedEpochRows(epochs, e);
    var rows := SavedEpoch(epochs, e);
    if n == e.epochNumber {
      RowOfMember(rows, e);
    } else if HasEpoch(epochs, n) {
      RowOfMember(rows, EpochRow(epochs, n));
    }
  }

  lemma SavedEpochSum(f: Epoch -> real, epochs: seq<Epoch>, e: Epoch)
    ensures Sum(f, SavedEpoch(epochs, e))
         == Sum(f, epochs) +
             f(e) - (if HasEpoch(epochs, e.epochNumber) then f(EpochRow(epochs, e.epochNumber)) else 0.0)
  {
    if HasEpoch(epochs, e.epochNumber) {
      SumUpdate(f, epochs, EpochPosition(epochs, e.epochNumber), e);
    } else {
      SumSnoc(f, epochs, e);
    }
  }

  function OpenedRow(n: int, startTime: int): Epoch { Epoch(n, startTime, 0, 0.0, [], Open, 0.0) }

  type ParticipationIndex = map<int, seq<Participation>>

  function PartsOf(participation: ParticipationIndex, n: int): seq<Participation>
  {
    if n in participation then participation[n] else []
  }

  // ----- confirmed weights -----

  /** An insertion-ordered map from node id to accumulated weight. */
  datatype Weights = Weights(order: seq<string>, of: map<string, real>) {
    function Get(nodeId: string): real { if nodeId in of then of[nodeId] else 0.0 }

    function Plus(nodeId: string, weight: real): Weights
    {
      Weights(if nodeId in of then order else order + [nodeId], of[nodeId := Get(nodeId) + weight])
    }
  }

  const NO_WEIGHTS := Weights([], map[])

  /**
   * The weight each node earned by confirmed participations, in order of first appearance; None when
   * a confirmed participant is not registered.
   */
  function Weigh(parts: seq<Participation>, verdicts: VerdictTable, nodes: seq<Node>): Option<Weights>
  {
    if parts == [] then Some(NO_WEIGHTS)
    else
      var last := parts[|parts| - 1];
      match Weigh(parts[..|parts| - 1], verdicts, nodes)
      case None => None
      case Some(ws) =>
        if !Confirmed(verdicts, last.processId) then Some(ws)
        else if !Registered(nodes, last.nodeId) then None
        else Some(ws.Plus(last.nodeId, Lookup(nodes, last.nodeId).weight))
  }

  function WeightOf(ws: Weights): string -> real { nodeId => ws.Get(nodeId) }

  function TotalWeight(ws: Weights): real { Sum(WeightOf(ws), ws.order) }

  // ----- the split -----

  function AmountOf(): DistributionEntry -> real { (e: DistributionEntry) => e.amount }

  /** The share of a pool that goes to the nodes: 1 minus the margin rate of 0.25. */
  function Distributable(total: real): real { total * 0.75 }

  /** weight * distributable / total weight. */
  function Portion(weight: real, distributable: real, totalWeight: real): real
  {
    if totalWeight == 0.0 then 0.0 else (weight * distributable) / totalWeight
  }

  function ShareOf(ws: Weights, distributable: real): string -> real
  {
    nodeId => Portion(ws.Get(nodeId), distributable, TotalWeight(ws))
  }

  /** One work entry per id, in the given order. */
  function Payments(share: string -> real, nodeIds: seq<string>): seq<DistributionEntry>
  {
    if nodeIds == [] then []
    else
      var last := nodeIds[|nodeIds| - 1];
      Payments(share, nodeIds[..|nodeIds| - 1]) + [DistributionEntry(last, share(last), WorkWeight)]
  }

  /** The node payments of a pool: none at all without confirmed weight. */
  function Distribution(ws: Weights, total: real): seq<DistributionEntry>
  {
    if TotalWeight(ws) > 0.0 then Payments(ShareOf(ws, Distributable(total)), Sort(ws.order)) else []
  }

  /** The chain after a receipt for every payment. */
  function Receipts(env: Env, j: Journal, nodes: seq<Node>, payments: seq<DistributionEntry>): Journal
    requires forall e :: e in payments ==> Registered(nodes, e.nodeId)
  {
    if payments == [] then j
    else
      var last := payments[|payments| - 1];
      Log(env, Receipts(env, j, nodes, payments[..|payments| - 1]), NodePaymentReceived,
          PaymentRecord(last.nodeId, last.amount, Lookup(nodes, last.nodeId).weight))
  }

  function Abs(x: real): real { if x < 0.0 then -x else x }

  function PaidIn(distributionLog: seq<DistributionEntry>): real { Sum(WorkAmountOf(), distributionLog) }

  function WorkAmountOf(): DistributionEntry -> real
  {
    (e: DistributionEntry) => if e.reason != AfcReserve then e.amount else 0.0
  }

  /** The result read back from a stored row. */
  function ToResult(e: Epoch): FinalizeResult
  {
    var paid := PaidIn(e.distributionLog);
    FinalizeResult(e.epochNumber, e.distributionLog, e.operationalMargin, paid, e.totalFees,
                   Abs(paid + e.operationalMargin - e.totalFees) < RECONCILE_EPSILON)
  }

  /** What finalizing pays and keeps. */
  datatype Split = Split(payments: seq<DistributionEntry>, paid: real, margin: real) {
    function Entries(): seq<DistributionEntry>
    {
      payments + [DistributionEntry(MARGIN_RECIPIENT, margin, AfcReserve)]
    }
  }

  function SplitPool(ws: Weights, total: real): Split
  {
    var payments := Distribution(ws, total);
    var paid := Sum(AmountOf(), payments);
    Split(payments, paid, total - paid)
  }

  // ----- closed form of the weights -----

  /** 1 for a confirmed participation of this node, 0 for any other. */
  function Mark(verdicts: VerdictTable, nodeId: string): Participation -> real
  {
    (p: Participation) => if Confirmed(verdicts, p.processId) && p.nodeId == nodeId then 1.0 else 0.0
  }

  /** How often a node took part in confirmed processes. */
  function Count(parts: seq<Participation>, verdicts: VerdictTable, nodeId: string): real
  {
    Sum(Mark(verdicts, nodeId), parts)
  }

  function PresentWeight(nodes: seq<Node>, nodeId: string): real
  {
    if Registered(nodes, nodeId) then Lookup(nodes, nodeId).weight else 0.0
  }

  /** The weight one participation adds to a node. */
  function Credit(verdicts: VerdictTable, nodes: seq<Node>, nodeId: string): Participation -> real
  {
    (p: Participation) =>
      if Confirmed(verdicts, p.processId) && p.nodeId == nodeId then PresentWeight(nodes, nodeId) else 0.0
  }

  ghost predicate AllRegistered(parts: seq<Participation>, verdicts: VerdictTable, nodes: seq<Node>)
  {
    forall p :: p in parts && Confirmed(verdicts, p.processId) ==> Registered(nodes, p.nodeId)
  }

  ghost predicate Took(parts: seq<Participation>, verdicts: VerdictTable, nodeId: string)
  {
    exists p :: p in parts && p.nodeId == nodeId && Confirmed(verdicts, p.processId)
  }

  /** The accumulated weight of one node. */
  ghost predicate WeighedRight(ws: Weights, parts: seq<Participation>, verdicts: VerdictTable, nodes: seq<Node>,
                               nodeId: string)
  {
    && (nodeId in ws.order <==> nodeId in ws.of)
    && (nodeId in ws.of <==> Took(parts, verdicts, nodeId))
    && (nodeId in ws.of ==> Registered(nodes, nodeId))
    && ws.Get(nodeId) == Sum(Credit(verdicts, nodes, nodeId), parts)
  }

  lemma TookSnoc(front: seq<Participation>, last: Participation, verdicts: VerdictTable, nodeId: string)
    ensures Took(front + [last], verdicts, nodeId) <==>
            Took(front, verdicts, nodeId) || (nodeId == last.nodeId && Confirmed(verdicts, last.processId))
  {
    assert forall p :: p in front + [last] <==> p in front || p == last;
  }

  lemma PlusWeighedRight(ws: Weights, front: seq<Participation>, last: Participation, verdicts: VerdictTable,
                         nodes: seq<Node>, nodeId: string)
    requires WeighedRight(ws, front, verdicts, nodes, nodeId)
    requires Confirmed(verdicts, last.processId) ==> Registered(nodes, last.nodeId)
    ensures WeighedRight(
              if Confirmed(verdicts, last.processId) then ws.Plus(last.nodeId, Lookup(nodes, last.nodeId).weight)
                  else ws,
              front + [last], verdicts, nodes, nodeId)
  {
    TookSnoc(front, last, verdicts, nodeId);
    SumSnoc(Credit(verdicts, nodes, nodeId), front, last);
  }

  /** The accumulating loop fails exactly when a confirmed participant is unknown. */
  lemma {:induction false} WeighRight(parts: seq<Participation>, verdicts: VerdictTable, nodes: seq<Node>)
    ensures Weigh(parts, verdicts, nodes).Some? <==> AllRegistered(parts, verdicts, nodes)
    ensures Weigh(parts, verdicts, nodes).Some? ==>
              var ws := Weigh(parts, verdicts, nodes).value;
              Distinct(ws.order) && forall n :: WeighedRight(ws, parts, verdicts, nodes, n)
  {
    if parts != [] {
      var front, last := parts[..|parts| - 1], parts[|parts| - 1];
      assert parts == front + [last];
      assert forall p :: p in parts <==> p in front || p == last;
      WeighRight(front, verdicts, nodes);
      if Weigh(parts, verdicts, nodes).Some? {
        var ws := Weigh(front, verdicts, nodes).value;
        assert WeighedRight(ws, front, verdicts, nodes, last.nodeId);
        forall n ensures WeighedRight(Weigh(parts, verdicts, nodes).value, parts, verdicts, nodes, n) {
          PlusWeighedRight(ws, front, last, verdicts, nodes, n);
        }
      }
    }
  }

  lemma {:induction false} CreditsScale(parts: seq<Participation>, verdicts: VerdictTable, nodes: seq<Node>,
                                        nodeId: string)
    ensures Sum(Credit(verdicts, nodes, nodeId), parts) == PresentWeight(nodes, nodeId) * Count(parts, verdicts, nodeId)
  {
    SumScaled(Mark(verdicts, nodeId), Credit(verdicts, nodes, nodeId), PresentWeight(nodes, nodeId), parts);
  }

  /** Closed form: a node weighs its number of confirmed participations times its present weight. */
  lemma WeightClosedForm(parts: seq<Participation>, verdicts: VerdictTable, nodes: seq<Node>, nodeId: string)
    requires Weigh(parts, verdicts, nodes).Some?
    ensures Weigh(parts, verdicts, nodes).value.Get(nodeId)
         == PresentWeight(nodes, nodeId) * Count(parts, verdicts, nodeId)
  {
    WeighRight(parts, verdicts, nodes);
    assert WeighedRight(Weigh(parts, verdicts, nodes).value, parts, verdicts, nodes, nodeId);
    CreditsScale(parts, verdicts, nodes, nodeId);
  }

  // ----- what the split guarantees -----

  lemma {:induction false} PaymentsSum(share: string -> real, ids: seq<string>)
    ensures Sum(AmountOf(), Payments(share, ids)) == Sum(share, ids)
  {
    if ids != [] {
      var front, last := ids[..|ids| - 1], ids[|ids| - 1];
      PaymentsSum(share, front);
      SumSnoc(AmountOf(), Payments(share, front), DistributionEntry(last, share(last), WorkWeight));
    }
  }

  lemma {:induction false} PaymentAt(share: string -> real, ids: seq<string>, i: nat)
    requires i < |ids|
    ensures |Payments(share, ids)| == |ids|
    ensures Payments(share, ids)[i] == DistributionEntry(ids[i], share(ids[i]), WorkWeight)
  {
    var n := |ids| - 1;
    if n > 0 { PaymentAt(share, ids[..n], if i < n then i else 0); }
  }

  lemma PaymentsAreWork(share: string -> real, ids: seq<string>)
    ensures |Payments(share, ids)| == |ids|
    ensures forall e :: e in Payments(share, ids) ==> e.reason == WorkWeight && e.nodeId in ids
  {
    var ps := Payments(share, ids);
    if ids != [] { PaymentAt(share, ids, 0); }
    forall i | 0 <= i < |ps| ensures ps[i].reason == WorkWeight && ps[i].nodeId in ids {
      PaymentAt(share, ids, i);
    }
  }

  lemma {:induction false} EqualPayments(f: string -> real, g: string -> real, ids: seq<string>)
    requires forall n :: f(n) == g(n)
    ensures Payments(f, ids) == Payments(g, ids)
  {
    if ids != [] { EqualPayments(f, g, ids[..|ids| - 1]); }
  }

  lemma {:induction false} PortionsSum(weight: string -> real, share: string -> real, d: real, t: real,
                                       ids: seq<string>)
    requires t != 0.0
    requires forall n :: share(n) == Portion(weight(n), d, t)
    ensures Sum(share, ids) == Portion(Sum(weight, ids), d, t)
  {
    if ids != [] {
      PortionsSum(weight, share, d, t, ids[..|ids| - 1]);
      PortionAdds(Sum(weight, ids[..|ids| - 1]), weight(ids[|ids| - 1]), d, t);
    } else {
      assert 0.0 * d == 0.0;
    }
  }

  lemma PortionAdds(a: real, b: real, d: real, t: real)
    ensures Portion(a, d, t) + Portion(b, d, t) == Portion(a + b, d, t)
  {
    if t != 0.0 {
      assert (a + b) * d == a * d + b * d;
    }
  }

  lemma PortionOfAll(d: real, t: real)
    requires t != 0.0
    ensures Portion(t, d, t) == d
  {
  }

  lemma SharesSum(ws: Weights, d: real)
    requires TotalWeight(ws) > 0.0
    ensures Sum(AmountOf(), Payments(ShareOf(ws, d), Sort(ws.order))) == d
  {
    var ids, t := Sort(ws.order), TotalWeight(ws);
    PaymentsSum(ShareOf(ws, d), ids);
    SumPermutation(WeightOf(ws), ids, ws.order);
    PortionsSum(WeightOf(ws), ShareOf(ws, d), d, t, ids);
    PortionOfAll(d, t);
  }

  /** With confirmed weight the nodes get exactly three quarters; without any, the reserve gets it all. */
  lemma SplitShares(ws: Weights, total: real)
    ensures TotalWeight(ws) > 0.0 ==>
              SplitPool(ws, total).paid == 0.75 * total && SplitPool(ws, total).margin == 0.25 * total
    ensures TotalWeight(ws) <= 0.0 ==> SplitPool(ws, total) == Split([], 0.0, total)
  {
    if TotalWeight(ws) > 0.0 {
      SharesSum(ws, Distributable(total));
    }
  }

  lemma DistributionIsWork(ws: Weights, total: real)
    ensures forall e :: e in Distribution(ws, total) ==> e.reason == WorkWeight && e.nodeId in Sort(ws.order)
  {
    PaymentsAreWork(ShareOf(ws, Distributable(total)), Sort(ws.order));
  }

  lemma LoggedSum(payments: seq<DistributionEntry>, margin: real)
    requires forall e :: e in payments ==> e.reason == WorkWeight
    ensures var log := payments + [DistributionEntry(MARGIN_RECIPIENT, margin, AfcReserve)];
            && Sum(AmountOf(), log) == Sum(AmountOf(), payments) + margin
            && PaidIn(log) == Sum(AmountOf(), payments)
  {
    var kept := DistributionEntry(MARGIN_RECIPIENT, margin, AfcReserve);
    SumSnoc(AmountOf(), payments, kept);
    SumSnoc(WorkAmountOf(), payments, kept);
    SumAgree(WorkAmountOf(), AmountOf(), payments);
  }

  /** The logged entries, reserve entry included, add up to the pool without remainder. */
  lemma SplitReconciles(ws: Weights, total: real)
    ensures Sum(AmountOf(), SplitPool(ws, total).Entries()) == total
    ensures PaidIn(SplitPool(ws, total).Entries()) == SplitPool(ws, total).paid
  {
    var split := SplitPool(ws, total);
    DistributionIsWork(ws, total);
    LoggedSum(split.payments, split.margin);
  }

  /** The remembered participations can be settled: confirmed weight exists. */
  ghost predicate Payable(parts: seq<Participation>, verdicts: VerdictTable, nodes: seq<Node>)
  {
    Weigh(parts, verdicts, nodes).Some? && TotalWeight(Weigh(parts, verdicts, nodes).value) > 0.0
  }

  /** Node `n`'s payment in closed form: count x weight x 0.75 x pool / total weight. */
  function FairShare(parts: seq<Participation>, verdicts: VerdictTable, nodes: seq<Node>, total: real,
                     nodeId: string): real
    requires Weigh(parts, verdicts, nodes).Some?
  {
    Portion(PresentWeight(nodes, nodeId) * Count(parts, verdicts, nodeId), 0.75 * total,
            TotalWeight(Weigh(parts, verdicts, nodes).value))
  }

  /**
   * The distribution of a pool has one entry per node that took part in a confirmed process, in
   * ascending id order. Nobody else is paid.
   */
  lemma DistributionClosedForm(parts: seq<Participation>, verdicts: VerdictTable, nodes: seq<Node>, total: real)
    requires Payable(parts, verdicts, nodes)
    ensures var ids := Sort(Weigh(parts, verdicts, nodes).value.order);
            && Ascending(ids)
            && (forall n :: n in ids <==> Took(parts, verdicts, n))
            && |SplitPool(Weigh(parts, verdicts, nodes).value, total).payments| == |ids|
  {
    WeighRight(parts, verdicts, nodes);
    var ws := Weigh(parts, verdicts, nodes).value;
    SortAscending(ws.order);
    PaymentsAreWork(ShareOf(ws, Distributable(total)), Sort(ws.order));
    forall n ensures n in Sort(ws.order) <==> Took(parts, verdicts, n) {
      SameElements(Sort(ws.order), ws.order, n);
      assert WeighedRight(ws, parts, verdicts, nodes, n);
    }
  }

  lemma FairShareIsPaid(parts: seq<Participation>, verdicts: VerdictTable, nodes: seq<Node>, total: real,
                        nodeId: string)
    requires Weigh(parts, verdicts, nodes).Some?
    ensures ShareOf(Weigh(parts, verdicts, nodes).value, Distributable(total))(nodeId)
         == FairShare(parts, verdicts, nodes, total, nodeId)
  {
    WeightClosedForm(parts, verdicts, nodes, nodeId);
  }

  /** And each entry is the node's fair share. */
  lemma PaymentClosedForm(parts: seq<Participation>, verdicts: VerdictTable, nodes: seq<Node>, total: real, i: nat)
    requires Payable(parts, verdicts, nodes)
    requires i < |Sort(Weigh(parts, verdicts, nodes).value.order)|
    ensures var ws := Weigh(parts, verdicts, nodes).value;
            var payments, n := SplitPool(ws, total).payments, Sort(ws.order)[i];
            && i < |payments|
            && payments[i] == DistributionEntry(n, FairShare(parts, verdicts, nodes, total, n), WorkWeight)
  {
    hide Portion, FairShare;
    var ws := Weigh(parts, verdicts, nodes).value;
    FairShareIsPaid(parts, verdicts, nodes, total, Sort(ws.order)[i]);
    PaymentAt(ShareOf(ws, Distributable(total)), Sort(ws.order), i);
  }

  lemma TookPermutation(a: seq<Participation>, b: seq<Participation>, verdicts: VerdictTable, nodes: seq<Node>)
    requires multiset(a) == multiset(b)
    ensures AllRegistered(a, verdicts, nodes) <==> AllRegistered(b, verdicts, nodes)
    ensures forall n :: Took(a, verdicts, n) <==> Took(b, verdicts, n)
  {
    forall p ensures p in a <==> p in b { SameElements(a, b, p); }
  }

  lemma EqualTotals(u: Weights, v: Weights)
    requires Distinct(u.order) && Distinct(v.order)
    requires forall n :: n in u.order <==> n in v.order
    requires forall n :: u.Get(n) == v.Get(n)
    ensures Sort(u.order) == Sort(v.order) && TotalWeight(u) == TotalWeight(v)
  {
    SortCanonical(u.order, v.order);
    var ids := Sort(u.order);
    SumPermutation(WeightOf(u), u.order, ids);
    SumPermutation(WeightOf(v), v.order, ids);
    SumAgree(WeightOf(u), WeightOf(v), ids);
  }

  lemma EqualShares(u: Weights, v: Weights, d: real, ids: seq<string>)
    requires TotalWeight(u) == TotalWeight(v)
    requires forall n :: u.Get(n) == v.Get(n)
    ensures Payments(ShareOf(u, d), ids) == Payments(ShareOf(v, d), ids)
  {
    EqualPayments(ShareOf(u, d), ShareOf(v, d), ids);
  }

  lemma EqualWeights(u: Weights, v: Weights, total: real)
    requires Distinct(u.order) && Distinct(v.order)
    requires forall n :: n in u.order <==> n in v.order
    requires forall n :: u.Get(n) == v.Get(n)
    ensures SplitPool(u, total) == SplitPool(v, total)
  {
    EqualTotals(u, v);
    EqualShares(u, v, Distributable(total), Sort(u.order));
  }

  /** The order in which participations were remembered has no influence on the settlement. */
  lemma SplitIgnoresArrivalOrder(a: seq<Participation>, b: seq<Participation>, verdicts: VerdictTable,
                                 nodes: seq<Node>, total: real)
    requires multiset(a) == multiset(b)
    ensures Weigh(a, verdicts, nodes).Some? <==> Weigh(b, verdicts, nodes).Some?
    ensures Weigh(a, verdicts, nodes).Some? ==>
              SplitPool(Weigh(a, verdicts, nodes).value, total) == SplitPool(Weigh(b, verdicts, nodes).value, total)
  {
    TookPermutation(a, b, verdicts, nodes);
    WeighRight(a, verdicts, nodes);
    WeighRight(b, verdicts, nodes);
    if Weigh(a, verdicts, nodes).Some? {
      var u, v := Weigh(a, verdicts, nodes).value, Weigh(b, verdicts, nodes).value;
      forall n ensures u.Get(n) == v.Get(n) && (n in u.order <==> n in v.order) {
        assert WeighedRight(u, a, verdicts, nodes, n) && WeighedRight(v, b, verdicts, nodes, n);
        SumPermutation(Credit(verdicts, nodes, n), a, b);
      }
      EqualWeights(u, v, total);
    }
  }

  lemma {:induction false} SumNonNegative<T>(f: T -> real, s: seq<T>)
    requires forall x :: x in s ==> f(x) >= 0.0
    ensures Sum(f, s) >= 0.0
    ensures forall x :: x in s ==> Sum(f, s) >= f(x)
  {
    if s != [] {
      SumNonNegative(f, s[..|s| - 1]);
      assert forall x :: x in s ==> x in s[..|s| - 1] || x == s[|s| - 1];
    }
  }

  /** No negative weight, no negative total. */
  lemma TotalWeightNonNegative(parts: seq<Participation>, verdicts: VerdictTable, nodes: seq<Node>)
    requires Weigh(parts, verdicts, nodes).Some?
    requires forall node :: node in nodes ==> node.weight >= 0.0
    ensures TotalWeight(Weigh(parts, verdicts, nodes).value) >= 0.0
    ensures forall n :: n in Weigh(parts, verdicts, nodes).value.order ==>
              TotalWeight(Weigh(parts, verdicts, nodes).value) >= Weigh(parts, verdicts, nodes).value.Get(n)
  {
    WeighRight(parts, verdicts, nodes);
    var ws := Weigh(parts, verdicts, nodes).value;
    forall n | n in ws.order ensures ws.Get(n) >= 0.0 {
      assert WeighedRight(ws, parts, verdicts, nodes, n);
      SumNonNegative(Credit(verdicts, nodes, n), parts);
    }
    SumNonNegative(WeightOf(ws), ws.order);
  }

  /** One confirmed participation of a positively weighted node makes a pool payable. */
  lemma ConfirmedWorkIsPayable(parts: seq<Participation>, verdicts: VerdictTable, nodes: seq<Node>, p: Participation)
    requires AllRegistered(parts, verdicts, nodes)
    requires forall node :: node in nodes ==> node.weight >= 0.0
    requires p in parts && Confirmed(verdicts, p.processId) && PresentWeight(nodes, p.nodeId) > 0.0
    ensures Payable(parts, verdicts, nodes)
  {
    WeighRight(parts, verdicts, nodes);
    TotalWeightNonNegative(parts, verdicts, nodes);
    var ws := Weigh(parts, verdicts, nodes).value;
    assert WeighedRight(ws, parts, verdicts, nodes, p.nodeId);
    SumNonNegative(Credit(verdicts, nodes, p.nodeId), parts);
    assert Credit(verdicts, nodes, p.nodeId)(p) > 0.0;
  }
}
