/**
 * Production against the reference. The two weigh nodes differently and number their logs differently;
 * request by request and epoch after epoch they agree all the same.
 */
module ReferenceSimulation {
  import opened Folds
  import opened Events
  import opened StateRecording
  import opened ArosCoin
  import opened ReferenceChain
  import opened ReferenceSettlement
  import L = Lifecycle
  import V = Reserve
  import C = Conservation
  import P = RosterRuns
  import D = Soundness
  import F = FeeFlow
  import R = Reference
  import JsObject
  import S = Settlement
  import N = Nodes

  // ----- the reference on its roster -----

  /** A worker after this many units of work, having earned this much. */
  function WorkerAt(id: string, kind: string, units: nat, earned: real): Worker
  {
    Worker(id, kind, UPTIME, units, units, N.Active, if units == 0 then 0.0 else UPTIME, UPTIME * units as real, earned)
  }

  function WorkersAt(units: nat, earned: real): seq<Worker>
  {
    [WorkerAt("node-1", "validator", units, earned), WorkerAt("node-2", "router", units, earned),
     WorkerAt("node-3", "recorder", units, earned)]
  }

  lemma WorkedAt(id: string, kind: string, units: nat, earned: real)
    ensures AfterWork(WorkerAt(id, kind, units, earned), true) == WorkerAt(id, kind, units + 1, earned)
  {
    var n := (units + 1) as real;
    assert n / n == 1.0;
  }

  lemma RosterPosition(workers: seq<Worker>, i: nat)
    requires |workers| == 3 && (forall j :: 0 <= j < 3 ==> workers[j].id == P.ROSTER[j]) && i < 3
    ensures PositionOf(workers, P.ROSTER[i]) == i
  {
    P.RosterAscending();
    var k := PositionOf(workers, P.ROSTER[i]);
    assert workers[i].id == P.ROSTER[i];
    assert k < 3 ==> P.ROSTER[k] == P.ROSTER[i];
  }

  lemma RosterWorked(units: nat, earned: real)
    ensures WorkEach(WorkersAt(units, earned), P.ROSTER) == WorkersAt(units + 1, earned)
  {
    hide AfterWork, WorkerAt, PositionOf;
    var none, one, two := P.ROSTER[..0], P.ROSTER[..1], P.ROSTER[..2];
    assert two[..1] == one && one[..0] == none && P.ROSTER[..|P.ROSTER| - 1] == two;
    var w, w' := WorkersAt(units, earned), WorkersAt(units + 1, earned);
    WorkersNamed(units, earned);
    WorkersNamed(units + 1, earned);
    WorkedAt("node-1", "validator", units, earned);
    WorkedAt("node-2", "router", units, earned);
    WorkedAt("node-3", "recorder", units, earned);
    var w1 := w[0 := w'[0]];
    var w2 := w1[1 := w'[1]];
    RosterPosition(w, 0);
    RosterPosition(w1, 1);
    RosterPosition(w2, 2);
    assert WorkEach(w, none) == w;
    assert WorkEach(w, one) == w1;
    assert WorkEach(w, two) == w2;
    assert WorkEach(w, P.ROSTER) == RecordedWork(w2, P.ROSTER[2], true);
  }

  lemma WorkersNamed(units: nat, earned: real)
    ensures var w := WorkersAt(units, earned);
            |w| == 3 && forall j :: 0 <= j < 3 ==>
              w[j].id == P.ROSTER[j] && w[j].status == N.Active && w[j].weight == UPTIME * units as real
  {
  }

  lemma RosterActive(units: nat, earned: real)
    ensures ActiveWorkers(WorkersAt(units, earned)) == P.ROSTER
  {
    hide WorkerAt;
    WorkersNamed(units, earned);
    var w := WorkersAt(units, earned);
    var none, one, two := w[..0], w[..1], w[..2];
    assert two[..1] == one && one[..0] == none && w[..|w| - 1] == two;
    assert ActiveWorkers(one) == [P.ROSTER[0]];
    assert ActiveWorkers(two) == [P.ROSTER[0], P.ROSTER[1]];
  }

  lemma RosterInitially()
    ensures R.Roster() == WorkersAt(0, 0.0)
  {
    hide Entered, WorkersAt;
    P.RosterAscending();
    var a, b, c := NewWorker("node-1", "validator"), NewWorker("node-2", "router"), NewWorker("node-3", "recorder");
    assert P.ROSTER[0] == a.id && P.ROSTER[1] == b.id && P.ROSTER[2] == c.id;
    AbsentEntered([], a);
    assert [] + [a] == [a];
    AbsentEntered([a], b);
    assert [a] + [b] == [a, b];
    AbsentEntered([a, b], c);
    assert [a, b] + [c] == [a, b, c];
    FreshWorkers();
  }

  lemma AbsentEntered(registry: seq<Worker>, w: Worker)
    requires forall j :: 0 <= j < |registry| ==> registry[j].id != w.id
    ensures Entered(registry, w) == registry + [w]
  {
  }

  lemma FreshWorkers()
    ensures WorkersAt(0, 0.0) ==
              [NewWorker("node-1", "validator"), NewWorker("node-2", "router"), NewWorker("node-3", "recorder")]
  {
  }

  // ----- a run of the reference -----

  ghost predicate AfterActs(env: ReferenceEnv, s: R.State, book: P.Book)
  {
    && book.Right()
    && Unbroken(env, s.chain)
    && (forall p :: p in s.verdicts ==> s.verdicts[p])
    && s.coin == Coin(book.Total(), book.Total(), 3.0 * book.Quarter())
    && s.pool == book.amount / 200.0
    && s.volume == book.Total()
    && s.workers == WorkersAt(book.units, book.Quarter())
  }

  /** Recording changes the log and the index only, keeps the log unbroken and forgets no event. */
  lemma Captures(env: ReferenceEnv, s: R.State, processId: string, eventType: EventType, data: JsObject.Obj)
    ensures var s' := R.Capture(env, s, processId, eventType, data);
            && s'.(chain := s.chain, captured := s.captured) == s
            && (Unbroken(env, s.chain) ==> Unbroken(env, s'.chain))
            && eventType in EventsOf(s'.captured, processId)
            && EventsOf(s.captured, processId) <= EventsOf(s'.captured, processId)
  {
    hide NextRecord, Unbroken;
    if Unbroken(env, s.chain) { RecordKeepsUnbroken(env, s.chain, eventType, processId, data); }
  }

  lemma ExecutesRoster(env: ReferenceEnv, s: R.State, processId: string, units: nat, earned: real)
    requires s.workers == WorkersAt(units, earned)
    ensures var s' := R.Executed(env, s, processId);
            && s'.(chain := s.chain, captured := s.captured, workers := s.workers) == s
            && s'.workers == WorkersAt(units + 1, earned)
            && (Unbroken(env, s.chain) ==> Unbroken(env, s'.chain))
            && EventsOf(s.captured, processId) +
                 {TaskAssignment, StageTransition, ExecutionComplete} <= EventsOf(s'.captured, processId)
  {
    hide R.Capture, Unbroken, WorkEach, EventsOf, WorkersAt;
    RosterActive(units, earned);
    RosterWorked(units, earned);
    var named, step := JsObject.Single("nodes", JsObject.Texts(P.ROSTER)),
        JsObject.Single("stage", JsObject.Text("execute"));
    Captures(env, s, processId, TaskAssignment, named);
    var s1 := R.Capture(env, s, processId, TaskAssignment, named);
    Captures(env, s1, processId, StageTransition, step);
    var s2 := R.Capture(env, s1, processId, StageTransition, step);
    Captures(env, s2, processId, ExecutionComplete, JsObject.EMPTY);
  }

  /** The reference, too, verifies every admissible request. */
  lemma JudgesYes(env: ReferenceEnv, s: R.State, r: L.Request)
    requires Unbroken(env, s.chain) && r.admissible && forall p :: p in s.verdicts ==> s.verdicts[p]
    requires {Initiation, TaskAssignment, StageTransition, ExecutionComplete} <= EventsOf(s.captured, r.processId)
    ensures r.processId in R.Verified(env, s, r).verdicts
    ensures forall p :: p in R.Verified(env, s, r).verdicts ==> R.Verified(env, s, r).verdicts[p]
    ensures R.Verified(env, s, r).(verdicts := s.verdicts) == s
  {
    hide Unbroken;
    var have := EventsOf(s.captured, r.processId);
    assert Initiation in have && TaskAssignment in have && StageTransition in have && ExecutionComplete in have;
  }

  lemma ProducesValue(env: ReferenceEnv, s: R.State, processId: string, amount: real)
    ensures var s' :=
              R.Closed(env, R.Accrued(R.Issued(env, s, processId, amount), processId, amount), processId, amount);
            && s'.coin == Coin(s.coin.processMinted + amount, s.coin.processBurned + amount, s.coin.earnedRetained)
            && s'.pool == s.pool + amount / 200.0 && s'.volume == s.volume + amount
            && s'.verdicts == s.verdicts && s'.workers == s.workers
            && (Unbroken(env, s.chain) ==> Unbroken(env, s'.chain))
  {
    hide R.Capture, Unbroken;
    var minted := s.(coin := s.coin.(processMinted := s.coin.processMinted + amount));
    Captures(env, minted, processId, EmissionRecorded, JsObject.Single("minted", JsObject.Num(amount)));
    var accrued := R.Accrued(R.Issued(env, s, processId, amount), processId, amount);
    var burned := accrued.(coin := accrued.coin.(processBurned := accrued.coin.processBurned + amount));
    var data := JsObject.Single("burned", JsObject.Num(amount));
    Captures(env, burned, processId, R.BURN_EVENT, data);
    Captures(env, R.Capture(env, burned, processId, R.BURN_EVENT, data), processId, FinalStatus,
             JsObject.Single("status", JsObject.Text("done")));
  }

  lemma ReferenceStep(env: ReferenceEnv, s: R.State, book: P.Book, r: L.Request)
    requires AfterActs(env, s, book) && r.amount > 0.0
    ensures var (s', outcome) := R.Run(env, s, r);
            && AfterActs(env, s', P.Booked(book, P.Ask(r)))
            && outcome == if r.admissible then R.Yielded(r.amount, r.amount / 200.0) else R.Turned(L.Inadmissible)
  {
    hide R.Capture, R.Executed, R.Verified, R.Issued, R.Accrued, R.Closed, Unbroken, WorkersAt, EventsOf;
    var q := r.processId;
    var started := R.Initiate(env, s, r);
    Captures(env, s, q, Initiation, JsObject.Single("amount", JsObject.Num(r.amount)));
    if r.admissible {
      ExecutesRoster(env, started, q, book.units, book.Quarter());
      var executed := R.Executed(env, started, q);
      JudgesYes(env, executed, r);
      var judged := R.Verified(env, executed, r);
      var data := JsObject.Single("verified", L.Flag(judged.verdicts[q]));
      Captures(env, judged, q, PotVerdict, data);
      ProducesValue(env, R.Capture(env, judged, q, PotVerdict, data), q, r.amount);
    }
  }

  // ----- its settlement -----

  /** Each of the three gets a quarter of the pool, provided that no pool is left without any work. */
  lemma ReferenceSplit(pool: real, units: nat, earned: real)
    requires units == 0 ==> pool == 0.0
    ensures var share := pool / 4.0;
            var w := WorkersAt(units, earned);
            var result := SettledPool(pool, w);
            && result.distributionLog ==
                 [Payment(P.ROSTER[0], share), Payment(P.ROSTER[1], share), Payment(P.ROSTER[2], share)]
            && result.paid == 3.0 * share && result.margin == 0.25 * pool && result.total == pool
            && result.reconciled
            && PaidWorkers(w, pool * (1.0 - MARGIN_RATE), TotalOr1(w)) == WorkersAt(units, earned + share)
  {
    hide WorkerAt, Sum, Due;
    var w := WorkersAt(units, earned);
    P.SumThree(WeightIn(), w[0], w[1], w[2]);
    var total, d := TotalOr1(w), pool * (1.0 - MARGIN_RATE);
    WorkersNamed(units, earned);
    DueAt(w[0], pool, units, total);
    DueAt(w[1], pool, units, total);
    DueAt(w[2], pool, units, total);
    var dues := Dues(w, d, total);
    P.SumThree(PaymentIn(), dues[0], dues[1], dues[2]);
    assert dues == [dues[0], dues[1], dues[2]];
    PaidAt("node-1", "validator", units, earned, pool / 4.0, d, total);
    PaidAt("node-2", "router", units, earned, pool / 4.0, d, total);
    PaidAt("node-3", "recorder", units, earned, pool / 4.0, d, total);
  }

  lemma PaidAt(id: string, kind: string, units: nat, earned: real, share: real, d: real, total: real)
    requires total != 0.0 && Due(WorkerAt(id, kind, units, earned), d, total) == share
    ensures PaidWorker(WorkerAt(id, kind, units, earned), d, total) == WorkerAt(id, kind, units, earned + share)
  {
    hide Due;
  }

  lemma DueAt(w: Worker, pool: real, units: nat, total: real)
    requires w.weight == UPTIME * units as real && (units == 0 ==> pool == 0.0)
    requires total == if units == 0 then 1.0 else 3.0 * (UPTIME * units as real)
    ensures total != 0.0
    ensures Due(w, pool * (1.0 - MARGIN_RATE), total) == pool / 4.0
  {
    var x := UPTIME * units as real;
    if units > 0 {
      assert x > 0.0;
      assert x * (pool * 0.75) == (3.0 * x) * (pool / 4.0);
    } else {
      assert x == 0.0;
    }
  }

  /** Closing the current epoch of the reference. */
  lemma ReferenceClose(env: ReferenceEnv, s: R.State, book: P.Book)
    requires AfterActs(env, s, book)
    ensures AfterActs(env, R.Finalize(s).0, P.Booked(book, P.Close))
  {
    hide Unbroken, WorkersAt, SettledPool, PaidWorkers, TotalOr1;
    ReferenceSplit(book.amount / 200.0, book.units, book.Quarter());
  }

  // ----- a run of the reference -----

  ghost function Performed(env: ReferenceEnv, s: R.State, act: P.Act): R.State
  {
    if act.Ask? then R.Run(env, s, act.request).0 else R.Finalize(s).0
  }

  ghost predicate IsReferenceRun(env: ReferenceEnv, acts: seq<P.Act>, states: seq<R.State>)
  {
    && |states| == |acts| + 1
    && states[0] == R.Initial()
    && forall i {:trigger acts[i]} :: 0 <= i < |acts| ==> states[i + 1] == Performed(env, states[i], acts[i])
  }

  lemma {:induction false} ReferenceReached(env: ReferenceEnv, first: int, acts: seq<P.Act>, states: seq<R.State>,
                                            i: nat)
    requires P.AllPlain(acts, first) && IsReferenceRun(env, acts, states) && i <= |acts|
    ensures AfterActs(env, states[i], P.BookOf(acts[..i]))
  {
    hide AfterActs, R.Run, R.Finalize, R.Initial, P.Booked;
    if i == 0 {
      NothingRequested(env);
    } else {
      var front := acts[..i - 1];
      ReferenceReached(env, first, acts, states, i - 1);
      assert acts[..i][..i - 1] == front;
      if acts[i - 1].Ask? {
        ReferenceStep(env, states[i - 1], P.BookOf(front), acts[i - 1].request);
      } else {
        ReferenceClose(env, states[i - 1], P.BookOf(front));
      }
    }
  }

  lemma NothingRequested(env: ReferenceEnv)
    ensures AfterActs(env, R.Initial(), P.BLANK_BOOK)
  {
    hide R.Roster, WorkersAt, P.BLANK_BOOK;
    P.BlankBook(P.BLANK_BOOK);
    RosterInitially();
  }

  // ----- agreement -----

  /** The two answers to one request: both turn it away, or both verify it and report the same amounts. */
  ghost predicate SameOutcome(production: L.RunOutcome, reference: R.Outcome)
  {
    && production.Completed?
    && match reference
       case Turned(reason) => !production.result.verified && production.result.reason == Some(reason)
                              && production.result.minted == 0.0 && production.result.fee == 0.0
       case Yielded(minted, fee) =>
         production.result.verified && production.result.minted == minted && production.result.fee == fee
  }

  /** Both systems, doing the same: plain requests and finalizations, epoch after epoch. */
  ghost predicate SideBySide(env: Env, renv: ReferenceEnv, watched: bool, first: int, acts: seq<P.Act>,
                             production: seq<L.World>, reference: seq<R.State>)
  {
    && P.AllPlain(acts, first)
    && L.IsRun(env, watched, P.CallsFor(acts, first), production)
    && IsReferenceRun(renv, acts, reference)
  }

  /** Request by request, in whatever epoch, production and reference give the same answer. */
  lemma RequestsAgree(env: Env, renv: ReferenceEnv, watched: bool, first: int, acts: seq<P.Act>,
                      production: seq<L.World>, reference: seq<R.State>, i: nat)
    requires SideBySide(env, renv, watched, first, acts, production, reference) && i < |acts| && acts[i].Ask?
    ensures var r := acts[i].request;
            SameOutcome(L.RunProcess(env, production[i], r).1, R.Run(renv, reference[i], r).1)
  {
    hide L.RunProcess, R.Run, R.Initial, P.AfterActs, AfterActs, D.Sound, D.AtRest, C.Earned, C.FeesMatch, P.Booked;
    var n, book, r := P.Current(acts[..i], first), P.BookOf(acts[..i]), acts[i].request;
    P.ActsReached(env, watched, first, acts, production, i);
    P.OrchestratedActs(env, watched, first, acts, production, i);
    ReferenceReached(renv, first, acts, reference, i);
    P.RequestStep(env, production[i], n, book, r);
    ReferenceStep(renv, reference[i], book, r);
  }

  /** The margins production counts as volume and the reference does not: a third of what the nodes hold. */
  function Margins(coin: Coin): real { coin.earnedRetained / 3.0 }

  /**
   * At every position: the same ledger, the same pool in the current epoch, and the same reserve volume but for
   * the margins of the epochs closed so far.
   */
  lemma LedgersAgree(env: Env, renv: ReferenceEnv, watched: bool, first: int, acts: seq<P.Act>,
                     production: seq<L.World>, reference: seq<R.State>, i: nat)
    requires SideBySide(env, renv, watched, first, acts, production, reference) && i <= |acts|
    ensures var w, s := production[i], reference[i];
            && w.coin == s.coin
            && F.TotalIn(w.pools.epochs, P.Current(acts[..i], first)) == s.pool
            && V.Volume(w.journal.chain) == s.volume + Margins(s.coin)
  {
    hide V.Volume, C.Earned, C.FeesMatch, D.AtRest, D.Sound, L.Exec, R.Run, R.Finalize, R.Initial, P.AllPlain,
         P.AfterActs, AfterActs, F.TotalIn, P.Booked;
    P.ActsReached(env, watched, first, acts, production, i);
    P.OrchestratedActs(env, watched, first, acts, production, i);
    ReferenceReached(renv, first, acts, reference, i);
    P.VolumeOfLedger(env, production[i]);
    SameBooks(renv, production[i], reference[i], P.Current(acts[..i], first), P.BookOf(acts[..i]));
  }

  /** By the same books both have the same ledger and the same pool. */
  lemma SameBooks(renv: ReferenceEnv, w: L.World, s: R.State, n: int, book: P.Book)
    requires P.AfterActs(w, n, book) && AfterActs(renv, s, book)
    ensures w.coin == s.coin && w.coin.processMinted == s.volume
    ensures F.TotalIn(w.pools.epochs, n) == s.pool
  {
    hide P.RosterParts, P.Ids, WorkersAt, Unbroken;
  }

  /** The two distributions list the same nodes and amounts; production appends the reserve's entry. */
  ghost predicate SamePayments(log: seq<DistributionEntry>, reference: seq<Payment>, margin: real)
  {
    && |log| == |reference| + 1
    && (forall i :: 0 <= i < |reference| ==>
        log[i] == DistributionEntry(reference[i].nodeId, reference[i].payment, WorkWeight))
    && log[|reference|] == DistributionEntry(S.MARGIN_RECIPIENT, margin, AfcReserve)
  }

  /**
   * Finalizing the current epoch, at any position, given at least one admissible request since the last: each
   * node is paid the same, the ledgers are equal, and the reserve volumes, equal but for earlier margins until
   * then, come to differ by exactly this margin more.
   */
  lemma SettlementsAgree(env: Env, renv: ReferenceEnv, watched: bool, first: int, acts: seq<P.Act>,
                         production: seq<L.World>, reference: seq<R.State>, i: nat)
    requires SideBySide(env, renv, watched, first, acts, production, reference) && i <= |acts|
    requires P.BookOf(acts[..i]).ids != []
    ensures var (w, outcome) := L.FinalizeEpoch(env, production[i], P.Current(acts[..i], first));
            var (s, result) := R.Finalize(reference[i]);
            && outcome.Done?
            && SamePayments(outcome.result.distributionLog, result.distributionLog, result.margin)
            && outcome.result.paid == result.paid && outcome.result.operationalMargin == result.margin
            && outcome.result.totalFees == result.total && outcome.result.reconciled && result.reconciled
            && w.coin == s.coin
            && V.Volume(w.journal.chain) == s.volume + Margins(reference[i].coin) + result.margin
            && result.margin > 0.0
  {
    hide V.Volume, L.FinalizeEpoch, L.Exec, R.Run, SettledPool, PaidWorkers, TotalOr1, D.Sound, D.AtRest, C.Earned,
         C.FeesMatch, P.AllPlain, WorkersAt, Unbroken, P.CurrentPool, P.Ids, P.RosterParts, N.Registered, R.Initial,
             P.Booked;
    var n, book := P.Current(acts[..i], first), P.BookOf(acts[..i]);
    P.ActsReached(env, watched, first, acts, production, i);
    P.OrchestratedActs(env, watched, first, acts, production, i);
    ReferenceReached(renv, first, acts, reference, i);
    P.VolumeOfLedger(env, production[i]);
    P.RosterSettlement(env, production[i], n, book);
    ReferenceSplit(book.amount / 200.0, book.units, book.Quarter());
  }

  /**
   * Without an admissible request since the last finalization the two answers part ways: production has no such
   * epoch to finalize, while the reference settles an empty pool, paying everyone nothing. Neither ledger moves.
   */
  lemma EmptySettlementsDiffer(env: Env, renv: ReferenceEnv, watched: bool, first: int, acts: seq<P.Act>,
                               production: seq<L.World>, reference: seq<R.State>, i: nat)
    requires SideBySide(env, renv, watched, first, acts, production, reference) && i <= |acts|
    requires P.BookOf(acts[..i]).ids == []
    ensures var (w, outcome) := L.FinalizeEpoch(env, production[i], P.Current(acts[..i], first));
            var (s, result) := R.Finalize(reference[i]);
            && outcome.NoSuchEpoch? && w == production[i]
            && result.paid == 0.0 && result.margin == 0.0
            && (forall p :: p in result.distributionLog ==> p.payment == 0.0)
            && s.coin == reference[i].coin
  {
    hide L.Exec, L.FinalizeEpoch, R.Run, R.Initial, SettledPool, PaidWorkers, TotalOr1, P.AllPlain, WorkersAt,
         P.CurrentPool, P.Ids, P.Booked, Unbroken;
    var n, book := P.Current(acts[..i], first), P.BookOf(acts[..i]);
    P.ActsReached(env, watched, first, acts, production, i);
    ReferenceReached(renv, first, acts, reference, i);
    P.EmptyClose(env, production[i], n, book);
    ReferenceSplit(0.0, book.units, book.Quarter());
  }
}
