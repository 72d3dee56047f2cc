/** An epoch closes once; afterwards its result can only be read back, late fees aside. */
module Finalization {
  import opened Events
  import opened Settlement
  import opened Commission
  import opened Lifecycle
  import opened EventSourcing
  import opened Soundness
  import opened CallInvariants
  import opened History
  import opened RunEffects
  import opened Progress
  import opened FeeFlow

  // ----- reading back -----

  /** Directly after a successful finalization, the stored row reads back as the result just returned. */
  lemma ReadBack(env: Env, w: World, n: int)
    requires Sound(env, w)
    ensures var (w', outcome) := FinalizeEpoch(env, w, n);
            outcome.Done? ==>
              FinalizedIn(w'.pools.epochs, n) && ToResult(EpochRow(w'.pools.epochs, n)) == outcome.result
  {
    hide Sound, SettleEpoch, Announced, CompareSupply, ToResult;
    FinalizedPools(env, w, n);
    if SettleEpoch(env, w, n).1.Done? { SettledReadBack(env, w, n); }
  }

  lemma SettledReadBack(env: Env, w: World, n: int)
    requires Sound(env, w)
    ensures var (w', outcome) := SettleEpoch(env, w, n);
            && (outcome.Done? ==>
                  FinalizedIn(w'.pools.epochs, n) && ToResult(EpochRow(w'.pools.epochs, n)) == outcome.result)
            && (outcome.Done? && !FinalizedIn(w.pools.epochs, n) ==>
                  outcome.result.paid + outcome.result.operationalMargin == outcome.result.totalFees)
  {
    hide Sound, Finalize, SplitPool, SavedEpoch, Weigh, ToResult, PaidIn;
    if SettleEpoch(env, w, n).1.Done? && EpochRow(w.pools.epochs, n).status == Open {
      var ws := Weigh(PartsOf(w.pools.participation, n), w.verdicts, w.nodes).value;
      WeighedArePayees(PartsOf(w.pools.participation, n), w.verdicts, w.nodes);
      var e := EpochRow(w.pools.epochs, n);
      var f := Finalize(env, w.journal, w.coin, w.pools, w.nodes, ws, n);
      var split := SplitPool(ws, e.totalFees);
      var row :=
          e.(distributionLog := split.Entries(), operationalMargin := split.margin, status := Finalized,
             endTime := EpochEnd(f, n));
      FinalizeRow(env, w.journal, w.coin, w.pools, w.nodes, ws, n);
      SoundParts(env, w);
      SavedEpochHas(w.pools.epochs, row, n);
      SplitReconciles(ws, e.totalFees);
      FinalizeFigures(env, w, ws, n);
      SplitAddsUp(ws, e.totalFees);
      ReadRow(row, split);
    }
  }

  lemma ReadRow(row: Epoch, split: Split)
    requires row.distributionLog == split.Entries() && row.operationalMargin == split.margin
    requires PaidIn(split.Entries()) == split.paid
    ensures ToResult(row) == FinalizeResult(row.epochNumber, split.Entries(), split.margin, split.paid, row.totalFees,
                                            Abs(split.paid + split.margin - row.totalFees) < RECONCILE_EPSILON)
  {
    hide PaidIn;
  }

  /** Reading a finalized epoch back moves nothing but the clock and the Eye. */
  lemma ReadingIsPassive(env: Env, w: World, n: int)
    requires FinalizedIn(w.pools.epochs, n)
    ensures SameButObserved(w, FinalizeEpoch(env, w, n).0)
    ensures FinalizeEpoch(env, w, n).1 == Done(ToResult(EpochRow(w.pools.epochs, n)))
  {
    hide ToResult;
  }

  lemma SplitAddsUp(ws: Weights, total: real)
    ensures SplitPool(ws, total).paid + SplitPool(ws, total).margin == total
  {
    hide Distribution;
  }

  /** What an epoch paid out and kept when it closed. */
  function Collected(row: Epoch): real { PaidIn(row.distributionLog) + row.operationalMargin }

  /** The row of an epoch in two states differs by late fees only. */
  ghost predicate LateFeesOnly(w: World, w': World, n: int, late: real)
  {
    && FinalizedIn(w.pools.epochs, n) && FinalizedIn(w'.pools.epochs, n)
    && EpochRow(w'.pools.epochs, n) ==
         EpochRow(w.pools.epochs, n).(totalFees := EpochRow(w.pools.epochs, n).totalFees + late)
  }

  /**
   * Between two positions of a run, a finalized row changes by the fees the calls in between bring, and in no
   * other way.
   */
  lemma RowGainsLateFees(env: Env, watched: bool, calls: seq<Call>, states: seq<World>, i: nat, j: nat, n: int)
    requires AllValid(calls) && IsRun(env, watched, calls, states) && i <= j <= |calls|
    requires FinalizedIn(states[i].pools.epochs, n)
    ensures LateFeesOnly(states[i], states[j], n, FeesInto(calls, states, i, j, n))
  {
    hide Exec;
    StaysFinalized(env, watched, calls, states, i, j, n);
    FeesArrive(env, watched, calls, states, i, j, n);
  }

  /**
   * Finalizing again finds the first result, with this much more in total fees, and moves nothing but clock
   * and Eye.
   */
  ghost predicate OnlyReadsBack(env: Env, first: FinalizeResult, w: World, n: int, late: real)
  {
    var (w', again) := FinalizeEpoch(env, w, n);
    && SameButObserved(w, w')
    && again.Done?
    && again.result.totalFees == first.totalFees + late
    && again.result.(totalFees := first.totalFees, reconciled := first.reconciled) == first
  }

  lemma ReadLate(row: Epoch, late: real)
    ensures var first, again := ToResult(row), ToResult(row.(totalFees := row.totalFees + late));
            && again.totalFees == first.totalFees + late
            && again.(totalFees := first.totalFees, reconciled := first.reconciled) == first
            && (again == first <==> late == 0.0)
  {
    hide PaidIn;
  }

  lemma FinalizedAgain(env: Env, w1: World, w: World, n: int, late: real)
    requires LateFeesOnly(w1, w, n, late)
    ensures FinalizedIn(w1.pools.epochs, n)
    ensures var first := ToResult(EpochRow(w1.pools.epochs, n));
            && OnlyReadsBack(env, first, w, n, late)
            && (FinalizeEpoch(env, w, n).1 == Done(first) <==> late == 0.0)
  {
    hide FinalizeEpoch, ToResult, SameButObserved;
    ReadingIsPassive(env, w, n);
    ReadLate(EpochRow(w1.pools.epochs, n), late);
  }

  /**
   * Finalization happens once. However many calls follow a successful finalization, finalizing again
   * changes no commission, coin, node or chain state. It reports the same distribution, margin and
   * payments; total fees have grown by what the calls in between brought into the epoch; and the result
   * is the same as a whole if and only if none of them brought a fee.
   */
  lemma FinalizedOnce(env: Env, watched: bool, calls: seq<Call>, states: seq<World>, n: int, i: nat, j: nat)
    requires AllValid(calls) && IsRun(env, watched, calls, states) && i < j <= |calls|
    requires calls[i] == FinalizeCall(n)
    ensures var first, again := FinalizeEpoch(env, states[i], n).1, FinalizeEpoch(env, states[j], n).1;
            first.Done? ==>
              && OnlyReadsBack(env, first.result, states[j], n, FeesInto(calls, states, i + 1, j, n))
              && (again == first <==> Undisturbed(calls, states, i + 1, j, n))
  {
    hide Sound, AtRest, Exec, FinalizeEpoch, FeesInto, Undisturbed, ToResult, FinalizedIn, OnlyReadsBack, LateFeesOnly;
    if FinalizeEpoch(env, states[i], n).1.Done? {
      assert states[i + 1] == FinalizeEpoch(env, states[i], n).0 by { FinalizeIsCall(env, states[i], n); }
      Reachable(env, watched, calls, states, i);
      ReadBack(env, states[i], n);
      RowGainsLateFees(env, watched, calls, states, i + 1, j, n);
      FeesAddUp(calls, states, i + 1, j, n);
      FinalizedAgain(env, states[i + 1], states[j], n, FeesInto(calls, states, i + 1, j, n));
    }
  }

  /** A run that yields value for a closed epoch adds its fee to that row, late, and nothing else. */
  lemma LateFee(env: Env, w: World, r: Request)
    requires Sound(env, w) && FinalizedIn(w.pools.epochs, EpochOf(r))
    ensures Admits(w, r) ==>
              && LateFeesOnly(w, RunProcess(env, w, r).0, EpochOf(r), r.amount / 200.0)
              && RunProcess(env, w, r).0.coin.earnedRetained == w.coin.earnedRetained
  {
    hide Sound, RunProcess, SavedEpoch, Verified, Admits;
    GateOpens(env, w, r);
    RunEffect(env, w, r);
    SoundParts(env, w);
    var row := EpochRow(w.pools.epochs, EpochOf(r));
    SavedEpochHas(w.pools.epochs, row.(totalFees := row.totalFees + ComputeFee(r.amount)), EpochOf(r));
  }

  // ----- the balance of a closed epoch -----

  /** The log holds this closing record of epoch `n`. */
  ghost predicate ClosedBy(w: World, n: int, record: Payload)
  {
    record in Records(w.journal.chain, IsClosing) && record.EpochRecord? && record.epochNumber == n
  }

  /** The row still says what its closing record says. */
  ghost predicate RecordedAs(row: Epoch, record: Payload)
  {
    && record.EpochRecord? && record.reconciled
    && record.distributionLog == row.distributionLog && record.operationalMargin == row.operationalMargin
    && record.paid == PaidIn(row.distributionLog)
    && record.totalFees == Collected(row)
  }

  lemma RowRecorded(t: Tally, row: Epoch)
    requires RowMatches(t, row) && row.status == Finalized
    ensures row.epochNumber in t.closings && RecordedAs(row, t.closings[row.epochNumber])
  {
    hide PaidIn;
  }

  /**
   * In every state of every run an epoch is finalized exactly when the log holds a closing record of it, and
   * that is the only one.
   */
  lemma OneClosingRecord(env: Env, watched: bool, calls: seq<Call>, states: seq<World>, i: nat, n: int)
    requires AllValid(calls) && IsRun(env, watched, calls, states) && i <= |calls|
    ensures var w := states[i];
            && (FinalizedIn(w.pools.epochs, n) <==> exists record :: ClosedBy(w, n, record))
            && (forall record, record' :: ClosedBy(w, n, record) && ClosedBy(w, n, record') ==> record == record')
            && (forall record :: ClosedBy(w, n, record) ==>
                  FinalizedIn(w.pools.epochs, n) && RecordedAs(EpochRow(w.pools.epochs, n), record))
  {
    hide Exec, AtRest, Replay, Chained, CoinMatches, VerdictsMatch, PhaseMatches, ReserveMatches, EmissionsMatch,
         AllWell, ClosingsRead, RecordedAs, Records, RowMatches;
    var w := states[i];
    Reachable(env, watched, calls, states, i);
    var t := Replay(w.journal.chain);
    ClosingsMeaning(w.journal.chain);
    ClosingsIndexed(Records(w.journal.chain, IsClosing), t.closings);
    forall record | ClosedBy(w, n, record)
      ensures n in t.closings && record == t.closings[n]
      ensures FinalizedIn(w.pools.epochs, n) && RecordedAs(EpochRow(w.pools.epochs, n), record)
    {
      var row := EpochRow(w.pools.epochs, n);
      if row.status == Open { OpenIsUnclosed(t, row); }
      RowRecorded(t, row);
    }
    if FinalizedIn(w.pools.epochs, n) {
      RowRecorded(t, EpochRow(w.pools.epochs, n));
      assert ClosedBy(w, n, t.closings[n]);
    }
  }

  lemma ClosingsIndexed(cs: seq<Payload>, closings: map<int, Payload>)
    requires ClosingsRead(cs, closings)
    ensures forall record :: record in cs && record.EpochRecord? ==>
              record.epochNumber in closings && closings[record.epochNumber] == record
    ensures forall n :: n in closings ==> closings[n] in cs && closings[n].EpochRecord? && closings[n].epochNumber == n
  {
  }

  /**
   * The row of an epoch closed by call `k`, as it stands at position `i`: fees before, fees after, and what
   * it reports.
   */
  ghost predicate Balanced(calls: seq<Call>, states: seq<World>, k: int, i: nat, n: int)
    requires 0 <= k < i <= |calls| < |states|
  {
    && FinalizedIn(states[i].pools.epochs, n)
    && var row, late := EpochRow(states[i].pools.epochs, n), FeesInto(calls, states, k + 1, i, n);
       && Collected(row) == FeesInto(calls, states, 0, k, n)
       && row.totalFees == PaidIn(row.distributionLog) + row.operationalMargin + late
       && (ToResult(row).reconciled <==> late < RECONCILE_EPSILON)
  }

  /**
   * In every state of every run an epoch is finalized exactly when one earlier call closed it, and only
   * one did. Its row paid out and kept exactly the fees of the calls before that one; on top of these it
   * holds exactly the fees of the calls since; and it reads as reconciled if and only if those stay below
   * the tolerance.
   */
  lemma ClosedEpochBalance(env: Env, watched: bool, calls: seq<Call>, states: seq<World>, i: nat, n: int)
    requires AllValid(calls) && IsRun(env, watched, calls, states) && i <= |calls|
    ensures FinalizedIn(states[i].pools.epochs, n) <==> exists k :: 0 <= k < i && ClosesAt(calls, states, k, n)
    ensures forall k, m :: ClosesAt(calls, states, k, n) && ClosesAt(calls, states, m, n) ==> k == m
    ensures forall k :: 0 <= k < i && ClosesAt(calls, states, k, n) ==> Balanced(calls, states, k, i, n)
  {
    hide Exec, FinalizedIn, Closable, Balanced;
    ClosedByOneCall(env, watched, calls, states, i, n);
    forall k | 0 <= k < i && ClosesAt(calls, states, k, n) ensures Balanced(calls, states, k, i, n) {
      ClosedRowBalances(env, watched, calls, states, k, i, n);
    }
  }

  lemma ClosedRowBalances(env: Env, watched: bool, calls: seq<Call>, states: seq<World>, k: nat, i: nat, n: int)
    requires AllValid(calls) && IsRun(env, watched, calls, states) && k < i <= |calls| && ClosesAt(calls, states, k, n)
    ensures Balanced(calls, states, k, i, n)
  {
    hide Sound, AtRest, SettleEpoch, FinalizeEpoch, PaidIn, Exec, FeesInto, AllRegistered, Collected, ToResult,
         AllValid, Undisturbed;
    Reachable(env, watched, calls, states, k);
    ClosedAfterwards(env, watched, calls, states, k, n);
    ClosingCollects(env, states[k], n);
    assert states[k + 1] == FinalizeEpoch(env, states[k], n).0 by { FinalizeIsCall(env, states[k], n); }
    FeesArrive(env, watched, calls, states, 0, k, n);
    NothingFinalized(watched, n);
    RowGainsLateFees(env, watched, calls, states, k + 1, i, n);
    FeesAddUp(calls, states, k + 1, i, n);
    RowBalances(EpochRow(states[k + 1].pools.epochs, n), FeesInto(calls, states, k + 1, i, n));
  }

  /** A row that collected its whole total, and some late fees on top. */
  lemma RowBalances(first: Epoch, late: real)
    requires Collected(first) == first.totalFees && late >= 0.0
    ensures var row := first.(totalFees := first.totalFees + late);
            && Collected(row) == Collected(first)
            && row.totalFees == PaidIn(row.distributionLog) + row.operationalMargin + late
            && (ToResult(row).reconciled <==> late < RECONCILE_EPSILON)
  {
    hide PaidIn;
  }

  lemma FinalizeIsCall(env: Env, w: World, n: int)
    ensures Exec(env, w, FinalizeCall(n)) == FinalizeEpoch(env, w, n).0
  {
  }

  /** Closing an epoch pays out and keeps exactly what its row had collected. */
  lemma ClosingCollects(env: Env, w: World, n: int)
    requires Sound(env, w) && Closable(w, n)
    ensures var epochs' := FinalizeEpoch(env, w, n).0.pools.epochs;
            FinalizedIn(epochs', n)
                && Collected(EpochRow(epochs', n)) == EpochRow(epochs', n).totalFees == TotalIn(w.pools.epochs, n)
  {
    hide Sound, SettleEpoch, FinalizeEpoch, PaidIn, AllRegistered;
    SettlesIff(env, w, n);
    FinalizedPools(env, w, n);
    SettledReadBack(env, w, n);
    SoundParts(env, w);
    SettledTotals(env, w, n, n);
  }
}
