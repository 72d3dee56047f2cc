/** Where fees go: which call brings how much into which epoch, and which call closes an epoch. */
module FeeFlow {
  import opened Events
  import opened NodeChain
  import opened Pot
  import opened Nodes
  import opened Reserve
  import opened Settlement
  import opened Commission
  import opened Lifecycle
  import opened Soundness
  import opened CallInvariants
  import opened RunEffects
  import opened Progress
  import opened Progression
  import JsObject

  predicate FinalizedIn(epochs: seq<Epoch>, n: int) { HasEpoch(epochs, n) && EpochRow(epochs, n).status == Finalized }

  function TotalIn(epochs: seq<Epoch>, n: int): real
  {
    if HasEpoch(epochs, n) then EpochRow(epochs, n).totalFees else 0.0
  }

  /** The fee a call brings into epoch `n`, open or closed. It can be told before the call is made. */
  ghost function FeeInto(w: World, c: Call, n: int): real
  {
    match c
    case Run(r) => if EpochOf(r) == n && Admits(w, r) then r.amount / 200.0 else 0.0
    case AccrueFee(m, fee, _) => if m == n then fee else 0.0
    case _ => 0.0
  }

  /** What the calls from position `i` up to `j` of a run bring into epoch `n`. */
  ghost function FeesInto(calls: seq<Call>, states: seq<World>, i: nat, j: nat, n: int): real
    requires i <= j <= |calls| < |states|
    decreases j
  {
    if i == j then 0.0
    else FeesInto(calls, states, i, j - 1, n) + FeeInto(states[j - 1], calls[j - 1], n)
  }

  /** None of the calls from position `i` up to `j` brings a fee into epoch `n`. */
  ghost predicate Undisturbed(calls: seq<Call>, states: seq<World>, i: nat, j: nat, n: int)
    requires i <= j <= |calls| < |states|
  {
    forall k :: i <= k < j ==> FeeInto(states[k], calls[k], n) <= 0.0
  }

  /** Finalizing now would close epoch `n`: it is open and every confirmed participant is registered. */
  ghost predicate Closable(w: World, n: int)
  {
    && HasEpoch(w.pools.epochs, n) && EpochRow(w.pools.epochs, n).status == Open
    && AllRegistered(PartsOf(w.pools.participation, n), w.verdicts, w.nodes)
  }

  // ----- one call -----

  lemma AccruedTotals(pools: Pools, tick: int, m: int, fee: real, parts: seq<Participation>, n: int)
    requires UniqueEpochs(pools.epochs)
    ensures var epochs' := Accrued(pools, tick, m, fee, parts).epochs;
            && TotalIn(epochs', n) == TotalIn(pools.epochs, n) + (if m == n then fee else 0.0)
            && (FinalizedIn(epochs', n) <==> FinalizedIn(pools.epochs, n))
  {
    hide SavedEpoch;
    var row := RowFor(pools, tick, m);
    SavedEpochHas(pools.epochs, row.(totalFees := row.totalFees + fee), n);
  }

  lemma RunTotals(env: Env, w: World, r: Request, n: int)
    requires Sound(env, w)
    ensures var epochs' := RunProcess(env, w, r).0.pools.epochs;
            && TotalIn(epochs', n) == TotalIn(w.pools.epochs, n) + FeeInto(w, Run(r), n)
            && (FinalizedIn(epochs', n) <==> FinalizedIn(w.pools.epochs, n))
  {
    hide Sound, RunProcess, Accrued, Admits, TotalIn, FinalizedIn, Verified;
    GateOpens(env, w, r);
    RunEffect(env, w, r);
    SoundParts(env, w);
    var outcome := RunProcess(env, w, r).1;
    if Produced(outcome) {
      var tick, parts :|
        RunProcess(env, w, r).0.pools == Accrued(w.pools, tick, EpochOf(r), ComputeFee(r.amount), parts);
      AccruedTotals(w.pools, tick, EpochOf(r), ComputeFee(r.amount), parts, n);
    }
  }

  /** Settling an epoch leaves every total alone, and closes that epoch if it can be closed, but no other. */
  lemma SettledTotals(env: Env, w: World, m: int, n: int)
    requires UniqueEpochs(w.pools.epochs)
    ensures var epochs' := SettleEpoch(env, w, m).0.pools.epochs;
            && TotalIn(epochs', n) == TotalIn(w.pools.epochs, n)
            && (FinalizedIn(epochs', n) <==> FinalizedIn(w.pools.epochs, n) || (m == n && Closable(w, n)))
  {
    hide Finalize, Weigh, ToResult, SplitPool, SavedEpoch, UniqueEpochs, AllRegistered;
    var parts := PartsOf(w.pools.participation, m);
    WeighRight(parts, w.verdicts, w.nodes);
    if HasEpoch(w.pools.epochs, m) && EpochRow(w.pools.epochs, m).status == Open
        && Weigh(parts, w.verdicts, w.nodes).Some? {
      var ws := Weigh(parts, w.verdicts, w.nodes).value;
      WeighedArePayees(parts, w.verdicts, w.nodes);
      FinalizeRow(env, w.journal, w.coin, w.pools, w.nodes, ws, m);
      var e := EpochRow(w.pools.epochs, m);
      var f := Finalize(env, w.journal, w.coin, w.pools, w.nodes, ws, m);
      var split := SplitPool(ws, e.totalFees);
      SavedEpochHas(w.pools.epochs,
        e.(distributionLog := split.Entries(), operationalMargin := split.margin, status := Finalized,
           endTime := EpochEnd(f, m)), n);
    }
  }

  lemma FinalizedPools(env: Env, w: World, n: int)
    ensures FinalizeEpoch(env, w, n).0.pools == SettleEpoch(env, w, n).0.pools
  {
    hide SettleEpoch, Quiet, Observe, CompareSupply;
    var (settled, outcome) := SettleEpoch(env, w, n);
    if outcome.Done? {
      var announced := Announced(env, settled, n, outcome.result);
      var r := outcome.result;
      ObserveOnlyWatches(env, settled, Distributed(n, r.paid, r.operationalMargin, r.reconciled));
      QuietCompare(env, announced);
      QuietReplay(env, announced, CompareSupply(env, announced));
    }
  }

  lemma EmitPools(env: Env, w: World, processId: string, amount: real)
    ensures Emit(env, w, processId, amount).pools == w.pools
  {
    hide NextSnapshot;
  }

  /** Every call brings exactly its own fee into an epoch; only finalizing a closable epoch closes it. */
  lemma FeeArrives(env: Env, w: World, c: Call, n: int)
    requires Sound(env, w) && c.Valid()
    ensures var epochs' := Exec(env, w, c).pools.epochs;
            && TotalIn(epochs', n) == TotalIn(w.pools.epochs, n) + FeeInto(w, c, n)
            && (FinalizedIn(epochs', n) <==> FinalizedIn(w.pools.epochs, n) || (c == FinalizeCall(n) && Closable(w, n)))
  {
    hide Sound, RunProcess, FinalizeEpoch, SettleEpoch, Emit, Accrued, TotalIn, FinalizedIn, NextSnapshot, Intact,
         Evidence, FailureReasons, Volume, Admits, Employed, Saved, JsObject.SortKeys, Closable;
    SoundParts(env, w);
    match c {
      case Run(r) => RunTotals(env, w, r, n);
      case FinalizeCall(m) =>
        FinalizedPools(env, w, m);
        SettledTotals(env, w, m, n);
      case AccrueFee(m, fee, parts) => AccruedTotals(w.pools, w.journal.tick, m, fee, parts, n);
      case EmitProcess(p, amount) => EmitPools(env, w, p, amount);
      case _ =>
    }
  }

  // ----- a run -----

  /** An epoch's total is, at every position, what the calls so far brought into it. */
  lemma {:induction false} FeesArrive(env: Env, watched: bool, calls: seq<Call>, states: seq<World>, i: nat, j: nat,
                                      n: int)
    requires AllValid(calls) && IsRun(env, watched, calls, states) && i <= j <= |calls|
    ensures TotalIn(states[j].pools.epochs, n) == TotalIn(states[i].pools.epochs, n) + FeesInto(calls, states, i, j, n)
    decreases j
  {
    hide Sound, AtRest, Exec, TotalIn, FeeInto, FinalizedIn;
    if i < j {
      FeesArrive(env, watched, calls, states, i, j - 1, n);
      Reachable(env, watched, calls, states, j - 1);
      FeeArrives(env, states[j - 1], calls[j - 1], n);
    }
  }

  /** Fees only add up; they add up to nothing exactly when no call brings any. */
  lemma {:induction false} FeesAddUp(calls: seq<Call>, states: seq<World>, i: nat, j: nat, n: int)
    requires AllValid(calls) && i <= j <= |calls| < |states|
    ensures FeesInto(calls, states, i, j, n) >= 0.0
    ensures FeesInto(calls, states, i, j, n) == 0.0 <==> Undisturbed(calls, states, i, j, n)
    decreases j
  {
    assert i < j ==> FeeInto(states[j - 1], calls[j - 1], n) >= 0.0;
    hide FeeInto;
    if i < j {
      FeesAddUp(calls, states, i, j - 1, n);
    }
  }

  /** The call at position `k` closes epoch `n`. */
  ghost predicate ClosesAt(calls: seq<Call>, states: seq<World>, k: int, n: int)
    requires |calls| < |states|
  {
    0 <= k < |calls| && calls[k] == FinalizeCall(n) && Closable(states[k], n)
  }

  lemma ClosedAfterwards(env: Env, watched: bool, calls: seq<Call>, states: seq<World>, k: nat, n: int)
    requires AllValid(calls) && IsRun(env, watched, calls, states) && ClosesAt(calls, states, k, n)
    ensures !FinalizedIn(states[k].pools.epochs, n) && FinalizedIn(states[k + 1].pools.epochs, n)
  {
    hide Sound, AtRest, Exec, AllRegistered;
    Reachable(env, watched, calls, states, k);
    FeeArrives(env, states[k], calls[k], n);
  }

  lemma StaysFinalized(env: Env, watched: bool, calls: seq<Call>, states: seq<World>, i: nat, j: nat, n: int)
    requires AllValid(calls) && IsRun(env, watched, calls, states) && i <= j <= |calls|
    requires FinalizedIn(states[i].pools.epochs, n)
    ensures FinalizedIn(states[j].pools.epochs, n)
    ensures Frozen(EpochRow(states[i].pools.epochs, n), EpochRow(states[j].pools.epochs, n))
  {
    hide Exec, VerdictsKept;
    RunAdvances(env, watched, calls, states, i, j);
    assert ClosedKept(states[i].pools.epochs, states[j].pools.epochs);
  }

  /** An epoch is finalized exactly when one earlier call has closed it, and there is only one such call. */
  lemma {:induction false} ClosedByOneCall(env: Env, watched: bool, calls: seq<Call>, states: seq<World>, i: nat,
                                           n: int)
    requires AllValid(calls) && IsRun(env, watched, calls, states) && i <= |calls|
    ensures FinalizedIn(states[i].pools.epochs, n) <==> exists k :: 0 <= k < i && ClosesAt(calls, states, k, n)
    ensures forall k, m :: ClosesAt(calls, states, k, n) && ClosesAt(calls, states, m, n) ==> k == m
  {
    hide Sound, AtRest, Exec, FinalizedIn, Closable;
    forall k, m | ClosesAt(calls, states, k, n) && ClosesAt(calls, states, m, n) && k < m ensures false {
      ClosedAfterwards(env, watched, calls, states, k, n);
      ClosedAfterwards(env, watched, calls, states, m, n);
      StaysFinalized(env, watched, calls, states, k + 1, m, n);
    }
    forall k | 0 <= k < i && ClosesAt(calls, states, k, n) ensures FinalizedIn(states[i].pools.epochs, n) {
      ClosedAfterwards(env, watched, calls, states, k, n);
      StaysFinalized(env, watched, calls, states, k + 1, i, n);
    }
    if i == 0 {
      assert !FinalizedIn(states[0].pools.epochs, n) by { NothingFinalized(watched, n); }
    } else if FinalizedIn(states[i].pools.epochs, n) {
      ClosedByOneCall(env, watched, calls, states, i - 1, n);
      Reachable(env, watched, calls, states, i - 1);
      FeeArrives(env, states[i - 1], calls[i - 1], n);
      assert !FinalizedIn(states[i - 1].pools.epochs, n) ==> ClosesAt(calls, states, i - 1, n);
    }
  }

  lemma NothingFinalized(watched: bool, n: int)
    ensures !FinalizedIn(Genesis(watched).pools.epochs, n) && TotalIn(Genesis(watched).pools.epochs, n) == 0.0
  {
  }
}
