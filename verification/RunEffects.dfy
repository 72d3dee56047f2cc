/** What one run moves in the ledger and the pools, whatever state it starts in. */
module RunEffects {
  import opened Folds
  import opened Events
  import opened NodeChain
  import opened Pot
  import opened ArosCoin
  import opened Reserve
  import opened Settlement
  import opened Commission
  import opened Lifecycle
  import opened Soundness
  import opened CallInvariants

  ghost predicate Produced(outcome: RunOutcome) { outcome.Completed? && outcome.result.verified }

  /** The pools after the fee of a run: exactly one fee, in one epoch, for the assigned nodes. */
  ghost predicate FeeAccrued(pools: Pools, pools': Pools, r: Request, ids: seq<string>)
  {
    exists tick :: pools' == Accrued(pools, tick, EpochOf(r), ComputeFee(r.amount), PartsFor(r.processId, ids))
  }

  lemma ProduceEffect(env: Env, w: World, r: Request, ids: seq<string>)
    ensures var w' := Produce(env, w, r.processId, r.amount, EpochOf(r), ids);
            && w'.coin == Coin(w.coin.processMinted + r.amount, w.coin.processBurned + r.amount, w.coin.earnedRetained)
            && FeeAccrued(w.pools, w'.pools, r, ids)
            && w'.verdicts == w.verdicts && w'.nodes == w.nodes && w'.phase == w.phase
  {
    hide NextSnapshot, Accrued, ComputeFee, Observe, Capture;
    var minted := MintStage(env, w, r.processId, r.amount);
    StageEffects(env, w, r.processId, r.amount);
    var accrued := Accrue(minted, EpochOf(r), ComputeFee(r.amount), PartsFor(r.processId, ids));
    var burned := Burn(env, accrued, r.processId, r.amount);
    StageEffects(env, accrued, r.processId, r.amount);
    assert accrued.pools ==
        Accrued(w.pools, minted.journal.tick, EpochOf(r), ComputeFee(r.amount), PartsFor(r.processId, ids));
  }

  lemma StageEffects(env: Env, w: World, processId: string, amount: real)
    ensures var w' := MintStage(env, w, processId, amount);
            && w'.coin == w.coin.(processMinted := w.coin.processMinted + amount)
            && w'.pools == w.pools && w'.verdicts == w.verdicts && w'.nodes == w.nodes && w'.phase == w.phase
    ensures var w' := BurnStage(env, w, processId, amount);
            && w'.coin == w.coin.(processBurned := w.coin.processBurned + amount)
            && w'.pools == w.pools && w'.verdicts == w.verdicts && w'.nodes == w.nodes && w'.phase == w.phase
  {
    hide NextSnapshot;
  }

  /** A run that yields value mints, burns and accrues exactly once; any other run leaves ledger and pools alone. */
  lemma RunEffect(env: Env, w: World, r: Request)
    ensures var (w', outcome) := RunProcess(env, w, r);
            if Produced(outcome) then
              && w'.coin ==
                   Coin(w.coin.processMinted + r.amount, w.coin.processBurned + r.amount, w.coin.earnedRetained)
              && FeeAccrued(w.pools, w'.pools, r, outcome.result.assignedNodes)
              && Confirmed(w'.verdicts, r.processId)
            else w'.coin == w.coin && w'.pools == w.pools
  {
    hide Quiet, Initiate, Observe, Judge, Resolve, RecordStages, RecordAssignment, WorkAll, Decided, Volume, FeeAccrued;
    var started := Initiate(env, w, r);
    QuietInitiate(env, w, r);
    QuietReplay(env, w, started);
    if !r.admissible {
      QuietObserve(env, started, Rejected(r.processId));
      QuietReplay(env, started, RunProcess(env, w, r).0);
    } else {
      QuietExecuted(env, started, r);
      var (executed, ids, ok) := Executed(env, started, r);
      QuietReplay(env, started, executed);
      if ok { DecidedEffect(env, executed, r, ids); }
    }
  }

  lemma DecidedEffect(env: Env, w: World, r: Request, ids: seq<string>)
    ensures r.processId in Judge(env, w, r.processId).verdicts
    ensures var (w', outcome) := Decided(env, Judge(env, w, r.processId), r, ids);
            && outcome.Completed? && outcome.result.assignedNodes == ids
            && if Produced(outcome) then
                 && w'.coin ==
                      Coin(w.coin.processMinted + r.amount, w.coin.processBurned + r.amount, w.coin.earnedRetained)
                 && FeeAccrued(w.pools, w'.pools, r, ids)
                 && Confirmed(w'.verdicts, r.processId)
               else w'.coin == w.coin && w'.pools == w.pools
  {
    hide Quiet, Judge, Verify, Produce, CloseStage, Refuse, Volume, FeeAccrued, ComputeFee;
    VerifyDecides(env, w, r.processId);
    var judged := Judge(env, w, r.processId);
    JudgeEffect(env, w, r.processId);
    ProduceEffect(env, judged, r, ids);
    QuietClose(env, Produce(env, judged, r.processId, r.amount, EpochOf(r), ids), r.processId);
    QuietReplay(env, Produce(env, judged, r.processId, r.amount, EpochOf(r), ids),
                CloseStage(env, Produce(env, judged, r.processId, r.amount, EpochOf(r), ids), r.processId));
    QuietRefuse(env, judged, r.processId);
    QuietReplay(env, judged, Refuse(env, judged, r.processId));
  }

  lemma JudgeEffect(env: Env, w: World, processId: string)
    ensures processId in Judge(env, w, processId).verdicts
    ensures Judge(env, w, processId).coin == w.coin && Judge(env, w, processId).pools == w.pools
    ensures Judge(env, w, processId).nodes == w.nodes && Judge(env, w, processId).phase == w.phase
    ensures Judge(env, w, processId).verdicts.Keys == w.verdicts.Keys + {processId}
    ensures forall p :: p in w.verdicts ==> Judge(env, w, processId).verdicts[p] == w.verdicts[p]
    ensures processId in w.verdicts ==> Judge(env, w, processId).verdicts == w.verdicts
  {
    hide NextSnapshot, VerdictJournal, IssuedVerdict;
  }

  lemma CloseKeepsNodes(env: Env, w: World, processId: string)
    ensures CloseStage(env, w, processId).nodes == w.nodes && Refuse(env, w, processId).nodes == w.nodes
  {
    hide NextSnapshot;
  }

  /** The registry after a run: the assigned nodes, as resolved at its start, worked once for each mention. */
  lemma RunWorkforce(env: Env, w: World, r: Request)
    ensures var (w', outcome) := RunProcess(env, w, r);
            var (resolved, ids) := Resolve(env, Initiate(env, w, r), r.nodeIds);
            && w'.nodes == (if r.admissible then WorkAll(resolved.nodes, ids).0 else w.nodes)
            && (outcome.Completed? ==> outcome.result.assignedNodes == if r.admissible then ids else [])
  {
    hide Judge, Resolve, WorkAll, Decided, Volume, NextSnapshot;
    if r.admissible {
      var started := Initiate(env, w, r);
      var (resolved, ids) := Resolve(env, started, r.nodeIds);
      StagesKeepNodes(env, resolved, r.processId, ids);
      var (executed, _, ok) := Executed(env, started, r);
      if ok { DecidedKeepsNodes(env, executed, r, ids); }
    }
  }

  lemma StagesKeepNodes(env: Env, w: World, processId: string, ids: seq<string>)
    ensures RecordStages(env, RecordAssignment(env, w, processId, ids), processId).nodes == w.nodes
  {
    hide NextSnapshot;
  }

  lemma DecidedKeepsNodes(env: Env, w: World, r: Request, ids: seq<string>)
    ensures r.processId in Judge(env, w, r.processId).verdicts
    ensures Decided(env, Judge(env, w, r.processId), r, ids).0.nodes == w.nodes
    ensures Decided(env, Judge(env, w, r.processId), r, ids).1.Completed?
    ensures Decided(env, Judge(env, w, r.processId), r, ids).1.result.assignedNodes == ids
  {
    hide Judge, Produce, CloseStage, Refuse, Volume, ComputeFee;
    JudgeEffect(env, w, r.processId);
    var judged := Judge(env, w, r.processId);
    ProduceEffect(env, judged, r, ids);
    CloseKeepsNodes(env, judged, r.processId);
    CloseKeepsNodes(env, Produce(env, judged, r.processId, r.amount, EpochOf(r), ids), r.processId);
  }

  lemma DecidedVerdicts(env: Env, w: World, r: Request, ids: seq<string>)
    requires r.processId in w.verdicts
    ensures Decided(env, w, r, ids).0.verdicts == w.verdicts
    ensures Decided(env, w, r, ids).1.Completed? && Decided(env, w, r, ids).1.result.reason != Some(Inadmissible)
  {
    hide Volume, Produce, CloseStage, Refuse, ComputeFee, Quiet;
    var produced := Produce(env, w, r.processId, r.amount, EpochOf(r), ids);
    assert produced.verdicts == w.verdicts by { ProduceEffect(env, w, r, ids); }
    QuietClose(env, produced, r.processId);
    QuietReplay(env, produced, CloseStage(env, produced, r.processId));
    QuietRefuse(env, w, r.processId);
    QuietReplay(env, w, Refuse(env, w, r.processId));
  }

  /** What a settlement reports and pays, by its split. */
  lemma FinalizeFigures(env: Env, w: World, ws: Weights, n: int)
    requires HasEpoch(w.pools.epochs, n) && Payees(ws, w.nodes)
    ensures var total := EpochRow(w.pools.epochs, n).totalFees;
            var split := SplitPool(ws, total);
            var f := Finalize(env, w.journal, w.coin, w.pools, w.nodes, ws, n);
            && f.result == FinalizeResult(n, split.Entries(), split.margin, split.paid, total,
                                          Abs(split.paid + split.margin - total) < RECONCILE_EPSILON)
            && f.coin == w.coin.(earnedRetained := w.coin.earnedRetained + split.paid)
  {
    hide NextSnapshot, SavedEpoch, Distribution, Receipts, Abs;
  }
}
