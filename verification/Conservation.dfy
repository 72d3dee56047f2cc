/**
 * Runs made of orchestrated calls only: every fee is exactly half a percent of what was minted, and
 * it is either still pending in a pool, or was split three to one between nodes and reserve.
 */
module Conservation {
  import opened Folds
  import opened Events
  import opened NodeChain
  import opened StateRecording
  import opened Pot
  import opened Nodes
  import opened Reserve
  import opened Settlement
  import opened Commission
  import opened Release
  import opened Lifecycle
  import opened EventSourcing
  import opened Soundness
  import opened CallInvariants
  import opened RunEffects
  import opened Progress

  // ----- the invariant of orchestrated runs -----

  ghost predicate Settleable(part: Participation, verdicts: VerdictTable, nodes: seq<Node>)
  {
    part.processId in verdicts && Registered(nodes, part.nodeId)
  }

  ghost predicate PartsSettleable(participation: ParticipationIndex, verdicts: VerdictTable, nodes: seq<Node>)
  {
    forall n :: n in participation ==> forall part :: part in participation[n] ==> Settleable(part, verdicts, nodes)
  }

  ghost predicate AllPositive(verdicts: VerdictTable) { forall p :: p in verdicts ==> verdicts[p].verified }

  ghost predicate OpenEpochsWorked(pools: Pools)
  {
    forall e :: e in pools.epochs && e.status == Open ==> PartsOf(pools.participation, e.epochNumber) != []
  }

  /** What only orchestrated calls can guarantee. */
  ghost predicate Earned(w: World)
  {
    && AllPositive(w.verdicts)
    && AllFull(w.nodes)
    && PartsSettleable(w.pools.participation, w.verdicts, w.nodes)
    && OpenEpochsWorked(w.pools)
    && Replay(w.journal.chain).paid == 3.0 * Replay(w.journal.chain).margins
  }

  function FeesOf(): Epoch -> real { (e: Epoch) => e.totalFees }

  function AllFees(w: World): real { Sum(FeesOf(), w.pools.epochs) }

  /** All fees ever accrued, plus what the run in progress still owes, are 0.5 % of all minted. */
  ghost predicate FeesMatch(w: World, owed: real)
  {
    AllFees(w) + owed == 0.005 * w.coin.processMinted
  }

  lemma QuietEarned(env: Env, w: World, w': World)
    requires Earned(w) && Quiet(env, w, w')
    ensures Earned(w') && forall owed :: FeesMatch(w, owed) ==> FeesMatch(w', owed)
  {
    hide AllFull, AllPositive, OpenEpochsWorked, Replay, Chained, AllWell;
    forall n | n in w'.pools.participation
      ensures forall part :: part in w'.pools.participation[n] ==> Settleable(part, w'.verdicts, w'.nodes)
    {
      forall part | part in w'.pools.participation[n] ensures Settleable(part, w'.verdicts, w'.nodes) {
        assert Settleable(part, w.verdicts, w.nodes);
      }
    }
  }

  /** With the four events recorded on an intact chain, a first verdict is positive. */
  lemma EarnedVerify(env: Env, w: World, processId: string)
    requires Sound(env, w) && Earned(w)
    requires forall e :: e in REQUIRED ==> e in EventsOf(w.captured, processId)
    ensures Earned(Verify(env, w, processId))
    ensures Confirmed(Verify(env, w, processId).verdicts, processId)
    ensures AllFees(Verify(env, w, processId)) == AllFees(w) && Verify(env, w, processId).coin == w.coin
    ensures Verify(env, w, processId).nodes == w.nodes
  {
    hide AllFull, OpenEpochsWorked, NextSnapshot, FailureReasons, Step, Replay, EpochsMatch;
    if processId !in w.verdicts {
      var have := EventsOf(w.captured, processId);
      assert REQUIRED[0] in have && REQUIRED[1] in have && REQUIRED[2] in have && REQUIRED[3] in have;
      assert Chained(env, w.journal.chain);
      assert Evidence(Intact(env, w.journal.chain), have);
      VerdictKeepsSums(env, w.journal, processId, have);
      PartsStillSettleable(w.pools.participation, w.verdicts, Verify(env, w, processId).verdicts, w.nodes, w.nodes);
    }
  }

  lemma VerdictKeepsSums(env: Env, j: Journal, processId: string, have: set<EventType>)
    ensures var t, t' := Replay(j.chain), Replay(VerdictJournal(env, j, processId, have).chain);
            t'.paid == t.paid && t'.margins == t.margins
  {
    hide FailureReasons, Evidence, Intact, Replay, NextSnapshot;
    var chainOk := Intact(env, j.chain);
    var record := VerdictRecord(processId, Evidence(chainOk, have), FailureReasons(chainOk, have));
    LogReplays(env, j, PotVerified, record);
    SnapshotCarries(env, j.chain, PotVerified, record, j.tick + 1);
  }

  lemma PartsStillSettleable(participation: ParticipationIndex, verdicts: VerdictTable, verdicts': VerdictTable,
                             nodes: seq<Node>, nodes': seq<Node>)
    requires PartsSettleable(participation, verdicts, nodes)
    requires forall p :: p in verdicts ==> p in verdicts'
    requires forall id :: Registered(nodes, id) ==> Registered(nodes', id)
    ensures PartsSettleable(participation, verdicts', nodes')
  {
    forall n, part | n in participation && part in participation[n] ensures Settleable(part, verdicts', nodes') {
      assert Settleable(part, verdicts, nodes);
    }
  }

  lemma EarnedMint(env: Env, w: World, processId: string, amount: real)
    requires Earned(w) && FeesMatch(w, 0.0)
    ensures Earned(Mint(env, w, processId, amount)) && FeesMatch(Mint(env, w, processId, amount), 0.005 * amount)
  {
    hide AllFull, AllPositive, OpenEpochsWorked, PartsSettleable, Replay, NextSnapshot;
    LogReplays(env, w.journal, EmissionMinted, MintRecord(processId, amount));
    SnapshotCarries(env, w.journal.chain, EmissionMinted, MintRecord(processId, amount), w.journal.tick + 1);
  }

  lemma EarnedBurn(env: Env, w: World, processId: string, amount: real)
    requires Earned(w) && FeesMatch(w, 0.0)
    ensures Earned(Burn(env, w, processId, amount)) && FeesMatch(Burn(env, w, processId, amount), 0.0)
  {
    hide AllFull, AllPositive, OpenEpochsWorked, PartsSettleable, Replay, NextSnapshot;
    LogReplays(env, w.journal, EmissionBurned, BurnRecord(processId, amount));
    SnapshotCarries(env, w.journal.chain, EmissionBurned, BurnRecord(processId, amount), w.journal.tick + 1);
  }

  lemma PartsAfterAccrual(participation: ParticipationIndex, n: int, parts: seq<Participation>,
                          verdicts: VerdictTable, nodes: seq<Node>)
    requires PartsSettleable(participation, verdicts, nodes)
    requires forall part :: part in parts ==> Settleable(part, verdicts, nodes)
    ensures PartsSettleable(participation[n := PartsOf(participation, n) + parts], verdicts, nodes)
  {
    hide Settleable;
  }

  lemma OpenEpochsAfterAccrual(pools: Pools, row: Epoch, parts: seq<Participation>)
    requires OpenEpochsWorked(pools) && UniqueEpochs(pools.epochs) && parts != []
    ensures OpenEpochsWorked(Pools(SavedEpoch(pools.epochs, row),
              pools.participation[row.epochNumber := PartsOf(pools.participation, row.epochNumber) + parts]))
  {
    SavedEpochRows(pools.epochs, row);
  }

  lemma EarnedAccrue(w: World, n: int, fee: real, parts: seq<Participation>)
    requires Earned(w) && FeesMatch(w, fee) && UniqueEpochs(w.pools.epochs)
    requires parts != [] && forall part :: part in parts ==> Settleable(part, w.verdicts, w.nodes)
    ensures Earned(Accrue(w, n, fee, parts)) && FeesMatch(Accrue(w, n, fee, parts), 0.0)
  {
    hide AllFull, AllPositive, Replay, Settleable, UniqueEpochs, OpenEpochsWorked, PartsSettleable, SavedEpoch;
    var row := RowFor(w.pools, w.journal.tick, n);
    var row' := row.(totalFees := row.totalFees + fee);
    PartsAfterAccrual(w.pools.participation, n, parts, w.verdicts, w.nodes);
    OpenEpochsAfterAccrual(w.pools, row', parts);
    SavedEpochSum(FeesOf(), w.pools.epochs, row');
  }

  // ----- a verified run -----

  lemma EarnedProduce(env: Env, w: World, processId: string, amount: real, epoch: int, ids: seq<string>)
    requires Sound(env, w) && AtRest(w) && Earned(w) && FeesMatch(w, 0.0)
    requires Confirmed(w.verdicts, processId) && amount > 0.0
    requires ids != [] && forall id :: id in ids ==> Registered(w.nodes, id)
    ensures Earned(Produce(env, w, processId, amount, epoch, ids))
    ensures FeesMatch(Produce(env, w, processId, amount, epoch, ids), 0.0)
  {
    hide Sound, Quiet, Mint, Burn, Accrue, MintStage, Replay, Earned, FeesMatch, Registered, UniqueEpochs;
    EarnedMint(env, w, processId, amount);
    QuietMintTail(env, w, processId, amount);
    var minted := MintStage(env, w, processId, amount);
    QuietEarned(env, Mint(env, w, processId, amount), minted);
    SoundMint(env, w, processId, amount);
    QuietSound(env, Mint(env, w, processId, amount), minted);
    StageEffects(env, w, processId, amount);
    var parts := PartsFor(processId, ids);
    forall part | part in parts ensures Settleable(part, minted.verdicts, minted.nodes) {
      var i :| 0 <= i < |parts| && parts[i] == part;
      assert ids[i] in ids;
    }
    SoundParts(env, minted);
    EarnedAccrue(minted, epoch, ComputeFee(amount), parts);
    var accrued := Accrue(minted, epoch, ComputeFee(amount), parts);
    EarnedBurn(env, accrued, processId, amount);
    var burned := Burn(env, accrued, processId, amount);
    QuietObserve(env, burned, Burned(processId, amount));
    QuietEarned(env, burned, Produce(env, w, processId, amount, epoch, ids));
  }

  lemma EarnedParts(w: World)
    requires Earned(w)
    ensures AllFull(w.nodes) && forall p :: p in w.verdicts ==> w.verdicts[p].verified
  {
  }

  /**
   * A run of an orchestrated history: it keeps the invariant; it is verified exactly when it is
   * admissible and every node it names is registered; it is never refused as unverified.
   */
  lemma EarnedRun(env: Env, w: World, r: Request)
    requires Sound(env, w) && AtRest(w) && Earned(w) && FeesMatch(w, 0.0) && r.amount > 0.0
    ensures Earned(RunProcess(env, w, r).0) && FeesMatch(RunProcess(env, w, r).0, 0.0)
    ensures Verified(r, RunProcess(env, w, r).1) <==> r.admissible && NamesRegistered(r, w.nodes)
    ensures RunProcess(env, w, r).1.Completed? ==> RunProcess(env, w, r).1.result.reason != Some(Unverified)
    ensures RunProcess(env, w, r).1 != EmissionRefused
  {
    hide Sound, AtRest, Quiet, Initiate, Observe, Judge, Resolve, RecordStages, RecordAssignment, WorkAll, Decided,
         Volume, Earned, FeesMatch, EventsOf, NamesRegistered, Verified;
    GateOpens(env, w, r);
    EarnedParts(w);
    MintNeverRefuses(env, w, r);
    var started := Initiate(env, w, r);
    QuietInitiate(env, w, r);
    QuietEarned(env, w, started);
    if !r.admissible {
      QuietObserve(env, started, Rejected(r.processId));
      QuietEarned(env, started, RunProcess(env, w, r).0);
    } else {
      SoundParts(env, w);
      ReachesVerdict(env, w, r);
      RecordedBefore(env, w, r);
      var (executed, ids, ok) := Executed(env, started, r);
      QuietRest(env, w, executed);
      QuietEarned(env, w, executed);
      if ok { EarnedDecided(env, executed, r, ids); }
    }
  }

  lemma EarnedDecided(env: Env, w: World, r: Request, ids: seq<string>)
    requires Sound(env, w) && AtRest(w) && Earned(w) && FeesMatch(w, 0.0) && r.amount > 0.0
    requires forall e :: e in REQUIRED ==> e in EventsOf(w.captured, r.processId)
    requires ids != [] && forall id :: id in ids ==> Registered(w.nodes, id)
    ensures r.processId in Judge(env, w, r.processId).verdicts
    ensures Earned(Decided(env, Judge(env, w, r.processId), r, ids).0)
    ensures FeesMatch(Decided(env, Judge(env, w, r.processId), r, ids).0, 0.0)
    ensures Decided(env, Judge(env, w, r.processId), r, ids).1.Completed? ==>
              Decided(env, Judge(env, w, r.processId), r, ids).1.result.reason != Some(Unverified)
  {
    hide Sound, Quiet, Judge, Verify, Produce, CloseStage, Refuse, Volume, Replay, Earned, FeesMatch, Registered,
         EventsOf, AllFees;
    EarnedVerify(env, w, r.processId);
    SoundJudge(env, w, r.processId);
    var verified, judged := Verify(env, w, r.processId), Judge(env, w, r.processId);
    FeesFollow(w, verified);
    QuietReplay(env, verified, judged);
    QuietKeepsNodes(env, verified, judged);
    QuietEarned(env, verified, judged);
    EarnedProduce(env, judged, r.processId, r.amount, EpochOf(r), ids);
    var produced := Produce(env, judged, r.processId, r.amount, EpochOf(r), ids);
    QuietClose(env, produced, r.processId);
    QuietEarned(env, produced, CloseStage(env, produced, r.processId));
  }

  lemma FeesFollow(w: World, w': World)
    ensures AllFees(w') == AllFees(w) && w'.coin == w.coin && FeesMatch(w, 0.0) ==> FeesMatch(w', 0.0)
  {
  }

  // ----- finalizing -----

  /** An open epoch of an orchestrated history always has confirmed weight to pay. */
  lemma OpenEpochPayable(env: Env, w: World, n: int)
    requires Sound(env, w) && Earned(w)
    requires HasEpoch(w.pools.epochs, n) && EpochRow(w.pools.epochs, n).status == Open
    ensures Payable(PartsOf(w.pools.participation, n), w.verdicts, w.nodes)
  {
    hide Replay, EpochsMatch, Weigh, TotalWeight;
    var parts := PartsOf(w.pools.participation, n);
    assert n in w.pools.participation && parts[0] in parts;
    forall part | part in parts ensures Settleable(part, w.verdicts, w.nodes) {
      assert part in w.pools.participation[n];
    }
    var node := Lookup(w.nodes, parts[0].nodeId);
    assert NeverFailed(node);
    assert forall x :: x in w.nodes ==> WellWeighted(x);
    ConfirmedWorkIsPayable(parts, w.verdicts, w.nodes, parts[0]);
  }

  lemma FinalizeSums(env: Env, w: World, ws: Weights, n: int)
    requires Sound(env, w) && HasEpoch(w.pools.epochs, n) && EpochRow(w.pools.epochs, n).status == Open
    requires Payees(ws, w.nodes) && TotalWeight(ws) > 0.0
    ensures var f := Finalize(env, w.journal, w.coin, w.pools, w.nodes, ws, n);
            var t, t' := Replay(w.journal.chain), Replay(f.journal.chain);
            && t'.paid - t.paid == 3.0 * (t'.margins - t.margins)
            && Sum(FeesOf(), f.pools.epochs) == Sum(FeesOf(), w.pools.epochs)
            && f.coin.processMinted == w.coin.processMinted
  {
    hide Replay, Receipts, PaidIn, Distribution, TotalWeight, NextSnapshot, SavedEpoch, Abs, Chained, AllWell;
    var e := EpochRow(w.pools.epochs, n);
    OpenRowFees(Replay(w.journal.chain), w.pools.epochs, e);
    SplitFigures(ws, e.totalFees);
    FinalizeReplay(env, w.journal, w.coin, w.pools, w.nodes, ws, n);
    var f := Finalize(env, w.journal, w.coin, w.pools, w.nodes, ws, n);
    FinalizeRow(env, w.journal, w.coin, w.pools, w.nodes, ws, n);
    var split := SplitPool(ws, e.totalFees);
    SavedEpochSum(FeesOf(), w.pools.epochs,
      e.(distributionLog := split.Entries(), operationalMargin := split.margin, status := Finalized,
         endTime := EpochEnd(f, n)));
  }

  lemma OpenEpochsAfterFinalize(pools: Pools, row: Epoch)
    requires OpenEpochsWorked(pools) && UniqueEpochs(pools.epochs) && row.status == Finalized
    ensures OpenEpochsWorked(Pools(SavedEpoch(pools.epochs, row), pools.participation - {row.epochNumber}))
  {
    SavedEpochRows(pools.epochs, row);
  }

  /** Finalizing an existing epoch of an orchestrated history never throws, and splits three to one. */
  lemma EarnedSettle(env: Env, w: World, n: int)
    requires Sound(env, w) && Earned(w) && FeesMatch(w, 0.0)
    ensures Earned(SettleEpoch(env, w, n).0) && FeesMatch(SettleEpoch(env, w, n).0, 0.0)
    ensures SettleEpoch(env, w, n).1.Done? <==> HasEpoch(w.pools.epochs, n)
  {
    hide Replay, Receipts, PaidIn, Distribution, TotalWeight, NextSnapshot, SavedEpoch, Abs, Chained, AllWell, AllFull,
         AllPositive, Weigh, OpenEpochsWorked, Settleable, ToResult, UniqueEpochs;
    if HasEpoch(w.pools.epochs, n) && EpochRow(w.pools.epochs, n).status == Open {
      var parts := PartsOf(w.pools.participation, n);
      OpenEpochPayable(env, w, n);
      var ws := Weigh(parts, w.verdicts, w.nodes).value;
      WeighedArePayees(parts, w.verdicts, w.nodes);
      FinalizeSums(env, w, ws, n);
      var e := EpochRow(w.pools.epochs, n);
      FinalizeRow(env, w.journal, w.coin, w.pools, w.nodes, ws, n);
      var f := Finalize(env, w.journal, w.coin, w.pools, w.nodes, ws, n);
      var split := SplitPool(ws, e.totalFees);
      OpenEpochsAfterFinalize(w.pools,
        e.(distributionLog := split.Entries(), operationalMargin := split.margin, status := Finalized,
           endTime := EpochEnd(f, n)));
    }
  }

  lemma EarnedFinalize(env: Env, w: World, n: int)
    requires Sound(env, w) && Earned(w) && FeesMatch(w, 0.0)
    ensures Earned(FinalizeEpoch(env, w, n).0) && FeesMatch(FinalizeEpoch(env, w, n).0, 0.0)
    ensures FinalizeEpoch(env, w, n).1.Done? <==> HasEpoch(w.pools.epochs, n)
  {
    hide Sound, Quiet, SettleEpoch, Observe, CompareSupply, Earned, FeesMatch;
    EarnedSettle(env, w, n);
    var (settled, outcome) := SettleEpoch(env, w, n);
    if outcome.Done? {
      var r := outcome.result;
      var note := Distributed(n, r.paid, r.operationalMargin, r.reconciled);
      QuietObserve(env, settled, note);
      QuietEarned(env, settled, Observe(env, settled, note));
      QuietCompare(env, Observe(env, settled, note));
      QuietEarned(env, Observe(env, settled, note), CompareSupply(env, Observe(env, settled, note)));
    }
  }

  lemma EarnedActivate(env: Env, w: World, threshold: real, target: real, processVolume24h: real)
    requires Earned(w) && FeesMatch(w, 0.0)
    ensures Earned(ActivateRelease(env, w, threshold, target, processVolume24h))
    ensures FeesMatch(ActivateRelease(env, w, threshold, target, processVolume24h), 0.0)
  {
    hide AllFull, AllPositive, OpenEpochsWorked, PartsSettleable, Replay, NextSnapshot, Volume, Velocity;
    var check := Check(env, w.journal.chain, w.coin, threshold, target, processVolume24h);
    var record := ReleaseRecord(check.reserveIndex, check.velocity, threshold, target);
    LogReplays(env, Tick(w.journal), ReleaseActivated, record);
    SnapshotCarries(env, w.journal.chain, ReleaseActivated, record, w.journal.tick + 2);
  }

  // ----- whole runs -----

  ghost predicate AllOrchestrated(calls: seq<Call>)
  {
    forall i :: 0 <= i < |calls| ==> calls[i].Valid() && calls[i].Orchestrated()
  }

  lemma EarnedExec(env: Env, w: World, c: Call)
    requires Sound(env, w) && AtRest(w) && Earned(w) && FeesMatch(w, 0.0) && c.Valid() && c.Orchestrated()
    ensures Earned(Exec(env, w, c)) && FeesMatch(Exec(env, w, c), 0.0)
  {
    hide Sound, AtRest, Quiet, RunProcess, FinalizeEpoch, Admit, ActivateRelease, AuditChain, Earned, FeesMatch;
    match c {
      case Run(r) => EarnedRun(env, w, r);
      case FinalizeCall(n) => EarnedFinalize(env, w, n);
      case RegisterNode(id, kind) =>
        QuietAdmit(env, w, id, kind);
        QuietEarned(env, w, Exec(env, w, c));
      case Activate(threshold, target, volume) => EarnedActivate(env, w, threshold, target, volume);
      case Audit =>
        QuietAudit(env, w);
        QuietEarned(env, w, Exec(env, w, c));
    }
  }

  lemma EarnedGenesis(watched: bool)
    ensures Earned(Genesis(watched)) && FeesMatch(Genesis(watched), 0.0)
  {
  }

  lemma {:induction false} ReachableOrchestrated(env: Env, watched: bool, calls: seq<Call>, states: seq<World>, i: nat)
    requires AllOrchestrated(calls) && IsRun(env, watched, calls, states) && i <= |calls|
    ensures var w := states[i];
            Sound(env, w) && AtRest(w) && Earned(w) && FeesMatch(w, 0.0)
  {
    hide Sound, AtRest, Exec, Earned, FeesMatch;
    if i == 0 {
      SoundGenesis(env, watched);
      EarnedGenesis(watched);
    } else {
      ReachableOrchestrated(env, watched, calls, states, i - 1);
      SoundExec(env, states[i - 1], calls[i - 1]);
      EarnedExec(env, states[i - 1], calls[i - 1]);
    }
  }

  // ----- the balance -----

  /** What an epoch holds back from nodes and reserve: all of an open pool, only late fees of a closed one. */
  function PendingOf(): Epoch -> real
  {
    (e: Epoch) => if e.status == Open then e.totalFees
        else e.totalFees - (PaidIn(e.distributionLog) + e.operationalMargin)
  }

  function Pending(w: World): real { Sum(PendingOf(), w.pools.epochs) }

  lemma {:induction false} FeesSplit(epochs: seq<Epoch>)
    ensures Sum(FeesOf(), epochs) == Sum(PendingOf(), epochs) + Sum(ClosedOf(), epochs)
  {
    if epochs != [] { FeesSplit(epochs[..|epochs| - 1]); }
  }

  /** In any reachable state every fee is retained by nodes, kept by the reserve, or pending. */
  lemma FeesAccountedFor(env: Env, w: World)
    requires Sound(env, w)
    ensures w.coin.earnedRetained + AfcTotal(w.journal.chain) + Pending(w) == AllFees(w)
    ensures Pending(w) >= 0.0
  {
    hide Replay;
    FeesSplit(w.pools.epochs);
    ReplayIsSums(w.journal.chain);
    forall e | e in w.pools.epochs ensures PendingOf()(e) >= 0.0 {
      assert RowMatches(Replay(w.journal.chain), e);
    }
    SumNonNegative(PendingOf(), w.pools.epochs);
  }

  /**
   * Global conservation. After any orchestrated calls, repeats, rejections and aborts included:
   * retained + reserve + pending = minted / 200.
   */
  lemma FeeConservation(env: Env, watched: bool, calls: seq<Call>, states: seq<World>, i: nat)
    requires AllOrchestrated(calls) && IsRun(env, watched, calls, states) && i <= |calls|
    ensures var w := states[i];
            w.coin.earnedRetained + AfcTotal(w.journal.chain) + Pending(w) == w.coin.processMinted / 200.0
  {
    hide Sound, AtRest, Earned, Exec;
    ReachableOrchestrated(env, watched, calls, states, i);
    FeesAccountedFor(env, states[i]);
  }

  /**
   * The canonical 75/25 split, end to end: nodes hold exactly three times the reserve, supply is
   * what they hold, and it never exceeds 3/800 of what was minted.
   */
  lemma CanonicalSplit(env: Env, watched: bool, calls: seq<Call>, states: seq<World>, i: nat)
    requires AllOrchestrated(calls) && IsRun(env, watched, calls, states) && i <= |calls|
    ensures var w := states[i];
            && w.coin.earnedRetained == 3.0 * AfcTotal(w.journal.chain)
            && w.coin.TotalSupply() == w.coin.earnedRetained <= (3.0 / 800.0) * w.coin.processMinted
  {
    hide AtRest, Exec, Replay, Chained, EpochsMatch;
    var w := states[i];
    ReachableOrchestrated(env, watched, calls, states, i);
    FeesAccountedFor(env, w);
    SupplyIsRetained(env, w);
    ReplayIsSums(w.journal.chain);
  }

  /** With direct service calls mixed in, nodes hold at most three times the reserve. */
  lemma SplitBound(env: Env, watched: bool, calls: seq<Call>, states: seq<World>, i: nat)
    requires AllValid(calls) && IsRun(env, watched, calls, states) && i <= |calls|
    ensures var w := states[i];
            && w.coin.earnedRetained <= 3.0 * AfcTotal(w.journal.chain)
            && w.coin.TotalSupply() == w.coin.earnedRetained
            && w.coin.earnedRetained + AfcTotal(w.journal.chain) + Pending(w) == AllFees(w)
  {
    hide Sound, AtRest, Exec;
    var w := states[i];
    Reachable(env, watched, calls, states, i);
    SupplyIsRetained(env, w);
    FeesAccountedFor(env, w);
  }

  // ----- progress -----

  /**
   * The gate never blocks honest work, and lets nothing else through: in every state of every orchestrated
   * run a request is verified, mints its amount and pays half a percent exactly when it is admissible and
   * every node it names is registered.
   */
  lemma GateProgress(env: Env, watched: bool, calls: seq<Call>, states: seq<World>, i: nat, r: Request)
    requires AllOrchestrated(calls) && IsRun(env, watched, calls, states) && i <= |calls|
    ensures Verified(r, RunProcess(env, states[i], r).1) <==> r.admissible && NamesRegistered(r, states[i].nodes)
  {
    hide Sound, AtRest, Exec, RunProcess, Verified, NamesRegistered;
    ReachableOrchestrated(env, watched, calls, states, i);
    GateOpens(env, states[i], r);
    EarnedParts(states[i]);
  }

  /** After any orchestrated calls, finalizing succeeds exactly when the epoch exists. */
  lemma FinalizeProgress(env: Env, watched: bool, calls: seq<Call>, states: seq<World>, i: nat, n: int)
    requires AllOrchestrated(calls) && IsRun(env, watched, calls, states) && i <= |calls|
    ensures var w := states[i];
            FinalizeEpoch(env, w, n).1.Done? <==> HasEpoch(w.pools.epochs, n)
  {
    hide Sound, AtRest, Exec, Earned, FeesMatch, FinalizeEpoch, SettleEpoch;
    ReachableOrchestrated(env, watched, calls, states, i);
    SettlesIff(env, states[i], n);
    if HasEpoch(states[i].pools.epochs, n) { PartsKnown(states[i], n); }
  }

  lemma PartsKnown(w: World, n: int)
    requires Earned(w)
    ensures AllRegistered(PartsOf(w.pools.participation, n), w.verdicts, w.nodes)
  {
    hide Replay;
    forall part | part in PartsOf(w.pools.participation, n) ensures Registered(w.nodes, part.nodeId) {
      assert Settleable(part, w.verdicts, w.nodes);
    }
  }
}
