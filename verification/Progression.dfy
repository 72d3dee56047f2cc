/** What no call ever takes back: log records, verdicts, closed epochs, the release, reserve volume. */
module Progression {
  import opened Events
  import opened NodeChain
  import opened StateRecording
  import opened Pot
  import opened ArosCoin
  import opened Nodes
  import opened Reserve
  import opened Settlement
  import opened Commission
  import opened Release
  import opened Lifecycle
  import opened EventSourcing
  import opened Soundness
  import opened CallInvariants
  import opened RunEffects
  import JsObject

  /** The same row, but for fees that arrived late. */
  ghost predicate Frozen(e: Epoch, e': Epoch)
  {
    e'.(totalFees := e.totalFees) == e && e.totalFees <= e'.totalFees
  }

  ghost predicate ClosedKept(epochs: seq<Epoch>, epochs': seq<Epoch>)
  {
    forall n :: HasEpoch(epochs, n) && EpochRow(epochs, n).status == Finalized ==>
      HasEpoch(epochs', n) && Frozen(EpochRow(epochs, n), EpochRow(epochs', n))
  }

  ghost predicate VerdictsKept(verdicts: VerdictTable, verdicts': VerdictTable)
  {
    forall p :: p in verdicts ==> p in verdicts' && verdicts'[p] == verdicts[p]
  }

  ghost predicate Advances(w: World, w': World)
  {
    && w.journal.chain <= w'.journal.chain
    && Replay(w.journal.chain).volume <= Replay(w'.journal.chain).volume
    && VerdictsKept(w.verdicts, w'.verdicts)
    && ClosedKept(w.pools.epochs, w'.pools.epochs)
    && (w.phase.active ==> w'.phase == w.phase)
  }

  lemma AdvancesTransitive(a: World, b: World, c: World)
    requires Advances(a, b) && Advances(b, c)
    ensures Advances(a, c)
  {
    hide Replay, Frozen;
    forall n | HasEpoch(a.pools.epochs, n) && EpochRow(a.pools.epochs, n).status == Finalized
      ensures HasEpoch(c.pools.epochs, n) && Frozen(EpochRow(a.pools.epochs, n), EpochRow(c.pools.epochs, n))
    {
      FrozenTwice(EpochRow(a.pools.epochs, n), EpochRow(b.pools.epochs, n));
    }
  }

  lemma FrozenTwice(a: Epoch, b: Epoch)
    requires Frozen(a, b) && a.status == Finalized
    ensures b.status == Finalized
    ensures forall c :: Frozen(b, c) ==> Frozen(a, c)
  {
  }

  lemma QuietAdvances(env: Env, w: World, w': World)
    ensures Quiet(env, w, w') ==> Advances(w, w')
  {
    hide Replay, Chained, AllWell, AllFull;
  }

  lemma AdvancesVerify(env: Env, w: World, processId: string)
    ensures Advances(w, Verify(env, w, processId))
  {
    hide Replay, NextSnapshot, FailureReasons, Evidence, Intact;
    if processId !in w.verdicts {
      var have := EventsOf(w.captured, processId);
      var chainOk := Intact(env, w.journal.chain);
      var record := VerdictRecord(processId, Evidence(chainOk, have), FailureReasons(chainOk, have));
      LogReplays(env, w.journal, PotVerified, record);
      SnapshotCarries(env, w.journal.chain, PotVerified, record, w.journal.tick + 1);
    }
  }

  lemma AdvancesMint(env: Env, w: World, processId: string, amount: real)
    requires amount > 0.0
    ensures Advances(w, Mint(env, w, processId, amount))
  {
    hide Replay, NextSnapshot;
    LogReplays(env, w.journal, EmissionMinted, MintRecord(processId, amount));
    SnapshotCarries(env, w.journal.chain, EmissionMinted, MintRecord(processId, amount), w.journal.tick + 1);
  }

  lemma AdvancesBurn(env: Env, w: World, processId: string, amount: real)
    ensures Advances(w, Burn(env, w, processId, amount))
  {
    hide Replay, NextSnapshot;
    LogReplays(env, w.journal, EmissionBurned, BurnRecord(processId, amount));
    SnapshotCarries(env, w.journal.chain, EmissionBurned, BurnRecord(processId, amount), w.journal.tick + 1);
  }

  lemma AdvancesAccrue(w: World, n: int, fee: real, parts: seq<Participation>)
    requires UniqueEpochs(w.pools.epochs) && fee >= 0.0
    ensures Advances(w, Accrue(w, n, fee, parts))
  {
    hide Replay, SavedEpoch;
    var row := RowFor(w.pools, w.journal.tick, n);
    var row' := row.(totalFees := row.totalFees + fee);
    forall m | HasEpoch(w.pools.epochs, m)
      ensures HasEpoch(SavedEpoch(w.pools.epochs, row'), m)
      ensures Frozen(EpochRow(w.pools.epochs, m), EpochRow(SavedEpoch(w.pools.epochs, row'), m))
    {
      SavedEpochHas(w.pools.epochs, row', m);
    }
  }

  lemma {:induction false} ReceiptsExtend(env: Env, j: Journal, nodes: seq<Node>, payments: seq<DistributionEntry>)
    requires forall e :: e in payments ==> Registered(nodes, e.nodeId)
    ensures j.chain <= Receipts(env, j, nodes, payments).chain
  {
    hide NextSnapshot, Registered;
    if payments != [] { ReceiptsExtend(env, j, nodes, payments[..|payments| - 1]); }
  }

  lemma FinalizeExtends(env: Env, j: Journal, coin: Coin, pools: Pools, nodes: seq<Node>, ws: Weights, n: int)
    requires HasEpoch(pools.epochs, n) && Payees(ws, nodes)
    ensures j.chain <= Finalize(env, j, coin, pools, nodes, ws, n).journal.chain
  {
    hide NextSnapshot, Distribution, Receipts, Abs, SavedEpoch, Registered;
    var total := EpochRow(pools.epochs, n).totalFees;
    PayeesRegistered(ws, nodes, total);
    ReceiptsExtend(env, j, nodes, SplitPool(ws, total).payments);
  }

  lemma AdvancesSettle(env: Env, w: World, n: int)
    requires UniqueEpochs(w.pools.epochs)
    ensures Advances(w, SettleEpoch(env, w, n).0)
  {
    hide Replay, Finalize, Weigh, ToResult, SavedEpoch, Frozen, SplitPool, Registered, UniqueEpochs;
    var parts := PartsOf(w.pools.participation, n);
    AdvancesReflexive(w);
    if HasEpoch(w.pools.epochs, n) && EpochRow(w.pools.epochs, n).status == Open
        && Weigh(parts, w.verdicts, w.nodes).Some? {
      var ws := Weigh(parts, w.verdicts, w.nodes).value;
      WeighedArePayees(parts, w.verdicts, w.nodes);
      FinalizeReplay(env, w.journal, w.coin, w.pools, w.nodes, ws, n);
      FinalizeExtends(env, w.journal, w.coin, w.pools, w.nodes, ws, n);
      FinalizeRow(env, w.journal, w.coin, w.pools, w.nodes, ws, n);
      var e := EpochRow(w.pools.epochs, n);
      var f := Finalize(env, w.journal, w.coin, w.pools, w.nodes, ws, n);
      var split := SplitPool(ws, e.totalFees);
      ClosedVolume(Replay(w.journal.chain), ClosingRecord(n, e.totalFees, split));
      ClosedKeptSaved(w.pools.epochs, e,
        e.(distributionLog := split.Entries(), operationalMargin := split.margin, status := Finalized,
           endTime := EpochEnd(f, n)));
    }
  }

  /** Rewriting an open row leaves the closed ones alone. */
  lemma ClosedKeptSaved(epochs: seq<Epoch>, e: Epoch, row: Epoch)
    requires UniqueEpochs(epochs) && HasEpoch(epochs, row.epochNumber)
    requires e == EpochRow(epochs, row.epochNumber) && e.status == Open
    ensures ClosedKept(epochs, SavedEpoch(epochs, row))
  {
    hide SavedEpoch;
    forall m | HasEpoch(epochs, m) && EpochRow(epochs, m).status == Finalized
      ensures HasEpoch(SavedEpoch(epochs, row), m) && Frozen(EpochRow(epochs, m), EpochRow(SavedEpoch(epochs, row), m))
    {
      SavedEpochHas(epochs, row, m);
    }
  }

  lemma AdvancesActivate(env: Env, w: World, threshold: real, target: real, processVolume24h: real)
    ensures Advances(w, ActivateRelease(env, w, threshold, target, processVolume24h))
  {
    hide Replay, NextSnapshot, Volume, Velocity;
    var check := Check(env, w.journal.chain, w.coin, threshold, target, processVolume24h);
    var record := ReleaseRecord(check.reserveIndex, check.velocity, threshold, target);
    LogReplays(env, Tick(w.journal), ReleaseActivated, record);
    SnapshotCarries(env, w.journal.chain, ReleaseActivated, record, w.journal.tick + 2);
  }

  lemma AdvancesProduce(env: Env, w: World, processId: string, amount: real, epoch: int, ids: seq<string>)
    requires UniqueEpochs(w.pools.epochs) && amount > 0.0
    ensures Advances(w, Produce(env, w, processId, amount, epoch, ids))
  {
    hide Quiet, Mint, Burn, Accrue, MintStage, Replay, Advances, UniqueEpochs, Observe;
    var base := Mint(env, w, processId, amount);
    var minted := MintStage(env, w, processId, amount);
    AdvancesMint(env, w, processId, amount);
    QuietMintTail(env, w, processId, amount);
    QuietAdvances(env, base, minted);
    AdvancesTransitive(w, base, minted);
    StageEffects(env, w, processId, amount);
    var parts := PartsFor(processId, ids);
    var accrued := Accrue(minted, epoch, ComputeFee(amount), parts);
    AdvancesAccrue(minted, epoch, ComputeFee(amount), parts);
    AdvancesTransitive(w, minted, accrued);
    var burned := Burn(env, accrued, processId, amount);
    AdvancesBurn(env, accrued, processId, amount);
    AdvancesTransitive(w, accrued, burned);
    QuietObserve(env, burned, Burned(processId, amount));
    QuietAdvances(env, burned, Produce(env, w, processId, amount, epoch, ids));
    AdvancesTransitive(w, burned, Produce(env, w, processId, amount, epoch, ids));
  }

  lemma AdvancesDecided(env: Env, w: World, r: Request, ids: seq<string>)
    requires Sound(env, w) && r.amount > 0.0
    ensures r.processId in Judge(env, w, r.processId).verdicts
    ensures Advances(w, Decided(env, Judge(env, w, r.processId), r, ids).0)
  {
    hide Sound, Quiet, Judge, Verify, Produce, CloseStage, Refuse, Volume, Replay, Advances, ComputeFee;
    VerifyDecides(env, w, r.processId);
    SoundJudge(env, w, r.processId);
    var verified, judged := Verify(env, w, r.processId), Judge(env, w, r.processId);
    QuietReplay(env, verified, judged);
    AdvancesVerify(env, w, r.processId);
    QuietAdvances(env, verified, judged);
    AdvancesTransitive(w, verified, judged);
    if judged.verdicts[r.processId].verified {
      SoundParts(env, judged);
      AdvancesProduce(env, judged, r.processId, r.amount, EpochOf(r), ids);
      var produced := Produce(env, judged, r.processId, r.amount, EpochOf(r), ids);
      AdvancesTransitive(w, judged, produced);
      QuietClose(env, produced, r.processId);
      QuietAdvances(env, produced, CloseStage(env, produced, r.processId));
      AdvancesTransitive(w, produced, CloseStage(env, produced, r.processId));
    } else {
      QuietRefuse(env, judged, r.processId);
      QuietAdvances(env, judged, Refuse(env, judged, r.processId));
      AdvancesTransitive(w, judged, Refuse(env, judged, r.processId));
    }
  }

  lemma AdvancesRun(env: Env, w: World, r: Request)
    requires Sound(env, w) && r.amount > 0.0
    ensures Advances(w, RunProcess(env, w, r).0)
  {
    hide Sound, Quiet, Initiate, Observe, Judge, Resolve, RecordStages, RecordAssignment, WorkAll, Decided, Volume,
         Advances;
    var started := Initiate(env, w, r);
    QuietInitiate(env, w, r);
    QuietAdvances(env, w, started);
    QuietSound(env, w, started);
    if !r.admissible {
      QuietObserve(env, started, Rejected(r.processId));
      QuietAdvances(env, started, RunProcess(env, w, r).0);
      AdvancesTransitive(w, started, RunProcess(env, w, r).0);
    } else {
      QuietExecuted(env, started, r);
      var (executed, ids, ok) := Executed(env, started, r);
      QuietAdvances(env, started, executed);
      QuietSound(env, started, executed);
      AdvancesTransitive(w, started, executed);
      if ok {
        AdvancesDecided(env, executed, r, ids);
        AdvancesTransitive(w, executed, RunProcess(env, w, r).0);
      }
    }
  }

  lemma AdvancesFinalize(env: Env, w: World, n: int)
    requires Sound(env, w)
    ensures Advances(w, FinalizeEpoch(env, w, n).0)
  {
    hide Sound, Quiet, SettleEpoch, Observe, CompareSupply, Advances;
    SoundParts(env, w);
    AdvancesSettle(env, w, n);
    var (settled, outcome) := SettleEpoch(env, w, n);
    if outcome.Done? {
      var r := outcome.result;
      var note := Distributed(n, r.paid, r.operationalMargin, r.reconciled);
      var observed := Observe(env, settled, note);
      QuietObserve(env, settled, note);
      QuietCompare(env, observed);
      QuietTransitive(env, settled, observed, CompareSupply(env, observed));
      QuietAdvances(env, settled, CompareSupply(env, observed));
      AdvancesTransitive(w, settled, CompareSupply(env, observed));
    }
  }

  /** No call, orchestrated or direct, takes any of it back. */
  lemma AdvancesExec(env: Env, w: World, c: Call)
    requires Sound(env, w) && c.Valid()
    ensures Advances(w, Exec(env, w, c))
  {
    hide Sound, Quiet, RunProcess, FinalizeEpoch, Admit, ActivateRelease, AuditChain, Capture, Verify, Mint, Burn,
         Accrue, Employed, Replay, Advances;
    match c {
      case Run(r) => AdvancesRun(env, w, r);
      case FinalizeCall(n) => AdvancesFinalize(env, w, n);
      case RegisterNode(id, kind) =>
        QuietAdmit(env, w, id, kind);
        QuietAdvances(env, w, Exec(env, w, c));
      case Activate(threshold, target, volume) => AdvancesActivate(env, w, threshold, target, volume);
      case Audit =>
        QuietAudit(env, w);
        QuietAdvances(env, w, Exec(env, w, c));
      case CaptureEvent(p, e, data) =>
        QuietCapture(env, w, p, e, JsObject.SortKeys(data));
        QuietAdvances(env, w, Exec(env, w, c));
      case VerifyProcess(p) => AdvancesVerify(env, w, p);
      case EmitProcess(p, amount) =>
        AdvancesReflexive(w);
        if Confirmed(w.verdicts, p) {
          AdvancesMint(env, w, p, amount);
          AdvancesBurn(env, Mint(env, w, p, amount), p, amount);
          AdvancesTransitive(w, Mint(env, w, p, amount), Exec(env, w, c));
        }
      case AccrueFee(n, fee, parts) =>
        SoundParts(env, w);
        AdvancesAccrue(w, n, fee, parts);
      case Execution(id, success) => AdvancesExecution(w, id, success);
    }
  }

  lemma AdvancesReflexive(w: World)
    ensures Advances(w, w) && ClosedKept(w.pools.epochs, w.pools.epochs)
  {
    hide Replay;
  }

  lemma AdvancesExecution(w: World, id: string, success: bool)
    ensures Advances(w, if Registered(w.nodes, id) then w.(nodes := Employed(w.nodes, id, success)) else w)
  {
    hide Replay, Employed;
  }

  /** Nor does any stretch of any run. */
  lemma {:induction false} RunAdvances(env: Env, watched: bool, calls: seq<Call>, states: seq<World>, i: nat, j: nat)
    requires AllValid(calls) && IsRun(env, watched, calls, states) && i <= j <= |calls|
    ensures Advances(states[i], states[j])
    decreases j
  {
    hide Sound, AtRest, Exec, Advances;
    if i == j {
      AdvancesReflexive(states[i]);
    } else {
      RunAdvances(env, watched, calls, states, i, j - 1);
      Reachable(env, watched, calls, states, j - 1);
      AdvancesExec(env, states[j - 1], calls[j - 1]);
      AdvancesTransitive(states[i], states[j - 1], states[j]);
    }
  }
}
