/** Every public call keeps the stored rows equal to the replay of the log. */
module CallInvariants {
  import opened Folds
  import opened Events
  import opened NodeChain
  import opened StateRecording
  import opened Pot
  import opened ArosCoin
  import opened Nodes
  import opened Reserve
  import opened Settlement
  import opened Commission
  import opened Release
  import opened Lifecycle
  import opened EventSourcing
  import opened Soundness
  import JsObject

  // ----- the steps that move durable figures -----

  lemma SoundVerify(env: Env, w: World, processId: string)
    requires Sound(env, w)
    ensures Sound(env, Verify(env, w, processId))
    ensures Replay(Verify(env, w, processId).journal.chain).pairing == Replay(w.journal.chain).pairing
  {
    hide Chained, Replay, NextSnapshot, EpochsMatch, ReserveMatches, AllWell, VerdictsMatch, PhaseMatches,
         FailureReasons, Evidence, Intact;
    if processId !in w.verdicts {
      var have := EventsOf(w.captured, processId);
      var chainOk := Intact(env, w.journal.chain);
      var record := VerdictRecord(processId, Evidence(chainOk, have), FailureReasons(chainOk, have));
      LogReplays(env, w.journal, PotVerified, record);
      SnapshotCarries(env, w.journal.chain, PotVerified, record, w.journal.tick + 1);
      var t, t' := Replay(w.journal.chain), Replay(Verify(env, w, processId).journal.chain);
      StepOnVerdict(t, w.verdicts, NextSnapshot(env, w.journal.chain, PotVerified, record, w.journal.tick + 1));
      KeepsOnVerdict(t, w.verdicts, processId, record.verified, IssuedVerdict(env, w.journal, have));
      EpochsMatchSame(t, t', w.pools.epochs);
      ReserveMatchesSame(t, t');
      PhaseMatchesSame(t, t', w.phase);
    }
  }

  lemma StepOnVerdict(t: Tally, verdicts: VerdictTable, s: Snapshot)
    requires VerdictsMatch(t, verdicts) && s.eventType == PotVerified && s.payload.VerdictRecord?
              && s.payload.processId !in verdicts
    ensures Step(t, s) ==
              t.(verdicts := t.verdicts[s.payload.processId := s.payload.verified], verdictCount := t.verdictCount + 1)
  {
  }

  lemma SnapshotCarries(env: Env, c: Chain, eventType: EventType, payload: Payload, timestamp: int)
    ensures NextSnapshot(env, c, eventType, payload, timestamp).eventType == eventType
    ensures NextSnapshot(env, c, eventType, payload, timestamp).payload == payload
  {
  }

  lemma KeepsOnVerdict(t: Tally, verdicts: VerdictTable, processId: string, verified: bool, verdict: Verdict)
    ensures VerdictsMatch(t, verdicts) && processId !in verdicts && verdict.verified == verified ==>
              VerdictsMatch(t.(verdicts := t.verdicts[processId := verified], verdictCount := t.verdictCount + 1),
                            verdicts[processId := verdict])
  {
  }

  lemma EpochsMatchSame(t: Tally, t': Tally, epochs: seq<Epoch>)
    requires EpochsMatch(t, epochs)
    requires t'.closings == t.closings && t'.closingCount == t.closingCount && t'.paid == t.paid
              && t'.margins == t.margins
    ensures EpochsMatch(t', epochs)
  {
    forall e | e in epochs ensures RowMatches(t', e) { assert RowMatches(t, e); }
  }

  lemma ReserveMatchesSame(t: Tally, t': Tally)
    ensures ReserveMatches(t) && t'.afc == t.afc && t'.margins == t.margins && t'.paid == t.paid
              && t'.volume - t'.minted == t.volume - t.minted ==>
              ReserveMatches(t')
  {
  }

  lemma SoundMint(env: Env, w: World, processId: string, amount: real)
    requires Sound(env, w) && AtRest(w) && Confirmed(w.verdicts, processId)
    ensures Sound(env, Mint(env, w, processId, amount))
    ensures Replay(Mint(env, w, processId, amount).journal.chain).pairing == Awaiting(processId, amount)
  {
    hide Chained, Replay, NextSnapshot, EpochsMatch, ReserveMatches, AllWell;
    LogReplays(env, w.journal, EmissionMinted, MintRecord(processId, amount));
    SnapshotCarries(env, w.journal.chain, EmissionMinted, MintRecord(processId, amount), w.journal.tick + 1);
    EpochsMatchSame(Replay(w.journal.chain), Replay(Mint(env, w, processId, amount).journal.chain), w.pools.epochs);
    ReserveMatchesSame(Replay(w.journal.chain), Replay(Mint(env, w, processId, amount).journal.chain));
  }

  lemma SoundBurn(env: Env, w: World, processId: string, amount: real)
    requires Sound(env, w) && Replay(w.journal.chain).pairing == Awaiting(processId, amount)
    ensures Sound(env, Burn(env, w, processId, amount)) && AtRest(Burn(env, w, processId, amount))
  {
    hide Chained, Replay, NextSnapshot, EpochsMatch, ReserveMatches, AllWell;
    LogReplays(env, w.journal, EmissionBurned, BurnRecord(processId, amount));
    SnapshotCarries(env, w.journal.chain, EmissionBurned, BurnRecord(processId, amount), w.journal.tick + 1);
    EpochsMatchSame(Replay(w.journal.chain), Replay(Burn(env, w, processId, amount).journal.chain), w.pools.epochs);
    ReserveMatchesSame(Replay(w.journal.chain), Replay(Burn(env, w, processId, amount).journal.chain));
  }

  lemma SoundAccrue(env: Env, w: World, n: int, fee: real, parts: seq<Participation>)
    requires Sound(env, w) && fee >= 0.0
    ensures Sound(env, Accrue(w, n, fee, parts))
    ensures Replay(Accrue(w, n, fee, parts).journal.chain) == Replay(w.journal.chain)
  {
    hide Chained, Replay, ReserveMatches, AllWell, CoinMatches, VerdictsMatch, PhaseMatches, EmissionsMatch,
         EpochsMatch, SavedEpoch;
    var row := RowFor(w.pools, w.journal.tick, n);
    EpochsMatchAccrued(Replay(w.journal.chain), w.pools.epochs, row, fee);
  }

  /** A fee may land in an open row, a new row, or (late) in a finalized one: the rows still match. */
  lemma EpochsMatchAccrued(t: Tally, epochs: seq<Epoch>, row: Epoch, fee: real)
    requires EpochsMatch(t, epochs) && fee >= 0.0
    requires row == if HasEpoch(epochs, row.epochNumber) then EpochRow(epochs, row.epochNumber)
                    else OpenedRow(row.epochNumber, row.startTime)
    ensures EpochsMatch(t, SavedEpoch(epochs, row.(totalFees := row.totalFees + fee)))
  {
    var row' := row.(totalFees := row.totalFees + fee);
    hide PaidIn;
    SavedEpochRows(epochs, row');
    SavedEpochSum(ClosedOf(), epochs, row');
    assert RowMatches(t, row) by {
      if !HasEpoch(epochs, row.epochNumber) { assert row.epochNumber !in t.closings; }
    }
    assert RowMatches(t, row');
    forall n | n in t.closings ensures HasEpoch(SavedEpoch(epochs, row'), n) { SavedEpochHas(epochs, row', n); }
  }

  lemma {:induction false} ReceiptsReplay(env: Env, j: Journal, nodes: seq<Node>, payments: seq<DistributionEntry>)
    requires forall e :: e in payments ==> Registered(nodes, e.nodeId)
    ensures var t := Replay(j.chain);
            Replay(Receipts(env, j, nodes, payments).chain) == t.(paid := t.paid + Sum(AmountOf(), payments))
    ensures Chained(env, j.chain) ==> Chained(env, Receipts(env, j, nodes, payments).chain)
  {
    hide Chained, Replay, NextSnapshot, Registered;
    if payments != [] {
      var front, last := payments[..|payments| - 1], payments[|payments| - 1];
      ReceiptsReplay(env, j, nodes, front);
      var before := Receipts(env, j, nodes, front);
      var record := PaymentRecord(last.nodeId, last.amount, Lookup(nodes, last.nodeId).weight);
      LogReplays(env, before, NodePaymentReceived, record);
      SnapshotCarries(env, before.chain, NodePaymentReceived, record, before.tick + 1);
    }
  }

  /** What a settlement adds to the replay. */
  function ClosedTally(t: Tally, record: Payload): Tally
    requires record.EpochRecord?
  {
    Step(t.(paid := t.paid + record.paid, afc := t.afc + record.operationalMargin),
         Snapshot(0, EpochFinalized, record, 0, "", ""))
  }

  lemma ClosedVolume(t: Tally, record: Payload)
    requires record.EpochRecord?
    ensures ClosedTally(t, record).volume ==
              t.volume + (if record.operationalMargin > 0.0 then record.operationalMargin else 0.0)
  {
  }

  lemma StepIgnoresLink(t: Tally, s: Snapshot, s': Snapshot)
    ensures s.eventType == s'.eventType && s.payload == s'.payload ==> Step(t, s) == Step(t, s')
  {
  }

  function ClosingRecord(n: int, total: real, split: Split): Payload
  {
    EpochRecord(n, total, split.margin, split.paid, Abs(split.paid + split.margin - total) < RECONCILE_EPSILON,
                split.Entries())
  }

  lemma FinalizeReplay(env: Env, j: Journal, coin: Coin, pools: Pools, nodes: seq<Node>, ws: Weights, n: int)
    requires HasEpoch(pools.epochs, n) && Payees(ws, nodes)
    ensures var total := EpochRow(pools.epochs, n).totalFees;
            Replay(Finalize(env, j, coin, pools, nodes, ws, n).journal.chain)
              == ClosedTally(Replay(j.chain), ClosingRecord(n, total, SplitPool(ws, total)))
    ensures Chained(env, j.chain) ==> Chained(env, Finalize(env, j, coin, pools, nodes, ws, n).journal.chain)
  {
    hide Chained, Replay, NextSnapshot, Registered, Distribution, Abs, SavedEpoch, Receipts;
    var total := EpochRow(pools.epochs, n).totalFees;
    var split := SplitPool(ws, total);
    PayeesRegistered(ws, nodes, total);
    ReceiptsReplay(env, j, nodes, split.payments);
    var paidOut := Receipts(env, j, nodes, split.payments);
    LogReplays(env, paidOut, AfcAccrual, AfcRecord(split.margin));
    SnapshotCarries(env, paidOut.chain, AfcAccrual, AfcRecord(split.margin), paidOut.tick + 1);
    var closing := Tick(Log(env, paidOut, AfcAccrual, AfcRecord(split.margin)));
    var record := ClosingRecord(n, total, split);
    LogReplays(env, closing, EpochFinalized, record);
    var snapshot := NextSnapshot(env, closing.chain, EpochFinalized, record, closing.tick + 1);
    SnapshotCarries(env, closing.chain, EpochFinalized, record, closing.tick + 1);
    StepIgnoresLink(Replay(closing.chain), snapshot, Snapshot(0, EpochFinalized, record, 0, "", ""));
  }

  /** The figures of a split of a non-negative pool. */
  lemma SplitFigures(ws: Weights, total: real)
    requires total >= 0.0
    ensures var split := SplitPool(ws, total);
            && split.paid + split.margin == total
            && split.margin >= 0.0 && 0.0 <= split.paid <= 3.0 * split.margin
            && (TotalWeight(ws) > 0.0 ==> split.paid == 3.0 * split.margin)
            && PaidIn(split.Entries()) == split.paid
  {
    hide PaidIn, Distribution, TotalWeight;
    SplitShares(ws, total);
    SplitReconciles(ws, total);
  }

  lemma OtherRowMatches(t: Tally, t': Tally, x: Epoch, n: int, record: Payload)
    ensures RowMatches(t, x) && x.epochNumber != n && t'.closings == t.closings[n := record] ==> RowMatches(t', x)
  {
    hide PaidIn;
  }

  lemma ClosedRowMatches(t: Tally, e: Epoch, split: Split, endTime: int)
    requires split.paid + split.margin == e.totalFees && split.margin >= 0.0 && PaidIn(split.Entries()) == split.paid
    requires e.epochNumber in t.closings
              && t.closings[e.epochNumber] == ClosingRecord(e.epochNumber, e.totalFees, split)
    ensures RowMatches(t,
                       e.(distributionLog := split.Entries(), operationalMargin := split.margin, status := Finalized,
                          endTime := endTime))
  {
    hide PaidIn;
  }

  lemma EpochsMatchClosed(t: Tally, epochs: seq<Epoch>, e: Epoch, split: Split, endTime: int)
    requires EpochsMatch(t, epochs) && e in epochs && e.status == Open
    requires split.paid + split.margin == e.totalFees && split.margin >= 0.0
    requires PaidIn(split.Entries()) == split.paid
    ensures var row := e.(distributionLog := split.Entries(), operationalMargin := split.margin,
                          status := Finalized, endTime := endTime);
            EpochsMatch(ClosedTally(t, ClosingRecord(e.epochNumber, e.totalFees, split)), SavedEpoch(epochs, row))
  {
    hide PaidIn, RowMatches, SavedEpoch, UniqueEpochs;
    var n, record := e.epochNumber, ClosingRecord(e.epochNumber, e.totalFees, split);
    var row :=
        e.(distributionLog := split.Entries(), operationalMargin := split.margin, status := Finalized,
           endTime := endTime);
    var t' := ClosedTally(t, record);
    OpenIsUnclosed(t, e);
    RowOfMember(epochs, e);
    SavedEpochRows(epochs, row);
    SavedEpochSum(ClosedOf(), epochs, row);
    assert t'.closings == t.closings[n := record];
    ClosedRowMatches(t', e, split, endTime);
    forall x | x in SavedEpoch(epochs, row) ensures RowMatches(t', x) {
      if x != row { OtherRowMatches(t, t', x, n, record); }
    }
    forall m | m in t'.closings ensures HasEpoch(SavedEpoch(epochs, row), m) { SavedEpochHas(epochs, row, m); }
  }

  lemma OpenIsUnclosed(t: Tally, e: Epoch)
    ensures RowMatches(t, e) && e.status == Open ==> e.epochNumber !in t.closings
  {
  }

  /** Closing an epoch with these weights. */
  lemma SoundPayout(env: Env, w: World, ws: Weights, n: int)
    requires Sound(env, w) && HasEpoch(w.pools.epochs, n) && EpochRow(w.pools.epochs, n).status == Open
    requires Payees(ws, w.nodes)
    ensures var f := Finalize(env, w.journal, w.coin, w.pools, w.nodes, ws, n);
            && Sound(env, w.(journal := f.journal, coin := f.coin, pools := f.pools))
            && Replay(f.journal.chain).pairing == Replay(w.journal.chain).pairing
  {
    hide Chained, Replay, EpochsMatch, AllWell, VerdictsMatch, PhaseMatches, SavedEpoch, PaidIn, Receipts, Abs,
         NextSnapshot, Distribution, TotalWeight, Registered, MARGIN_RECIPIENT;
    var e := EpochRow(w.pools.epochs, n);
    var f := Finalize(env, w.journal, w.coin, w.pools, w.nodes, ws, n);
    var split := SplitPool(ws, e.totalFees);
    OpenRowFees(Replay(w.journal.chain), w.pools.epochs, e);
    SplitFigures(ws, e.totalFees);
    FinalizeReplay(env, w.journal, w.coin, w.pools, w.nodes, ws, n);
    EpochsMatchClosed(Replay(w.journal.chain), w.pools.epochs, e, split, EpochEnd(f, n));
    FinalizeRow(env, w.journal, w.coin, w.pools, w.nodes, ws, n);
    VerdictsMatchSame(Replay(w.journal.chain), Replay(f.journal.chain), w.verdicts);
    PhaseMatchesSame(Replay(w.journal.chain), Replay(f.journal.chain), w.phase);
  }

  lemma SoundSettle(env: Env, w: World, n: int)
    requires Sound(env, w)
    ensures Sound(env, SettleEpoch(env, w, n).0)
    ensures Replay(SettleEpoch(env, w, n).0.journal.chain).pairing == Replay(w.journal.chain).pairing
  {
    hide Sound, Replay, Finalize, Weigh, ToResult;
    var parts := PartsOf(w.pools.participation, n);
    if HasEpoch(w.pools.epochs, n) && EpochRow(w.pools.epochs, n).status == Open
        && Weigh(parts, w.verdicts, w.nodes).Some? {
      WeighedArePayees(parts, w.verdicts, w.nodes);
      SoundPayout(env, w, Weigh(parts, w.verdicts, w.nodes).value, n);
    }
  }

  /** A settlement moves the journal, the coin row and the pools. */
  lemma SettleLeaves(env: Env, w: World, n: int)
    ensures var w' := SettleEpoch(env, w, n).0;
            w'.(journal := w.journal, coin := w.coin, pools := w.pools) == w
  {
    hide Finalize, Weigh, ToResult;
  }

  lemma SoundParts(env: Env, w: World)
    requires Sound(env, w)
    ensures Chained(env, w.journal.chain) && UniqueEpochs(w.pools.epochs) && AllWell(w.nodes)
  {
  }

  lemma OpenRowFees(t: Tally, epochs: seq<Epoch>, e: Epoch)
    requires EpochsMatch(t, epochs) && e in epochs
    ensures e.totalFees >= 0.0 || e.status != Open
  {
    assert RowMatches(t, e);
  }

  lemma VerdictsMatchSame(t: Tally, t': Tally, verdicts: VerdictTable)
    ensures VerdictsMatch(t, verdicts) && t'.verdicts == t.verdicts && t'.verdictCount == t.verdictCount ==>
              VerdictsMatch(t', verdicts)
  {
  }

  lemma PhaseMatchesSame(t: Tally, t': Tally, phase: Phase)
    ensures PhaseMatches(t, phase) && t'.releases == t.releases ==> PhaseMatches(t', phase)
  {
  }

  lemma SupplyIsRetained(env: Env, w: World)
    requires Sound(env, w) && AtRest(w)
    ensures w.coin.TotalSupply() == w.coin.earnedRetained >= 0.0
    ensures w.coin.earnedRetained <= 3.0 * AfcTotal(w.journal.chain)
  {
    hide Replay, Chained, EpochsMatch;
    ReplayIsSums(w.journal.chain);
  }

  /** The tick stamped on the row a settlement writes. */
  ghost function EpochEnd(f: Finalization, n: int): int { f.journal.tick - 1 }

  lemma FinalizeRow(env: Env, j: Journal, coin: Coin, pools: Pools, nodes: seq<Node>, ws: Weights, n: int)
    requires HasEpoch(pools.epochs, n) && Payees(ws, nodes)
    ensures var f, e := Finalize(env, j, coin, pools, nodes, ws, n), EpochRow(pools.epochs, n);
            var split := SplitPool(ws, e.totalFees);
            f.pools.epochs == SavedEpoch(pools.epochs,
              e.(distributionLog := split.Entries(), operationalMargin := split.margin, status := Finalized,
                 endTime := EpochEnd(f, n)))
  {
    hide NextSnapshot, SavedEpoch, Distribution, Receipts, Abs;
  }

  lemma SoundActivate(env: Env, w: World, threshold: real, target: real, processVolume24h: real)
    requires Sound(env, w)
    ensures Sound(env, ActivateRelease(env, w, threshold, target, processVolume24h))
    ensures Replay(ActivateRelease(env, w, threshold, target, processVolume24h).journal.chain).pairing ==
              Replay(w.journal.chain).pairing
  {
    hide Chained, Replay, NextSnapshot, EpochsMatch, ReserveMatches, AllWell, VerdictsMatch, Volume, Velocity;
    var check := Check(env, w.journal.chain, w.coin, threshold, target, processVolume24h);
    if !w.phase.active && check.mature {
      var record := ReleaseRecord(check.reserveIndex, check.velocity, threshold, target);
      var j := Tick(w.journal);
      LogReplays(env, j, ReleaseActivated, record);
      SnapshotCarries(env, j.chain, ReleaseActivated, record, j.tick + 1);
      var t' := Replay(ActivateRelease(env, w, threshold, target, processVolume24h).journal.chain);
      EpochsMatchSame(Replay(w.journal.chain), t', w.pools.epochs);
      ReserveMatchesSame(Replay(w.journal.chain), t');
      VerdictsMatchSame(Replay(w.journal.chain), t', w.verdicts);
    }
  }

  // ----- stages and calls -----

  lemma SoundJudge(env: Env, w: World, processId: string)
    requires Sound(env, w)
    ensures Sound(env, Judge(env, w, processId))
    ensures Replay(Judge(env, w, processId).journal.chain).pairing == Replay(w.journal.chain).pairing
    ensures Quiet(env, Verify(env, w, processId), Judge(env, w, processId))
  {
    hide Sound, Quiet, Verify, Capture;
    var judged := Verify(env, w, processId);
    assert processId in judged.verdicts by { VerifyDecides(env, w, processId); }
    var verified := judged.verdicts[processId].verified;
    SoundVerify(env, w, processId);
    var data := JsObject.Single("verified", Flag(verified));
    var captured := Capture(env, judged, processId, PotVerdict, data);
    QuietCapture(env, judged, processId, PotVerdict, data);
    QuietObserve(env, captured, Judged(processId, verified));
    QuietTransitive(env, judged, captured, Judge(env, w, processId));
    QuietSound(env, judged, Judge(env, w, processId));
    QuietReplay(env, judged, Judge(env, w, processId));
  }

  lemma VerifyDecides(env: Env, w: World, processId: string)
    ensures processId in Verify(env, w, processId).verdicts
  {
  }

  lemma QuietReplay(env: Env, w: World, w': World)
    requires Quiet(env, w, w')
    ensures Replay(w'.journal.chain) == Replay(w.journal.chain)
    ensures w'.coin == w.coin && w'.verdicts == w.verdicts && w'.pools == w.pools && w'.phase == w.phase
  {
  }

  lemma QuietMintTail(env: Env, w: World, processId: string, amount: real)
    ensures Quiet(env, Mint(env, w, processId, amount), MintStage(env, w, processId, amount))
  {
    hide Quiet, Mint, Capture;
    var minted := Mint(env, w, processId, amount);
    var data := JsObject.Single("minted", JsObject.Num(amount));
    var captured := Capture(env, minted, processId, EmissionRecorded, data);
    QuietCapture(env, minted, processId, EmissionRecorded, data);
    QuietObserve(env, captured, Minted(processId, amount));
    QuietTransitive(env, minted, captured, MintStage(env, w, processId, amount));
  }

  lemma SoundProduce(env: Env, w: World, processId: string, amount: real, epoch: int, ids: seq<string>)
    requires Sound(env, w) && AtRest(w) && Confirmed(w.verdicts, processId) && amount > 0.0
    ensures Sound(env, Produce(env, w, processId, amount, epoch, ids))
    ensures AtRest(Produce(env, w, processId, amount, epoch, ids))
  {
    hide Sound, Quiet, Mint, Burn, Accrue, MintStage, Replay;
    SoundMint(env, w, processId, amount);
    QuietMintTail(env, w, processId, amount);
    var minted := MintStage(env, w, processId, amount);
    QuietSound(env, Mint(env, w, processId, amount), minted);
    QuietReplay(env, Mint(env, w, processId, amount), minted);
    var accrued := Accrue(minted, epoch, ComputeFee(amount), PartsFor(processId, ids));
    SoundAccrue(env, minted, epoch, ComputeFee(amount), PartsFor(processId, ids));
    SoundBurn(env, accrued, processId, amount);
    var burned := Burn(env, accrued, processId, amount);
    QuietObserve(env, burned, Burned(processId, amount));
    QuietSound(env, burned, Produce(env, w, processId, amount, epoch, ids));
    QuietReplay(env, burned, Produce(env, w, processId, amount, epoch, ids));
  }

  lemma QuietClose(env: Env, w: World, processId: string)
    ensures Quiet(env, w, CloseStage(env, w, processId))
  {
    hide Quiet, Capture, Observe, CompareSupply;
    var data := JsObject.Single("status", JsObject.Text("done"));
    var captured := Capture(env, w, processId, FinalStatus, data);
    var observed := Observe(env, captured, Finished(processId));
    QuietCapture(env, w, processId, FinalStatus, data);
    QuietObserve(env, captured, Finished(processId));
    QuietCompare(env, observed);
    QuietTransitive(env, w, captured, observed);
    QuietTransitive(env, w, observed, CloseStage(env, w, processId));
  }

  lemma QuietRefuse(env: Env, w: World, processId: string)
    ensures Quiet(env, w, Refuse(env, w, processId))
  {
    hide Quiet, Capture, CompareSupply;
    var data := JsObject.Single("status", JsObject.Text("rejected"));
    var captured := Capture(env, w, processId, FinalStatus, data);
    QuietCapture(env, w, processId, FinalStatus, data);
    QuietCompare(env, captured);
    QuietTransitive(env, w, captured, Refuse(env, w, processId));
  }

  lemma QuietAudit(env: Env, w: World)
    ensures Quiet(env, w, AuditChain(env, w))
  {
    hide Quiet, Observe, Intact;
    QuietReflexive(env, w);
    if !Intact(env, w.journal.chain) {
      QuietObserve(env, w, ChainBreak(BreakId(env, w.journal.chain)));
    }
  }

  lemma QuietRest(env: Env, w: World, w': World)
    requires Sound(env, w) && AtRest(w) && Quiet(env, w, w')
    ensures Sound(env, w') && AtRest(w')
  {
    hide Sound;
    QuietSound(env, w, w');
  }

  /** A run ends sound and at rest, whether it was rejected, cut short, refused or completed. */
  lemma SoundRun(env: Env, w: World, r: Request)
    requires Sound(env, w) && AtRest(w) && r.amount > 0.0
    ensures Sound(env, RunProcess(env, w, r).0) && AtRest(RunProcess(env, w, r).0)
  {
    hide Sound, AtRest, Quiet, Initiate, Observe, Judge, Verify, Resolve, RecordStages, RecordAssignment, WorkAll,
         Produce, CloseStage, Refuse, Volume, ComputeFee;
    var started := Initiate(env, w, r);
    QuietInitiate(env, w, r);
    QuietRest(env, w, started);
    if !r.admissible {
      QuietObserve(env, started, Rejected(r.processId));
      QuietRest(env, started, RunProcess(env, w, r).0);
    } else {
      QuietExecuted(env, started, r);
      var executed := Executed(env, started, r).0;
      QuietRest(env, started, executed);
      if Executed(env, started, r).2 {
        SoundDecided(env, executed, r, Executed(env, started, r).1);
      }
    }
  }

  lemma SoundDecided(env: Env, w: World, r: Request, ids: seq<string>)
    requires Sound(env, w) && AtRest(w) && r.amount > 0.0
    ensures r.processId in Judge(env, w, r.processId).verdicts
    ensures Sound(env, Decided(env, Judge(env, w, r.processId), r, ids).0)
    ensures AtRest(Decided(env, Judge(env, w, r.processId), r, ids).0)
  {
    hide Sound, Quiet, Judge, Verify, Produce, CloseStage, Refuse, Volume, ComputeFee, Replay;
    VerifyDecides(env, w, r.processId);
    SoundJudge(env, w, r.processId);
    var judged := Judge(env, w, r.processId);
    QuietReplay(env, Verify(env, w, r.processId), judged);
    if judged.verdicts[r.processId].verified {
      SoundProduce(env, judged, r.processId, r.amount, EpochOf(r), ids);
      var produced := Produce(env, judged, r.processId, r.amount, EpochOf(r), ids);
      QuietClose(env, produced, r.processId);
      QuietRest(env, produced, CloseStage(env, produced, r.processId));
    } else {
      QuietRefuse(env, judged, r.processId);
      QuietRest(env, judged, Refuse(env, judged, r.processId));
    }
  }

  lemma SoundFinalize(env: Env, w: World, n: int)
    requires Sound(env, w) && AtRest(w)
    ensures Sound(env, FinalizeEpoch(env, w, n).0) && AtRest(FinalizeEpoch(env, w, n).0)
  {
    hide Sound, Quiet, SettleEpoch, Observe, CompareSupply, Replay;
    SoundSettle(env, w, n);
    var (settled, outcome) := SettleEpoch(env, w, n);
    if outcome.Done? {
      var r := outcome.result;
      var observed := Observe(env, settled, Distributed(n, r.paid, r.operationalMargin, r.reconciled));
      QuietObserve(env, settled, Distributed(n, r.paid, r.operationalMargin, r.reconciled));
      QuietRest(env, settled, observed);
      QuietCompare(env, observed);
      QuietRest(env, observed, CompareSupply(env, observed));
    }
  }

  /** Every valid call, orchestrated or direct, keeps the invariant. */
  lemma SoundExec(env: Env, w: World, c: Call)
    requires Sound(env, w) && AtRest(w) && c.Valid()
    ensures Sound(env, Exec(env, w, c)) && AtRest(Exec(env, w, c))
  {
    hide Sound, Quiet, RunProcess, FinalizeEpoch, Admit, ActivateRelease, AuditChain, Capture, Verify, Mint, Burn,
         Accrue, Employed, Replay;
    match c {
      case Run(r) => SoundRun(env, w, r);
      case FinalizeCall(n) => SoundFinalize(env, w, n);
      case RegisterNode(id, kind) =>
        QuietAdmit(env, w, id, kind);
        QuietRest(env, w, Exec(env, w, c));
      case Activate(threshold, target, volume) => SoundActivate(env, w, threshold, target, volume);
      case Audit =>
        QuietAudit(env, w);
        QuietRest(env, w, Exec(env, w, c));
      case CaptureEvent(p, e, data) =>
        QuietCapture(env, w, p, e, JsObject.SortKeys(data));
        QuietRest(env, w, Exec(env, w, c));
      case VerifyProcess(p) => SoundVerify(env, w, p);
      case EmitProcess(p, amount) =>
        if Confirmed(w.verdicts, p) {
          SoundMint(env, w, p, amount);
          SoundBurn(env, Mint(env, w, p, amount), p, amount);
        }
      case AccrueFee(n, fee, parts) => SoundAccrue(env, w, n, fee, parts);
      case Execution(id, success) =>
        if Registered(w.nodes, id) { SoundExecution(env, w, id, success); }
    }
  }

  lemma SoundExecution(env: Env, w: World, id: string, success: bool)
    requires Sound(env, w) && AtRest(w) && Registered(w.nodes, id)
    ensures Sound(env, w.(nodes := Employed(w.nodes, id, success)))
              && AtRest(w.(nodes := Employed(w.nodes, id, success)))
  {
    hide Employed, AllWell;
    EmployedNodes(w.nodes, id, success);
  }

  lemma SoundGenesis(env: Env, watched: bool)
    ensures Sound(env, Genesis(watched)) && AtRest(Genesis(watched))
  {
  }

  ghost predicate AllValid(calls: seq<Call>) { forall i :: 0 <= i < |calls| ==> calls[i].Valid() }

  /** In every state of every run the stored rows are the replay of an intact log. */
  lemma {:induction false} Reachable(env: Env, watched: bool, calls: seq<Call>, states: seq<World>, i: nat)
    requires AllValid(calls) && IsRun(env, watched, calls, states) && i <= |calls|
    ensures Sound(env, states[i]) && AtRest(states[i])
  {
    hide Sound, AtRest, Exec;
    if i == 0 {
      SoundGenesis(env, watched);
    } else {
      Reachable(env, watched, calls, states, i - 1);
      SoundExec(env, states[i - 1], calls[i - 1]);
    }
  }
}
