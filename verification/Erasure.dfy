/**
 * The Eye is passive: with it or without it, the same calls give the same answers and the same state,
 * although it takes ticks of the clock that stamps everything else.
 */
module Erasure {
  import opened Folds
  import opened Events
  import opened NodeChain
  import opened StateRecording
  import opened Pot
  import opened Nodes
  import opened Reserve
  import opened Settlement
  import opened Commission
  import opened Release
  import opened Lifecycle
  import opened Soundness
  import JsObject

  // ----- equal but for timestamps -----

  /** Hashes, links, bodies, types and numbers agree, record by record. */
  ghost predicate SameRecords(a: Chain, b: Chain)
  {
    |a| == |b| && forall k :: 0 <= k < |a| ==> a[k].(timestamp := b[k].timestamp) == b[k]
  }

  ghost predicate SameVerdicts(a: VerdictTable, b: VerdictTable)
  {
    a.Keys == b.Keys && forall p :: p in a ==> a[p].(timestamp := b[p].timestamp) == b[p]
  }

  ghost predicate SameRow(e: Epoch, f: Epoch) { e.(startTime := f.startTime, endTime := f.endTime) == f }

  ghost predicate SameEpochs(a: seq<Epoch>, b: seq<Epoch>)
  {
    |a| == |b| && forall k :: 0 <= k < |a| ==> SameRow(a[k], b[k])
  }

  ghost predicate SamePhase(p: Phase, q: Phase) { p.(activatedAt := q.activatedAt) == q }

  /** Nothing is said of the clock or of the oversight ledger. */
  ghost predicate SameButTime(a: World, b: World)
  {
    && SameRecords(a.journal.chain, b.journal.chain)
    && a.captured == b.captured
    && SameVerdicts(a.verdicts, b.verdicts)
    && a.coin == b.coin
    && a.nodes == b.nodes
    && SameEpochs(a.pools.epochs, b.pools.epochs)
    && a.pools.participation == b.pools.participation
    && SamePhase(a.phase, b.phase)
  }

  // ----- the chain -----

  lemma SameLog(env: Env, a: Journal, b: Journal, eventType: EventType, payload: Payload)
    requires SameRecords(a.chain, b.chain)
    ensures SameRecords(Log(env, a, eventType, payload).chain, Log(env, b, eventType, payload).chain)
  {
  }

  lemma SameIntact(env: Env, a: Chain, b: Chain)
    requires SameRecords(a, b)
    ensures forall k :: 0 <= k < |a| ==> (LinkedAt(env, a, k) <==> LinkedAt(env, b, k))
    ensures Intact(env, a) <==> Intact(env, b)
  {
    forall k | 0 <= k < |a| ensures LinkedAt(env, a, k) <==> LinkedAt(env, b, k) {
      assert LinkAt(a, k) == LinkAt(b, k);
    }
    assert Intact(env, a) ==> forall k :: 0 <= k < |b| ==> LinkedAt(env, b, k);
    assert Intact(env, b) ==> forall k :: 0 <= k < |a| ==> LinkedAt(env, a, k);
  }

  lemma SameBreak(env: Env, a: Chain, b: Chain)
    requires SameRecords(a, b) && !Intact(env, a) && !Intact(env, b)
    ensures BreakId(env, a) == BreakId(env, b)
  {
    hide LinkedAt;
    SameIntact(env, a, b);
    BreakIsFirst(env, a);
    BreakIsFirst(env, b);
    var i :| FirstBroken(env, a, i) && BreakId(env, a) == a[i].sequenceId;
    var j :| FirstBroken(env, b, j) && BreakId(env, b) == b[j].sequenceId;
    assert FirstBroken(env, b, i);
  }

  lemma BreakIsFirst(env: Env, c: Chain)
    requires !Intact(env, c)
    ensures exists k :: FirstBroken(env, c, k) && BreakId(env, c) == c[k].sequenceId
  {
    BreakExists(env, c, |c|);
  }

  lemma {:induction false} SameVolume(a: Chain, b: Chain)
    requires SameRecords(a, b)
    ensures Volume(a) == Volume(b)
  {
    if a != [] { SameVolume(a[..|a| - 1], b[..|b| - 1]); }
  }

  // ----- steps -----

  lemma SameObserve(env: Env, a: World, b: World, note: Note)
    ensures SameButTime(a, b) ==> SameButTime(Observe(env, a, note), Observe(env, b, note))
  {
    hide SameRecords, SameVerdicts, SameEpochs, SamePhase;
  }

  lemma SameCompare(env: Env, a: World, b: World)
    ensures SameButTime(a, b) ==> SameButTime(CompareSupply(env, a), CompareSupply(env, b))
  {
    hide SameRecords, SameVerdicts, SameEpochs, SamePhase;
  }

  lemma SameCapture(env: Env, a: World, b: World, q: string, eventType: EventType, data: JsObject.Obj)
    requires SameButTime(a, b)
    ensures SameButTime(Capture(env, a, q, eventType, data), Capture(env, b, q, eventType, data))
  {
    hide SameRecords, SameVerdicts, SameEpochs, SamePhase, NextSnapshot;
    SameLog(env, a.journal, b.journal, eventType, Captured(q, data, None));
  }

  lemma SameAdmit(env: Env, a: World, b: World, id: string, kind: string)
    requires SameButTime(a, b)
    ensures SameButTime(Admit(env, a, id, kind), Admit(env, b, id, kind))
  {
    hide SameRecords, SameVerdicts, SameEpochs, SamePhase, NextSnapshot, Saved;
    SameLog(env, a.journal, b.journal, NodeRegistered, AdmissionRecord(Fresh(id, kind)));
  }

  lemma {:induction false} SameAdmitAll(env: Env, a: World, b: World, roster: seq<(string, string)>)
    requires SameButTime(a, b)
    ensures SameButTime(AdmitAll(env, a, roster), AdmitAll(env, b, roster))
  {
    hide SameButTime, Admit;
    if roster != [] {
      var front, last := roster[..|roster| - 1], roster[|roster| - 1];
      SameAdmitAll(env, a, b, front);
      SameAdmit(env, AdmitAll(env, a, front), AdmitAll(env, b, front), last.0, last.1);
    }
  }

  lemma SameVerify(env: Env, a: World, b: World, q: string)
    requires SameButTime(a, b)
    ensures SameButTime(Verify(env, a, q), Verify(env, b, q))
    ensures SameAnswer(Verify(env, a, q).verdicts, Verify(env, b, q).verdicts, q)
  {
    hide SameEpochs, SamePhase, NextSnapshot, Intact, FailureReasons, Evidence;
    if q !in a.verdicts {
      SameIntact(env, a.journal.chain, b.journal.chain);
      var chainOk := Intact(env, a.journal.chain);
      var have := EventsOf(a.captured, q);
      SameLog(env, a.journal, b.journal, PotVerified,
              VerdictRecord(q, Evidence(chainOk, have), FailureReasons(chainOk, have)));
    }
  }

  /** Both tables answer alike for `q`. */
  ghost predicate SameAnswer(a: VerdictTable, b: VerdictTable, q: string)
  {
    q in a && q in b && a[q].(timestamp := b[q].timestamp) == b[q]
  }

  lemma SameMint(env: Env, a: World, b: World, q: string, amount: real)
    requires SameButTime(a, b)
    ensures SameButTime(Mint(env, a, q, amount), Mint(env, b, q, amount))
  {
    hide SameRecords, SameVerdicts, SameEpochs, SamePhase, NextSnapshot;
    SameLog(env, a.journal, b.journal, EmissionMinted, MintRecord(q, amount));
  }

  lemma SameBurn(env: Env, a: World, b: World, q: string, amount: real)
    requires SameButTime(a, b)
    ensures SameButTime(Burn(env, a, q, amount), Burn(env, b, q, amount))
  {
    hide SameRecords, SameVerdicts, SameEpochs, SamePhase, NextSnapshot;
    SameLog(env, a.journal, b.journal, EmissionBurned, BurnRecord(q, amount));
  }

  lemma SamePosition(a: seq<Epoch>, b: seq<Epoch>, n: int)
    requires SameEpochs(a, b)
    ensures EpochPosition(a, n) == EpochPosition(b, n)
  {
    var i, j := EpochPosition(a, n), EpochPosition(b, n);
    assert i < |a| ==> SameRow(a[i], b[i]) && b[i].epochNumber == n;
    assert j < |b| ==> SameRow(a[j], b[j]) && a[j].epochNumber == n;
  }

  lemma SameSaved(a: seq<Epoch>, b: seq<Epoch>, e: Epoch, f: Epoch)
    requires SameEpochs(a, b) && SameRow(e, f)
    ensures SameEpochs(SavedEpoch(a, e), SavedEpoch(b, f))
  {
    SamePosition(a, b, e.epochNumber);
  }

  lemma SameAccrue(a: World, b: World, n: int, fee: real, parts: seq<Participation>)
    requires SameButTime(a, b)
    ensures SameButTime(Accrue(a, n, fee, parts), Accrue(b, n, fee, parts))
  {
    hide SameRecords, SameVerdicts, SamePhase, SavedEpoch;
    SamePosition(a.pools.epochs, b.pools.epochs, n);
    var e, f := RowFor(a.pools, a.journal.tick, n), RowFor(b.pools, b.journal.tick, n);
    SameSaved(a.pools.epochs, b.pools.epochs, e.(totalFees := e.totalFees + fee), f.(totalFees := f.totalFees + fee));
  }

  // ----- the stages of a run -----

  lemma SameInitiate(env: Env, a: World, b: World, r: Request)
    requires SameButTime(a, b)
    ensures SameButTime(Initiate(env, a, r), Initiate(env, b, r))
  {
    hide SameButTime, Capture, Observe;
    var data := JsObject.Single("amount", JsObject.Num(r.amount));
    SameCapture(env, a, b, r.processId, Initiation, data);
    SameObserve(env, Capture(env, a, r.processId, Initiation, data), Capture(env, b, r.processId, Initiation, data),
                Initiated(r.processId, r.amount));
  }

  lemma SameExecuted(env: Env, a: World, b: World, r: Request)
    requires SameButTime(a, b)
    ensures SameButTime(Executed(env, a, r).0, Executed(env, b, r).0)
    ensures Executed(env, a, r).1 == Executed(env, b, r).1 && Executed(env, a, r).2 == Executed(env, b, r).2
  {
    hide SameButTime, Capture, Observe, AdmitAll, WorkAll, ActiveIds;
    var q := r.processId;
    SameNodes(a, b);
    SameAdmitAll(env, a, b, DEFAULT_NODES);
    var (ra, ids) := Resolve(env, a, r.nodeIds);
    var rb := Resolve(env, b, r.nodeIds).0;
    SameNodes(ra, rb);
    var named, step := JsObject.Single("nodes", JsObject.Texts(ids)),
        JsObject.Single("stage", JsObject.Text("execute"));
    SameCapture(env, ra, rb, q, TaskAssignment, named);
    SameObserve(env, Capture(env, ra, q, TaskAssignment, named), Capture(env, rb, q, TaskAssignment, named),
                Assigned(|ids|));
    var sa, sb := RecordAssignment(env, ra, q, ids), RecordAssignment(env, rb, q, ids);
    SameCapture(env, sa, sb, q, StageTransition, step);
    SameCapture(env, Capture(env, sa, q, StageTransition, step), Capture(env, sb, q, StageTransition, step), q,
                ExecutionComplete, JsObject.EMPTY);
    SameWorked(RecordStages(env, sa, q), RecordStages(env, sb, q), ids);
  }

  lemma SameNodes(a: World, b: World)
    ensures SameButTime(a, b) ==> a.nodes == b.nodes && a.coin == b.coin && a.phase.active == b.phase.active
  {
  }

  lemma SameWorked(a: World, b: World, ids: seq<string>)
    requires SameButTime(a, b)
    ensures SameButTime(a.(nodes := WorkAll(a.nodes, ids).0), b.(nodes := WorkAll(b.nodes, ids).0))
    ensures WorkAll(a.nodes, ids).1 == WorkAll(b.nodes, ids).1
  {
    hide SameRecords, SameVerdicts, SameEpochs, SamePhase, WorkAll;
  }

  lemma SameJudge(env: Env, a: World, b: World, q: string)
    requires SameButTime(a, b)
    ensures SameButTime(Judge(env, a, q), Judge(env, b, q))
    ensures SameAnswer(Judge(env, a, q).verdicts, Judge(env, b, q).verdicts, q)
  {
    hide SameButTime, Verify, SameAnswer;
    SameVerify(env, a, b, q);
    var ja, jb := Verify(env, a, q), Verify(env, b, q);
    assert ja.verdicts[q].verified == jb.verdicts[q].verified by { SameVerifyAnswer(ja.verdicts, jb.verdicts, q); }
    var data := JsObject.Single("verified", Flag(ja.verdicts[q].verified));
    SameCapture(env, ja, jb, q, PotVerdict, data);
    SameObserve(env, Capture(env, ja, q, PotVerdict, data), Capture(env, jb, q, PotVerdict, data),
                Judged(q, ja.verdicts[q].verified));
  }

  lemma SameProduce(env: Env, a: World, b: World, q: string, amount: real, epoch: int, ids: seq<string>)
    requires SameButTime(a, b)
    ensures SameButTime(Produce(env, a, q, amount, epoch, ids), Produce(env, b, q, amount, epoch, ids))
  {
    hide SameButTime, Capture, Observe, Mint, Burn, Accrue, ComputeFee;
    var data := JsObject.Single("minted", JsObject.Num(amount));
    SameMint(env, a, b, q, amount);
    SameCapture(env, Mint(env, a, q, amount), Mint(env, b, q, amount), q, EmissionRecorded, data);
    SameObserve(env, Capture(env, Mint(env, a, q, amount), q, EmissionRecorded, data),
                Capture(env, Mint(env, b, q, amount), q, EmissionRecorded, data), Minted(q, amount));
    var ma, mb := MintStage(env, a, q, amount), MintStage(env, b, q, amount);
    var fee, parts := ComputeFee(amount), PartsFor(q, ids);
    SameAccrue(ma, mb, epoch, fee, parts);
    var aa, ab := Accrue(ma, epoch, fee, parts), Accrue(mb, epoch, fee, parts);
    SameBurn(env, aa, ab, q, amount);
    SameObserve(env, Burn(env, aa, q, amount), Burn(env, ab, q, amount), Burned(q, amount));
  }

  lemma SameClose(env: Env, a: World, b: World, q: string)
    requires SameButTime(a, b)
    ensures SameButTime(CloseStage(env, a, q), CloseStage(env, b, q))
  {
    hide SameButTime, Capture, Observe, CompareSupply;
    var data := JsObject.Single("status", JsObject.Text("done"));
    SameCapture(env, a, b, q, FinalStatus, data);
    var ca, cb := Capture(env, a, q, FinalStatus, data), Capture(env, b, q, FinalStatus, data);
    SameObserve(env, ca, cb, Finished(q));
    SameCompare(env, Observe(env, ca, Finished(q)), Observe(env, cb, Finished(q)));
  }

  lemma SameRefuse(env: Env, a: World, b: World, q: string)
    requires SameButTime(a, b)
    ensures SameButTime(Refuse(env, a, q), Refuse(env, b, q))
  {
    hide SameButTime, Capture, CompareSupply;
    var data := JsObject.Single("status", JsObject.Text("rejected"));
    SameCapture(env, a, b, q, FinalStatus, data);
    SameCompare(env, Capture(env, a, q, FinalStatus, data), Capture(env, b, q, FinalStatus, data));
  }

  lemma SameFigures(env: Env, a: World, b: World)
    requires SameButTime(a, b)
    ensures a.coin.TotalSupply() == b.coin.TotalSupply()
    ensures ReserveIndex(env, a.journal.chain) == ReserveIndex(env, b.journal.chain)
  {
    hide SameRecords, SameVerdicts, SameEpochs, SamePhase, Volume;
    SameVolume(a.journal.chain, b.journal.chain);
  }

  lemma SameDecided(env: Env, a: World, b: World, r: Request, ids: seq<string>)
    requires SameButTime(a, b) && SameAnswer(a.verdicts, b.verdicts, r.processId)
    ensures SameButTime(Decided(env, a, r, ids).0, Decided(env, b, r, ids).0)
    ensures Decided(env, a, r, ids).1 == Decided(env, b, r, ids).1
  {
    hide SameButTime, Produce, CloseStage, Refuse, ReserveIndex, ComputeFee;
    var q := r.processId;
    if !a.verdicts[q].verified {
      SameRefuse(env, a, b, q);
      SameFigures(env, Refuse(env, a, q), Refuse(env, b, q));
    } else {
      SameProduce(env, a, b, q, r.amount, EpochOf(r), ids);
      var pa, pb := Produce(env, a, q, r.amount, EpochOf(r), ids), Produce(env, b, q, r.amount, EpochOf(r), ids);
      SameFigures(env, pa, pb);
      SameClose(env, pa, pb, q);
      SameFigures(env, CloseStage(env, pa, q), CloseStage(env, pb, q));
    }
  }

  /** The same run ends alike and answers alike. */
  lemma SameRun(env: Env, a: World, b: World, r: Request)
    requires SameButTime(a, b)
    ensures SameButTime(RunProcess(env, a, r).0, RunProcess(env, b, r).0)
    ensures RunProcess(env, a, r).1 == RunProcess(env, b, r).1
  {
    hide SameButTime, Initiate, Observe, Judge, Resolve, RecordStages, RecordAssignment, WorkAll, Decided,
         ReserveIndex, SameAnswer;
    var sa, sb := Initiate(env, a, r), Initiate(env, b, r);
    SameInitiate(env, a, b, r);
    if !r.admissible {
      SameObserve(env, sa, sb, Rejected(r.processId));
      SameFigures(env, Observe(env, sa, Rejected(r.processId)), Observe(env, sb, Rejected(r.processId)));
    } else {
      SameExecuted(env, sa, sb, r);
      var (ea, ids, ok) := Executed(env, sa, r);
      var eb := Executed(env, sb, r).0;
      if ok {
        SameJudge(env, ea, eb, r.processId);
        SameDecidedRun(env, ea, eb, r, ids);
      }
    }
  }

  lemma SameDecidedRun(env: Env, a: World, b: World, r: Request, ids: seq<string>)
    requires SameButTime(a, b)
    ensures r.processId in Judge(env, a, r.processId).verdicts && r.processId in Judge(env, b, r.processId).verdicts
    ensures SameButTime(Decided(env, Judge(env, a, r.processId), r, ids).0,
                        Decided(env, Judge(env, b, r.processId), r, ids).0)
    ensures Decided(env, Judge(env, a, r.processId), r, ids).1 == Decided(env, Judge(env, b, r.processId), r, ids).1
  {
    hide SameButTime, Judge, Decided;
    SameJudge(env, a, b, r.processId);
    SameDecided(env, Judge(env, a, r.processId), Judge(env, b, r.processId), r, ids);
  }

  // ----- settling -----

  lemma {:induction false} SameWeighing(parts: seq<Participation>, a: VerdictTable, b: VerdictTable, nodes: seq<Node>)
    requires SameVerdicts(a, b)
    ensures Weigh(parts, a, nodes) == Weigh(parts, b, nodes)
  {
    if parts != [] { SameWeighing(parts[..|parts| - 1], a, b, nodes); }
  }

  lemma {:induction false} SameReceipts(env: Env, a: Journal, b: Journal, nodes: seq<Node>,
                                        payments: seq<DistributionEntry>)
    requires SameRecords(a.chain, b.chain)
    requires forall e :: e in payments ==> Registered(nodes, e.nodeId)
    ensures SameRecords(Receipts(env, a, nodes, payments).chain, Receipts(env, b, nodes, payments).chain)
  {
    hide SameRecords, NextSnapshot, Registered;
    if payments != [] {
      var front, last := payments[..|payments| - 1], payments[|payments| - 1];
      SameReceipts(env, a, b, nodes, front);
      SameLog(env, Receipts(env, a, nodes, front), Receipts(env, b, nodes, front), NodePaymentReceived,
              PaymentRecord(last.nodeId, last.amount, Lookup(nodes, last.nodeId).weight));
    }
  }

  lemma SameFinalization(env: Env, a: World, b: World, ws: Weights, n: int)
    requires SameButTime(a, b) && HasEpoch(a.pools.epochs, n) && HasEpoch(b.pools.epochs, n) && Payees(ws, a.nodes)
    ensures var f, g := Finalize(env, a.journal, a.coin, a.pools, a.nodes, ws, n),
              Finalize(env, b.journal, b.coin, b.pools, b.nodes, ws, n);
            && SameRecords(f.journal.chain, g.journal.chain) && f.coin == g.coin && f.result == g.result
            && SameEpochs(f.pools.epochs, g.pools.epochs) && f.pools.participation == g.pools.participation
  {
    hide SameRecords, SameVerdicts, SamePhase, NextSnapshot, SavedEpoch, Abs, Registered, Receipts, Distribution;
    SamePosition(a.pools.epochs, b.pools.epochs, n);
    var e, g := EpochRow(a.pools.epochs, n), EpochRow(b.pools.epochs, n);
    assert SameRow(e, g);
    var split := SplitPool(ws, e.totalFees);
    PayeesRegistered(ws, a.nodes, e.totalFees);
    SameReceipts(env, a.journal, b.journal, a.nodes, split.payments);
    var ja, jb := Receipts(env, a.journal, a.nodes, split.payments), Receipts(env, b.journal, b.nodes, split.payments);
    var kept := AfcRecord(split.margin);
    SameLog(env, ja, jb, AfcAccrual, kept);
    var pa, pb := Tick(Log(env, ja, AfcAccrual, kept)), Tick(Log(env, jb, AfcAccrual, kept));
    SameLog(env, pa, pb, EpochFinalized,
            EpochRecord(n, e.totalFees, split.margin, split.paid,
                        Abs(split.paid + split.margin - e.totalFees) < RECONCILE_EPSILON, split.Entries()));
    SameSaved(a.pools.epochs, b.pools.epochs,
      e.(distributionLog := split.Entries(), operationalMargin := split.margin, status := Finalized,
         endTime := pa.tick),
      g.(distributionLog := split.Entries(), operationalMargin := split.margin, status := Finalized,
         endTime := pb.tick));
  }

  lemma SameSettle(env: Env, a: World, b: World, n: int)
    requires SameButTime(a, b)
    ensures SameButTime(SettleEpoch(env, a, n).0, SettleEpoch(env, b, n).0)
    ensures SettleEpoch(env, a, n).1 == SettleEpoch(env, b, n).1
  {
    hide SameRecords, SameVerdicts, SamePhase, Finalize, Weigh, PaidIn, Registered;
    SamePosition(a.pools.epochs, b.pools.epochs, n);
    var parts := PartsOf(a.pools.participation, n);
    SameWeighing(parts, a.verdicts, b.verdicts, a.nodes);
    if HasEpoch(a.pools.epochs, n) {
      assert SameRow(EpochRow(a.pools.epochs, n), EpochRow(b.pools.epochs, n));
      if EpochRow(a.pools.epochs, n).status == Open && Weigh(parts, a.verdicts, a.nodes).Some? {
        WeighedArePayees(parts, a.verdicts, a.nodes);
        SameFinalization(env, a, b, Weigh(parts, a.verdicts, a.nodes).value, n);
      }
    }
  }

  lemma SameFinalize(env: Env, a: World, b: World, n: int)
    requires SameButTime(a, b)
    ensures SameButTime(FinalizeEpoch(env, a, n).0, FinalizeEpoch(env, b, n).0)
    ensures FinalizeEpoch(env, a, n).1 == FinalizeEpoch(env, b, n).1
  {
    hide SameButTime, SettleEpoch, Observe, CompareSupply;
    SameSettle(env, a, b, n);
    var (sa, outcome) := SettleEpoch(env, a, n);
    var sb := SettleEpoch(env, b, n).0;
    if outcome.Done? {
      var note := Distributed(n, outcome.result.paid, outcome.result.operationalMargin, outcome.result.reconciled);
      SameObserve(env, sa, sb, note);
      SameCompare(env, Observe(env, sa, note), Observe(env, sb, note));
    }
  }

  lemma SameActivate(env: Env, a: World, b: World, threshold: real, target: real, processVolume24h: real)
    requires SameButTime(a, b)
    ensures SameButTime(ActivateRelease(env, a, threshold, target, processVolume24h),
                        ActivateRelease(env, b, threshold, target, processVolume24h))
    ensures Check(env, a.journal.chain, a.coin, threshold, target, processVolume24h) ==
              Check(env, b.journal.chain, b.coin, threshold, target, processVolume24h)
  {
    hide SameRecords, SameVerdicts, SameEpochs, NextSnapshot, ReserveIndex, Velocity;
    SameFigures(env, a, b);
    var check := Check(env, a.journal.chain, a.coin, threshold, target, processVolume24h);
    SameLog(env, Tick(a.journal), Tick(b.journal), ReleaseActivated,
            ReleaseRecord(check.reserveIndex, check.velocity, threshold, target));
  }

  lemma SameAudit(env: Env, a: World, b: World)
    requires SameButTime(a, b)
    ensures SameButTime(AuditChain(env, a), AuditChain(env, b))
    ensures AnswerTo(env, a, Audit) == AnswerTo(env, b, Audit)
  {
    hide SameRecords, SameVerdicts, SameEpochs, SamePhase, Observe, Intact, BreakId;
    SameIntact(env, a.journal.chain, b.journal.chain);
    if !Intact(env, a.journal.chain) {
      SameBreak(env, a.journal.chain, b.journal.chain);
      SameObserve(env, a, b, ChainBreak(BreakId(env, a.journal.chain)));
    }
  }

  // ----- calls -----

  lemma SameNext(env: Env, a: Chain, b: Chain, eventType: EventType, payload: Payload)
    ensures SameRecords(a, b) ==>
              NextSnapshot(env, a, eventType, payload, 0) == NextSnapshot(env, b, eventType, payload, 0)
  {
  }

  lemma SameCaptured(env: Env, a: World, b: World, q: string, eventType: EventType, data: JsObject.Plain)
    requires SameButTime(a, b)
    ensures AnswerTo(env, a, CaptureEvent(q, eventType, data)) == AnswerTo(env, b, CaptureEvent(q, eventType, data))
  {
    hide SameRecords, NextSnapshot, JsObject.SortKeys;
    SameNext(env, a.journal.chain, b.journal.chain, eventType, Captured(q, JsObject.SortKeys(data), None));
  }

  lemma SameAccrued(env: Env, a: World, b: World, n: int, fee: real, parts: seq<Participation>)
    requires SameButTime(a, b)
    ensures AnswerTo(env, a, AccrueFee(n, fee, parts)) == AnswerTo(env, b, AccrueFee(n, fee, parts))
  {
    hide SameRecords, SameVerdicts, SamePhase;
    SamePosition(a.pools.epochs, b.pools.epochs, n);
    if HasEpoch(a.pools.epochs, n) { assert SameRow(EpochRow(a.pools.epochs, n), EpochRow(b.pools.epochs, n)); }
  }

  lemma SameEmit(env: Env, a: World, b: World, q: string, amount: real)
    requires SameButTime(a, b)
    ensures SameButTime(Emit(env, a, q, amount), Emit(env, b, q, amount))
    ensures Confirmed(a.verdicts, q) == Confirmed(b.verdicts, q)
  {
    hide SameRecords, SameEpochs, SamePhase, Mint, Burn;
    SameMint(env, a, b, q, amount);
    SameBurn(env, Mint(env, a, q, amount), Mint(env, b, q, amount), q, amount);
  }

  lemma SameExecution(a: World, b: World, id: string, success: bool)
    requires SameButTime(a, b) && Registered(a.nodes, id) && Registered(b.nodes, id)
    ensures SameButTime(a.(nodes := Employed(a.nodes, id, success)), b.(nodes := Employed(b.nodes, id, success)))
  {
    hide SameRecords, SameVerdicts, SameEpochs, SamePhase, Employed;
  }

  /** One call, from states that differ in time only: the same answer, and states that differ in time only. */
  lemma SameExec(env: Env, a: World, b: World, c: Call)
    requires SameButTime(a, b)
    ensures SameButTime(Exec(env, a, c), Exec(env, b, c))
    ensures AnswerTo(env, a, c) == AnswerTo(env, b, c)
  {
    hide SameButTime, RunProcess, FinalizeEpoch, Admit, ActivateRelease, AuditChain, Capture, Verify, Accrue, Employed,
         Emit, Confirmed, Check, Intact, BreakId, SameAnswer, RowFor, NextSnapshot, JsObject.SortKeys;
    SameNodes(a, b);
    match c {
      case Run(r) => SameRun(env, a, b, r);
      case FinalizeCall(n) => SameFinalize(env, a, b, n);
      case RegisterNode(id, kind) => SameAdmit(env, a, b, id, kind);
      case Activate(threshold, target, volume) =>
        SameActivate(env, a, b, threshold, target, volume);
        SameNodes(a, b);
      case Audit => SameAudit(env, a, b);
      case CaptureEvent(p, e, data) =>
        SameCapture(env, a, b, p, e, JsObject.SortKeys(data));
        SameCaptured(env, a, b, p, e, data);
      case VerifyProcess(p) =>
        SameVerify(env, a, b, p);
        SameVerifyAnswer(Verify(env, a, p).verdicts, Verify(env, b, p).verdicts, p);
      case EmitProcess(p, amount) => SameEmit(env, a, b, p, amount);
      case AccrueFee(n, fee, parts) =>
        SameAccrue(a, b, n, fee, parts);
        SameAccrued(env, a, b, n, fee, parts);
      case Execution(id, success) =>
        if Registered(a.nodes, id) { SameExecution(a, b, id, success); }
    }
  }

  lemma SameVerifyAnswer(a: VerdictTable, b: VerdictTable, q: string)
    ensures SameAnswer(a, b, q) ==>
              q in a && q in b && a[q].verified == b[q].verified && a[q].reasons == b[q].reasons
                  && a[q].snapshotSequenceId == b[q].snapshotSequenceId
  {
  }

  lemma SameGenesis()
    ensures SameButTime(Genesis(true), Genesis(false))
  {
  }

  lemma {:induction false} ErasedState(env: Env, calls: seq<Call>, seen: seq<World>, unseen: seq<World>, i: nat)
    requires IsRun(env, true, calls, seen) && IsRun(env, false, calls, unseen) && i <= |calls|
    ensures SameButTime(seen[i], unseen[i])
  {
    hide SameButTime, Exec;
    if i == 0 {
      SameGenesis();
    } else {
      ErasedState(env, calls, seen, unseen, i - 1);
      SameExec(env, seen[i - 1], unseen[i - 1], calls[i - 1]);
    }
  }

  /**
   * Erasing the Eye. The same calls, whatever they are, made on a stack with the Eye and on one without
   * it, get the same answers one by one and lead through the same ledgers, pools, nodes, verdicts and
   * logs, hashes included; only clock readings differ.
   */
  lemma EyeErasure(env: Env, calls: seq<Call>, seen: seq<World>, unseen: seq<World>)
    requires IsRun(env, true, calls, seen) && IsRun(env, false, calls, unseen)
    ensures forall i :: 0 <= i <= |calls| ==> SameButTime(seen[i], unseen[i])
    ensures forall i :: 0 <= i < |calls| ==> AnswerTo(env, seen[i], calls[i]) == AnswerTo(env, unseen[i], calls[i])
  {
    hide SameButTime, Exec, AnswerTo;
    forall i | 0 <= i <= |calls| ensures SameButTime(seen[i], unseen[i]) {
      ErasedState(env, calls, seen, unseen, i);
    }
    forall i | 0 <= i < |calls| ensures AnswerTo(env, seen[i], calls[i]) == AnswerTo(env, unseen[i], calls[i]) {
      SameExec(env, seen[i], unseen[i], calls[i]);
    }
  }
}
