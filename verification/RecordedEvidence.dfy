/** The in-memory event index against the log, and every verdict against the records it was read from. */
module RecordedEvidence {
  import opened Folds
  import opened Events
  import opened NodeChain
  import opened StateRecording
  import opened Pot
  import opened Nodes
  import opened Reserve
  import opened Settlement
  import opened Commission
  import opened Release
  import opened Lifecycle
  import opened Soundness
  import opened CallInvariants
  import opened RunEffects
  import opened History
  import opened Progress
  import JsObject

  // ----- reading the log -----

  /** The index as the capture records of a log spell it out. */
  function CapturedIn(c: Chain): CapturedIndex
  {
    if c == [] then map[]
    else
      var front, last := CapturedIn(c[..|c| - 1]), c[|c| - 1];
      if last.payload.Captured? then Remembered(front, last.payload.processId, last.eventType) else front
  }

  predicate IsCapture(s: Snapshot, processId: string, eventType: EventType)
  {
    s.payload.Captured? && s.payload.processId == processId && s.eventType == eventType
  }

  predicate Complete(captured: CapturedIndex, processId: string)
  {
    forall e :: e in REQUIRED ==> e in EventsOf(captured, processId)
  }

  /** Each verdict record says whether the records before it are complete for its process. */
  predicate JudgedRight(c: Chain)
  {
    c == [] ||
    (var front, last := c[..|c| - 1], c[|c| - 1];
     JudgedRight(front)
         && (IsVerdict(last) ==> last.payload.verified == Complete(CapturedIn(front), last.payload.processId)))
  }

  lemma CapturedSnoc(c: Chain, s: Snapshot, processId: string)
    ensures EventsOf(CapturedIn(c + [s]), processId) == EventsOf(CapturedIn(c), processId) +
              (if s.payload.Captured? && s.payload.processId == processId then {s.eventType} else {})
  {
    assert (c + [s])[..|c|] == c;
  }

  lemma {:induction false} CapturedMeaning(c: Chain, processId: string, e: EventType)
    ensures e in EventsOf(CapturedIn(c), processId) <==> exists k :: 0 <= k < |c| && IsCapture(c[k], processId, e)
  {
    assert EventsOf(CapturedIn([]), processId) == {};
    hide CapturedIn;
    if c != [] {
      var n := |c| - 1;
      CapturedMeaning(c[..n], processId, e);
      assert c == c[..n] + [c[n]];
      CapturedSnoc(c[..n], c[n], processId);
      if k :| 0 <= k < n && IsCapture(c[..n][k], processId, e) { assert IsCapture(c[k], processId, e); }
      if k :| 0 <= k < |c| && IsCapture(c[k], processId, e) {
        assert k < n ==> IsCapture(c[..n][k], processId, e);
      }
    }
  }

  /** Some record before position `k` captures this event of this process. */
  ghost predicate CapturedBefore(c: Chain, k: nat, processId: string, e: EventType)
    requires k <= |c|
  {
    exists j :: 0 <= j < k && IsCapture(c[j], processId, e)
  }

  lemma {:induction false} JudgedAt(c: Chain, k: nat)
    requires JudgedRight(c) && k < |c| && IsVerdict(c[k])
    ensures c[k].payload.verified == Complete(CapturedIn(c[..k]), c[k].payload.processId)
  {
    hide Complete, CapturedIn, IsVerdict;
    var n := |c| - 1;
    if k < n {
      JudgedAt(c[..n], k);
      assert c[..n][..k] == c[..k];
    }
  }

  // ----- every call keeps the index -----

  ghost predicate Indexed(w: World) { CapturedIn(w.journal.chain) == w.captured && JudgedRight(w.journal.chain) }

  ghost predicate Keeps(w: World, w': World) { Indexed(w) ==> Indexed(w') }

  /** What may be logged next: a verdict only if it says what the index says. */
  predicate Honest(w: World, payload: Payload)
  {
    payload.VerdictRecord? ==> payload.verified == Complete(w.captured, payload.processId)
  }

  function IndexAfter(w: World, eventType: EventType, payload: Payload): CapturedIndex
  {
    if payload.Captured? then Remembered(w.captured, payload.processId, eventType) else w.captured
  }

  lemma LogKeeps(env: Env, w: World, w': World, tick: int, eventType: EventType, payload: Payload)
    requires w'.journal.chain == Log(env, w.journal.(tick := tick), eventType, payload).chain
    requires w'.captured == IndexAfter(w, eventType, payload) && Honest(w, payload)
    ensures Keeps(w, w')
  {
    hide Complete;
    var c, c' := w.journal.chain, w'.journal.chain;
    assert c'[..|c' | - 1] == c;
    SnapshotCarries(env, c, eventType, payload, tick + 1);
  }

  lemma SameKeeps(w: World, w': World)
    ensures w'.journal.chain == w.journal.chain && w'.captured == w.captured ==> Keeps(w, w')
  {
  }

  lemma CaptureKeeps(env: Env, w: World, processId: string, eventType: EventType, data: JsObject.Obj)
    ensures Keeps(w, Capture(env, w, processId, eventType, data))
  {
    hide Keeps, NextSnapshot, Complete;
    LogKeeps(env, w, Capture(env, w, processId, eventType, data), w.journal.tick, eventType,
             Captured(processId, data, None));
  }

  lemma ObserveKeeps(env: Env, w: World, note: Note)
    ensures Keeps(w, Observe(env, w, note))
  {
    hide Indexed;
    SameKeeps(w, Observe(env, w, note));
  }

  lemma CompareKeeps(env: Env, w: World)
    ensures Keeps(w, CompareSupply(env, w))
  {
    hide Indexed;
    SameKeeps(w, CompareSupply(env, w));
  }

  lemma AdmitKeeps(env: Env, w: World, id: string, kind: string)
    ensures Keeps(w, Admit(env, w, id, kind))
  {
    hide Keeps, NextSnapshot, Saved;
    LogKeeps(env, w, Admit(env, w, id, kind), w.journal.tick, NodeRegistered, AdmissionRecord(Fresh(id, kind)));
  }

  lemma {:induction false} AdmitAllKeeps(env: Env, w: World, roster: seq<(string, string)>)
    ensures Keeps(w, AdmitAll(env, w, roster))
  {
    hide Indexed, Admit;
    if roster != [] {
      var front, last := roster[..|roster| - 1], roster[|roster| - 1];
      AdmitAllKeeps(env, w, front);
      AdmitKeeps(env, AdmitAll(env, w, front), last.0, last.1);
    }
  }

  /** The criteria ask for exactly the required events, once the chain audits as intact. */
  lemma EvidenceIsComplete(captured: CapturedIndex, processId: string)
    ensures Evidence(true, EventsOf(captured, processId)) == Complete(captured, processId)
  {
    var have := EventsOf(captured, processId);
    assert REQUIRED[0] in REQUIRED && REQUIRED[1] in REQUIRED && REQUIRED[2] in REQUIRED && REQUIRED[3] in REQUIRED;
  }

  lemma VerifyKeeps(env: Env, w: World, processId: string)
    requires Chained(env, w.journal.chain)
    ensures Keeps(w, Verify(env, w, processId))
  {
    hide Keeps, NextSnapshot, Intact, FailureReasons, Evidence, Complete;
    if processId in w.verdicts {
      SameKeeps(w, w);
    } else {
      var chainOk, have := Intact(env, w.journal.chain), EventsOf(w.captured, processId);
      EvidenceIsComplete(w.captured, processId);
      LogKeeps(env, w, Verify(env, w, processId), w.journal.tick, PotVerified,
               VerdictRecord(processId, Evidence(chainOk, have), FailureReasons(chainOk, have)));
    }
  }

  lemma EmissionKeeps(env: Env, w: World, processId: string, amount: real)
    ensures Keeps(w, Mint(env, w, processId, amount)) && Keeps(w, Burn(env, w, processId, amount))
  {
    hide Keeps, NextSnapshot;
    LogKeeps(env, w, Mint(env, w, processId, amount), w.journal.tick, EmissionMinted, MintRecord(processId, amount));
    LogKeeps(env, w, Burn(env, w, processId, amount), w.journal.tick, EmissionBurned, BurnRecord(processId, amount));
  }

  // ----- a run -----

  lemma InitiateKeeps(env: Env, w: World, r: Request)
    ensures Keeps(w, Initiate(env, w, r))
  {
    hide Indexed, Capture, Observe;
    var data := JsObject.Single("amount", JsObject.Num(r.amount));
    CaptureKeeps(env, w, r.processId, Initiation, data);
    ObserveKeeps(env, Capture(env, w, r.processId, Initiation, data), Initiated(r.processId, r.amount));
  }

  lemma ExecutedKeeps(env: Env, w: World, r: Request)
    ensures Keeps(w, Executed(env, w, r).0)
  {
    hide Indexed, Capture, Observe, AdmitAll, WorkAll, ActiveIds;
    var q := r.processId;
    var (resolved, ids) := Resolve(env, w, r.nodeIds);
    AdmitAllKeeps(env, w, DEFAULT_NODES);
    var named, step := JsObject.Single("nodes", JsObject.Texts(ids)),
        JsObject.Single("stage", JsObject.Text("execute"));
    CaptureKeeps(env, resolved, q, TaskAssignment, named);
    ObserveKeeps(env, Capture(env, resolved, q, TaskAssignment, named), Assigned(|ids|));
    var recorded := RecordAssignment(env, resolved, q, ids);
    CaptureKeeps(env, recorded, q, StageTransition, step);
    CaptureKeeps(env, Capture(env, recorded, q, StageTransition, step), q, ExecutionComplete, JsObject.EMPTY);
    SameKeeps(RecordStages(env, recorded, q), Executed(env, w, r).0);
  }

  lemma JudgeKeeps(env: Env, w: World, processId: string)
    requires Chained(env, w.journal.chain)
    ensures Keeps(w, Judge(env, w, processId))
  {
    hide Indexed, Capture, Observe, Verify, Chained;
    VerifyDecides(env, w, processId);
    VerifyKeeps(env, w, processId);
    var judged := Verify(env, w, processId);
    var verified := judged.verdicts[processId].verified;
    var data := JsObject.Single("verified", Flag(verified));
    CaptureKeeps(env, judged, processId, PotVerdict, data);
    ObserveKeeps(env, Capture(env, judged, processId, PotVerdict, data), Judged(processId, verified));
  }

  lemma ProduceKeeps(env: Env, w: World, q: string, amount: real, epoch: int, ids: seq<string>)
    ensures Keeps(w, Produce(env, w, q, amount, epoch, ids))
  {
    hide Indexed, Capture, Observe, Mint, Burn, Accrued, AccrualTick, ComputeFee;
    var data := JsObject.Single("minted", JsObject.Num(amount));
    EmissionKeeps(env, w, q, amount);
    CaptureKeeps(env, Mint(env, w, q, amount), q, EmissionRecorded, data);
    ObserveKeeps(env, Capture(env, Mint(env, w, q, amount), q, EmissionRecorded, data), Minted(q, amount));
    var minted := MintStage(env, w, q, amount);
    var accrued := Accrue(minted, epoch, ComputeFee(amount), PartsFor(q, ids));
    SameKeeps(minted, accrued);
    EmissionKeeps(env, accrued, q, amount);
    ObserveKeeps(env, Burn(env, accrued, q, amount), Burned(q, amount));
  }

  lemma CloseKeeps(env: Env, w: World, q: string)
    ensures Keeps(w, CloseStage(env, w, q)) && Keeps(w, Refuse(env, w, q))
  {
    hide Indexed, Capture, Observe, CompareSupply;
    var done, rejected := JsObject.Single("status", JsObject.Text("done")),
        JsObject.Single("status", JsObject.Text("rejected"));
    CaptureKeeps(env, w, q, FinalStatus, done);
    ObserveKeeps(env, Capture(env, w, q, FinalStatus, done), Finished(q));
    CompareKeeps(env, Concluded(env, w, q));
    CaptureKeeps(env, w, q, FinalStatus, rejected);
    CompareKeeps(env, Turned(env, w, q));
  }

  lemma RunKeeps(env: Env, w: World, r: Request)
    requires Sound(env, w)
    ensures Keeps(w, RunProcess(env, w, r).0)
  {
    hide Indexed, Sound, Chained, Quiet, Initiate, Observe, Judge, Resolve, RecordStages, RecordAssignment, WorkAll,
         Produce, CloseStage, Refuse, Volume, ComputeFee;
    var started := Initiate(env, w, r);
    InitiateKeeps(env, w, r);
    ObserveKeeps(env, started, Rejected(r.processId));
    if r.admissible {
      var (executed, ids, ok) := Executed(env, started, r);
      ExecutedKeeps(env, started, r);
      RecordedBefore(env, w, r);
      QuietSound(env, w, executed);
      SoundParts(env, executed);
      if ok {
        JudgeKeeps(env, executed, r.processId);
        JudgeEffect(env, executed, r.processId);
        var judged := Judge(env, executed, r.processId);
        ProduceKeeps(env, judged, r.processId, r.amount, EpochOf(r), ids);
        CloseKeeps(env, Produce(env, judged, r.processId, r.amount, EpochOf(r), ids), r.processId);
        CloseKeeps(env, judged, r.processId);
      }
    }
  }

  // ----- the other calls -----

  lemma {:induction false} ReceiptsKeep(env: Env, w: World, nodes: seq<Node>, payments: seq<DistributionEntry>)
    requires forall e :: e in payments ==> Registered(nodes, e.nodeId)
    ensures Keeps(w, w.(journal := Receipts(env, w.journal, nodes, payments)))
  {
    hide Keeps, NextSnapshot, Registered;
    if payments == [] {
      SameKeeps(w, w);
    } else {
      var front, last := payments[..|payments| - 1], payments[|payments| - 1];
      ReceiptsKeep(env, w, nodes, front);
      var before, after := w.(journal := Receipts(env, w.journal, nodes, front)),
          w.(journal := Receipts(env, w.journal, nodes, payments));
      LogKeeps(env, before, after, before.journal.tick, NodePaymentReceived,
               PaymentRecord(last.nodeId, last.amount, Lookup(nodes, last.nodeId).weight));
      KeepsTransitive(w, before, after);
    }
  }

  lemma KeepsTransitive(a: World, b: World, c: World)
    ensures Keeps(a, b) && Keeps(b, c) ==> Keeps(a, c)
  {
    hide Indexed;
  }

  /** A settlement logs the receipts, the reserve's share and the closing record. */
  lemma SettledLog(env: Env, w: World, ws: Weights, n: int)
    requires HasEpoch(w.pools.epochs, n) && Payees(ws, w.nodes)
    ensures var total := EpochRow(w.pools.epochs, n).totalFees;
            var split := SplitPool(ws, total);
            && (forall e :: e in split.payments ==> Registered(w.nodes, e.nodeId))
            && var paidOut := Log(env, Receipts(env, w.journal, w.nodes, split.payments), AfcAccrual,
                                  AfcRecord(split.margin));
               Finalize(env, w.journal, w.coin, w.pools, w.nodes, ws, n).journal ==
                 Log(env, Tick(paidOut), EpochFinalized, ClosingRecord(n, total, split))
  {
    hide NextSnapshot, SavedEpoch, Distribution, Receipts, Abs, Registered;
    PayeesRegistered(ws, w.nodes, EpochRow(w.pools.epochs, n).totalFees);
  }

  lemma SettleKeeps(env: Env, w: World, n: int)
    ensures Keeps(w, SettleEpoch(env, w, n).0)
  {
    hide Keeps, NextSnapshot, Weigh, SplitPool, Abs, ToResult, SavedEpoch, Receipts, Registered, Finalize;
    var parts := PartsOf(w.pools.participation, n);
    SameKeeps(w, w);
    if HasEpoch(w.pools.epochs, n) && EpochRow(w.pools.epochs, n).status == Open
        && Weigh(parts, w.verdicts, w.nodes).Some? {
      var ws := Weigh(parts, w.verdicts, w.nodes).value;
      WeighedArePayees(parts, w.verdicts, w.nodes);
      SettledLog(env, w, ws, n);
      var total := EpochRow(w.pools.epochs, n).totalFees;
      var split := SplitPool(ws, total);
      ReceiptsKeep(env, w, w.nodes, split.payments);
      var paidOut := w.(journal := Receipts(env, w.journal, w.nodes, split.payments));
      var accrued := w.(journal := Log(env, paidOut.journal, AfcAccrual, AfcRecord(split.margin)));
      LogKeeps(env, paidOut, accrued, paidOut.journal.tick, AfcAccrual, AfcRecord(split.margin));
      KeepsTransitive(w, paidOut, accrued);
      LogKeeps(env, accrued, SettleEpoch(env, w, n).0, accrued.journal.tick + 1, EpochFinalized,
               ClosingRecord(n, total, split));
      KeepsTransitive(w, accrued, SettleEpoch(env, w, n).0);
    }
  }

  lemma FinalizeKeeps(env: Env, w: World, n: int)
    ensures Keeps(w, FinalizeEpoch(env, w, n).0)
  {
    hide Indexed, SettleEpoch, Observe, CompareSupply;
    SettleKeeps(env, w, n);
    var (settled, outcome) := SettleEpoch(env, w, n);
    if outcome.Done? {
      var r := outcome.result;
      ObserveKeeps(env, settled, Distributed(n, r.paid, r.operationalMargin, r.reconciled));
      CompareKeeps(env, Announced(env, settled, n, r));
    }
  }

  lemma ActivateKeeps(env: Env, w: World, threshold: real, target: real, processVolume24h: real)
    ensures Keeps(w, ActivateRelease(env, w, threshold, target, processVolume24h))
  {
    hide Keeps, NextSnapshot, Volume, Velocity;
    var check := Check(env, w.journal.chain, w.coin, threshold, target, processVolume24h);
    if w.phase.active || !check.mature {
      SameKeeps(w, w);
    } else {
      LogKeeps(env, w, ActivateRelease(env, w, threshold, target, processVolume24h), w.journal.tick + 1,
               ReleaseActivated, ReleaseRecord(check.reserveIndex, check.velocity, threshold, target));
    }
  }

  lemma ExecKeeps(env: Env, w: World, c: Call)
    requires Sound(env, w)
    ensures Keeps(w, Exec(env, w, c))
  {
    hide Indexed, Sound, Chained, RunProcess, FinalizeEpoch, Admit, ActivateRelease, Capture, Verify, Mint, Burn,
         Observe, Intact, Employed, Accrued, AccrualTick, JsObject.SortKeys;
    match c {
      case Run(r) => RunKeeps(env, w, r);
      case FinalizeCall(n) => FinalizeKeeps(env, w, n);
      case RegisterNode(id, kind) => AdmitKeeps(env, w, id, kind);
      case Activate(threshold, target, volume) => ActivateKeeps(env, w, threshold, target, volume);
      case Audit =>
        if !Intact(env, w.journal.chain) { ObserveKeeps(env, w, ChainBreak(BreakId(env, w.journal.chain))); }
      case CaptureEvent(p, e, data) => CaptureKeeps(env, w, p, e, JsObject.SortKeys(data));
      case VerifyProcess(p) =>
        SoundParts(env, w);
        VerifyKeeps(env, w, p);
      case EmitProcess(p, amount) =>
        EmissionKeeps(env, w, p, amount);
        EmissionKeeps(env, Mint(env, w, p, amount), p, amount);
      case AccrueFee(n, fee, parts) => SameKeeps(w, Exec(env, w, c));
      case Execution(id, success) => SameKeeps(w, Exec(env, w, c));
    }
  }

  lemma {:induction false} ReachableIndexed(env: Env, watched: bool, calls: seq<Call>, states: seq<World>, i: nat)
    requires AllValid(calls) && IsRun(env, watched, calls, states) && i <= |calls|
    ensures Indexed(states[i])
  {
    hide Sound, AtRest, Exec, Indexed;
    if i == 0 {
      GenesisIndexed(watched);
    } else {
      ReachableIndexed(env, watched, calls, states, i - 1);
      Reachable(env, watched, calls, states, i - 1);
      ExecKeeps(env, states[i - 1], calls[i - 1]);
    }
  }

  lemma GenesisIndexed(watched: bool)
    ensures Indexed(Genesis(watched))
  {
  }

  // ----- what it means -----

  /** After any calls the in-memory index holds an event of a process exactly when the log holds its capture. */
  lemma IndexIsLog(env: Env, watched: bool, calls: seq<Call>, states: seq<World>, i: nat)
    requires AllValid(calls) && IsRun(env, watched, calls, states) && i <= |calls|
    ensures var c := states[i].journal.chain;
            forall p, e :: e in EventsOf(states[i].captured, p) <==> CapturedBefore(c, |c|, p, e)
  {
    hide Exec, CapturedIn, IsCapture, EventsOf, JudgedRight;
    ReachableIndexed(env, watched, calls, states, i);
    var c := states[i].journal.chain;
    forall p, e ensures e in EventsOf(states[i].captured, p) <==> CapturedBefore(c, |c|, p, e) {
      CapturedMeaning(c, p, e);
    }
  }

  /**
   * After any calls every verdict on the log, positive or negative, says exactly whether the records before it
   * capture all four required events of its process: the verdict is a function of the recorded evidence.
   */
  lemma VerdictsFromEvidence(env: Env, watched: bool, calls: seq<Call>, states: seq<World>, i: nat, k: nat)
    requires AllValid(calls) && IsRun(env, watched, calls, states) && i <= |calls|
    ensures var c := states[i].journal.chain;
            k < |c| && IsVerdict(c[k]) ==>
              (c[k].payload.verified <==>
                 forall e :: e in REQUIRED ==> CapturedBefore(c, k, c[k].payload.processId, e))
  {
    hide Exec, CapturedIn, IsCapture, EventsOf, JudgedRight;
    ReachableIndexed(env, watched, calls, states, i);
    var c := states[i].journal.chain;
    if k < |c| && IsVerdict(c[k]) {
      var p := c[k].payload.processId;
      JudgedAt(c, k);
      forall e ensures e in EventsOf(CapturedIn(c[..k]), p) <==> CapturedBefore(c, k, p, e) {
        CapturedMeaning(c[..k], p, e);
        PrefixCaptures(c, k, p, e);
      }
    }
  }

  lemma PrefixCaptures(c: Chain, k: nat, processId: string, e: EventType)
    requires k <= |c|
    ensures CapturedBefore(c, k, processId, e) <==> exists j :: 0 <= j < |c[..k]| && IsCapture(c[..k][j], processId, e)
  {
    hide IsCapture;
    if j :| 0 <= j < k && IsCapture(c[j], processId, e) { assert IsCapture(c[..k][j], processId, e); }
  }

  /**
   * A run cut short by an unregistered node pays nobody and mints nothing, but it leaves full evidence: asked
   * directly afterwards, the verdict is positive unless a negative one stood before.
   */
  lemma CutShortLeavesEvidence(env: Env, w: World, r: Request)
    requires Sound(env, w)
    ensures var (w', outcome) := RunProcess(env, w, r);
            outcome.NodeNotRegistered? ==>
              && w'.coin == w.coin && w'.pools == w.pools && w'.verdicts == w.verdicts
              && (Confirmed(Verify(env, w', r.processId).verdicts, r.processId) <==>
                    r.processId in w.verdicts ==> w.verdicts[r.processId].verified)
  {
    hide Sound, Quiet, Initiate, Observe, Judge, Verify, Resolve, RecordStages, RecordAssignment, WorkAll, Volume,
         Produce, CloseStage, Refuse, ComputeFee, EventsOf;
    var (w', outcome) := RunProcess(env, w, r);
    if outcome.NodeNotRegistered? {
      RecordedBefore(env, w, r);
      QuietSound(env, w, w');
      QuietReplay(env, w, w');
      VerdictIs(env, w', r.processId);
    }
  }
}
