/** Which calls authorize emission: the mint records a call puts on the log, for all ten calls. */
module Authorization {
  import opened Events
  import opened NodeChain
  import opened StateRecording
  import opened Pot
  import opened Nodes
  import opened Reserve
  import opened Settlement
  import opened Commission
  import opened Release
  import opened Lifecycle
  import opened EventSourcing
  import opened Soundness
  import opened CallInvariants
  import opened RunEffects
  import opened Progress
  import JsObject

  /** How often the log of a state mints a process. */
  function MintsIn(w: World, processId: string): nat { MintsOf(w.journal.chain, processId) }

  /**
   * What a caller can look up beforehand: the call runs the process and is admitted, or emits for it directly
   * behind a positive verdict.
   */
  ghost predicate Authorizes(w: World, c: Call, processId: string)
  {
    match c
    case Run(r) => r.processId == processId && Admits(w, r)
    case EmitProcess(q, _) => q == processId && Confirmed(w.verdicts, q)
    case _ => false
  }

  /** From `w` to `w'` the log gained mint records of these processes. */
  ghost predicate Mints(w: World, w': World, processes: multiset<string>)
  {
    Replay(w'.journal.chain).mints == Replay(w.journal.chain).mints + processes
  }

  // ----- the steps -----

  lemma LogMints(env: Env, w: World, w': World, tick: int, eventType: EventType, payload: Payload)
    requires w'.journal.chain == Log(env, w.journal.(tick := tick), eventType, payload).chain
    ensures Mints(w, w', if eventType == EmissionMinted && payload.MintRecord? then multiset{payload.processId}
                         else multiset{})
  {
    hide Step, Replay, Chained, NextSnapshot;
    var j := w.journal.(tick := tick);
    LogReplays(env, j, eventType, payload);
    SnapshotCarries(env, j.chain, eventType, payload, j.tick + 1);
    StepMints(Replay(j.chain), NextSnapshot(env, j.chain, eventType, payload, j.tick + 1));
  }

  lemma QuietMints(env: Env, w: World, w': World, w'': World, processes: multiset<string>)
    requires Mints(w, w', processes) && Quiet(env, w', w'')
    ensures Mints(w, w'', processes)
  {
    hide Replay, Quiet;
    QuietReplay(env, w', w'');
  }

  lemma SameLogMints(w: World, w': World)
    ensures w'.journal.chain == w.journal.chain ==> Mints(w, w', multiset{})
  {
    hide Replay;
  }

  lemma MintsTransitive(a: World, b: World, c: World, first: multiset<string>, second: multiset<string>)
    ensures Mints(a, b, first) && Mints(b, c, second) ==> Mints(a, c, first + second)
  {
    hide Replay;
  }

  lemma VerifyMints(env: Env, w: World, processId: string)
    ensures Mints(w, Verify(env, w, processId), multiset{})
  {
    hide Mints, NextSnapshot, Intact, FailureReasons, Evidence;
    if processId in w.verdicts {
      SameLogMints(w, w);
    } else {
      var chainOk, have := Intact(env, w.journal.chain), EventsOf(w.captured, processId);
      LogMints(env, w, Verify(env, w, processId), w.journal.tick, PotVerified,
               VerdictRecord(processId, Evidence(chainOk, have), FailureReasons(chainOk, have)));
    }
  }

  lemma MintMints(env: Env, w: World, processId: string, amount: real)
    ensures Mints(w, Mint(env, w, processId, amount), multiset{processId})
  {
    hide Mints, NextSnapshot;
    LogMints(env, w, Mint(env, w, processId, amount), w.journal.tick, EmissionMinted, MintRecord(processId, amount));
  }

  lemma BurnMints(env: Env, w: World, processId: string, amount: real)
    ensures Mints(w, Burn(env, w, processId, amount), multiset{})
  {
    hide Mints, NextSnapshot;
    LogMints(env, w, Burn(env, w, processId, amount), w.journal.tick, EmissionBurned, BurnRecord(processId, amount));
  }

  lemma EmitMints(env: Env, w: World, processId: string, amount: real)
    ensures Mints(w, Emit(env, w, processId, amount), MintsFor(processId, Confirmed(w.verdicts, processId)))
  {
    hide Mints, Mint, Burn;
    SameLogMints(w, w);
    var minted := Mint(env, w, processId, amount);
    MintMints(env, w, processId, amount);
    BurnMints(env, minted, processId, amount);
    MintsTransitive(w, minted, Burn(env, minted, processId, amount), multiset{processId}, multiset{});
    assert multiset{processId} + multiset{} == multiset{processId};
  }

  // ----- a run -----

  lemma ProduceMints(env: Env, w: World, processId: string, amount: real, epoch: int, ids: seq<string>)
    ensures Mints(w, Produce(env, w, processId, amount, epoch, ids), multiset{processId})
  {
    hide Mints, Quiet, Mint, Burn, MintStage, ComputeFee, Accrued, AccrualTick;
    var minted := MintStage(env, w, processId, amount);
    MintMints(env, w, processId, amount);
    QuietMintTail(env, w, processId, amount);
    QuietMints(env, w, Mint(env, w, processId, amount), minted, multiset{processId});
    var accrued := Accrue(minted, epoch, ComputeFee(amount), PartsFor(processId, ids));
    SameLogMints(minted, accrued);
    MintsTransitive(w, minted, accrued, multiset{processId}, multiset{});
    var burned := Burn(env, accrued, processId, amount);
    BurnMints(env, accrued, processId, amount);
    MintsTransitive(w, accrued, burned, multiset{processId} + multiset{}, multiset{});
    QuietObserve(env, burned, Burned(processId, amount));
    QuietMints(env, w, burned, Produce(env, w, processId, amount, epoch, ids),
               multiset{processId} + multiset{} + multiset{});
    assert multiset{processId} + multiset{} + multiset{} == multiset{processId};
  }

  function MintsFor(processId: string, mints: bool): multiset<string>
  {
    if mints then multiset{processId} else multiset{}
  }

  lemma DecidedMints(env: Env, w: World, r: Request, ids: seq<string>)
    requires Sound(env, w)
    ensures r.processId in Judge(env, w, r.processId).verdicts
    ensures var (w', outcome) := Decided(env, Judge(env, w, r.processId), r, ids);
            Mints(w, w', MintsFor(r.processId, Produced(outcome)))
  {
    hide Mints, Sound, Quiet, Judge, Verify, Produce, CloseStage, Refuse, Volume, ComputeFee;
    var q := r.processId;
    VerifyDecides(env, w, q);
    SoundJudge(env, w, q);
    JudgeEffect(env, w, q);
    VerifyMints(env, w, q);
    var judged := Judge(env, w, q);
    QuietMints(env, w, Verify(env, w, q), judged, multiset{});
    if judged.verdicts[q].verified {
      var produced := Produce(env, judged, q, r.amount, EpochOf(r), ids);
      ProduceMints(env, judged, q, r.amount, EpochOf(r), ids);
      MintsTransitive(w, judged, produced, multiset{}, multiset{q});
      assert multiset{} + multiset{q} == multiset{q};
      QuietClose(env, produced, q);
      QuietMints(env, w, produced, CloseStage(env, produced, q), multiset{q});
    } else {
      QuietRefuse(env, judged, q);
      QuietMints(env, w, judged, Refuse(env, judged, q), multiset{});
    }
  }

  /** A run mints its own process, once, when it yields value, and nothing otherwise. */
  lemma RunMints(env: Env, w: World, r: Request)
    requires Sound(env, w)
    ensures Mints(w, RunProcess(env, w, r).0, MintsFor(r.processId, Admits(w, r)))
  {
    hide Mints, Sound, Quiet, Initiate, Observe, Judge, Resolve, RecordStages, RecordAssignment, WorkAll, Decided,
         Volume, Admits, Verified;
    GateOpens(env, w, r);
    var started := Initiate(env, w, r);
    SameLogMints(w, w);
    QuietInitiate(env, w, r);
    QuietMints(env, w, w, started, multiset{});
    if !r.admissible {
      QuietObserve(env, started, Rejected(r.processId));
      QuietMints(env, w, started, RunProcess(env, w, r).0, multiset{});
    } else {
      QuietExecuted(env, started, r);
      var (executed, ids, ok) := Executed(env, started, r);
      QuietMints(env, w, started, executed, multiset{});
      if ok {
        QuietSound(env, w, started);
        QuietSound(env, started, executed);
        DecidedMints(env, executed, r, ids);
        var (w', outcome) := Decided(env, Judge(env, executed, r.processId), r, ids);
        MintsTransitive(w, executed, w', multiset{}, MintsFor(r.processId, Produced(outcome)));
        assert multiset{} + MintsFor(r.processId, Produced(outcome)) == MintsFor(r.processId, Produced(outcome));
      }
    }
  }

  // ----- the other calls -----

  lemma SettleMints(env: Env, w: World, n: int)
    ensures Mints(w, SettleEpoch(env, w, n).0, multiset{})
  {
    hide Replay, Chained, Weigh, SplitPool, Abs, ToResult, Finalize;
    var parts := PartsOf(w.pools.participation, n);
    if HasEpoch(w.pools.epochs, n) && EpochRow(w.pools.epochs, n).status == Open
        && Weigh(parts, w.verdicts, w.nodes).Some? {
      var ws := Weigh(parts, w.verdicts, w.nodes).value;
      WeighedArePayees(parts, w.verdicts, w.nodes);
      FinalizeReplay(env, w.journal, w.coin, w.pools, w.nodes, ws, n);
    }
  }

  lemma FinalizeMints(env: Env, w: World, n: int)
    ensures Mints(w, FinalizeEpoch(env, w, n).0, multiset{})
  {
    hide Mints, Quiet, SettleEpoch, Observe, CompareSupply;
    SettleMints(env, w, n);
    var (settled, outcome) := SettleEpoch(env, w, n);
    if outcome.Done? {
      var r := outcome.result;
      var announced := Announced(env, settled, n, r);
      QuietObserve(env, settled, Distributed(n, r.paid, r.operationalMargin, r.reconciled));
      QuietMints(env, w, settled, announced, multiset{});
      QuietCompare(env, announced);
      QuietMints(env, w, announced, CompareSupply(env, announced), multiset{});
    }
  }

  lemma ActivateMints(env: Env, w: World, threshold: real, target: real, processVolume24h: real)
    ensures Mints(w, ActivateRelease(env, w, threshold, target, processVolume24h), multiset{})
  {
    hide Mints, NextSnapshot, Volume, Velocity;
    var check := Check(env, w.journal.chain, w.coin, threshold, target, processVolume24h);
    if w.phase.active || !check.mature {
      SameLogMints(w, w);
    } else {
      LogMints(env, w, ActivateRelease(env, w, threshold, target, processVolume24h), w.journal.tick + 1,
               ReleaseActivated, ReleaseRecord(check.reserveIndex, check.velocity, threshold, target));
    }
  }

  /** The processes a call mints. */
  ghost function MintedBy(w: World, c: Call): multiset<string>
  {
    match c
    case Run(r) => MintsFor(r.processId, Admits(w, r))
    case EmitProcess(q, _) => MintsFor(q, Confirmed(w.verdicts, q))
    case _ => multiset{}
  }

  lemma ExecMints(env: Env, w: World, c: Call)
    requires Sound(env, w)
    ensures Mints(w, Exec(env, w, c), MintedBy(w, c))
  {
    hide Mints, Sound, Quiet, RunProcess, FinalizeEpoch, Admit, ActivateRelease, AuditChain, Capture, Verify, Emit,
         Employed, Accrued, AccrualTick, Admits, Confirmed, JsObject.SortKeys;
    SameLogMints(w, w);
    match c {
      case Run(r) => RunMints(env, w, r);
      case FinalizeCall(n) => FinalizeMints(env, w, n);
      case RegisterNode(id, kind) =>
        QuietAdmit(env, w, id, kind);
        QuietMints(env, w, w, Exec(env, w, c), multiset{});
      case Activate(threshold, target, volume) => ActivateMints(env, w, threshold, target, volume);
      case Audit =>
        QuietAudit(env, w);
        QuietMints(env, w, w, Exec(env, w, c), multiset{});
      case CaptureEvent(p, e, data) =>
        QuietCapture(env, w, p, e, JsObject.SortKeys(data));
        QuietMints(env, w, w, Exec(env, w, c), multiset{});
      case VerifyProcess(p) => VerifyMints(env, w, p);
      case EmitProcess(p, amount) =>
        EmitMints(env, w, p, amount);
      case AccrueFee(n, fee, parts) => SameLogMints(w, Exec(env, w, c));
      case Execution(id, success) => SameLogMints(w, Exec(env, w, c));
    }
  }

  lemma AuthorizedAreMinted(w: World, c: Call, processId: string)
    ensures MintedBy(w, c)[processId] == if Authorizes(w, c, processId) then 1 else 0
  {
    hide Admits, Confirmed;
  }

  /** In every sound state a call mints a process, once, exactly when it authorizes that, and no call does so twice. */
  lemma CallMints(env: Env, w: World, c: Call, processId: string)
    requires Sound(env, w)
    ensures MintsIn(Exec(env, w, c), processId) ==
              MintsIn(w, processId) + (if Authorizes(w, c, processId) then 1 else 0)
  {
    hide Sound, Exec, Authorizes, MintedBy, Replay, MintsOf;
    AuthorizedAreMinted(w, c, processId);
    ExecMints(env, w, c);
    MintsMeaning(w.journal.chain, processId);
    MintsMeaning(Exec(env, w, c).journal.chain, processId);
  }

  // ----- every run -----

  /** How many of the first `i` calls of a run authorized emission for this process. */
  ghost function Authorizations(calls: seq<Call>, states: seq<World>, i: nat, processId: string): nat
    requires i <= |calls| < |states|
  {
    if i == 0 then 0
    else Authorizations(calls, states, i - 1, processId)
         + (if Authorizes(states[i - 1], calls[i - 1], processId) then 1 else 0)
  }

  /** At every position of every run, direct calls included, a process has one mint record per authorizing call. */
  lemma {:induction false} OneMintPerAuthorization(env: Env, watched: bool, calls: seq<Call>, states: seq<World>,
                                                   i: nat, processId: string)
    requires AllValid(calls) && IsRun(env, watched, calls, states) && i <= |calls|
    ensures MintsIn(states[i], processId) == Authorizations(calls, states, i, processId)
  {
    hide Sound, AtRest, Exec, Authorizes, MintsIn;
    if i == 0 {
      NothingMinted(watched, processId);
    } else {
      OneMintPerAuthorization(env, watched, calls, states, i - 1, processId);
      Reachable(env, watched, calls, states, i - 1);
      CallMints(env, states[i - 1], calls[i - 1], processId);
    }
  }

  lemma NothingMinted(watched: bool, processId: string)
    ensures MintsIn(Genesis(watched), processId) == 0
  {
  }

  /** Two of the first `i` calls authorize emission for this process. */
  ghost predicate AuthorizedTwice(calls: seq<Call>, states: seq<World>, i: nat, processId: string)
    requires i <= |calls| < |states|
  {
    exists j, k :: 0 <= j < k < i && Authorizes(states[j], calls[j], processId)
                   && Authorizes(states[k], calls[k], processId)
  }

  lemma {:induction false} CountedTwice(calls: seq<Call>, states: seq<World>, i: nat, processId: string)
    requires i <= |calls| < |states|
    ensures Authorizations(calls, states, i, processId) > 0 <==>
              exists j :: 0 <= j < i && Authorizes(states[j], calls[j], processId)
    ensures Authorizations(calls, states, i, processId) > 1 <==> AuthorizedTwice(calls, states, i, processId)
  {
    hide Authorizes;
    if i > 0 { CountedTwice(calls, states, i - 1, processId); }
  }

  /**
   * When emission is authorized twice off one process, in every run of all ten calls: a process is minted more
   * than once exactly when two calls authorize it, each told from the state before it. And a call mints a
   * process that was minted before exactly when it authorizes that.
   */
  lemma MintsAgainIff(env: Env, watched: bool, calls: seq<Call>, states: seq<World>, i: nat, processId: string)
    requires AllValid(calls) && IsRun(env, watched, calls, states) && i <= |calls|
    ensures MintsIn(states[i], processId) > 1 <==> AuthorizedTwice(calls, states, i, processId)
    ensures i < |calls| ==>
            var w, w' := states[i], states[i + 1];
            Authorizes(w, calls[i], processId) && MintsIn(w, processId) > 0 <==>
              MintsIn(w', processId) > MintsIn(w, processId) > 0
  {
    hide Sound, AtRest, Exec, Authorizes, MintsIn, Authorizations, AuthorizedTwice;
    OneMintPerAuthorization(env, watched, calls, states, i, processId);
    CountedTwice(calls, states, i, processId);
    Reachable(env, watched, calls, states, i);
    if i < |calls| { CallMints(env, states[i], calls[i], processId); }
  }
}
