/** Every stored verdict points at its own record on the chain. */
module VerdictLinks {
  import opened Events
  import opened NodeChain
  import opened Pot
  import opened Nodes
  import opened Reserve
  import opened Settlement
  import opened Commission
  import opened Release
  import opened Lifecycle
  import opened Soundness
  import opened CallInvariants
  import opened RunEffects
  import opened Progression
  import JsObject

  /** The record with this verdict's sequence id is the record of this verdict, written one tick before the row. */
  ghost predicate Linked(c: Chain, processId: string, verdict: Verdict)
  {
    var k := verdict.snapshotSequenceId;
    && 1 <= k <= |c|
    && c[k - 1].sequenceId == k
    && c[k - 1].eventType == PotVerified
    && c[k - 1].payload == VerdictRecord(processId, verdict.verified, verdict.reasons)
    && c[k - 1].timestamp + 1 == verdict.timestamp
  }

  ghost predicate AllLinked(w: World)
  {
    forall p :: p in w.verdicts ==> Linked(w.journal.chain, p, w.verdicts[p])
  }

  ghost predicate Keeps(w: World, w': World) { AllLinked(w) ==> AllLinked(w') }

  /** The log only grew, and no verdict was added. */
  lemma GrownKeeps(w: World, w': World)
    ensures w.journal.chain <= w'.journal.chain && w'.verdicts == w.verdicts ==> Keeps(w, w')
  {
    if w.journal.chain <= w'.journal.chain && w'.verdicts == w.verdicts && AllLinked(w) {
      forall p | p in w'.verdicts ensures Linked(w'.journal.chain, p, w'.verdicts[p]) {
        assert Linked(w.journal.chain, p, w.verdicts[p]);
      }
    }
  }

  lemma QuietKeeps(env: Env, w: World, w': World)
    ensures Quiet(env, w, w') ==> Keeps(w, w')
  {
    hide AllLinked;
    if Quiet(env, w, w') { GrownKeeps(w, w'); }
  }

  lemma VerifyKeeps(env: Env, w: World, processId: string)
    requires Chained(env, w.journal.chain)
    ensures Keeps(w, Verify(env, w, processId))
  {
    hide Evidence, FailureReasons, Intact, Linked;
    if processId !in w.verdicts && AllLinked(w) {
      var w' := Verify(env, w, processId);
      assert Linked(w'.journal.chain, processId, w'.verdicts[processId]) by { NewLink(env, w, processId); }
      forall p | p in w.verdicts ensures Linked(w'.journal.chain, p, w.verdicts[p]) {
        StillLinked(w.journal.chain, w'.journal.chain, p, w.verdicts[p]);
      }
    }
  }

  lemma StillLinked(c: Chain, c': Chain, processId: string, verdict: Verdict)
    ensures Linked(c, processId, verdict) && c <= c' ==> Linked(c', processId, verdict)
  {
  }

  lemma NewLink(env: Env, w: World, processId: string)
    requires Chained(env, w.journal.chain) && processId !in w.verdicts
    ensures var w' := Verify(env, w, processId); Linked(w'.journal.chain, processId, w'.verdicts[processId])
  {
    hide Evidence, FailureReasons, Intact;
  }

  lemma DecidedKeeps(env: Env, w: World, r: Request, ids: seq<string>)
    requires Sound(env, w) && r.amount > 0.0
    ensures r.processId in Judge(env, w, r.processId).verdicts
    ensures Keeps(w, Decided(env, Judge(env, w, r.processId), r, ids).0)
  {
    hide Sound, Quiet, Judge, Verify, Produce, CloseStage, Refuse, Volume, ComputeFee, AllLinked, Chained, ClosedKept,
         VerdictsKept;
    VerifyDecides(env, w, r.processId);
    SoundJudge(env, w, r.processId);
    SoundParts(env, w);
    VerifyKeeps(env, w, r.processId);
    var judged := Judge(env, w, r.processId);
    QuietKeeps(env, Verify(env, w, r.processId), judged);
    QuietReplay(env, Verify(env, w, r.processId), judged);
    SoundParts(env, judged);
    AdvancesProduce(env, judged, r.processId, r.amount, EpochOf(r), ids);
    ProduceEffect(env, judged, r, ids);
    var produced := Produce(env, judged, r.processId, r.amount, EpochOf(r), ids);
    GrownKeeps(judged, produced);
    QuietClose(env, produced, r.processId);
    QuietKeeps(env, produced, CloseStage(env, produced, r.processId));
    QuietRefuse(env, judged, r.processId);
    QuietKeeps(env, judged, Refuse(env, judged, r.processId));
  }

  lemma RunKeeps(env: Env, w: World, r: Request)
    requires Sound(env, w) && r.amount > 0.0
    ensures Keeps(w, RunProcess(env, w, r).0)
  {
    hide Sound, Quiet, Initiate, Observe, Judge, Resolve, RecordStages, RecordAssignment, WorkAll, Decided, Volume,
         AllLinked;
    var started := Initiate(env, w, r);
    QuietInitiate(env, w, r);
    QuietKeeps(env, w, started);
    QuietSound(env, w, started);
    if !r.admissible {
      QuietObserve(env, started, Rejected(r.processId));
      QuietKeeps(env, started, RunProcess(env, w, r).0);
    } else {
      QuietExecuted(env, started, r);
      var (executed, ids, ok) := Executed(env, started, r);
      QuietKeeps(env, started, executed);
      QuietSound(env, started, executed);
      if ok { DecidedKeeps(env, executed, r, ids); }
    }
  }

  lemma FinalizeKeeps(env: Env, w: World, n: int)
    requires Sound(env, w)
    ensures Keeps(w, FinalizeEpoch(env, w, n).0)
  {
    hide Sound, SettleEpoch, FinalizeEpoch, AllLinked, ClosedKept, VerdictsKept;
    AdvancesFinalize(env, w, n);
    FinalizeKeepsVerdicts(env, w, n);
    GrownKeeps(w, FinalizeEpoch(env, w, n).0);
  }

  lemma FinalizeKeepsVerdicts(env: Env, w: World, n: int)
    ensures FinalizeEpoch(env, w, n).0.verdicts == w.verdicts
  {
    hide SettleEpoch, Observe, CompareSupply;
    SettleLeaves(env, w, n);
    var (settled, outcome) := SettleEpoch(env, w, n);
    if outcome.Done? {
      var r := outcome.result;
      ObserveOnlyWatches(env, settled, Distributed(n, r.paid, r.operationalMargin, r.reconciled));
      CompareOnlyWatches(env, Announced(env, settled, n, r));
    }
  }

  lemma ExecKeeps(env: Env, w: World, c: Call)
    requires Sound(env, w) && c.Valid()
    ensures Keeps(w, Exec(env, w, c))
  {
    hide Sound, Chained, RunProcess, FinalizeEpoch, Verify, Intact, Employed, Saved, Accrued, AccrualTick,
         NextSnapshot, JsObject.SortKeys, AllLinked, Volume, Velocity;
    match c {
      case Run(r) => RunKeeps(env, w, r);
      case FinalizeCall(n) => FinalizeKeeps(env, w, n);
      case VerifyProcess(p) =>
        SoundParts(env, w);
        VerifyKeeps(env, w, p);
      case _ => GrownKeeps(w, Exec(env, w, c));
    }
  }

  /**
   * In every state of every run each stored verdict points at a record of the chain, and that record holds this
   * verdict: its process, its outcome, its reasons.
   */
  lemma {:induction false} VerdictsAreLinked(env: Env, watched: bool, calls: seq<Call>, states: seq<World>, i: nat)
    requires AllValid(calls) && IsRun(env, watched, calls, states) && i <= |calls|
    ensures AllLinked(states[i])
  {
    hide Sound, AtRest, Exec, AllLinked;
    if i == 0 {
      NothingLinked(watched);
    } else {
      VerdictsAreLinked(env, watched, calls, states, i - 1);
      Reachable(env, watched, calls, states, i - 1);
      ExecKeeps(env, states[i - 1], calls[i - 1]);
    }
  }

  lemma NothingLinked(watched: bool)
    ensures AllLinked(Genesis(watched))
  {
  }
}
