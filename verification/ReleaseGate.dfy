/** Exactly when the economy is released: in one call, and over every run. */
module ReleaseGate {
  import opened Folds
  import opened Events
  import opened NodeChain
  import opened Pot
  import opened Nodes
  import opened Reserve
  import opened Settlement
  import opened Commission
  import opened Release
  import opened Lifecycle
  import opened EventSourcing
  import opened Soundness
  import opened CallInvariants
  import opened RunEffects
  import JsObject

  /** What was minted plus what the closed epochs kept as margin. */
  function ConfirmedVolume(w: World): real { w.coin.processMinted + Sum(MarginIn, w.journal.chain) }

  /**
   * The dual maturity condition, as it can be told beforehand: the logarithm of the confirmed volume exceeds the
   * threshold, and the turnover of what circulates exceeds the target. Without circulation the turnover is 0.
   */
  predicate Mature(env: Env, w: World, threshold: real, target: real, processVolume24h: real)
  {
    && env.log10(1.0 + ConfirmedVolume(w)) > threshold
    && if w.coin.earnedRetained > 0.0 then processVolume24h > target * w.coin.earnedRetained else 0.0 > target
  }

  /** The two figures a check reports. */
  ghost predicate Measures(env: Env, w: World, processVolume24h: real, reserveIndex: real, velocity: real)
  {
    && reserveIndex == env.log10(1.0 + ConfirmedVolume(w))
    && if w.coin.earnedRetained > 0.0 then velocity * w.coin.earnedRetained == processVolume24h else velocity == 0.0
  }

  lemma TurnoverExceeds(supply: real, processVolume24h: real, target: real)
    ensures Velocity(supply, processVolume24h) > target <==>
              if supply > 0.0 then processVolume24h > target * supply else 0.0 > target
    ensures if supply > 0.0 then Velocity(supply, processVolume24h) * supply == processVolume24h
            else Velocity(supply, processVolume24h) == 0.0
  {
    if supply > 0.0 {
      var v := processVolume24h / supply;
      assert v * supply == processVolume24h;
      if v > target { assert (v - target) * supply > 0.0; } else { assert (target - v) * supply >= 0.0; }
    }
  }

  lemma VolumeIsConfirmed(env: Env, w: World)
    requires Sound(env, w)
    ensures Volume(w.journal.chain) == ConfirmedVolume(w)
  {
    hide Replay, Chained, EpochsMatch, VerdictsMatch, PhaseMatches, AllWell, Volume, MarginIn;
    ReplayIsSums(w.journal.chain);
  }

  lemma CheckIs(env: Env, w: World, threshold: real, target: real, processVolume24h: real)
    requires Sound(env, w) && AtRest(w)
    ensures var check := Check(env, w.journal.chain, w.coin, threshold, target, processVolume24h);
            && (check.mature <==> Mature(env, w, threshold, target, processVolume24h))
            && Measures(env, w, processVolume24h, check.reserveIndex, check.velocity)
  {
    hide Sound, AtRest, Volume, Velocity, ConfirmedVolume;
    VolumeIsConfirmed(env, w);
    SupplyIsRetained(env, w);
    TurnoverExceeds(w.coin.TotalSupply(), processVolume24h, target);
  }

  /** The state right after an activation: the phase, and its record on the log one tick later. */
  ghost predicate Activated(env: Env, w: World, w': World, threshold: real, target: real, reserveIndex: real,
                            velocity: real)
  {
    && w'.(phase := w.phase, journal := w.journal) == w
    && w'.phase == Phase(true, Some(w.journal.tick + 1), Some(reserveIndex), Some(velocity))
    && |w'.journal.chain| == |w.journal.chain| + 1 && w.journal.chain <= w'.journal.chain
    && var record := w'.journal.chain[|w.journal.chain|];
       && record.eventType == ReleaseActivated && record.timestamp == w.journal.tick + 2 == w'.journal.tick
       && record.payload == ReleaseRecord(reserveIndex, velocity, threshold, target)
  }

  /** What asking for a release does and answers, by whether the economy is mature. */
  ghost predicate Asked(env: Env, w: World, w': World, threshold: real, target: real, processVolume24h: real,
                        answer: ActivateResult)
  {
    && (answer.activated <==> !w.phase.active && Mature(env, w, threshold, target, processVolume24h))
    && (answer.active <==> w.phase.active || answer.activated)
    && (w'.phase.active <==> answer.active)
    && Measures(env, w, processVolume24h, answer.reserveIndex, answer.velocity)
    && if answer.activated then Activated(env, w, w', threshold, target, answer.reserveIndex, answer.velocity)
       else w' == w
  }

  /**
   * An activation, exactly: an inactive phase becomes active if and only if the economy is mature, with the
   * figures that justify it on record; in every other case nothing changes. The answer says which.
   */
  lemma ActivatesIff(env: Env, w: World, threshold: real, target: real, processVolume24h: real, answer: ActivateResult)
    requires Sound(env, w) && AtRest(w)
    ensures AnswerTo(env, w, Activate(threshold, target, processVolume24h)) == OfActivate(answer) ==>
              Asked(env, w, Exec(env, w, Activate(threshold, target, processVolume24h)), threshold, target,
                    processVolume24h, answer)
    ensures AnswerTo(env, w, Activate(threshold, target, processVolume24h)).OfActivate?
  {
    hide Sound, AtRest, Check, Mature, Measures;
    CheckIs(env, w, threshold, target, processVolume24h);
  }

  // ----- nothing else touches the phase -----

  lemma RunKeepsPhase(env: Env, w: World, r: Request)
    ensures RunProcess(env, w, r).0.phase == w.phase
  {
    hide Quiet, Initiate, Observe, Judge, Resolve, RecordStages, RecordAssignment, WorkAll, Decided, Volume;
    var started := Initiate(env, w, r);
    QuietInitiate(env, w, r);
    QuietReplay(env, w, started);
    if !r.admissible {
      QuietObserve(env, started, Rejected(r.processId));
      QuietReplay(env, started, RunProcess(env, w, r).0);
    } else {
      QuietExecuted(env, started, r);
      var (executed, ids, ok) := Executed(env, started, r);
      QuietReplay(env, started, executed);
      if ok { DecidedKeepsPhase(env, executed, r, ids); }
    }
  }

  lemma DecidedKeepsPhase(env: Env, w: World, r: Request, ids: seq<string>)
    ensures r.processId in Judge(env, w, r.processId).verdicts
    ensures Decided(env, Judge(env, w, r.processId), r, ids).0.phase == w.phase
  {
    hide Quiet, Judge, Produce, CloseStage, Refuse, Volume, ComputeFee;
    JudgeEffect(env, w, r.processId);
    var judged := Judge(env, w, r.processId);
    ProduceEffect(env, judged, r, ids);
    var produced := Produce(env, judged, r.processId, r.amount, EpochOf(r), ids);
    QuietClose(env, produced, r.processId);
    QuietReplay(env, produced, CloseStage(env, produced, r.processId));
    QuietRefuse(env, judged, r.processId);
    QuietReplay(env, judged, Refuse(env, judged, r.processId));
  }

  lemma FinalizeKeepsPhase(env: Env, w: World, n: int)
    ensures FinalizeEpoch(env, w, n).0.phase == w.phase
  {
    hide SettleEpoch, Observe, CompareSupply;
    SettleLeaves(env, w, n);
    var (settled, outcome) := SettleEpoch(env, w, n);
    if outcome.Done? {
      var r := outcome.result;
      ObserveOnlyWatches(env, settled, Distributed(n, r.paid, r.operationalMargin, r.reconciled));
      CompareOnlyWatches(env, Announced(env, settled, n, r));
    }
  }

  lemma OthersKeepPhase(env: Env, w: World, c: Call)
    requires !c.Activate?
    ensures Exec(env, w, c).phase == w.phase
  {
    hide RunProcess, FinalizeEpoch, NextSnapshot, Intact, VerdictJournal, IssuedVerdict, Accrued, Employed, Saved,
         JsObject.SortKeys;
    match c {
      case Run(r) => RunKeepsPhase(env, w, r);
      case FinalizeCall(n) => FinalizeKeepsPhase(env, w, n);
      case _ =>
    }
  }

  // ----- every run -----

  /** The call at position `k` asks for the release of a mature economy. */
  predicate ReleasesAt(env: Env, calls: seq<Call>, states: seq<World>, k: int)
    requires |calls| < |states|
  {
    && 0 <= k < |calls| && calls[k].Activate?
    && Mature(env, states[k], calls[k].threshold, calls[k].target, calls[k].processVolume24h)
  }

  /** At every position of every run the phase is active if and only if some call so far released a mature economy. */
  lemma {:induction false} ReleasedIff(env: Env, watched: bool, calls: seq<Call>, states: seq<World>, i: nat)
    requires AllValid(calls) && IsRun(env, watched, calls, states) && i <= |calls|
    ensures states[i].phase.active <==> exists k :: 0 <= k < i && ReleasesAt(env, calls, states, k)
  {
    hide Sound, AtRest, Exec, Mature, Measures, Activated;
    if i > 0 {
      var w, c := states[i - 1], calls[i - 1];
      ReleasedIff(env, watched, calls, states, i - 1);
      Reachable(env, watched, calls, states, i - 1);
      if c.Activate? {
        var answer := AnswerTo(env, w, c);
        assert c == Activate(c.threshold, c.target, c.processVolume24h);
        ActivatesIff(env, w, c.threshold, c.target, c.processVolume24h, answer.result);
        assert ReleasesAt(env, calls, states, i - 1) <==>
            Mature(env, w, c.threshold, c.target, c.processVolume24h);
      } else {
        OthersKeepPhase(env, w, c);
        assert !ReleasesAt(env, calls, states, i - 1);
      }
    } else {
      assert !states[0].phase.active by { NotReleased(watched); }
    }
  }

  lemma NotReleased(watched: bool)
    ensures !Genesis(watched).phase.active
  {
  }
}
