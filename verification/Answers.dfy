/** What a direct call answers is what it leaves in the state. */
module Answers {
  import opened Folds
  import opened Events
  import opened NodeChain
  import opened StateRecording
  import opened Pot
  import opened Nodes
  import opened Settlement
  import opened Commission
  import opened Emission
  import opened Lifecycle
  import opened Soundness
  import opened CallInvariants
  import opened CallTranscripts
  import OversightAudit
  import JsObject

  ghost predicate AnswersState(w: World, c: Call, w': World, answer: Answer)
  {
    match c
    case RegisterNode(id, _) =>
      Registered(w'.nodes, id) && answer == OfRegister(Lookup(w'.nodes, id))
    case Execution(id, _) =>
      answer == OfExecution(if Registered(w'.nodes, id) then Some(Lookup(w'.nodes, id)) else None)
    case CaptureEvent(_, _, _) =>
      w'.journal.chain != []
      && answer == OfCapture(w'.journal.chain[|w'.journal.chain| - 1].(timestamp := 0))
    case VerifyProcess(p) =>
      && p in w'.verdicts
      && var verdict := w'.verdicts[p];
         && answer == OfVerify(verdict.verified, verdict.reasons, verdict.snapshotSequenceId)
         && if p in w.verdicts then verdict == w.verdicts[p]
            else
              var have := EventsOf(w.captured, p);
              (verdict.verified <==> Lacking(have) == []) && verdict.reasons == Reasons(true, have)
    case EmitProcess(p, amount) =>
      var minted, burned := w'.coin.processMinted - w.coin.processMinted, w'.coin.processBurned - w.coin.processBurned;
      && answer == OfEmit(EmitResult(Confirmed(w.verdicts, p), minted, burned, p))
      && minted == burned == if Confirmed(w.verdicts, p) then amount else 0.0
    case AccrueFee(n, fee, _) =>
      && HasEpoch(w'.pools.epochs, n)
      && var row := EpochRow(w'.pools.epochs, n);
         && answer == OfAccrue(row.(startTime := 0, endTime := 0))
         && (if HasEpoch(w.pools.epochs, n) then row.(totalFees := row.totalFees - fee) == EpochRow(w.pools.epochs, n)
             else row == Epoch(n, w'.journal.tick, 0, fee, [], Open, 0.0))
    case Audit => answer == OfAudit(Ok)
    case _ => true
  }

  lemma AccruedRow(w: World, n: int, fee: real, parts: seq<Participation>)
    requires UniqueEpochs(w.pools.epochs)
    ensures var w' := Accrue(w, n, fee, parts);
            && HasEpoch(w'.pools.epochs, n)
            && w'.journal.tick == (if HasEpoch(w.pools.epochs, n) then w.journal.tick else w.journal.tick + 1)
            && EpochRow(w'.pools.epochs, n) == RowFor(w.pools, w.journal.tick, n).(totalFees :=
                                                 RowFor(w.pools, w.journal.tick, n).totalFees + fee)
  {
    var row := RowFor(w.pools, w.journal.tick, n);
    SavedEpochHas(w.pools.epochs, row.(totalFees := row.totalFees + fee), n);
  }

  lemma VerifyAnswers(env: Env, w: World, p: string)
    requires Chained(env, w.journal.chain)
    ensures AnswersState(w, VerifyProcess(p), Verify(env, w, p), AnswerTo(env, w, VerifyProcess(p)))
  {
    hide FailureReasons, Evidence, Missing, Lacking, Reasons, Intact;
    var have := EventsOf(w.captured, p);
    assert Intact(env, w.journal.chain);
    ReasonsAre(true, have);
    EvidenceIffNoReason(true, have);
    NoReason(have);
  }

  lemma CaptureAnswers(env: Env, w: World, p: string, e: EventType, data: JsObject.Plain)
    ensures var c := CaptureEvent(p, e, data); AnswersState(w, c, Exec(env, w, c), AnswerTo(env, w, c))
  {
    hide JsObject.SortKeys, Remembered;
  }

  /** The answer of every call on a single service describes what the call left behind. */
  lemma AnswersAreState(env: Env, w: World, c: Call)
    requires Sound(env, w) && AtRest(w)
    ensures AnswersState(w, c, Exec(env, w, c), AnswerTo(env, w, c))
  {
    hide Sound, AtRest, RunProcess, FinalizeEpoch, ActivateRelease, Verify, Saved, Accrue, NextSnapshot,
         Lacking, Reasons, JsObject.SortKeys;
    SoundParts(env, w);
    match c {
      case RegisterNode(id, kind) => SavedLookup(w.nodes, Fresh(id, kind), id);
      case Execution(id, success) =>
        if Registered(w.nodes, id) { SavedLookup(w.nodes, Worked(Lookup(w.nodes, id), success), id); }
      case CaptureEvent(p, e, data) => CaptureAnswers(env, w, p, e, data);
      case VerifyProcess(p) => VerifyAnswers(env, w, p);
      case AccrueFee(n, fee, parts) => AccruedRow(w, n, fee, parts);
      case Audit => OversightAudit.NothingToReport(env, w);
      case _ =>
    }
  }
}
