/** The verdict engine: one recorded, binary verdict per process, from recorded evidence alone. */
module Pot {
  import opened Events
  import opened NodeChain
  import opened StateRecording
  import opened Folds

  datatype Verdict = Verdict(verified: bool, reasons: seq<Reason>, timestamp: int, snapshotSequenceId: int)

  type VerdictTable = map<string, Verdict>

  predicate Confirmed(verdicts: VerdictTable, processId: string)
  {
    processId in verdicts && verdicts[processId].verified
  }

  /** The composite criteria: every required event is recorded and the chain replays. */
  predicate Evidence(chainOk: bool, have: set<EventType>)
  {
    && Initiation in have
    && (TaskAssignment in have && StageTransition in have)
    && (chainOk && have != {})
    && ExecutionComplete in have
  }

  function MissingReasons(missing: seq<EventType>): seq<Reason>
  {
    if missing == [] then []
    else MissingReasons(missing[..|missing| - 1]) + [MissingEvent(missing[|missing| - 1])]
  }

  function FailureReasons(chainOk: bool, have: set<EventType>): seq<Reason>
  {
    MissingReasons(Missing(have))
    + (if !(chainOk && have != {}) && have != {} then [StatesNotRecorded] else [])
  }

  /** A verdict is positive exactly when no failure reason is named. */
  lemma EvidenceIffNoReason(chainOk: bool, have: set<EventType>)
    ensures Evidence(chainOk, have) <==> FailureReasons(chainOk, have) == []
  {
    var missing := Missing(have);
    assert missing != [] ==> missing[0] in missing;
    if missing == [] {
      assert forall e :: e in REQUIRED ==> e in have;
      assert REQUIRED[0] in REQUIRED && REQUIRED[1] in REQUIRED && REQUIRED[2] in REQUIRED && REQUIRED[3] in REQUIRED;
    }
  }

  /** What issuing a first verdict records: the chain entry, then the row stamped one tick later. */
  ghost function VerdictJournal(env: Env, j: Journal, processId: string, have: set<EventType>): Journal
  {
    var chainOk := Intact(env, j.chain);
    Tick(Log(env, j, PotVerified,
             VerdictRecord(processId, Evidence(chainOk, have), FailureReasons(chainOk, have))))
  }

  ghost function IssuedVerdict(env: Env, j: Journal, have: set<EventType>): Verdict
  {
    var chainOk := Intact(env, j.chain);
    Verdict(Evidence(chainOk, have), FailureReasons(chainOk, have), j.tick + 2,
            if j.chain == [] then 1 else j.chain[|j.chain| - 1].sequenceId + 1)
  }

  class PotService {
    const chain: NodeChainService
    const stateRecording: StateRecordingService
    var verdicts: VerdictTable

    constructor (chain: NodeChainService, stateRecording: StateRecordingService)
      ensures this.chain == chain && this.stateRecording == stateRecording && verdicts == map[]
    {
      this.chain := chain;
      this.stateRecording := stateRecording;
      verdicts := map[];
    }

    /** Issues the verdict of a process once; every later call returns it unchanged. */
    method Verify(processId: string) returns (verdict: Verdict)
      modifies this, chain, chain.clock
      ensures processId in old(verdicts) ==> verdicts == old(verdicts) && chain.View() == old(chain.View())
      ensures processId !in old(verdicts) ==>
                var have := EventsOf(stateRecording.captured, processId);
                && verdicts == old(verdicts)[processId := IssuedVerdict(chain.env, old(chain.View()), have)]
                && chain.View() == VerdictJournal(chain.env, old(chain.View()), processId, have)
      ensures processId in verdicts && verdict == verdicts[processId]
    {
      hide Intact, FailureReasons;
      if processId in verdicts {
        return verdicts[processId];
      }
      var captured := stateRecording.CapturedEvents(processId);
      var audit := chain.Reconstruct();
      ghost var chainOk := Intact(chain.env, chain.snapshots);
      assert chainOk <==> audit.Ok?;
      var verified :=
        && Initiation in captured
        && (TaskAssignment in captured && StageTransition in captured)
        && (audit.Ok? && captured != {})
        && ExecutionComplete in captured;
      var reasons := FailureReasonList(audit.Ok?, captured);
      assert verified == Evidence(chainOk, captured);
      var snapshot := chain.Append(PotVerified, VerdictRecord(processId, verified, reasons));
      assert snapshot == chain.snapshots[|chain.snapshots| - 1];
      var timestamp := chain.clock.Now();
      verdict := Verdict(verified, reasons, timestamp, snapshot.sequenceId);
      verdicts := verdicts[processId := verdict];
    }

    method GetVerdict(processId: string) returns (verdict: Option<Verdict>)
      ensures verdict == if processId in verdicts then Some(verdicts[processId]) else None
    {
      verdict := if processId in verdicts then Some(verdicts[processId]) else None;
    }

    method FailureReasonList(chainOk: bool, captured: set<EventType>) returns (reasons: seq<Reason>)
      ensures reasons == FailureReasons(chainOk, captured)
      ensures reasons == [] <==> Evidence(chainOk, captured)
    {
      reasons := [];
      var missing := Missing(captured);
      for i := 0 to |missing|
        invariant reasons == MissingReasons(missing[..i])
      {
        assert missing[..i + 1][..i] == missing[..i];
        reasons := reasons + [MissingEvent(missing[i])];
      }
      assert missing[..|missing|] == missing;
      if !(chainOk && captured != {}) && captured != {} {
        reasons := reasons + [StatesNotRecorded];
      }
      EvidenceIffNoReason(chainOk, captured);
    }
  }
}
