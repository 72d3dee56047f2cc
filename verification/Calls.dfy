/** Each public call, made on the wired services, does what the state machine says and answers as it says. */
module Calls {
  import opened Events
  import opened NodeChain
  import opened StateRecording
  import opened Pot
  import opened Nodes
  import opened Reserve
  import opened Settlement
  import opened Commission
  import opened Release
  import opened AllSeeingEye
  import opened Orchestrator
  import L = Lifecycle
  import JsObject

  method RegisterNode(stack: OrchestratorService, id: string, kind: string) returns (answer: L.Answer)
    requires stack.Wired()
    modifies stack.Parts()
    ensures stack.View() == L.Exec(stack.chain.env, old(stack.View()), L.RegisterNode(id, kind))
    ensures answer == L.AnswerTo(stack.chain.env, old(stack.View()), L.RegisterNode(id, kind))
  {
    hide NextSnapshot, Saved;
    var saved := stack.nodes.Register(id, kind);
    answer := L.OfRegister(saved);
  }

  method Activate(stack: OrchestratorService, threshold: real, target: real, processVolume24h: real)
    returns (answer: L.Answer)
    requires stack.Wired()
    modifies stack.Parts()
    ensures stack.View() == L.Exec(stack.chain.env, old(stack.View()), L.Activate(threshold, target, processVolume24h))
    ensures answer == L.AnswerTo(stack.chain.env, old(stack.View()), L.Activate(threshold, target, processVolume24h))
  {
    hide NextSnapshot, Volume, Velocity;
    var result := stack.release.Activate(threshold, target, processVolume24h);
    answer := L.OfActivate(result);
  }

  method Audit(stack: OrchestratorService) returns (answer: L.Answer)
    requires stack.Wired()
    modifies stack.Parts()
    ensures stack.View() == L.Exec(stack.chain.env, old(stack.View()), L.Audit)
    ensures answer == L.AnswerTo(stack.chain.env, old(stack.View()), L.Audit)
  {
    hide NextEntry, Intact, BreakId;
    var audit := stack.eye.VerifyChain();
    answer := L.OfAudit(audit);
  }

  method CaptureEvent(stack: OrchestratorService, processId: string, eventType: EventType, data: JsObject.Plain)
    returns (answer: L.Answer)
    requires stack.Wired()
    modifies stack.Parts()
    ensures stack.View() == L.Exec(stack.chain.env, old(stack.View()), L.CaptureEvent(processId, eventType, data))
    ensures answer == L.AnswerTo(stack.chain.env, old(stack.View()), L.CaptureEvent(processId, eventType, data))
  {
    hide JsObject.SortKeys, Remembered;
    var snapshot := stack.recording.Capture(processId, eventType, data);
    assert snapshot == stack.chain.snapshots[|stack.chain.snapshots| - 1];
    answer := L.OfCapture(snapshot.(timestamp := 0));
  }

  method VerifyProcess(stack: OrchestratorService, processId: string) returns (answer: L.Answer)
    requires stack.Wired()
    modifies stack.Parts()
    ensures stack.View() == L.Exec(stack.chain.env, old(stack.View()), L.VerifyProcess(processId))
    ensures answer == L.AnswerTo(stack.chain.env, old(stack.View()), L.VerifyProcess(processId))
  {
    hide VerdictJournal, IssuedVerdict;
    var verdict := stack.pot.Verify(processId);
    answer := L.OfVerify(verdict.verified, verdict.reasons, verdict.snapshotSequenceId);
  }

  method EmitProcess(stack: OrchestratorService, processId: string, amount: real) returns (answer: L.Answer)
    requires stack.Wired()
    modifies stack.Parts()
    ensures stack.View() == L.Exec(stack.chain.env, old(stack.View()), L.EmitProcess(processId, amount))
    ensures answer == L.AnswerTo(stack.chain.env, old(stack.View()), L.EmitProcess(processId, amount))
  {
    hide NextSnapshot;
    var emitted := stack.emission.Emit(processId, amount);
    answer := L.OfEmit(emitted);
  }

  method AccrueFee(stack: OrchestratorService, epochNumber: int, fee: real, participants: seq<Participation>)
    returns (answer: L.Answer)
    requires stack.Wired()
    modifies stack.Parts()
    ensures stack.View() == L.Exec(stack.chain.env, old(stack.View()), L.AccrueFee(epochNumber, fee, participants))
    ensures answer == L.AnswerTo(stack.chain.env, old(stack.View()), L.AccrueFee(epochNumber, fee, participants))
  {
    hide Accrued, RowFor, AccrualTick;
    var row := stack.commission.Accrue(epochNumber, fee, participants);
    answer := L.OfAccrue(row.(startTime := 0, endTime := 0));
  }

  method Execution(stack: OrchestratorService, id: string, success: bool) returns (answer: L.Answer)
    requires stack.Wired()
    modifies stack.Parts()
    ensures stack.View() == L.Exec(stack.chain.env, old(stack.View()), L.Execution(id, success))
    ensures answer == L.AnswerTo(stack.chain.env, old(stack.View()), L.Execution(id, success))
  {
    hide Employed, Worked;
    var saved := stack.nodes.RecordExecution(id, success);
    answer := L.OfExecution(saved);
  }

  /** Any call at all: the services refine the state machine, state and answer. */
  method Perform(stack: OrchestratorService, c: L.Call) returns (answer: L.Answer)
    requires stack.Wired()
    modifies stack.Parts()
    ensures stack.View() == L.Exec(stack.chain.env, old(stack.View()), c)
    ensures answer == L.AnswerTo(stack.chain.env, old(stack.View()), c)
  {
    hide L.RunProcess, L.FinalizeEpoch;
    match c {
      case Run(r) =>
        var outcome := stack.RunProcess(r);
        answer := L.OfRun(outcome);
      case FinalizeCall(n) =>
        var settled := stack.FinalizeEpoch(n);
        answer := L.OfFinalize(settled);
      case RegisterNode(id, kind) => answer := RegisterNode(stack, id, kind);
      case Activate(threshold, target, volume) => answer := Activate(stack, threshold, target, volume);
      case Audit => answer := Audit(stack);
      case CaptureEvent(p, e, data) => answer := CaptureEvent(stack, p, e, data);
      case VerifyProcess(p) => answer := VerifyProcess(stack, p);
      case EmitProcess(p, amount) => answer := EmitProcess(stack, p, amount);
      case AccrueFee(n, fee, parts) => answer := AccrueFee(stack, n, fee, parts);
      case Execution(id, success) => answer := Execution(stack, id, success);
    }
  }
}
