/**
 * The whole system as one state, and every public call as one function from state to state. The
 * orchestrator's methods are proved against these functions; the whole-run theorems are about them.
 */
module Lifecycle {
  import opened Folds
  import opened Events
  import opened Clock
  import opened NodeChain
  import opened StateRecording
  import opened Pot
  import opened ArosCoin
  import opened Emission
  import opened Nodes
  import opened Reserve
  import opened Settlement
  import opened Commission
  import opened Release
  import opened AllSeeingEye
  import JsObject

  datatype World = World(
    journal: Journal,
    captured: CapturedIndex,
    verdicts: VerdictTable,
    coin: Coin,
    nodes: seq<Node>,
    pools: Pools,
    phase: Phase,
    eye: Option<Oversight>)   // None: no Eye is wired

  /** A fresh stack, with or without an Eye. */
  function Genesis(watched: bool): World
  {
    World(Journal(EPOCH_START, []), map[], map[], ZERO_COIN, [], Pools([], map[]), INACTIVE,
          if watched then Some([]) else None)
  }

  datatype Request = Request(processId: string, amount: real, kind: string, admissible: bool,
                             nodeIds: Option<seq<string>>, epoch: Option<int>)

  const DEFAULT_EPOCH := 1
  const DEFAULT_NODES: seq<(string, string)> := [("node-1", "validator"), ("node-2", "router"), ("node-3", "recorder")]

  datatype Refusal = Inadmissible | Unverified

  datatype RunResult = RunResult(processId: string, verified: bool, reason: Option<Refusal>, minted: real, fee: real,
                                 supplyAfter: real, reserveIndex: real, assignedNodes: seq<string>,
                                 events: seq<EventType>)

  /** A run completes, or an exception cuts it short. */
  datatype RunOutcome = Completed(result: RunResult) | NodeNotRegistered | EmissionRefused

  // ----- single steps -----

  ghost function Observe(env: Env, w: World, note: Note): World
  {
    match w.eye
    case None => w
    case Some(log) =>
      w.(journal := Tick(w.journal),
         eye := Some(log + [Noted(env, log, note, w.journal.tick + 1)]))
  }

  ghost function CompareSupply(env: Env, w: World): World
  {
    if w.coin.TotalSupply() == w.coin.earnedRetained then w
    else Observe(env, w, SupplyDrift(w.coin.TotalSupply(), w.coin.earnedRetained))
  }

  ghost function Capture(env: Env, w: World, processId: string, eventType: EventType, data: JsObject.Obj): World
  {
    w.(journal := Log(env, w.journal, eventType, Captured(processId, data, None)),
       captured := Remembered(w.captured, processId, eventType))
  }

  ghost function Admit(env: Env, w: World, id: string, kind: string): World
  {
    w.(journal := Log(env, w.journal, NodeRegistered, AdmissionRecord(Fresh(id, kind))),
       nodes := Saved(w.nodes, Fresh(id, kind)))
  }

  ghost function AdmitAll(env: Env, w: World, roster: seq<(string, string)>): World
  {
    if roster == [] then w
    else
      var last := roster[|roster| - 1];
      Admit(env, AdmitAll(env, w, roster[..|roster| - 1]), last.0, last.1)
  }

  function ActiveIds(nodes: seq<Node>): seq<string>
  {
    if nodes == [] then []
    else
      var front := ActiveIds(nodes[..|nodes| - 1]);
      var last := nodes[|nodes| - 1];
      if last.status == Active then front + [last.id] else front
  }

  /** One unit of successful work for each listed node, stopping at the first unknown one. */
  function WorkAll(nodes: seq<Node>, ids: seq<string>): (seq<Node>, bool)
  {
    if ids == [] then (nodes, true)
    else
      var (front, ok) := WorkAll(nodes, ids[..|ids| - 1]);
      var last := ids[|ids| - 1];
      if !ok || !Registered(front, last) then (front, false)
      else (Employed(front, last, true), true)
  }

  ghost function Verify(env: Env, w: World, processId: string): World
  {
    if processId in w.verdicts then w
    else
      var have := EventsOf(w.captured, processId);
      w.(journal := VerdictJournal(env, w.journal, processId, have),
         verdicts := w.verdicts[processId := IssuedVerdict(env, w.journal, have)])
  }

  ghost function Mint(env: Env, w: World, processId: string, amount: real): World
  {
    w.(journal := MintJournal(env, w.journal, processId, amount),
       coin := w.coin.(processMinted := w.coin.processMinted + amount))
  }

  ghost function Burn(env: Env, w: World, processId: string, amount: real): World
  {
    w.(journal := BurnJournal(env, w.journal, processId, amount),
       coin := w.coin.(processBurned := w.coin.processBurned + amount))
  }

  ghost function Accrue(w: World, n: int, fee: real, parts: seq<Participation>): World
  {
    w.(journal := w.journal.(tick := AccrualTick(w.pools, w.journal.tick, n)),
       pools := Accrued(w.pools, w.journal.tick, n, fee, parts))
  }

  // ----- the stages of a run -----

  ghost function Initiate(env: Env, w: World, r: Request): World
  {
    Observe(env, Capture(env, w, r.processId, Initiation, JsObject.Single("amount", JsObject.Num(r.amount))),
            Initiated(r.processId, r.amount))
  }

  ghost function Resolve(env: Env, w: World, explicit: Option<seq<string>>): (World, seq<string>)
  {
    if explicit.Some? && |explicit.value| > 0 then (w, explicit.value)
    else
      var w' := if w.nodes == [] then AdmitAll(env, w, DEFAULT_NODES) else w;
      (w', ActiveIds(w'.nodes))
  }

  ghost function RecordAssignment(env: Env, w: World, processId: string, ids: seq<string>): World
  {
    Observe(env, Capture(env, w, processId, TaskAssignment, JsObject.Single("nodes", JsObject.Texts(ids))),
            Assigned(|ids|))
  }

  ghost function RecordStages(env: Env, w: World, processId: string): World
  {
    Capture(env,
      Capture(env, w, processId, StageTransition, JsObject.Single("stage", JsObject.Text("execute"))),
      processId, ExecutionComplete, JsObject.EMPTY)
  }

  function Flag(b: bool): JsObject.Value { JsObject.Num(if b then 1.0 else 0.0) }

  ghost function Judge(env: Env, w: World, processId: string): World
  {
    var judged := Verify(env, w, processId);
    var verified := judged.verdicts[processId].verified;
    Observe(env, Capture(env, judged, processId, PotVerdict, JsObject.Single("verified", Flag(verified))),
            Judged(processId, verified))
  }

  /** The state a refused run hands to the Eye's comparison. */
  ghost function Turned(env: Env, w: World, processId: string): World
  {
    Capture(env, w, processId, FinalStatus, JsObject.Single("status", JsObject.Text("rejected")))
  }

  ghost function Refuse(env: Env, w: World, processId: string): World { CompareSupply(env, Turned(env, w, processId)) }

  function PartsFor(processId: string, ids: seq<string>): seq<Participation>
  {
    seq(|ids|, i requires 0 <= i < |ids| => Participation(processId, ids[i]))
  }

  ghost function MintStage(env: Env, w: World, processId: string, amount: real): World
  {
    Observe(env,
      Capture(env, Mint(env, w, processId, amount), processId, EmissionRecorded,
              JsObject.Single("minted", JsObject.Num(amount))),
      Minted(processId, amount))
  }

  ghost function BurnStage(env: Env, w: World, processId: string, amount: real): World
  {
    Observe(env, Burn(env, w, processId, amount), Burned(processId, amount))
  }

  /** The state a completed run hands to the Eye's comparison. */
  ghost function Concluded(env: Env, w: World, processId: string): World
  {
    Observe(env, Capture(env, w, processId, FinalStatus, JsObject.Single("status", JsObject.Text("done"))),
            Finished(processId))
  }

  ghost function CloseStage(env: Env, w: World, processId: string): World
  {
    CompareSupply(env, Concluded(env, w, processId))
  }

  /** The state right after the burn, where the reserve index of a verified run is read. */
  ghost function Produce(env: Env, w: World, processId: string, amount: real, epoch: int, ids: seq<string>): World
  {
    BurnStage(env,
      Accrue(MintStage(env, w, processId, amount), epoch, ComputeFee(amount), PartsFor(processId, ids)),
      processId, amount)
  }

  // ----- the calls -----

  const REJECTED_EVENTS: seq<EventType> := [Initiation]
  const JUDGED_EVENTS: seq<EventType> :=
    [Initiation, TaskAssignment, StageTransition, ExecutionComplete, PotVerified, PotVerdict]

  function EpochOf(r: Request): int { if r.epoch.Some? then r.epoch.value else DEFAULT_EPOCH }

  /** From the assignment on: everything an admissible request does. */
  ghost function Admitted(env: Env, w: World, r: Request): (World, RunOutcome)
  {
    var (resolved, ids) := Resolve(env, w, r.nodeIds);
    var staged := RecordStages(env, RecordAssignment(env, resolved, r.processId, ids), r.processId);
    var (employed, ok) := WorkAll(staged.nodes, ids);
    var worked := staged.(nodes := employed);
    if !ok then (worked, NodeNotRegistered)
    else Decided(env, Judge(env, worked, r.processId), r, ids)
  }

  /** From the verdict on. */
  ghost function Decided(env: Env, w: World, r: Request, ids: seq<string>): (World, RunOutcome)
    requires r.processId in w.verdicts
  {
    if !w.verdicts[r.processId].verified then
      var refused := Refuse(env, w, r.processId);
      (refused, Completed(RunResult(r.processId, false, Some(Unverified), 0.0, 0.0, refused.coin.TotalSupply(),
                                    ReserveIndex(env, refused.journal.chain), ids, JUDGED_EVENTS + [FinalStatus])))
    else if !Confirmed(w.verdicts, r.processId) then (w, EmissionRefused)   // the mint asks once more
    else
      var produced := Produce(env, w, r.processId, r.amount, EpochOf(r), ids);
      var closed := CloseStage(env, produced, r.processId);
      (closed, Completed(RunResult(r.processId, true, None, r.amount, ComputeFee(r.amount), closed.coin.TotalSupply(),
                                   ReserveIndex(env, produced.journal.chain), ids,
                                   JUDGED_EVENTS + [EmissionMinted, EmissionRecorded, EmissionBurned, FinalStatus])))
  }

  ghost function RunProcess(env: Env, w: World, r: Request): (World, RunOutcome)
  {
    var started := Initiate(env, w, r);
    if !r.admissible then
      var rejected := Observe(env, started, Rejected(r.processId));
      (rejected, Completed(RunResult(r.processId, false, Some(Inadmissible), 0.0, 0.0, rejected.coin.TotalSupply(),
                                     ReserveIndex(env, rejected.journal.chain), [], REJECTED_EVENTS)))
    else Admitted(env, started, r)
  }

  /** Commission's part of finalizing, on the whole state. */
  ghost function SettleEpoch(env: Env, w: World, n: int): (World, FinalizeOutcome)
  {
    if !HasEpoch(w.pools.epochs, n) then (w, NoSuchEpoch)
    else if EpochRow(w.pools.epochs, n).status != Open then (w, Done(ToResult(EpochRow(w.pools.epochs, n))))
    else
      var parts := PartsOf(w.pools.participation, n);
      match Weigh(parts, w.verdicts, w.nodes)
      case None => (w, UnknownNode)
      case Some(ws) =>
        WeighedArePayees(parts, w.verdicts, w.nodes);
        var f := Finalize(env, w.journal, w.coin, w.pools, w.nodes, ws, n);
        (w.(journal := f.journal, coin := f.coin, pools := f.pools), Done(f.result))
  }

  /** The state a finalization hands to the Eye's comparison. */
  ghost function Announced(env: Env, w: World, n: int, r: FinalizeResult): World
  {
    Observe(env, w, Distributed(n, r.paid, r.operationalMargin, r.reconciled))
  }

  ghost function FinalizeEpoch(env: Env, w: World, n: int): (World, FinalizeOutcome)
  {
    var (settled, outcome) := SettleEpoch(env, w, n);
    if !outcome.Done? then (settled, outcome)
    else (CompareSupply(env, Announced(env, settled, n, outcome.result)), outcome)
  }

  ghost function ActivateRelease(env: Env, w: World, threshold: real, target: real, processVolume24h: real): World
  {
    var check := Check(env, w.journal.chain, w.coin, threshold, target, processVolume24h);
    if w.phase.active || !check.mature then w
    else
      w.(journal := Log(env, Tick(w.journal), ReleaseActivated,
                        ReleaseRecord(check.reserveIndex, check.velocity, threshold, target)),
         phase := Phase(true, Some(w.journal.tick + 1), Some(check.reserveIndex), Some(check.velocity)))
  }

  /** The Eye's own audit of the chain. */
  ghost function AuditChain(env: Env, w: World): World
  {
    if Intact(env, w.journal.chain) then w
    else Observe(env, w, ChainBreak(BreakId(env, w.journal.chain)))
  }

  /** Public calls of the services. The first five are the orchestrated ones. */
  datatype Call =
    | Run(request: Request)
    | FinalizeCall(epochNumber: int)
    | RegisterNode(id: string, kind: string)
    | Activate(threshold: real, target: real, processVolume24h: real)
    | Audit
    | CaptureEvent(processId: string, eventType: EventType, data: JsObject.Plain)
    | VerifyProcess(processId: string)
    | EmitProcess(processId: string, amount: real)
    | AccrueFee(epochNumber: int, fee: real, participants: seq<Participation>)
    | Execution(id: string, success: bool)
  {
    /** What the request validation and the callers guarantee. */
    predicate Valid()
    {
      && (Run? ==> request.amount > 0.0)
      && (EmitProcess? ==> amount > 0.0)
      && (AccrueFee? ==> fee >= 0.0)
    }

    predicate Orchestrated() { Run? || FinalizeCall? || RegisterNode? || Activate? || Audit? }
  }

  ghost function Emit(env: Env, w: World, processId: string, amount: real): World
  {
    if Confirmed(w.verdicts, processId) then Burn(env, Mint(env, w, processId, amount), processId, amount) else w
  }

  ghost function Exec(env: Env, w: World, c: Call): World
  {
    match c
    case Run(r) => RunProcess(env, w, r).0
    case FinalizeCall(n) => FinalizeEpoch(env, w, n).0
    case RegisterNode(id, kind) => Admit(env, w, id, kind)
    case Activate(threshold, target, volume) => ActivateRelease(env, w, threshold, target, volume)
    case Audit => AuditChain(env, w)
    case CaptureEvent(p, e, data) => Capture(env, w, p, e, JsObject.SortKeys(data))
    case VerifyProcess(p) => Verify(env, w, p)
    case EmitProcess(p, amount) => Emit(env, w, p, amount)
    case AccrueFee(n, fee, parts) => Accrue(w, n, fee, parts)
    case Execution(id, success) =>
      if Registered(w.nodes, id) then w.(nodes := Employed(w.nodes, id, success)) else w
  }

  /** What a caller gets to see, its timestamps blanked out. */
  datatype Answer =
    | OfRun(outcome: RunOutcome)
    | OfFinalize(settled: FinalizeOutcome)
    | OfRegister(saved: Node)
    | OfActivate(result: ActivateResult)
    | OfAudit(audit: NodeChain.Audit)
    | OfCapture(record: Snapshot)
    | OfVerify(verified: bool, reasons: seq<Reason>, snapshotSequenceId: int)
    | OfEmit(emitted: EmitResult)
    | OfAccrue(row: Epoch)
    | OfExecution(node: Option<Node>)

  ghost function AnswerTo(env: Env, w: World, c: Call): Answer
  {
    match c
    case Run(r) => OfRun(RunProcess(env, w, r).1)
    case FinalizeCall(n) => OfFinalize(FinalizeEpoch(env, w, n).1)
    case RegisterNode(id, kind) => OfRegister(Fresh(id, kind))
    case Activate(threshold, target, volume) =>
      var check := Check(env, w.journal.chain, w.coin, threshold, target, volume);
      OfActivate(ActivateResult(!w.phase.active && check.mature, w.phase.active || check.mature,
                                check.reserveIndex, check.velocity))
    case Audit => OfAudit(if Intact(env, w.journal.chain) then Ok else BrokenAt(BreakId(env, w.journal.chain)))
    case CaptureEvent(p, e, data) =>
      OfCapture(NextSnapshot(env, w.journal.chain, e, Captured(p, JsObject.SortKeys(data), None), 0))
    case VerifyProcess(p) =>
      var verdict := Verify(env, w, p).verdicts[p];
      OfVerify(verdict.verified, verdict.reasons, verdict.snapshotSequenceId)
    case EmitProcess(p, amount) =>
      var emitted := if Confirmed(w.verdicts, p) then amount else 0.0;
      OfEmit(EmitResult(Confirmed(w.verdicts, p), emitted, emitted, p))
    case AccrueFee(n, fee, _) =>
      var row := RowFor(w.pools, w.journal.tick, n);
      OfAccrue(row.(totalFees := row.totalFees + fee, startTime := 0, endTime := 0))
    case Execution(id, success) =>
      OfExecution(if Registered(w.nodes, id) then Some(Worked(Lookup(w.nodes, id), success)) else None)
  }

  /** A run of the system: calls made on a fresh stack, and the states they lead through, one by one. */
  ghost predicate IsRun(env: Env, watched: bool, calls: seq<Call>, states: seq<World>)
  {
    && |states| == |calls| + 1
    && states[0] == Genesis(watched)
    && forall i {:trigger calls[i]} :: 0 <= i < |calls| ==> states[i + 1] == Exec(env, states[i], calls[i])
  }
}
