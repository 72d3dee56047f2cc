/** The orchestrator: the services wired together, driving the full process lifecycle. */
module Orchestrator {
  import opened Folds
  import opened Events
  import opened Clock
  import opened NodeChain
  import opened StateRecording
  import opened Pot
  import opened ArosCoin
  import opened Emission
  import opened Nodes
  import opened Reserve
  import opened Settlement
  import opened Commission
  import opened Release
  import opened AllSeeingEye
  import L = Lifecycle
  import Trace
  import JsObject
  import Strings

  lemma SingleIsCanonical(key: string, value: JsObject.Value)
    requires key != JsObject.PROTO
    ensures JsObject.Single(key, value).Valid()
    ensures JsObject.SortKeys(JsObject.Single(key, value)) == JsObject.Single(key, value)
  {
    var o := JsObject.Single(key, value);
    assert [key][..0] == [];
    assert Strings.Sort([key]) == [key];
    JsObject.CopiedKeepsOrder(o, [key]);
    JsObject.CopiedMapping(o, [key]);
    assert JsObject.Copied(o, [key]).at == o.at;
  }

  lemma EmptyIsCanonical()
    ensures JsObject.EMPTY.Valid() && JsObject.SortKeys(JsObject.EMPTY) == JsObject.EMPTY
  {
  }

  datatype MetricsSnapshot = MetricsSnapshot(totalSupply: real, earnedRetained: real, reserveIndex: real,
                                             verifiedProcessCount: nat, currentEpoch: int, epochPool: real,
                                             nodeChainLength: nat, releaseActive: bool)

  datatype ProcessEvent = ProcessEvent(eventType: EventType, sequenceId: int, timestamp: int)

  /** The recorded events of one process, in chain order. */
  function EventsFor(c: Chain, processId: string): seq<ProcessEvent>
  {
    if c == [] then []
    else
      var front, last := EventsFor(c[..|c| - 1], processId), c[|c| - 1];
      if last.payload.Process() == Some(processId)
      then front + [ProcessEvent(last.eventType, last.sequenceId, last.timestamp)]
      else front
  }

  /** The event types a process query lists are the trace of that process. */
  lemma {:induction false} EventsForIsTrace(c: Chain, processId: string)
    ensures |EventsFor(c, processId)| == |Trace.TraceOf(c, processId)|
    ensures forall i :: 0 <= i < |EventsFor(c, processId)| ==>
              EventsFor(c, processId)[i].eventType == Trace.TraceOf(c, processId)[i]
  {
    if c != [] { EventsForIsTrace(c[..|c| - 1], processId); }
  }

  /** A listed event is a record of the process: its sequence id, its type, its timestamp. */
  ghost predicate Lists(c: Chain, processId: string, e: ProcessEvent)
  {
    && 1 <= e.sequenceId <= |c|
    && var record := c[e.sequenceId - 1];
       record.payload.Process() == Some(processId) && record.eventType == e.eventType && record.timestamp == e.timestamp
  }

  ghost predicate Listed(c: Chain, processId: string, events: seq<ProcessEvent>, k: int)
    requires 0 <= k < |c|
  {
    c[k].payload.Process() == Some(processId) ==> exists i :: 0 <= i < |events| && events[i].sequenceId == k + 1
  }

  /** Every record of the process is listed, nothing else is, and in chain order. */
  ghost predicate IsListing(c: Chain, processId: string, events: seq<ProcessEvent>)
  {
    && (forall i :: 0 <= i < |events| ==> Lists(c, processId, events[i]))
    && (forall i, j :: 0 <= i < j < |events| ==> events[i].sequenceId < events[j].sequenceId)
    && forall k :: 0 <= k < |c| ==> Listed(c, processId, events, k)
  }

  lemma ListingSnoc(c: Chain, s: Snapshot, processId: string, events: seq<ProcessEvent>)
    requires IsListing(c, processId, events) && s.sequenceId == |c| + 1
    ensures var more := [ProcessEvent(s.eventType, s.sequenceId, s.timestamp)];
            IsListing(c + [s], processId, if s.payload.Process() == Some(processId) then events + more else events)
  {
    var events' := if s.payload.Process() == Some(processId)
        then events + [ProcessEvent(s.eventType, s.sequenceId, s.timestamp)] else events;
    forall i | 0 <= i < |events'| ensures Lists(c + [s], processId, events'[i]) {
      if i < |events| { assert Lists(c, processId, events[i]); }
    }
    forall i, j | 0 <= i < j < |events'| ensures events'[i].sequenceId < events'[j].sequenceId {
      assert Lists(c, processId, events[i]);
    }
    forall k | 0 <= k < |c + [s]| ensures Listed(c + [s], processId, events', k) {
      if k < |c| {
        assert Listed(c, processId, events, k);
        if i :| 0 <= i < |events| && events[i].sequenceId == k + 1 { assert events'[i].sequenceId == k + 1; }
      } else if s.payload.Process() == Some(processId) {
        assert events'[|events|].sequenceId == k + 1;
      }
    }
  }

  lemma {:induction false} EventsForAreRecords(c: Chain, processId: string)
    requires Numbered(c)
    ensures IsListing(c, processId, EventsFor(c, processId))
  {
    hide IsListing;
    if c == [] {
      assert IsListing([], processId, []) by { NothingListed(processId); }
    } else {
      var n := |c| - 1;
      EventsForAreRecords(c[..n], processId);
      ListingSnoc(c[..n], c[n], processId, EventsFor(c[..n], processId));
      assert c == c[..n] + [c[n]];
    }
  }

  lemma NothingListed(processId: string)
    ensures IsListing([], processId, [])
  {
  }

  class OrchestratorService {
    const recording: StateRecordingService
    const pot: PotService
    const emission: EmissionService
    const coin: ArosCoinService
    const commission: CommissionService
    const nodes: NodesService
    const reserve: ReserveService
    const release: ReleaseService
    const eye: AllSeeingEyeService
    const chain: NodeChainService

    constructor (recording: StateRecordingService, pot: PotService, emission: EmissionService, coin: ArosCoinService,
                 commission: CommissionService, nodes: NodesService, reserve: ReserveService, release: ReleaseService,
                 eye: AllSeeingEyeService, chain: NodeChainService)
      ensures this.recording == recording && this.pot == pot && this.emission == emission && this.coin == coin
      ensures this.commission == commission && this.nodes == nodes && this.reserve == reserve && this.release == release
      ensures this.eye == eye && this.chain == chain
    {
      this.recording := recording;
      this.pot := pot;
      this.emission := emission;
      this.coin := coin;
      this.commission := commission;
      this.nodes := nodes;
      this.reserve := reserve;
      this.release := release;
      this.eye := eye;
      this.chain := chain;
    }

    /** The dependency injection of a fresh stack. */
    static method Bootstrap(env: Env) returns (orchestrator: OrchestratorService)
      ensures orchestrator.Wired() && orchestrator.chain.env == env
      ensures orchestrator.View() == L.Genesis(true)
      ensures fresh(orchestrator) && fresh(orchestrator.chain) && fresh(orchestrator.chain.clock)
                && fresh(orchestrator.recording)
      ensures fresh(orchestrator.pot) && fresh(orchestrator.coin) && fresh(orchestrator.nodes)
                && fresh(orchestrator.commission)
      ensures fresh(orchestrator.release) && fresh(orchestrator.eye)
    {
      var clock := new ClockService();
      var chain := new NodeChainService(env, clock);
      var recording := new StateRecordingService(chain);
      var pot := new PotService(chain, recording);
      var coin := new ArosCoinService();
      var nodes := new NodesService(chain);
      var reserve := new ReserveService(chain);
      var emission := new EmissionService(coin, pot, chain);
      var commission := new CommissionService(nodes, pot, chain, coin, reserve);
      var release := new ReleaseService(reserve, coin, chain);
      var eye := new AllSeeingEyeService(chain);
      orchestrator :=
          new OrchestratorService(recording, pot, emission, coin, commission, nodes, reserve, release, eye, chain);
    }

    ghost predicate Wired()
    {
      && recording.chain == chain
      && pot.chain == chain && pot.stateRecording == recording
      && emission.coin == coin && emission.pot == pot && emission.chain == chain
      && nodes.chain == chain && reserve.chain == chain
      && commission.nodes == nodes && commission.pot == pot && commission.chain == chain
      && commission.coin == coin && commission.reserve == reserve
      && release.reserve == reserve && release.coin == coin && release.chain == chain
      && eye.nodeChain == chain && eye.clock == chain.clock && eye.env == chain.env
    }

    ghost function Parts(): set<object>
    {
      {chain, chain.clock, recording, pot, coin, nodes, commission, release, eye}
    }

    ghost function View(): L.World
      reads chain, chain.clock, recording, pot, coin, nodes, commission, release, eye
    {
      L.World(chain.View(), recording.captured, pot.verdicts, coin.Ledger(), nodes.nodes, commission.View(),
              release.View(), Some(eye.entries))
    }

    // ----- single steps -----

    method Capture(processId: string, eventType: EventType, key: string, value: JsObject.Value)
      requires Wired() && key != JsObject.PROTO
      modifies Parts()
      ensures View() == L.Capture(chain.env, old(View()), processId, eventType, JsObject.Single(key, value))
    {
      hide JsObject.SortKeys, NextSnapshot, Remembered;
      SingleIsCanonical(key, value);
      var _ := recording.Capture(processId, eventType, JsObject.Single(key, value));
    }

    method CaptureBare(processId: string, eventType: EventType)
      requires Wired()
      modifies Parts()
      ensures View() == L.Capture(chain.env, old(View()), processId, eventType, JsObject.EMPTY)
    {
      hide JsObject.SortKeys, NextSnapshot, Remembered;
      EmptyIsCanonical();
      var _ := recording.Capture(processId, eventType, JsObject.EMPTY);
    }

    method Observe(note: Note)
      requires Wired()
      modifies Parts()
      ensures View() == L.Observe(chain.env, old(View()), note)
    {
      hide NextEntry;
      eye.Observe(note);
    }

    method CompareSupply()
      requires Wired()
      modifies Parts()
      ensures View() == L.CompareSupply(chain.env, old(View()))
    {
      hide NextEntry;
      var totalSupply, retained := coin.SupplyView();
      var _ := eye.CompareSupply(totalSupply, retained);
    }

    // ----- the stages of a run -----

    /** Uses an explicit list as given; otherwise the active registry, filled with the default roster if empty. */
    method ResolveAssignedNodes(explicit: Option<seq<string>>) returns (ids: seq<string>)
      requires Wired()
      modifies Parts()
      ensures (View(), ids) == L.Resolve(chain.env, old(View()), explicit)
    {
      if explicit.Some? && |explicit.value| > 0 {
        return explicit.value;
      }
      if |nodes.nodes| == 0 {
        RegisterRoster();
      }
      ids := [];
      for i := 0 to |nodes.nodes|
        invariant ids == L.ActiveIds(nodes.nodes[..i])
      {
        assert nodes.nodes[..i + 1][..i] == nodes.nodes[..i];
        if nodes.nodes[i].status == Active {
          ids := ids + [nodes.nodes[i].id];
        }
      }
      assert nodes.nodes[..|nodes.nodes|] == nodes.nodes;
    }

    method RegisterRoster()
      requires Wired()
      modifies Parts()
      ensures View() == L.AdmitAll(chain.env, old(View()), L.DEFAULT_NODES)
    {
      hide NextSnapshot, Saved;
      ghost var before := View();
      for i := 0 to |L.DEFAULT_NODES|
        invariant View() == L.AdmitAll(chain.env, before, L.DEFAULT_NODES[..i])
      {
        assert L.DEFAULT_NODES[..i + 1][..i] == L.DEFAULT_NODES[..i];
        var node := L.DEFAULT_NODES[i];
        var _ := nodes.Register(node.0, node.1);
      }
      assert L.DEFAULT_NODES[..|L.DEFAULT_NODES|] == L.DEFAULT_NODES;
    }

    /** Records successful work for each node; an unknown id ends the run. */
    method RecordExecutions(ids: seq<string>) returns (ok: bool)
      requires Wired()
      modifies Parts()
      ensures var (employed, done) := L.WorkAll(old(nodes.nodes), ids);
              View() == old(View()).(nodes := employed) && ok == done
    {
      hide Employed;
      ghost var before := nodes.nodes;
      for i := 0 to |ids|
        invariant L.WorkAll(before, ids[..i]) == (nodes.nodes, true)
        invariant View() == old(View()).(nodes := nodes.nodes)
      {
        assert ids[..i + 1][..i] == ids[..i];
        var saved := nodes.RecordExecution(ids[i], true);
        if saved.None? {
          assert L.WorkAll(before, ids[..i + 1]) == (nodes.nodes, false);
          WorkStops(before, ids, i + 1);
          return false;
        }
      }
      assert ids[..|ids|] == ids;
      return true;
    }

    lemma {:induction false} WorkStops(start: seq<Node>, ids: seq<string>, n: nat)
      requires n <= |ids| && !L.WorkAll(start, ids[..n]).1
      ensures L.WorkAll(start, ids) == L.WorkAll(start, ids[..n])
      decreases |ids|
    {
      if n < |ids| {
        var m := |ids| - 1;
        assert ids[..m][..n] == ids[..n];
        WorkStops(start, ids[..m], n);
      } else {
        assert ids[..n] == ids;
      }
    }

    method JudgeProcess(processId: string) returns (verified: bool)
      requires Wired()
      modifies Parts()
      ensures View() == L.Judge(chain.env, old(View()), processId)
      ensures processId in pot.verdicts && verified == pot.verdicts[processId].verified
    {
      hide VerdictJournal, IssuedVerdict, NextSnapshot, NextEntry, Remembered;
      ghost var before := View();
      var verdict := pot.Verify(processId);
      assert View() == L.Verify(chain.env, before, processId);
      verified := verdict.verified;
      Capture(processId, PotVerdict, "verified", L.Flag(verified));
      Observe(Judged(processId, verified));
    }

    /** Mint, accrue, burn: the canonical order. The mint checks the verdict once more and may refuse. */
    method ProduceValue(processId: string, amount: real, epoch: int, ids: seq<string>) returns (refused: bool)
      requires Wired()
      modifies Parts()
      ensures refused <==> !Confirmed(old(pot.verdicts), processId)
      ensures refused ==> View() == old(View())
      ensures !refused ==> View() == L.Produce(chain.env, old(View()), processId, amount, epoch, ids)
    {
      hide NextSnapshot, NextEntry, Remembered, Accrued, AccrualTick, ComputeFee, Confirmed;
      ghost var w := View();
      var minted: real;
      refused, minted := emission.Mint(processId, amount);
      if refused {
        return;
      }
      assert View() == L.Mint(chain.env, w, processId, amount);
      Capture(processId, EmissionRecorded, "minted", JsObject.Num(minted));
      Observe(Minted(processId, minted));
      assert View() == L.MintStage(chain.env, w, processId, amount);
      ghost var m := View();
      var fee := ComputeFee(amount);
      var _ := commission.Accrue(epoch, fee, L.PartsFor(processId, ids));
      assert View() == L.Accrue(m, epoch, fee, L.PartsFor(processId, ids));
      BurnAndObserve(processId, minted);
    }

    method BurnAndObserve(processId: string, amount: real)
      requires Wired()
      modifies Parts()
      ensures View() == L.BurnStage(chain.env, old(View()), processId, amount)
    {
      hide NextSnapshot, NextEntry;
      ghost var w := View();
      var burned := emission.Burn(processId, amount);
      assert View() == L.Burn(chain.env, w, processId, amount);
      Observe(Burned(processId, burned));
    }

    method Close(processId: string)
      requires Wired()
      modifies Parts()
      ensures View() == L.CloseStage(chain.env, old(View()), processId)
    {
      Capture(processId, FinalStatus, "status", JsObject.Text("done"));
      Observe(Finished(processId));
      CompareSupply();
    }

    /** Reads the figures of the result before the Eye compares supply. */
    method RefuseProcess(processId: string) returns (supplyAfter: real, reserveIndex: real)
      requires Wired()
      modifies Parts()
      ensures View() == L.Refuse(chain.env, old(View()), processId)
      ensures supplyAfter == View().coin.TotalSupply() && reserveIndex == ReserveIndex(chain.env, View().journal.chain)
    {
      hide L.Observe, L.Capture, Volume;
      Capture(processId, FinalStatus, "status", JsObject.Text("rejected"));
      reserveIndex := reserve.Index();
      supplyAfter := coin.TotalSupply();
      ghost var before := View();
      CompareSupply();
      ComparingIsPassive(chain.env, before);
    }

    lemma ComparingIsPassive(env: Env, w: L.World)
      ensures L.CompareSupply(env, w).journal.chain == w.journal.chain && L.CompareSupply(env, w).coin == w.coin
    {
    }

    /** From the verdict on. */
    method Decide(r: L.Request, verified: bool, ids: seq<string>, events: seq<EventType>)
      returns (outcome: L.RunOutcome)
      requires Wired() && r.processId in pot.verdicts && verified == pot.verdicts[r.processId].verified
      requires events == L.JUDGED_EVENTS
      modifies Parts()
      ensures (View(), outcome) == L.Decided(chain.env, old(View()), r, ids)
    {
      hide L.Refuse, L.Produce, L.CloseStage, ComputeFee, Volume, Confirmed;
      if !verified {
        var supplyAfter, reserveIndex := RefuseProcess(r.processId);
        return L.Completed(L.RunResult(r.processId, false, Some(L.Unverified), 0.0, 0.0, supplyAfter, reserveIndex,
                                       ids, events + [FinalStatus]));
      }
      var epoch := if r.epoch.Some? then r.epoch.value else L.DEFAULT_EPOCH;
      var refused := ProduceValue(r.processId, r.amount, epoch, ids);
      if refused {
        return L.EmissionRefused;
      }
      var reserveIndex := reserve.Index();
      Close(r.processId);
      var supplyAfter := coin.TotalSupply();
      return L.Completed(L.RunResult(r.processId, true, None, r.amount, ComputeFee(r.amount), supplyAfter, reserveIndex,
                                     ids, events + [EmissionMinted, EmissionRecorded, EmissionBurned, FinalStatus]));
    }

    /** Steps 3 to 5: assignment, execution and verdict; `ok` is false when a listed node is unknown. */
    method Execute(r: L.Request) returns (ok: bool, ids: seq<string>)
      requires Wired()
      modifies Parts()
      ensures var (resolved, chosen) := L.Resolve(chain.env, old(View()), r.nodeIds);
              var staged :=
                  L.RecordStages(chain.env, L.RecordAssignment(chain.env, resolved, r.processId, chosen), r.processId);
              var (employed, done) := L.WorkAll(staged.nodes, chosen);
              ids == chosen && ok == done && View() == staged.(nodes := employed)
    {
      hide L.Resolve, L.WorkAll, L.Capture, L.Observe;
      ids := ResolveAssignedNodes(r.nodeIds);
      Capture(r.processId, TaskAssignment, "nodes", JsObject.Texts(ids));
      Observe(Assigned(|ids|));
      Capture(r.processId, StageTransition, "stage", JsObject.Text("execute"));
      CaptureBare(r.processId, ExecutionComplete);
      ok := RecordExecutions(ids);
    }

    /** One process through the entire lifecycle. */
    method RunProcess(r: L.Request) returns (outcome: L.RunOutcome)
      requires Wired()
      modifies Parts()
      ensures (View(), outcome) == L.RunProcess(chain.env, old(View()), r)
    {
      hide L.Resolve, L.WorkAll, L.Capture, L.Observe, L.RecordStages, L.RecordAssignment, L.Judge, L.Decided, Volume;
      var events: seq<EventType> := [Initiation];
      ghost var before := View();
      Capture(r.processId, Initiation, "amount", JsObject.Num(r.amount));
      Observe(Initiated(r.processId, r.amount));
      assert View() == L.Initiate(chain.env, before, r);
      if !r.admissible {
        Observe(Rejected(r.processId));
        var reserveIndex := reserve.Index();
        var supplyAfter := coin.TotalSupply();
        return L.Completed(L.RunResult(r.processId, false, Some(L.Inadmissible), 0.0, 0.0, supplyAfter, reserveIndex,
                                       [], events));
      }
      var ok, ids := Execute(r);
      if !ok {
        return L.NodeNotRegistered;
      }
      events := events + [TaskAssignment, StageTransition, ExecutionComplete];
      var verified := JudgeProcess(r.processId);
      events := events + [PotVerified, PotVerdict];
      outcome := Decide(r, verified, ids, events);
    }

    // ----- epochs, queries -----

    method FinalizeEpoch(epochNumber: int) returns (outcome: FinalizeOutcome)
      requires Wired()
      modifies Parts()
      ensures (View(), outcome) == L.FinalizeEpoch(chain.env, old(View()), epochNumber)
    {
      hide L.Observe, L.CompareSupply;
      ghost var before := View();
      outcome := SettleEpoch(epochNumber);
      if !outcome.Done? {
        return;
      }
      var result := outcome.result;
      Observe(Distributed(epochNumber, result.paid, result.operationalMargin, result.reconciled));
      CompareSupply();
    }

    method SettleEpoch(epochNumber: int) returns (outcome: FinalizeOutcome)
      requires Wired()
      modifies Parts()
      ensures (View(), outcome) == L.SettleEpoch(chain.env, old(View()), epochNumber)
    {
      hide Finalize, Weigh, ToResult;
      outcome := commission.FinalizeEpoch(epochNumber);
    }

    /** The verdict and the recorded events of a process; nothing is issued or recorded. */
    method GetProcess(processId: string) returns (verdict: Option<Verdict>, events: seq<ProcessEvent>)
      ensures verdict == if processId in pot.verdicts then Some(pot.verdicts[processId]) else None
      ensures events == EventsFor(chain.snapshots, processId)
    {
      verdict := pot.GetVerdict(processId);
      var history := chain.snapshots;
      events := [];
      for i := 0 to |history|
        invariant events == EventsFor(history[..i], processId)
      {
        assert history[..i + 1][..i] == history[..i];
        var snap := history[i];
        if snap.payload.Process() == Some(processId) {
          events := events + [ProcessEvent(snap.eventType, snap.sequenceId, snap.timestamp)];
        }
      }
      assert history[..|history|] == history;
    }

    /** A snapshot of the economy; the state is the same before and after. */
    method Metrics(epoch: int) returns (metrics: MetricsSnapshot)
      requires Wired()
      modifies Parts()
      ensures View() == old(View())
      ensures metrics == MetricsSnapshot(View().coin.TotalSupply(), View().coin.earnedRetained,
                           ReserveIndex(chain.env, chain.snapshots),
                           |set p | p in pot.verdicts && pot.verdicts[p].verified|, epoch,
                           if HasEpoch(View().pools.epochs, epoch) then EpochRow(View().pools.epochs, epoch).totalFees
                               else 0.0,
                           |chain.snapshots|, View().phase.active)
    {
      hide Volume;
      var totalSupply := coin.TotalSupply();
      var earnedRetained := coin.Retained();
      var reserveIndex := reserve.Index();
      var epochRow := commission.GetEpoch(epoch);
      var releaseActive := release.IsActive();
      var verified := set p | p in pot.verdicts && pot.verdicts[p].verified;
      metrics := MetricsSnapshot(totalSupply, earnedRetained, reserveIndex, |verified|, epoch,
                                 if epochRow.Some? then epochRow.value.totalFees else 0.0,
                                 |chain.snapshots|, releaseActive);
    }
  }
}
