/** The life of one process as its log records tell it: a fixed automaton accepts every one. */
module Trace {
  import opened Folds
  import opened Events
  import opened NodeChain
  import opened StateRecording
  import opened Pot
  import opened Nodes
  import opened Reserve
  import opened Settlement
  import opened Commission
  import opened Release
  import opened Lifecycle
  import opened Soundness
  import opened CallInvariants
  import opened Conservation
  import opened RunEffects
  import JsObject

  /** The event types recorded for a process, in log order. */
  function TraceOf(c: Chain, processId: string): seq<EventType>
  {
    if c == [] then []
    else
      var front, last := TraceOf(c[..|c| - 1], processId), c[|c| - 1];
      if last.payload.Process() == Some(processId) then front + [last.eventType] else front
  }

  // ----- the automaton -----

  datatype Stage = Idle | Entered | Staffed | Underway | Complete | Ruled | Noted | Coined | Booked | Retired | Stuck

  /** Where a process stands, and whether it has its verdict. */
  datatype Point = Point(stage: Stage, judged: bool)

  function Move(at: Point, event: EventType): Point
  {
    match (at.stage, event)
    case (Idle, Initiation) => at.(stage := Entered)
    case (Entered, Initiation) => at             // the previous run was rejected
    case (Complete, Initiation) => at.(stage := Entered)   // the previous run was cut short
    case (Entered, TaskAssignment) => at.(stage := Staffed)
    case (Staffed, StageTransition) => at.(stage := Underway)
    case (Underway, ExecutionComplete) => at.(stage := Complete)
    case (Complete, PotVerified) => if at.judged then at.(stage := Stuck) else Point(Ruled, true)
    case (Complete, PotVerdict) => at.(stage := if at.judged then Noted else Stuck)
    case (Ruled, PotVerdict) => at.(stage := Noted)
    case (Noted, EmissionMinted) => at.(stage := Coined)
    case (Coined, EmissionRecorded) => at.(stage := Booked)
    case (Booked, EmissionBurned) => at.(stage := Retired)
    case (Retired, FinalStatus) => at.(stage := Idle)
    case _ => at.(stage := Stuck)
  }

  function Follow(at: Point, events: seq<EventType>): Point
  {
    if events == [] then at else Move(Follow(at, events[..|events| - 1]), events[|events| - 1])
  }

  const ENTRY := Point(Idle, false)

  /** Between runs: none yet or completed, rejected, or cut short. */
  predicate Accepting(at: Point) { at.stage == Idle || at.stage == Entered || at.stage == Complete }

  lemma {:induction false} FollowConcat(at: Point, a: seq<EventType>, b: seq<EventType>)
    ensures Follow(at, a + b) == Follow(Follow(at, a), b)
  {
    hide Move;
    if b == [] {
      assert a + b == a;
    } else {
      var n := |b| - 1;
      FollowConcat(at, a, b[..n]);
      assert (a + b)[..|a + b| - 1] == a + b[..n];
    }
  }

  // ----- what accepted traces look like -----

  function Occurrences(events: seq<EventType>, e: EventType): nat
  {
    if events == [] then 0
    else Occurrences(events[..|events| - 1], e) + (if events[|events| - 1] == e then 1 else 0)
  }

  /** A trace that is not stuck has one verdict or none, burns what it mints, and mints only behind the verdict. */
  lemma {:induction false} AcceptedMeaning(events: seq<EventType>)
    requires Follow(ENTRY, events).stage != Stuck
    ensures var at := Follow(ENTRY, events);
            && Occurrences(events, PotVerified) == (if at.judged then 1 else 0)
            && Occurrences(events, EmissionMinted) - Occurrences(events, EmissionBurned) ==
                 (if at.stage == Coined || at.stage == Booked then 1 else 0)
            && (forall i :: 0 <= i < |events| && events[i] == EmissionMinted ==>
                exists j :: 0 <= j < i && events[j] == PotVerified)
            && (at.judged ==> exists j :: 0 <= j < |events| && events[j] == PotVerified)
            && (at.stage in {Ruled, Noted, Coined, Booked, Retired} ==> at.judged)
  {
    if events != [] {
      var front, last := events[..|events| - 1], events[|events| - 1];
      assert events == front + [last];
      var before := Follow(ENTRY, front);
      AcceptedMeaning(front);
      if before.judged {
        var j :| 0 <= j < |front| && front[j] == PotVerified;
        assert events[j] == PotVerified;
      }
      forall i | 0 <= i < |events| && events[i] == EmissionMinted
          ensures exists j :: 0 <= j < i && events[j] == PotVerified {
        if i < |front| {
          var j :| 0 <= j < i && front[j] == PotVerified;
          assert events[j] == PotVerified;
        } else {
          var j :| 0 <= j < |front| && front[j] == PotVerified;
          assert events[j] == PotVerified;
        }
      }
    }
  }

  /** Between runs a judged process has been minted at least once, and any other never. */
  lemma {:induction false} JudgedIsMinted(events: seq<EventType>)
    requires Follow(ENTRY, events).stage != Stuck
    ensures var at, minted := Follow(ENTRY, events), Occurrences(events, EmissionMinted);
            && (at.stage in {Ruled, Noted, Coined, Booked, Retired} ==> at.judged)
            && (!at.judged ==> minted == 0)
            && (at.judged && at.stage != Ruled && at.stage != Noted ==> minted >= 1)
  {
    if events != [] { JudgedIsMinted(events[..|events| - 1]); }
  }

  // ----- what each step records for which process -----

  /** From `w` to `w'` the log gained exactly these events for process `q`, and none for any other. */
  ghost predicate Adds(w: World, w': World, q: string, events: seq<EventType>)
  {
    forall p :: TraceOf(w'.journal.chain, p) == TraceOf(w.journal.chain, p) + (if p == q then events else [])
  }

  lemma AddsTransitive(a: World, b: World, c: World, q: string, first: seq<EventType>, second: seq<EventType>)
    requires Adds(a, b, q, first) && Adds(b, c, q, second)
    ensures Adds(a, c, q, first + second)
  {
    hide TraceOf;
    forall p
        ensures TraceOf(c.journal.chain, p) == TraceOf(a.journal.chain, p) + (if p == q then first + second else []) {
      assert TraceOf(b.journal.chain, p) == TraceOf(a.journal.chain, p) + (if p == q then first else []);
      assert TraceOf(c.journal.chain, p) == TraceOf(b.journal.chain, p) + (if p == q then second else []);
    }
  }

  lemma AddsNothingTwice(a: World, b: World, c: World, q: string)
    requires Adds(a, b, q, []) && Adds(b, c, q, [])
    ensures Adds(a, c, q, [])
  {
    hide Adds;
    AddsTransitive(a, b, c, q, [], []);
    var none: seq<EventType> := [];
    assert none + none == none;
  }

  lemma AddsNothing(w: World, w': World, q: string)
    ensures w'.journal.chain == w.journal.chain ==> Adds(w, w', q, [])
  {
  }

  lemma LogAdds(env: Env, w: World, w': World, tick: int, eventType: EventType, payload: Payload, q: string)
    requires w'.journal.chain == Log(env, w.journal.(tick := tick), eventType, payload).chain
    requires payload.Process().None? || payload.Process() == Some(q)
    ensures Adds(w, w', q, if payload.Process().Some? then [eventType] else [])
  {
    var c := w.journal.chain;
    assert w'.journal.chain[..|c|] == c;
    assert w'.journal.chain[|c|].eventType == eventType && w'.journal.chain[|c|].payload == payload;
  }

  lemma AddsCapture(env: Env, w: World, q: string, eventType: EventType, data: JsObject.Obj)
    ensures Adds(w, Capture(env, w, q, eventType, data), q, [eventType])
  {
    hide Adds, NextSnapshot;
    LogAdds(env, w, Capture(env, w, q, eventType, data), w.journal.tick, eventType, Captured(q, data, None), q);
  }

  lemma SameChainAdds(a: World, b: World, c: World, q: string, events: seq<EventType>)
    ensures Adds(a, b, q, events) && c.journal.chain == b.journal.chain ==> Adds(a, c, q, events)
  {
    hide TraceOf;
  }

  lemma AddsInitiate(env: Env, w: World, r: Request)
    ensures Adds(w, Initiate(env, w, r), r.processId, [Initiation])
  {
    hide Adds, Capture, Observe;
    var data := JsObject.Single("amount", JsObject.Num(r.amount));
    var captured := Capture(env, w, r.processId, Initiation, data);
    AddsCapture(env, w, r.processId, Initiation, data);
    ObserveOnlyWatches(env, captured, Initiated(r.processId, r.amount));
    SameChainAdds(w, captured, Initiate(env, w, r), r.processId, [Initiation]);
  }

  lemma {:induction false} AddsAdmitAll(env: Env, w: World, roster: seq<(string, string)>, q: string)
    ensures Adds(w, AdmitAll(env, w, roster), q, [])
  {
    hide Adds, Admit;
    if roster == [] {
      AddsNothing(w, w, q);
    } else {
      var front, last := AdmitAll(env, w, roster[..|roster| - 1]), roster[|roster| - 1];
      AddsAdmitAll(env, w, roster[..|roster| - 1], q);
      AddsAdmit(env, front, last.0, last.1, q);
      AddsNothingTwice(w, front, AdmitAll(env, w, roster), q);
    }
  }

  lemma AddsAdmit(env: Env, w: World, id: string, kind: string, q: string)
    ensures Adds(w, Admit(env, w, id, kind), q, [])
  {
    hide Adds, NextSnapshot;
    LogAdds(env, w, Admit(env, w, id, kind), w.journal.tick, NodeRegistered, AdmissionRecord(Fresh(id, kind)), q);
  }

  lemma AddsExecuted(env: Env, w: World, r: Request)
    ensures Adds(w, Executed(env, w, r).0, r.processId, [TaskAssignment, StageTransition, ExecutionComplete])
  {
    hide Adds, Capture, Observe, AdmitAll, WorkAll, ActiveIds;
    var q := r.processId;
    var (resolved, ids) := Resolve(env, w, r.nodeIds);
    AddsNothing(w, w, q);
    AddsAdmitAll(env, w, DEFAULT_NODES, q);
    assert Adds(w, resolved, q, []);
    var data := JsObject.Single("nodes", JsObject.Texts(ids));
    var named := Capture(env, resolved, q, TaskAssignment, data);
    AddsCapture(env, resolved, q, TaskAssignment, data);
    var recorded := RecordAssignment(env, resolved, q, ids);
    ObserveOnlyWatches(env, named, Assigned(|ids|));
    SameChainAdds(resolved, named, recorded, q, [TaskAssignment]);
    AddsTransitive(w, resolved, recorded, q, [], [TaskAssignment]);
    var step := JsObject.Single("stage", JsObject.Text("execute"));
    var staged := Capture(env, recorded, q, StageTransition, step);
    AddsCapture(env, recorded, q, StageTransition, step);
    AddsTransitive(w, recorded, staged, q, [] + [TaskAssignment], [StageTransition]);
    var done := Capture(env, staged, q, ExecutionComplete, JsObject.EMPTY);
    AddsCapture(env, staged, q, ExecutionComplete, JsObject.EMPTY);
    AddsTransitive(w, staged, done, q, [] + [TaskAssignment] + [StageTransition], [ExecutionComplete]);
    SameChainAdds(w, done, Executed(env, w, r).0, q, [] + [TaskAssignment] + [StageTransition] + [ExecutionComplete]);
    assert [] + [TaskAssignment] + [StageTransition] + [ExecutionComplete] ==
        [TaskAssignment, StageTransition, ExecutionComplete];
  }

  /** The first verdict is recorded; a repeated one is not. */
  function VerdictEvents(verdicts: VerdictTable, q: string): seq<EventType>
  {
    if q in verdicts then [PotVerdict] else [PotVerified, PotVerdict]
  }

  lemma AddsVerify(env: Env, w: World, q: string)
    ensures Adds(w, Verify(env, w, q), q, if q in w.verdicts then [] else [PotVerified])
  {
    hide Adds, NextSnapshot, Intact, FailureReasons, Evidence;
    if q in w.verdicts {
      AddsNothing(w, w, q);
    } else {
      var chainOk := Intact(env, w.journal.chain);
      var have := EventsOf(w.captured, q);
      LogAdds(env, w, Verify(env, w, q), w.journal.tick, PotVerified,
              VerdictRecord(q, Evidence(chainOk, have), FailureReasons(chainOk, have)), q);
    }
  }

  lemma AddsJudge(env: Env, w: World, q: string)
    ensures Adds(w, Judge(env, w, q), q, VerdictEvents(w.verdicts, q))
  {
    hide Adds, Capture, Observe, Verify;
    VerifyDecides(env, w, q);
    var judged := Verify(env, w, q);
    AddsVerify(env, w, q);
    var verified := judged.verdicts[q].verified;
    var data := JsObject.Single("verified", Flag(verified));
    var captured := Capture(env, judged, q, PotVerdict, data);
    AddsCapture(env, judged, q, PotVerdict, data);
    AddsTransitive(w, judged, captured, q, if q in w.verdicts then [] else [PotVerified], [PotVerdict]);
    ObserveOnlyWatches(env, captured, Judged(q, verified));
    assert (if q in w.verdicts then [] else [PotVerified]) + [PotVerdict] == VerdictEvents(w.verdicts, q);
    SameChainAdds(w, captured, Judge(env, w, q), q, VerdictEvents(w.verdicts, q));
  }

  const PRODUCED: seq<EventType> := [EmissionMinted, EmissionRecorded, EmissionBurned]

  lemma AddsProduce(env: Env, w: World, q: string, amount: real, epoch: int, ids: seq<string>)
    ensures Adds(w, Produce(env, w, q, amount, epoch, ids), q, PRODUCED)
  {
    hide Adds, Capture, Observe, NextSnapshot, Accrued, AccrualTick, ComputeFee;
    var minted := Mint(env, w, q, amount);
    LogAdds(env, w, minted, w.journal.tick, EmissionMinted, MintRecord(q, amount), q);
    var data := JsObject.Single("minted", JsObject.Num(amount));
    var captured := Capture(env, minted, q, EmissionRecorded, data);
    AddsCapture(env, minted, q, EmissionRecorded, data);
    AddsTransitive(w, minted, captured, q, [EmissionMinted], [EmissionRecorded]);
    ObserveOnlyWatches(env, captured, Minted(q, amount));
    var accrued := Accrue(MintStage(env, w, q, amount), epoch, ComputeFee(amount), PartsFor(q, ids));
    SameChainAdds(w, captured, accrued, q, [EmissionMinted] + [EmissionRecorded]);
    var burned := Burn(env, accrued, q, amount);
    LogAdds(env, accrued, burned, accrued.journal.tick, EmissionBurned, BurnRecord(q, amount), q);
    AddsTransitive(w, accrued, burned, q, [EmissionMinted] + [EmissionRecorded], [EmissionBurned]);
    ObserveOnlyWatches(env, burned, Burned(q, amount));
    assert [EmissionMinted] + [EmissionRecorded] + [EmissionBurned] == PRODUCED;
    SameChainAdds(w, burned, Produce(env, w, q, amount, epoch, ids), q, PRODUCED);
  }

  lemma AddsClose(env: Env, w: World, q: string)
    ensures Adds(w, CloseStage(env, w, q), q, [FinalStatus])
  {
    hide Adds, Capture, Observe, CompareSupply;
    var data := JsObject.Single("status", JsObject.Text("done"));
    var captured := Capture(env, w, q, FinalStatus, data);
    AddsCapture(env, w, q, FinalStatus, data);
    ObserveOnlyWatches(env, captured, Finished(q));
    CompareOnlyWatches(env, Observe(env, captured, Finished(q)));
    SameChainAdds(w, captured, CloseStage(env, w, q), q, [FinalStatus]);
  }

  lemma AddsRefuse(env: Env, w: World, q: string)
    ensures Adds(w, Refuse(env, w, q), q, [FinalStatus])
  {
    hide Adds, Capture, CompareSupply;
    var data := JsObject.Single("status", JsObject.Text("rejected"));
    var captured := Capture(env, w, q, FinalStatus, data);
    AddsCapture(env, w, q, FinalStatus, data);
    CompareOnlyWatches(env, captured);
    SameChainAdds(w, captured, Refuse(env, w, q), q, [FinalStatus]);
  }

  // ----- a run -----

  const EXECUTED: seq<EventType> := [Initiation, TaskAssignment, StageTransition, ExecutionComplete]

  /** What a run with this outcome puts on the log for its process. */
  function RecordedEvents(judged: bool, outcome: RunOutcome): seq<EventType>
  {
    match outcome
    case Completed(result) =>
      if result.reason == Some(Inadmissible) then [Initiation]
      else
        EXECUTED + (if judged then [PotVerdict] else [PotVerified, PotVerdict])
        + (if result.verified then PRODUCED + [FinalStatus] else [FinalStatus])
    case _ => EXECUTED
  }

  lemma AddsDecided(env: Env, w: World, r: Request, ids: seq<string>)
    ensures r.processId in Judge(env, w, r.processId).verdicts
    ensures var (w', outcome) := Decided(env, Judge(env, w, r.processId), r, ids);
            && outcome.Completed? && outcome.result.reason != Some(Inadmissible)
            && Adds(w, w', r.processId, VerdictEvents(w.verdicts, r.processId)
                                        + (if outcome.result.verified then PRODUCED + [FinalStatus] else [FinalStatus]))
  {
    hide Adds, Judge, Verify, Produce, CloseStage, Refuse, Volume, ComputeFee, VerdictEvents;
    var q := r.processId;
    JudgeEffect(env, w, q);
    AddsJudge(env, w, q);
    var judged := Judge(env, w, q);
    var events := VerdictEvents(w.verdicts, q);
    if judged.verdicts[q].verified {
      var produced := Produce(env, judged, q, r.amount, EpochOf(r), ids);
      AddsProduce(env, judged, q, r.amount, EpochOf(r), ids);
      AddsClose(env, produced, q);
      AddsTransitive(judged, produced, CloseStage(env, produced, q), q, PRODUCED, [FinalStatus]);
      AddsTransitive(w, judged, CloseStage(env, produced, q), q, events, PRODUCED + [FinalStatus]);
    } else {
      AddsRefuse(env, judged, q);
      AddsTransitive(w, judged, Refuse(env, judged, q), q, events, [FinalStatus]);
    }
  }

  /** A run records its own events, in order, for its own process, and nothing for any other. */
  lemma AddsRun(env: Env, w: World, r: Request)
    ensures var (w', outcome) := RunProcess(env, w, r);
            Adds(w, w', r.processId, RecordedEvents(r.processId in w.verdicts, outcome))
  {
    hide Adds, Quiet, Initiate, Observe, Judge, Resolve, RecordStages, RecordAssignment, WorkAll, Decided, Volume;
    var q := r.processId;
    var started := Initiate(env, w, r);
    AddsInitiate(env, w, r);
    QuietInitiate(env, w, r);
    QuietReplay(env, w, started);
    if !r.admissible {
      ObserveOnlyWatches(env, started, Rejected(q));
      SameChainAdds(w, started, RunProcess(env, w, r).0, q, [Initiation]);
    } else {
      QuietExecuted(env, started, r);
      AddsExecuted(env, started, r);
      var (executed, ids, ok) := Executed(env, started, r);
      QuietReplay(env, started, executed);
      AddsTransitive(w, started, executed, q, [Initiation], [TaskAssignment, StageTransition, ExecutionComplete]);
      assert [Initiation] + [TaskAssignment, StageTransition, ExecutionComplete] == EXECUTED;
      if ok {
        AddsDecided(env, executed, r, ids);
        var (w', outcome) := Decided(env, Judge(env, executed, q), r, ids);
        var tail := if outcome.result.verified then PRODUCED + [FinalStatus] else [FinalStatus];
        AddsTransitive(w, executed, w', q, EXECUTED, VerdictEvents(w.verdicts, q) + tail);
        assert EXECUTED + (VerdictEvents(w.verdicts, q) + tail) == RecordedEvents(q in w.verdicts, outcome);
      }
    }
  }

  lemma DecidedEvents(env: Env, w: World, r: Request, ids: seq<string>)
    requires r.processId in w.verdicts
    ensures var outcome := Decided(env, w, r, ids).1;
            && outcome.Completed? && outcome.result.reason != Some(Inadmissible)
            && outcome.result.events == JUDGED_EVENTS
                 + (if outcome.result.verified then PRODUCED + [FinalStatus] else [FinalStatus])
  {
    hide Volume, Refuse, Produce, CloseStage, ComputeFee;
    assert [EmissionMinted, EmissionRecorded, EmissionBurned, FinalStatus] == PRODUCED + [FinalStatus];
  }

  /**
   * The result's `events` claims to list what the run recorded. It does, except when a process that
   * already has its verdict is run again: `pot.verified` is then reported although nothing was recorded.
   */
  lemma {:induction false} ReportedEvents(env: Env, w: World, r: Request)
    ensures var (w', outcome) := RunProcess(env, w, r);
            outcome.Completed? ==>
              (Adds(w, w', r.processId, outcome.result.events) <==> !r.admissible || r.processId !in w.verdicts)
  {
    hide Adds, Initiate, Judge, Resolve, RecordStages, RecordAssignment, WorkAll, Decided, Volume, Observe;
    var q := r.processId;
    var (w', outcome) := RunProcess(env, w, r);
    AddsRun(env, w, r);
    var recorded := RecordedEvents(q in w.verdicts, outcome);
    if r.admissible && outcome.Completed? {
      var started := Initiate(env, w, r);
      var (executed, ids, ok) := Executed(env, started, r);
      JudgeEffect(env, executed, q);
      DecidedEvents(env, Judge(env, executed, q), r, ids);
      EventsReported(outcome.result.verified);
      if q in w.verdicts && Adds(w, w', q, outcome.result.events) {
        AddsLength(w, w', q, recorded, outcome.result.events);
        assert false;
      }
    }
  }

  lemma EventsReported(verified: bool)
    ensures var tail := if verified then PRODUCED + [FinalStatus] else [FinalStatus];
            && JUDGED_EVENTS + tail == EXECUTED + [PotVerified, PotVerdict] + tail
            && |JUDGED_EVENTS + tail| == |EXECUTED + [PotVerdict] + tail| + 1
  {
  }

  lemma AddsLength(w: World, w': World, q: string, first: seq<EventType>, second: seq<EventType>)
    requires Adds(w, w', q, first) && Adds(w, w', q, second)
    ensures |first| == |second|
  {
    hide TraceOf;
    var before, after := TraceOf(w.journal.chain, q), TraceOf(w'.journal.chain, q);
    assert after == before + first && after == before + second;
  }

  // ----- every orchestrated history -----

  /** Every process is between runs, and has its verdict exactly when its trace says so. */
  ghost predicate Traced(w: World)
  {
    forall p :: Accepting(Follow(ENTRY, TraceOf(w.journal.chain, p)))
             && (Follow(ENTRY, TraceOf(w.journal.chain, p)).judged <==> p in w.verdicts)
  }

  lemma FollowRun(at: Point, judged: bool, outcome: RunOutcome)
    requires Accepting(at) && at.judged == judged
    requires outcome.Completed? ==> outcome.result.reason == Some(Inadmissible) || outcome.result.verified
    ensures var at' := Follow(at, RecordedEvents(judged, outcome));
            Accepting(at')
                && at'.judged == (judged || (outcome.Completed? && outcome.result.reason != Some(Inadmissible)))
  {
    FollowExecuted(at);
    if outcome.Completed? {
      if outcome.result.reason == Some(Inadmissible) {
        assert [Initiation] == [Initiation] + [];
        FollowFirst(at, Initiation, []);
        FollowNothing(Move(at, Initiation));
      } else {
        FollowProduced(Follow(at, EXECUTED), judged);
        var verdict := if judged then [PotVerdict] else [PotVerified, PotVerdict];
        assert RecordedEvents(judged, outcome) == EXECUTED + (verdict + (PRODUCED + [FinalStatus]));
        FollowConcat(at, EXECUTED, verdict + (PRODUCED + [FinalStatus]));
      }
    }
  }

  lemma FollowFirst(at: Point, event: EventType, rest: seq<EventType>)
    ensures Follow(at, [event] + rest) == Follow(Move(at, event), rest)
  {
    hide Move;
    assert [event][..0] == [];
    assert Follow(at, [event][..0]) == at;
    FollowConcat(at, [event], rest);
  }

  lemma FollowNothing(at: Point)
    ensures Follow(at, []) == at
  {
  }

  lemma FollowExecuted(at: Point)
    requires Accepting(at)
    ensures Follow(at, EXECUTED) == at.(stage := Complete)
  {
    hide Follow;
    assert EXECUTED == [Initiation] + ([TaskAssignment] + ([StageTransition] + ([ExecutionComplete] + [])));
    FollowFirst(at, Initiation, [TaskAssignment] + ([StageTransition] + ([ExecutionComplete] + [])));
    FollowFirst(at.(stage := Entered), TaskAssignment, [StageTransition] + ([ExecutionComplete] + []));
    FollowFirst(at.(stage := Staffed), StageTransition, [ExecutionComplete] + []);
    FollowFirst(at.(stage := Underway), ExecutionComplete, []);
    FollowNothing(at.(stage := Complete));
  }

  lemma FollowEmission()
    ensures Follow(Point(Noted, true), PRODUCED + [FinalStatus]) == Point(Idle, true)
  {
    hide Follow;
    assert PRODUCED + [FinalStatus] ==
        [EmissionMinted] + ([EmissionRecorded] + ([EmissionBurned] + ([FinalStatus] + [])));
    FollowFirst(Point(Noted, true), EmissionMinted, [EmissionRecorded] + ([EmissionBurned] + ([FinalStatus] + [])));
    FollowFirst(Point(Coined, true), EmissionRecorded, [EmissionBurned] + ([FinalStatus] + []));
    FollowFirst(Point(Booked, true), EmissionBurned, [FinalStatus] + []);
    FollowFirst(Point(Retired, true), FinalStatus, []);
    FollowNothing(Point(Idle, true));
  }

  lemma FollowProduced(at: Point, judged: bool)
    requires at == Point(Complete, judged)
    ensures Follow(at, (if judged then [PotVerdict] else [PotVerified, PotVerdict]) + (PRODUCED + [FinalStatus])) ==
              Point(Idle, true)
  {
    hide Follow;
    var tail := PRODUCED + [FinalStatus];
    FollowEmission();
    if judged {
      FollowFirst(at, PotVerdict, tail);
    } else {
      assert [PotVerified, PotVerdict] + tail == [PotVerified] + ([PotVerdict] + tail);
      FollowFirst(at, PotVerified, [PotVerdict] + tail);
      FollowFirst(Point(Ruled, true), PotVerdict, tail);
    }
  }

  lemma RunVerdicts(env: Env, w: World, r: Request)
    ensures var (w', outcome) := RunProcess(env, w, r);
            w'.verdicts.Keys ==
              w.verdicts.Keys +
                  (if outcome.Completed? && outcome.result.reason != Some(Inadmissible) then {r.processId} else {})
  {
    hide Quiet, Initiate, Observe, Judge, Resolve, RecordStages, RecordAssignment, WorkAll, Decided, Volume;
    var started := Initiate(env, w, r);
    QuietInitiate(env, w, r);
    QuietReplay(env, w, started);
    if !r.admissible {
      QuietObserve(env, started, Rejected(r.processId));
      QuietReplay(env, started, RunProcess(env, w, r).0);
    } else {
      QuietExecuted(env, started, r);
      var (executed, ids, ok) := Executed(env, started, r);
      QuietReplay(env, started, executed);
      JudgeEffect(env, executed, r.processId);
      DecidedVerdicts(env, Judge(env, executed, r.processId), r, ids);
    }
  }

  lemma TracedRun(env: Env, w: World, r: Request)
    requires Sound(env, w) && AtRest(w) && Earned(w) && FeesMatch(w, 0.0) && r.amount > 0.0 && Traced(w)
    ensures Traced(RunProcess(env, w, r).0)
  {
    hide Sound, AtRest, Earned, FeesMatch, RunProcess, RecordedEvents, Follow, TraceOf, Accepting, Executed, Initiate,
         ENTRY;
    var (w', outcome) := RunProcess(env, w, r);
    EarnedRun(env, w, r);
    AddsRun(env, w, r);
    RunVerdicts(env, w, r);
    RunRefusals(env, w, r);
    var events := RecordedEvents(r.processId in w.verdicts, outcome);
    forall p ensures Accepting(Follow(ENTRY, TraceOf(w'.journal.chain, p)))
      ensures Follow(ENTRY, TraceOf(w'.journal.chain, p)).judged <==> p in w'.verdicts
    {
      var before := TraceOf(w.journal.chain, p);
      if p == r.processId {
        FollowConcat(ENTRY, before, events);
        FollowRun(Follow(ENTRY, before), r.processId in w.verdicts, outcome);
      } else {
        assert before + [] == before;
      }
    }
  }

  lemma RunRefusals(env: Env, w: World, r: Request)
    ensures var outcome := RunProcess(env, w, r).1;
            outcome.Completed? && !outcome.result.verified ==>
                outcome.result.reason in {Some(Inadmissible), Some(Unverified)}
  {
    hide Volume, Initiate, Resolve, RecordStages, RecordAssignment, WorkAll, Judge, Refuse, Produce, CloseStage,
         Observe;
  }

  lemma AddsSettle(env: Env, w: World, n: int, q: string)
    ensures Adds(w, SettleEpoch(env, w, n).0, q, [])
  {
    hide Adds, Weigh, ToResult, Finalize, Registered;
    AddsNothing(w, w, q);
    var parts := PartsOf(w.pools.participation, n);
    if HasEpoch(w.pools.epochs, n) && EpochRow(w.pools.epochs, n).status == Open
        && Weigh(parts, w.verdicts, w.nodes).Some? {
      var ws := Weigh(parts, w.verdicts, w.nodes).value;
      WeighedArePayees(parts, w.verdicts, w.nodes);
      AddsFinalization(env, w, ws, n, q);
      var logged := w.(journal := Finalize(env, w.journal, w.coin, w.pools, w.nodes, ws, n).journal);
      AddsNothing(logged, SettleEpoch(env, w, n).0, q);
      AddsNothingTwice(w, logged, SettleEpoch(env, w, n).0, q);
    }
  }

  lemma AddsFinalization(env: Env, w: World, ws: Weights, n: int, q: string)
    requires HasEpoch(w.pools.epochs, n) && Payees(ws, w.nodes)
    ensures Adds(w, w.(journal := Finalize(env, w.journal, w.coin, w.pools, w.nodes, ws, n).journal), q, [])
  {
    hide Adds, NextSnapshot, SavedEpoch, Abs, Registered, Receipts, Distribution;
    var total := EpochRow(w.pools.epochs, n).totalFees;
    var split := SplitPool(ws, total);
    PayeesRegistered(ws, w.nodes, total);
    AddsReceipts(env, w, w.nodes, split.payments, q);
    var receipts := w.(journal := Receipts(env, w.journal, w.nodes, split.payments));
    var kept := AfcRecord(split.margin);
    var paidOut := w.(journal := Log(env, receipts.journal, AfcAccrual, kept));
    LogAdds(env, receipts, paidOut, receipts.journal.tick, AfcAccrual, kept, q);
    AddsNothingTwice(w, receipts, paidOut, q);
    var closed := w.(journal := Finalize(env, w.journal, w.coin, w.pools, w.nodes, ws, n).journal);
    LogAdds(env, paidOut, closed, paidOut.journal.tick + 1, EpochFinalized, ClosingRecord(n, total, split), q);
    AddsNothingTwice(w, paidOut, closed, q);
  }

  lemma {:induction false} AddsReceipts(env: Env, w: World, nodes: seq<Node>, payments: seq<DistributionEntry>,
                                        q: string)
    requires forall e :: e in payments ==> Registered(nodes, e.nodeId)
    ensures Adds(w, w.(journal := Receipts(env, w.journal, nodes, payments)), q, [])
  {
    hide Adds, NextSnapshot, Registered;
    if payments == [] {
      AddsNothing(w, w.(journal := Receipts(env, w.journal, nodes, payments)), q);
    } else {
      var front, last := payments[..|payments| - 1], payments[|payments| - 1];
      AddsReceipts(env, w, nodes, front, q);
      var before := w.(journal := Receipts(env, w.journal, nodes, front));
      var after := w.(journal := Receipts(env, w.journal, nodes, payments));
      LogAdds(env, before, after, before.journal.tick, NodePaymentReceived,
              PaymentRecord(last.nodeId, last.amount, Lookup(nodes, last.nodeId).weight), q);
      AddsNothingTwice(w, before, after, q);
    }
  }

  lemma AddsFinalize(env: Env, w: World, n: int, q: string)
    ensures Adds(w, FinalizeEpoch(env, w, n).0, q, [])
    ensures FinalizeEpoch(env, w, n).0.verdicts == w.verdicts
  {
    hide Adds, SettleEpoch, Observe, CompareSupply, Quiet;
    AddsSettle(env, w, n, q);
    SettleLeaves(env, w, n);
    var (settled, outcome) := SettleEpoch(env, w, n);
    if outcome.Done? {
      var r := outcome.result;
      var note := Distributed(n, r.paid, r.operationalMargin, r.reconciled);
      ObserveOnlyWatches(env, settled, note);
      CompareOnlyWatches(env, Observe(env, settled, note));
      QuietObserve(env, settled, note);
      QuietReplay(env, settled, Observe(env, settled, note));
      QuietCompare(env, Observe(env, settled, note));
      QuietReplay(env, Observe(env, settled, note), CompareSupply(env, Observe(env, settled, note)));
      SameChainAdds(w, settled, FinalizeEpoch(env, w, n).0, q, []);
    }
  }

  lemma TracedSame(w: World, w': World, q: string)
    requires Traced(w) && Adds(w, w', q, []) && w'.verdicts == w.verdicts
    ensures Traced(w')
  {
    hide TraceOf, Follow, Accepting, ENTRY;
    forall p ensures TraceOf(w'.journal.chain, p) == TraceOf(w.journal.chain, p) {
      assert TraceOf(w'.journal.chain, p) == TraceOf(w.journal.chain, p) + [];
    }
  }

  lemma AddsActivate(env: Env, w: World, threshold: real, target: real, processVolume24h: real, q: string)
    ensures Adds(w, ActivateRelease(env, w, threshold, target, processVolume24h), q, [])
  {
    hide Adds, NextSnapshot, Volume, Velocity;
    var check := Check(env, w.journal.chain, w.coin, threshold, target, processVolume24h);
    AddsNothing(w, w, q);
    if !w.phase.active && check.mature {
      LogAdds(env, w, ActivateRelease(env, w, threshold, target, processVolume24h), w.journal.tick + 1,
              ReleaseActivated,
              ReleaseRecord(check.reserveIndex, check.velocity, threshold, target), q);
    }
  }

  lemma AuditKeepsChain(env: Env, w: World)
    ensures AuditChain(env, w).journal.chain == w.journal.chain && AuditChain(env, w).verdicts == w.verdicts
  {
  }

  lemma TracedExec(env: Env, w: World, c: Call)
    requires Sound(env, w) && AtRest(w) && Earned(w) && FeesMatch(w, 0.0) && Traced(w)
    requires c.Valid() && c.Orchestrated()
    ensures Traced(Exec(env, w, c))
  {
    hide Sound, AtRest, Earned, FeesMatch, Traced, Adds, RunProcess, FinalizeEpoch, AuditChain;
    match c {
      case Run(r) => TracedRun(env, w, r);
      case FinalizeCall(n) =>
        AddsFinalize(env, w, n, "");
        TracedSame(w, Exec(env, w, c), "");
      case RegisterNode(id, kind) =>
        AddsAdmit(env, w, id, kind, "");
        TracedSame(w, Exec(env, w, c), "");
      case Activate(threshold, target, volume) =>
        AddsActivate(env, w, threshold, target, volume, "");
        TracedSame(w, Exec(env, w, c), "");
      case Audit =>
        AuditKeepsChain(env, w);
        AddsNothing(w, Exec(env, w, c), "");
        TracedSame(w, Exec(env, w, c), "");
    }
  }

  /**
   * After any orchestrated calls, rejected, cut short, completed and repeated runs in any mixture, the
   * records of every process are accepted by the automaton, and it has its verdict exactly when it was judged.
   */
  lemma {:induction false} EveryTraceAccepted(env: Env, watched: bool, calls: seq<Call>, states: seq<World>, i: nat)
    requires AllOrchestrated(calls) && IsRun(env, watched, calls, states) && i <= |calls|
    ensures Traced(states[i])
  {
    assert Traced(Genesis(watched));
    hide Sound, AtRest, Exec, Earned, FeesMatch, Traced;
    if i > 0 {
      EveryTraceAccepted(env, watched, calls, states, i - 1);
      ReachableOrchestrated(env, watched, calls, states, i - 1);
      TracedExec(env, states[i - 1], calls[i - 1]);
    }
  }
}
