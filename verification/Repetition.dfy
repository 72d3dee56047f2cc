/** What running the same process again does in orchestrated use: one verdict for good, one mint for every run. */
module Repetition {
  import opened Folds
  import opened Events
  import opened Nodes
  import opened Reserve
  import opened Lifecycle
  import opened Soundness
  import opened CallInvariants
  import opened Conservation
  import opened Progress
  import opened RunEffects
  import opened Trace
  import opened Authorization

  /** An admissible request to run this process, naming none but registered nodes. */
  ghost predicate Yields(w: World, c: Call, processId: string)
  {
    c.Run? && c.request.processId == processId && c.request.admissible && NamesRegistered(c.request, w.nodes)
  }

  /** How many of the first `i` calls of a run were such requests. */
  ghost function YieldingRuns(calls: seq<Call>, states: seq<World>, i: nat, processId: string): nat
    requires i <= |calls| < |states|
  {
    if i == 0 then 0
    else
      var before := YieldingRuns(calls, states, i - 1, processId);
      if Yields(states[i - 1], calls[i - 1], processId) then before + 1 else before
  }

  lemma {:induction false} OccurrencesConcat(a: seq<EventType>, b: seq<EventType>, e: EventType)
    ensures Occurrences(a + b, e) == Occurrences(a, e) + Occurrences(b, e)
  {
    if b == [] {
      assert a + b == a;
    } else {
      var n := |b| - 1;
      OccurrencesConcat(a, b[..n], e);
      assert (a + b)[..|a + b| - 1] == a + b[..n];
    }
  }

  lemma {:induction false} AbsentOccurrences(events: seq<EventType>, e: EventType)
    requires e !in events
    ensures Occurrences(events, e) == 0
  {
    if events != [] { AbsentOccurrences(events[..|events| - 1], e); }
  }

  lemma MintsOfRun(judged: bool, outcome: RunOutcome)
    requires outcome.Completed? && outcome.result.reason == Some(Inadmissible) ==> !outcome.result.verified
    ensures Occurrences(RecordedEvents(judged, outcome), EmissionMinted) == if Produced(outcome) then 1 else 0
  {
    hide Occurrences;
    AbsentOccurrences([Initiation], EmissionMinted);
    AbsentOccurrences(EXECUTED, EmissionMinted);
    if outcome.Completed? && outcome.result.reason != Some(Inadmissible) {
      var verdict := if judged then [PotVerdict] else [PotVerified, PotVerdict];
      AbsentOccurrences(EXECUTED + verdict, EmissionMinted);
      if outcome.result.verified {
        OccurrencesConcat(EXECUTED + verdict, PRODUCED + [FinalStatus], EmissionMinted);
        assert PRODUCED + [FinalStatus] == [EmissionMinted] + [EmissionRecorded, EmissionBurned, FinalStatus];
        OccurrencesConcat([EmissionMinted], [EmissionRecorded, EmissionBurned, FinalStatus], EmissionMinted);
        OneOccurrence(EmissionMinted);
        AbsentOccurrences([EmissionRecorded, EmissionBurned, FinalStatus], EmissionMinted);
      } else {
        OccurrencesConcat(EXECUTED + verdict, [FinalStatus], EmissionMinted);
        AbsentOccurrences([FinalStatus], EmissionMinted);
      }
    }
  }

  lemma OneOccurrence(e: EventType)
    ensures Occurrences([e], e) == 1
  {
    assert [e][..0] == [];
    AbsentOccurrences([e][..0], e);
  }

  lemma TurnedAwayUnverified(env: Env, w: World, r: Request)
    ensures var outcome := RunProcess(env, w, r).1;
            outcome.Completed? && outcome.result.reason == Some(Inadmissible) ==> !outcome.result.verified
  {
    hide Volume, Initiate, Resolve, RecordStages, RecordAssignment, WorkAll, Judge, Refuse, Produce, CloseStage,
         Observe;
  }

  /** How often the trace of a process shows a mint. */
  function MintEvents(w: World, processId: string): nat
  {
    Occurrences(TraceOf(w.journal.chain, processId), EmissionMinted)
  }

  /** In orchestrated use no verdict is negative, and nothing but a run authorizes emission. */
  lemma AuthorizesIsYields(w: World, c: Call, processId: string)
    requires Earned(w) && c.Orchestrated()
    ensures Authorizes(w, c, processId) <==> Yields(w, c, processId)
  {
    hide Earned, NamesRegistered;
    if c.Run? { EarnedParts(w); }
  }

  /** An orchestrated call shows a mint in a trace, once, exactly when it mints the process. */
  lemma CallMintEvents(env: Env, w: World, c: Call, processId: string)
    requires Sound(env, w) && Earned(w) && c.Orchestrated()
    ensures MintEvents(Exec(env, w, c), processId) ==
              MintEvents(w, processId) + (if Yields(w, c, processId) then 1 else 0)
  {
    hide Sound, Earned, RunProcess, FinalizeEpoch, ActivateRelease, AuditChain, Admit, Occurrences, TraceOf,
         RecordedEvents, NamesRegistered, Verified;
    var before := TraceOf(w.journal.chain, processId);
    assert before + [] == before;
    match c {
      case Run(r) =>
        var outcome := RunProcess(env, w, r).1;
        GateOpens(env, w, r);
        EarnedParts(w);
        AddsRun(env, w, r);
        TurnedAwayUnverified(env, w, r);
        MintsOfRun(r.processId in w.verdicts, outcome);
        OccurrencesConcat(before, RecordedEvents(r.processId in w.verdicts, outcome), EmissionMinted);
      case FinalizeCall(n) => AddsFinalize(env, w, n, processId);
      case RegisterNode(id, kind) => AddsAdmit(env, w, id, kind, processId);
      case Activate(threshold, target, volume) => AddsActivate(env, w, threshold, target, volume, processId);
      case Audit => AuditKeepsChain(env, w);
    }
  }

  /**
   * A process has, at every position of every orchestrated run, exactly as many mint records as there were
   * admissible requests to run it on registered nodes, and at most one verdict record.
   */
  lemma {:induction false} OneMintPerYieldingRun(env: Env, watched: bool, calls: seq<Call>, states: seq<World>, i: nat,
                                                 processId: string)
    requires AllOrchestrated(calls) && IsRun(env, watched, calls, states) && i <= |calls|
    ensures MintsIn(states[i], processId) == YieldingRuns(calls, states, i, processId)
    ensures MintEvents(states[i], processId) == MintsIn(states[i], processId)
    ensures Occurrences(TraceOf(states[i].journal.chain, processId), PotVerified) <= 1
  {
    hide Exec, Occurrences, TraceOf, Follow, Yields, Authorizes, MintsIn, MintEvents, Sound, AtRest, Earned, FeesMatch;
    EveryTraceAccepted(env, watched, calls, states, i);
    assert Accepting(Follow(ENTRY, TraceOf(states[i].journal.chain, processId)));
    AcceptedMeaning(TraceOf(states[i].journal.chain, processId));
    if i == 0 {
      NothingMinted(watched, processId);
      NoMintEvents(watched, processId);
    } else {
      OneMintPerYieldingRun(env, watched, calls, states, i - 1, processId);
      ReachableOrchestrated(env, watched, calls, states, i - 1);
      CallMints(env, states[i - 1], calls[i - 1], processId);
      CallMintEvents(env, states[i - 1], calls[i - 1], processId);
      AuthorizesIsYields(states[i - 1], calls[i - 1], processId);
    }
  }

  /**
   * In orchestrated use a call mints a process that was minted before if and only if it is an admissible request
   * to run it, on registered nodes, and the process has its verdict.
   */
  lemma RunsAgainIff(env: Env, watched: bool, calls: seq<Call>, states: seq<World>, i: nat, processId: string)
    requires AllOrchestrated(calls) && IsRun(env, watched, calls, states) && i < |calls|
    ensures var w, w' := states[i], states[i + 1];
            Yields(w, calls[i], processId) && processId in w.verdicts <==>
              MintsIn(w', processId) > MintsIn(w, processId) > 0
  {
    hide Exec, Occurrences, TraceOf, Follow, Yields, Authorizes, MintsIn, Sound, AtRest, Earned, FeesMatch;
    ReachableOrchestrated(env, watched, calls, states, i);
    CallMints(env, states[i], calls[i], processId);
    AuthorizesIsYields(states[i], calls[i], processId);
    OneMintPerYieldingRun(env, watched, calls, states, i, processId);
    EveryTraceAccepted(env, watched, calls, states, i);
    assert Accepting(Follow(ENTRY, TraceOf(states[i].journal.chain, processId)));
    JudgedIsMinted(TraceOf(states[i].journal.chain, processId));
  }

  lemma NoMintEvents(watched: bool, processId: string)
    ensures MintEvents(Genesis(watched), processId) == 0
  {
  }

  /**
   * So a verdict authorizes emission again and again: the same admissible request, run twice, mints twice.
   * The second run also reports a verdict event it has not recorded.
   */
  lemma RepeatedRunMintsAgain(env: Env, watched: bool, calls: seq<Call>, states: seq<World>, i: nat, r: Request)
    requires AllOrchestrated(calls) && IsRun(env, watched, calls, states) && i <= |calls|
    requires r.amount > 0.0 && r.admissible
    ensures NamesRegistered(r, states[i].nodes) ==>
              var (w1, first) := RunProcess(env, states[i], r);
              var (w2, second) := RunProcess(env, w1, r);
              && Verified(r, first) && Verified(r, second)
              && w2.coin.processMinted == states[i].coin.processMinted + r.amount + r.amount
              && w2.verdicts == w1.verdicts
              && !Adds(w1, w2, r.processId, second.result.events)
  {
    hide Exec, RunProcess, NamesRegistered, Sound, AtRest, Earned, FeesMatch, Adds;
    var w := states[i];
    if NamesRegistered(r, w.nodes) {
      var w1 := RunProcess(env, w, r).0;
      ReachableOrchestrated(env, watched, calls, states, i);
      RunEffect(env, w, r);
      SoundRun(env, w, r);
      EarnedRun(env, w, r);
      NamesStayRegistered(env, w, r);
      EarnedRun(env, w1, r);
      RunEffect(env, w1, r);
      VerdictsStand(env, w1, r);
      ReportedEvents(env, w1, r);
    }
  }

  lemma NamesStayRegistered(env: Env, w: World, r: Request)
    requires NamesRegistered(r, w.nodes)
    ensures NamesRegistered(r, RunProcess(env, w, r).0.nodes)
  {
    hide RunProcess, Registered;
    RunKeepsRegistered(env, w, r);
  }

  lemma RunKeepsRegistered(env: Env, w: World, r: Request)
    ensures forall id :: Registered(w.nodes, id) ==> Registered(RunProcess(env, w, r).0.nodes, id)
  {
    hide RunProcess, Resolve, Initiate, WorkAll, Registered, Quiet, AllWell, AllFull;
    RunWorkforce(env, w, r);
    InitiateKeepsNodes(env, w, r);
    var started := Initiate(env, w, r);
    var (resolved, ids) := Resolve(env, started, r.nodeIds);
    QuietResolve(env, started, r.nodeIds);
    QuietKeepsNodes(env, started, resolved);
    WorkAllNodes(resolved.nodes, ids);
  }

  /** A process that has its verdict keeps it, and no other verdict is issued by running it. */
  lemma VerdictsStand(env: Env, w: World, r: Request)
    requires r.processId in w.verdicts
    ensures RunProcess(env, w, r).0.verdicts == w.verdicts
  {
    hide Quiet, Initiate, Observe, Judge, Resolve, RecordStages, RecordAssignment, WorkAll, Decided, Volume;
    var started := Initiate(env, w, r);
    QuietInitiate(env, w, r);
    QuietReplay(env, w, started);
    if !r.admissible {
      QuietObserve(env, started, Rejected(r.processId));
      QuietReplay(env, started, RunProcess(env, w, r).0);
    } else {
      QuietExecuted(env, started, r);
      var (executed, ids, ok) := Executed(env, started, r);
      QuietReplay(env, started, executed);
      if ok {
        JudgeEffect(env, executed, r.processId);
        DecidedVerdicts(env, Judge(env, executed, r.processId), r, ids);
      }
    }
  }

}
