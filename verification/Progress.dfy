/** When a call gets through: exact conditions that can be read off the state before the call. */
module Progress {
  import opened Folds
  import opened Events
  import opened StateRecording
  import opened Pot
  import opened Nodes
  import opened Reserve
  import opened Settlement
  import opened Commission
  import opened Lifecycle
  import opened Soundness
  import opened CallInvariants
  import opened RunEffects

  // ----- the assignment -----

  lemma ActiveIdsOfActive(nodes: seq<Node>, all: seq<Node>)
    requires AllWell(nodes) && forall node :: node in nodes ==> node in all
    ensures |ActiveIds(nodes)| == |nodes|
    ensures forall id :: id in ActiveIds(nodes) ==> Registered(all, id)
  {
    if nodes != [] {
      var front, last := nodes[..|nodes| - 1], nodes[|nodes| - 1];
      ActiveIdsOfActive(front, all);
      assert last in nodes;
      var i :| 0 <= i < |all| && all[i] == last;
      assert Position(all, last.id) <= i;
      assert WellWeighted(last);
    }
  }

  lemma RosterRegistered(env: Env, w: World)
    ensures AdmitAll(env, w, DEFAULT_NODES).nodes != []
  {
    hide Admit, Fresh;
    var n := |DEFAULT_NODES| - 1;
    var front := AdmitAll(env, w, DEFAULT_NODES[..n]);
    AdmitRegisters(env, front, DEFAULT_NODES[n].0, DEFAULT_NODES[n].1);
  }

  lemma AdmitRegisters(env: Env, w: World, id: string, kind: string)
    ensures Admit(env, w, id, kind).nodes != []
  {
  }

  /** The assignment is never empty, and without an explicit list every assigned node is registered. */
  lemma ResolvedIds(env: Env, w: World, explicit: Option<seq<string>>)
    requires AllWell(w.nodes)
    ensures Resolve(env, w, explicit).1 != []
    ensures (explicit.Some? ==> forall id :: id in explicit.value ==> Registered(w.nodes, id)) ==>
              forall id :: id in Resolve(env, w, explicit).1 ==> Registered(Resolve(env, w, explicit).0.nodes, id)
  {
    hide AdmitAll, AllWell, Registered, Quiet;
    var nodes := Resolve(env, w, explicit).0.nodes;
    QuietResolve(env, w, explicit);
    QuietKeepsNodes(env, w, Resolve(env, w, explicit).0);
    RosterRegistered(env, w);
    ActiveIdsOfActive(nodes, nodes);
  }

  lemma QuietKeepsNodes(env: Env, w: World, w': World)
    requires Quiet(env, w, w')
    ensures AllWell(w.nodes) ==> AllWell(w'.nodes)
    ensures forall id :: Registered(w.nodes, id) ==> Registered(w'.nodes, id)
    ensures forall p :: EventsOf(w.captured, p) <= EventsOf(w'.captured, p)
  {
  }

  lemma InitiateKeepsNodes(env: Env, w: World, r: Request)
    ensures Initiate(env, w, r).nodes == w.nodes
  {
  }

  lemma ExplicitResolution(env: Env, w: World, r: Request)
    requires !NamesRegistered(r, w.nodes)
    ensures !Executed(env, w, r).2
  {
    hide WorkAll, RecordStages, RecordAssignment;
    var ids := r.nodeIds.value;
    var recorded := RecordAssignment(env, w, r.processId, ids);
    QuietAssignment(env, w, r.processId, ids);
    QuietStages(env, recorded, r.processId);
    WorkAllNodes(w.nodes, ids);
  }

  lemma ExecutedIds(env: Env, w: World, r: Request)
    ensures Executed(env, w, r).1 == Resolve(env, w, r.nodeIds).1
  {
    hide Resolve, WorkAll, RecordStages, RecordAssignment;
  }

  /** An admissible request gets as far as the verdict exactly when every node it names is registered. */
  lemma ReachesVerdict(env: Env, w: World, r: Request)
    requires AllWell(w.nodes)
    ensures Executed(env, Initiate(env, w, r), r).2 <==> NamesRegistered(r, w.nodes)
    ensures Executed(env, Initiate(env, w, r), r).2 ==>
              var (executed, ids, _) := Executed(env, Initiate(env, w, r), r);
              ids != [] && forall id :: id in ids ==> Registered(executed.nodes, id)
  {
    hide Initiate, Resolve, Executed, Registered, Quiet, AllWell;
    var started := Initiate(env, w, r);
    InitiateKeepsNodes(env, w, r);
    ResolvedIds(env, started, r.nodeIds);
    QuietExecuted(env, started, r);
    ExecutedIds(env, started, r);
    if !NamesRegistered(r, w.nodes) {
      ExplicitResolution(env, started, r);
    }
  }

  // ----- the verdict -----

  /** Every node the request names is registered; trivially so when it names none. */
  ghost predicate NamesRegistered(r: Request, nodes: seq<Node>)
  {
    r.nodeIds.Some? ==> forall id :: id in r.nodeIds.value ==> Registered(nodes, id)
  }

  /** The value a completed, verified run reports. */
  ghost predicate Verified(r: Request, outcome: RunOutcome)
  {
    && outcome.Completed?
    && outcome.result.verified && outcome.result.reason == None
    && outcome.result.minted == r.amount && outcome.result.fee == r.amount / 200.0
  }

  /** What a caller can look up beforehand: admissible, all named nodes known, and no negative verdict on record. */
  ghost predicate Admits(w: World, r: Request)
  {
    && r.admissible
    && NamesRegistered(r, w.nodes)
    && (r.processId in w.verdicts ==> w.verdicts[r.processId].verified)
  }

  /** With the four events recorded on an intact chain, a first verdict is positive, and an old one stands. */
  lemma VerdictIs(env: Env, w: World, processId: string)
    requires Sound(env, w) && forall e :: e in REQUIRED ==> e in EventsOf(w.captured, processId)
    ensures Confirmed(Verify(env, w, processId).verdicts, processId) <==>
              processId in w.verdicts ==> w.verdicts[processId].verified
  {
    hide Sound, VerdictJournal, FailureReasons;
    var have := EventsOf(w.captured, processId);
    assert REQUIRED[0] in have && REQUIRED[1] in have && REQUIRED[2] in have && REQUIRED[3] in have;
    SoundParts(env, w);
  }

  lemma DecidedOpens(env: Env, w: World, r: Request, ids: seq<string>)
    requires Sound(env, w) && forall e :: e in REQUIRED ==> e in EventsOf(w.captured, r.processId)
    ensures r.processId in Judge(env, w, r.processId).verdicts
    ensures var outcome, opens := Decided(env, Judge(env, w, r.processId), r, ids).1,
                                  r.processId in w.verdicts ==> w.verdicts[r.processId].verified;
            (Verified(r, outcome) <==> opens) && (Produced(outcome) <==> opens)
  {
    hide Sound, Quiet, Judge, Verify, Produce, CloseStage, Refuse, Volume, EventsOf;
    VerdictIs(env, w, r.processId);
    VerifyDecides(env, w, r.processId);
    SoundJudge(env, w, r.processId);
    QuietReplay(env, Verify(env, w, r.processId), Judge(env, w, r.processId));
  }

  lemma RecordedBefore(env: Env, w: World, r: Request)
    ensures var executed := Executed(env, Initiate(env, w, r), r).0;
            && Quiet(env, w, executed)
            && forall e :: e in REQUIRED ==> e in EventsOf(executed.captured, r.processId)
  {
    hide Quiet, Initiate, Executed, EventsOf;
    var started := Initiate(env, w, r);
    QuietInitiate(env, w, r);
    QuietExecuted(env, started, r);
    QuietTransitive(env, w, started, Executed(env, started, r).0);
    QuietKeepsNodes(env, started, Executed(env, started, r).0);
  }

  /**
   * The gate, exactly, in every sound state: a run is verified, mints its amount and pays half a percent
   * if and only if the request admits it. It yields value in no other case.
   */
  lemma GateOpens(env: Env, w: World, r: Request)
    requires Sound(env, w)
    ensures Verified(r, RunProcess(env, w, r).1) <==> Admits(w, r)
    ensures Produced(RunProcess(env, w, r).1) <==> Admits(w, r)
  {
    hide Sound, Initiate, Observe, Judge, Resolve, RecordStages, RecordAssignment, WorkAll, Decided, Volume,
         NamesRegistered, Quiet, EventsOf;
    if r.admissible {
      var started := Initiate(env, w, r);
      SoundParts(env, w);
      ReachesVerdict(env, w, r);
      RecordedBefore(env, w, r);
      var (executed, ids, ok) := Executed(env, started, r);
      QuietSound(env, w, executed);
      QuietReplay(env, w, executed);
      if ok { DecidedOpens(env, executed, r, ids); }
    }
  }

  /** The mint never refuses what the orchestrator hands it, in any state: the verdict was read just before. */
  lemma MintNeverRefuses(env: Env, w: World, r: Request)
    ensures RunProcess(env, w, r).1 != EmissionRefused
  {
    hide Initiate, Observe, Judge, Resolve, RecordStages, RecordAssignment, WorkAll, Volume, Produce, CloseStage,
         Refuse, ComputeFee;
    var started := Initiate(env, w, r);
    JudgeEffect(env, Executed(env, started, r).0, r.processId);
  }

  // ----- the settlement -----

  /**
   * Settling, exactly, in every state: it succeeds if and only if the epoch exists and, while it is open,
   * every participant of a confirmed process is registered.
   */
  lemma SettlesIff(env: Env, w: World, n: int)
    ensures FinalizeEpoch(env, w, n).1.Done? <==> SettleEpoch(env, w, n).1.Done?
    ensures SettleEpoch(env, w, n).1.Done? <==>
              && HasEpoch(w.pools.epochs, n)
              && (EpochRow(w.pools.epochs, n).status == Open ==>
                    AllRegistered(PartsOf(w.pools.participation, n), w.verdicts, w.nodes))
  {
    hide Finalize, Weigh, ToResult, AllRegistered, Observe, CompareSupply;
    WeighRight(PartsOf(w.pools.participation, n), w.verdicts, w.nodes);
  }
}
