/** The invariant every public call keeps: the stored rows are the replay of an intact log. */
module Soundness {
  import opened Folds
  import opened Events
  import opened NodeChain
  import opened StateRecording
  import opened Pot
  import opened ArosCoin
  import opened Nodes
  import opened Settlement
  import opened Release
  import opened Lifecycle
  import opened EventSourcing
  import JsObject

  // ----- the invariant -----

  ghost predicate Chained(env: Env, c: Chain) { Intact(env, c) && Numbered(c) }

  ghost predicate CoinMatches(t: Tally, coin: Coin) { coin == Coin(t.minted, t.burned, t.paid) }

  ghost predicate VerdictsMatch(t: Tally, verdicts: VerdictTable)
  {
    && verdicts.Keys == t.verdicts.Keys
    && t.verdictCount == |t.verdicts|
    && forall p :: p in verdicts ==> verdicts[p].verified == t.verdicts[p]
  }

  /** Active exactly when the log holds the one activation, whose recorded figures justify it. */
  ghost predicate PhaseMatches(t: Tally, phase: Phase)
  {
    if phase.active then
      && |t.releases| == 1
      && var r := t.releases[0];
         && r.ReleaseRecord?
         && r.reserveIndex > r.threshold && r.velocity > r.target
         && phase.reserveIndexAtActivation == Some(r.reserveIndex)
         && phase.velocityAtActivation == Some(r.velocity)
    else phase == INACTIVE && t.releases == []
  }

  /** Money that left the pools: nodes never got more than three times what the reserve got. */
  ghost predicate ReserveMatches(t: Tally)
  {
    && t.afc == t.margins >= 0.0
    && t.volume == t.minted + t.margins
    && 0.0 <= t.paid <= 3.0 * t.margins
  }

  ghost predicate EmissionsMatch(t: Tally)
  {
    && t.gated
    && match t.pairing
       case Settled => t.minted == t.burned
       case Awaiting(_, a) => t.minted == t.burned + a
       case Unpaired => false
  }

  /** A stored epoch row agrees with the log's closing record of that epoch. */
  ghost predicate RowMatches(t: Tally, e: Epoch)
  {
    if e.status == Open then
      e.epochNumber !in t.closings && e.distributionLog == [] && e.operationalMargin == 0.0 && e.totalFees >= 0.0
    else
      && e.epochNumber in t.closings
      && var r := t.closings[e.epochNumber];
         && r.EpochRecord? && r.epochNumber == e.epochNumber
         && r.operationalMargin == e.operationalMargin >= 0.0 && r.distributionLog == e.distributionLog
         && r.paid == PaidIn(e.distributionLog) && r.reconciled
         && r.paid + r.operationalMargin == r.totalFees <= e.totalFees
  }

  /** What an epoch paid out and kept when it closed. */
  function ClosedOf(): Epoch -> real
  {
    (e: Epoch) => if e.status == Open then 0.0 else PaidIn(e.distributionLog) + e.operationalMargin
  }

  ghost predicate EpochsMatch(t: Tally, epochs: seq<Epoch>)
  {
    && UniqueEpochs(epochs)
    && (forall e :: e in epochs ==> RowMatches(t, e))
    && (forall n :: n in t.closings ==> HasEpoch(epochs, n))
    && t.closingCount == |t.closings|
    && Sum(ClosedOf(), epochs) == t.paid + t.margins
  }

  ghost predicate AllWell(nodes: seq<Node>) { forall node :: node in nodes ==> WellWeighted(node) }

  ghost predicate Sound(env: Env, w: World)
  {
    var t := Replay(w.journal.chain);
    && Chained(env, w.journal.chain)
    && CoinMatches(t, w.coin)
    && VerdictsMatch(t, w.verdicts)
    && PhaseMatches(t, w.phase)
    && ReserveMatches(t)
    && EmissionsMatch(t)
    && EpochsMatch(t, w.pools.epochs)
    && AllWell(w.nodes)
  }

  /** Between calls no mint awaits its burn. */
  ghost predicate AtRest(w: World) { Replay(w.journal.chain).pairing == Settled }

  // ----- quiet steps: those that move nothing durable but the log's length -----

  ghost predicate Quiet(env: Env, w: World, w': World)
  {
    && w.journal.chain <= w'.journal.chain
    && (Chained(env, w.journal.chain) ==> Chained(env, w'.journal.chain))
    && Replay(w'.journal.chain) == Replay(w.journal.chain)
    && w'.coin == w.coin && w'.verdicts == w.verdicts && w'.pools == w.pools && w'.phase == w.phase
    && (AllWell(w.nodes) ==> AllWell(w'.nodes))
    && (AllFull(w.nodes) ==> AllFull(w'.nodes))
    && (forall id :: Registered(w.nodes, id) ==> Registered(w'.nodes, id))
    && (forall p :: EventsOf(w.captured, p) <= EventsOf(w'.captured, p))
  }

  /** Nodes that have only ever succeeded. */
  ghost predicate AllFull(nodes: seq<Node>) { forall node :: node in nodes ==> NeverFailed(node) }

  lemma QuietSound(env: Env, w: World, w': World)
    requires Sound(env, w) && Quiet(env, w, w')
    ensures Sound(env, w')
  {
  }

  lemma QuietTransitive(env: Env, a: World, b: World, c: World)
    requires Quiet(env, a, b) && Quiet(env, b, c)
    ensures Quiet(env, a, c)
  {
    hide AllWell, AllFull, Chained, Replay;
    forall p ensures EventsOf(a.captured, p) <= EventsOf(c.captured, p) {
      assert EventsOf(a.captured, p) <= EventsOf(b.captured, p) <= EventsOf(c.captured, p);
    }
  }

  lemma LogReplays(env: Env, j: Journal, eventType: EventType, payload: Payload)
    ensures Replay(Log(env, j, eventType, payload).chain)
         == Step(Replay(j.chain), NextSnapshot(env, j.chain, eventType, payload, j.tick + 1))
    ensures Chained(env, j.chain) ==> Chained(env, Log(env, j, eventType, payload).chain)
  {
    hide Step;
    ReplaySnoc(j.chain, NextSnapshot(env, j.chain, eventType, payload, j.tick + 1));
    if Chained(env, j.chain) {
      AppendKeepsIntact(env, j.chain, eventType, payload, j.tick + 1);
    }
  }

  lemma NeutralLog(env: Env, j: Journal, eventType: EventType, payload: Payload)
    requires payload.Captured? || payload.NodeRecord?
    ensures Replay(Log(env, j, eventType, payload).chain) == Replay(j.chain)
    ensures Chained(env, j.chain) ==> Chained(env, Log(env, j, eventType, payload).chain)
  {
    hide Chained;
    LogReplays(env, j, eventType, payload);
  }

  lemma QuietCapture(env: Env, w: World, processId: string, eventType: EventType, data: JsObject.Obj)
    ensures Quiet(env, w, Capture(env, w, processId, eventType, data))
    ensures eventType in EventsOf(Capture(env, w, processId, eventType, data).captured, processId)
  {
    hide Chained, Replay, NextSnapshot, AllWell, AllFull;
    NeutralLog(env, w.journal, eventType, Captured(processId, data, None));
  }

  lemma QuietObserve(env: Env, w: World, note: Note)
    ensures Quiet(env, w, Observe(env, w, note))
  {
    hide Chained, Replay, AllWell, AllFull;
  }

  /** Equal but for the clock and the oversight ledger. */
  ghost predicate SameButObserved(w: World, w': World)
  {
    w'.(journal := w'.journal.(tick := w.journal.tick), eye := w.eye) == w
  }

  lemma ObserveOnlyWatches(env: Env, w: World, note: Note)
    ensures SameButObserved(w, Observe(env, w, note))
  {
  }

  lemma CompareOnlyWatches(env: Env, w: World)
    ensures SameButObserved(w, CompareSupply(env, w))
  {
  }

  lemma QuietCompare(env: Env, w: World)
    ensures Quiet(env, w, CompareSupply(env, w))
  {
    hide Chained, Replay, AllWell, AllFull, Observe;
    if w.coin.TotalSupply() != w.coin.earnedRetained {
      QuietObserve(env, w, SupplyDrift(w.coin.TotalSupply(), w.coin.earnedRetained));
    }
  }

  lemma SavedNodes(nodes: seq<Node>, node: Node)
    ensures forall x :: x in Saved(nodes, node) ==> x in nodes || x == node
    ensures forall id :: Registered(nodes, id) ==> Registered(Saved(nodes, node), id)
  {
    forall id | Registered(nodes, id) ensures Registered(Saved(nodes, node), id) { SavedLookup(nodes, node, id); }
  }

  lemma QuietAdmit(env: Env, w: World, id: string, kind: string)
    ensures Quiet(env, w, Admit(env, w, id, kind))
  {
    hide Chained, Replay, NextSnapshot, Saved;
    NeutralLog(env, w.journal, NodeRegistered, AdmissionRecord(Fresh(id, kind)));
    SavedNodes(w.nodes, Fresh(id, kind));
  }

  lemma {:induction false} QuietAdmitAll(env: Env, w: World, roster: seq<(string, string)>)
    ensures Quiet(env, w, AdmitAll(env, w, roster))
  {
    hide Quiet, Admit;
    if roster == [] {
      QuietReflexive(env, w);
    } else {
      var front, last := roster[..|roster| - 1], roster[|roster| - 1];
      QuietAdmitAll(env, w, front);
      QuietAdmit(env, AdmitAll(env, w, front), last.0, last.1);
      QuietTransitive(env, w, AdmitAll(env, w, front), AdmitAll(env, w, roster));
    }
  }

  lemma QuietReflexive(env: Env, w: World)
    ensures Quiet(env, w, w)
  {
  }

  lemma QuietResolve(env: Env, w: World, explicit: Option<seq<string>>)
    ensures Quiet(env, w, Resolve(env, w, explicit).0)
  {
    hide Quiet, AdmitAll;
    QuietReflexive(env, w);
    QuietAdmitAll(env, w, DEFAULT_NODES);
  }

  lemma EmployedNodes(nodes: seq<Node>, id: string, success: bool)
    requires Registered(nodes, id)
    ensures AllWell(nodes) ==> AllWell(Employed(nodes, id, success))
    ensures AllFull(nodes) && success ==> AllFull(Employed(nodes, id, success))
    ensures forall x :: Registered(nodes, x) <==> Registered(Employed(nodes, id, success), x)
  {
    hide Saved, Worked, WellWeighted, NeverFailed;
    var node := Lookup(nodes, id);
    SavedNodes(nodes, Worked(node, success));
    forall x ensures Registered(nodes, x) <==> Registered(Employed(nodes, id, success), x) {
      SavedLookup(nodes, Worked(node, success), x);
      WorkedKeepsId(node, success);
    }
    if AllWell(nodes) { WorkKeepsWeightBounds(node, success); }
    if AllFull(nodes) && success { SuccessKeepsFullWeight(node); }
  }

  lemma WorkedKeepsId(node: Node, success: bool)
    ensures Worked(node, success).id == node.id
  {
  }

  lemma {:induction false} WorkAllNodes(nodes: seq<Node>, ids: seq<string>)
    ensures AllWell(nodes) ==> AllWell(WorkAll(nodes, ids).0)
    ensures AllFull(nodes) ==> AllFull(WorkAll(nodes, ids).0)
    ensures forall x :: Registered(nodes, x) <==> Registered(WorkAll(nodes, ids).0, x)
    ensures WorkAll(nodes, ids).1 <==> forall id :: id in ids ==> Registered(nodes, id)
  {
    hide Employed, AllWell, AllFull;
    if ids != [] {
      var front, last := ids[..|ids| - 1], ids[|ids| - 1];
      WorkAllNodes(nodes, front);
      var (employed, ok) := WorkAll(nodes, front);
      if ok && Registered(employed, last) {
        EmployedNodes(employed, last, true);
      }
      assert forall id :: id in ids <==> id in front || id == last;
    }
  }

  lemma QuietNodes(env: Env, w: World, nodes: seq<Node>)
    requires AllWell(w.nodes) ==> AllWell(nodes)
    requires AllFull(w.nodes) ==> AllFull(nodes)
    requires forall x :: Registered(w.nodes, x) ==> Registered(nodes, x)
    ensures Quiet(env, w, w.(nodes := nodes))
  {
  }

  // ----- the stages before the verdict -----

  lemma QuietInitiate(env: Env, w: World, r: Request)
    ensures Quiet(env, w, Initiate(env, w, r))
    ensures Initiation in EventsOf(Initiate(env, w, r).captured, r.processId)
  {
    hide Quiet, Capture;
    var data := JsObject.Single("amount", JsObject.Num(r.amount));
    var captured := Capture(env, w, r.processId, Initiation, data);
    QuietCapture(env, w, r.processId, Initiation, data);
    QuietObserve(env, captured, Initiated(r.processId, r.amount));
    QuietTransitive(env, w, captured, Initiate(env, w, r));
  }

  lemma QuietAssignment(env: Env, w: World, processId: string, ids: seq<string>)
    ensures Quiet(env, w, RecordAssignment(env, w, processId, ids))
    ensures TaskAssignment in EventsOf(RecordAssignment(env, w, processId, ids).captured, processId)
    ensures RecordAssignment(env, w, processId, ids).nodes == w.nodes
  {
    hide Quiet, EventsOf;
    var data := JsObject.Single("nodes", JsObject.Texts(ids));
    var captured := Capture(env, w, processId, TaskAssignment, data);
    QuietCapture(env, w, processId, TaskAssignment, data);
    QuietObserve(env, captured, Assigned(|ids|));
    QuietTransitive(env, w, captured, RecordAssignment(env, w, processId, ids));
  }

  lemma QuietStages(env: Env, w: World, processId: string)
    ensures Quiet(env, w, RecordStages(env, w, processId))
    ensures StageTransition in EventsOf(RecordStages(env, w, processId).captured, processId)
    ensures ExecutionComplete in EventsOf(RecordStages(env, w, processId).captured, processId)
    ensures RecordStages(env, w, processId).nodes == w.nodes
  {
    hide Chained, Replay, AllWell, AllFull, Registered, NextSnapshot;
    var data := JsObject.Single("stage", JsObject.Text("execute"));
    var staged := Capture(env, w, processId, StageTransition, data);
    QuietCapture(env, w, processId, StageTransition, data);
    QuietCapture(env, staged, processId, ExecutionComplete, JsObject.EMPTY);
    QuietTransitive(env, w, staged, RecordStages(env, w, processId));
  }

  /** The state in which the verdict of an admissible run is asked for. */
  ghost function Executed(env: Env, w: World, r: Request): (World, seq<string>, bool)
  {
    var (resolved, ids) := Resolve(env, w, r.nodeIds);
    var staged := RecordStages(env, RecordAssignment(env, resolved, r.processId, ids), r.processId);
    var (employed, ok) := WorkAll(staged.nodes, ids);
    (staged.(nodes := employed), ids, ok)
  }

  /** Four recorded events, no durable change: what an admissible run does before the verdict. */
  lemma QuietExecuted(env: Env, w: World, r: Request)
    ensures Quiet(env, w, Executed(env, w, r).0)
    ensures TaskAssignment in EventsOf(Executed(env, w, r).0.captured, r.processId)
    ensures StageTransition in EventsOf(Executed(env, w, r).0.captured, r.processId)
    ensures ExecutionComplete in EventsOf(Executed(env, w, r).0.captured, r.processId)
    ensures Executed(env, w, r).2 ==> forall id :: id in Executed(env, w, r).1 ==>
              Registered(Executed(env, w, r).0.nodes, id)
    ensures (forall id :: id in Executed(env, w, r).1 ==> Registered(Resolve(env, w, r.nodeIds).0.nodes, id)) ==>
              Executed(env, w, r).2
  {
    hide RecordStages, RecordAssignment, Resolve, WorkAll, Chained, Replay, AllWell, AllFull, Registered;
    var (resolved, ids) := Resolve(env, w, r.nodeIds);
    var recorded := RecordAssignment(env, resolved, r.processId, ids);
    var staged := RecordStages(env, recorded, r.processId);
    QuietResolve(env, w, r.nodeIds);
    QuietAssignment(env, resolved, r.processId, ids);
    QuietTransitive(env, w, resolved, recorded);
    QuietStages(env, recorded, r.processId);
    QuietTransitive(env, w, recorded, staged);
    WorkAllNodes(staged.nodes, ids);
    QuietNodes(env, staged, WorkAll(staged.nodes, ids).0);
    QuietTransitive(env, w, staged, Executed(env, w, r).0);
  }
}
