/** Who works in a run, and how every attempt is counted: in the registry and in the epoch's participations. */
module WorkCounts {
  import opened Events
  import opened NodeChain
  import opened Pot
  import opened Nodes
  import opened Reserve
  import opened Settlement
  import opened Commission
  import opened Release
  import opened Lifecycle
  import opened Soundness
  import opened CallInvariants
  import opened RunEffects
  import opened Progress
  import opened FeeFlow
  import P = RosterRuns
  import JsObject

  // ----- the assignment -----

  predicate NamesNodes(r: Request) { r.nodeIds.Some? && r.nodeIds.value != [] }

  /**
   * Whom a run works with: the nodes it names, as given; without a list every row of the registry, in registry
   * order; on an empty registry the default roster.
   */
  function AssignedTo(r: Request, nodes: seq<Node>): seq<string>
  {
    if NamesNodes(r) then r.nodeIds.value
    else if nodes == [] then ["node-1", "node-2", "node-3"]
    else seq(|nodes|, i requires 0 <= i < |nodes| => nodes[i].id)
  }

  function ActiveBefore(nodes: seq<Node>, k: nat): nat
    requires k <= |nodes|
  {
    if k == 0 then 0 else ActiveBefore(nodes, k - 1) + (if nodes[k - 1].status == Active then 1 else 0)
  }

  /** Of any registry the active rows are chosen, all of them and no others, in registry order. */
  lemma {:induction false} ActiveInOrder(nodes: seq<Node>, k: nat)
    requires k <= |nodes|
    ensures |ActiveIds(nodes[..k])| == ActiveBefore(nodes, k)
    ensures forall i :: 0 <= i < k && nodes[i].status == Active ==>
              ActiveBefore(nodes, i) < ActiveBefore(nodes, k)
              && ActiveIds(nodes[..k])[ActiveBefore(nodes, i)] == nodes[i].id
  {
    if k > 0 {
      ActiveInOrder(nodes, k - 1);
      assert nodes[..k][..k - 1] == nodes[..k - 1];
    }
  }

  lemma {:induction false} AdmittedUnworked(env: Env, w: World, roster: seq<(string, string)>)
    requires w.nodes == []
    ensures forall node :: node in AdmitAll(env, w, roster).nodes ==> node.total == 0 && node.successes == 0
  {
    hide NextSnapshot, Saved;
    if roster != [] {
      var front, last := roster[..|roster| - 1], roster[|roster| - 1];
      AdmittedUnworked(env, w, front);
      SavedNodes(AdmitAll(env, w, front).nodes, Fresh(last.0, last.1));
    }
  }

  /** The registry a run starts its work with: as it was, or the fresh roster. */
  lemma ResolvedTo(env: Env, w: World, r: Request)
    requires AllWell(w.nodes)
    ensures var (resolved, ids) := Resolve(env, Initiate(env, w, r), r.nodeIds);
            && ids == AssignedTo(r, w.nodes)
            && (NamesNodes(r) || w.nodes != [] ==> resolved.nodes == w.nodes)
            && (!NamesNodes(r) ==> forall id :: id in ids ==> Registered(resolved.nodes, id))
            && forall id :: CountsOf(resolved.nodes, id) == CountsOf(w.nodes, id)
  {
    hide AdmitAll, ActiveIds, AllWell, Initiate, P.Ids;
    InitiateKeepsNodes(env, w, r);
    var started := Initiate(env, w, r);
    var (resolved, ids) := Resolve(env, started, r.nodeIds);
    if !NamesNodes(r) {
      QuietResolve(env, started, r.nodeIds);
      QuietWell(env, started, resolved);
      P.AllActive(resolved.nodes);
      if w.nodes == [] {
        P.RosterAdmitted(env, started);
        AdmittedUnworked(env, started, DEFAULT_NODES);
      }
      assert ids == AssignedTo(r, w.nodes) by { IdsAre(resolved.nodes); }
      forall id | id in ids ensures Registered(resolved.nodes, id) { IdsRegistered(resolved.nodes, id); }
    }
  }

  lemma QuietWell(env: Env, w: World, w': World)
    ensures Quiet(env, w, w') && AllWell(w.nodes) ==> AllWell(w'.nodes)
  {
    hide AllWell;
  }

  lemma IdsAre(nodes: seq<Node>)
    ensures P.Ids(nodes) == seq(|nodes|, i requires 0 <= i < |nodes| => nodes[i].id)
    ensures P.ROSTER == ["node-1", "node-2", "node-3"]
  {
  }

  lemma IdsRegistered(nodes: seq<Node>, id: string)
    requires id in P.Ids(nodes)
    ensures Registered(nodes, id)
  {
    var i :| 0 <= i < |nodes| && P.Ids(nodes)[i] == id;
    assert nodes[i].id == id;
  }

  // ----- the counters -----

  /** All and successful attempts on record for a node. */
  datatype Counts = Counts(total: nat, successes: nat)

  const UNWORKED := Counts(0, 0)

  function CountsOf(nodes: seq<Node>, id: string): Counts
  {
    if Registered(nodes, id) then Counts(Lookup(nodes, id).total, Lookup(nodes, id).successes) else UNWORKED
  }

  /**
   * One attempt, in the registry and nowhere else: the row of the node counts it, as a success only if it was one,
   * and its weight and reputation become its success rate. Every other row keeps its place and content.
   */
  lemma ExecutionCounts(env: Env, w: World, id: string, success: bool)
    requires AllWell(w.nodes) && Registered(w.nodes, id)
    ensures var w', k := Exec(env, w, Execution(id, success)), Position(w.nodes, id);
            && w'.(nodes := w.nodes) == w
            && |w'.nodes| == |w.nodes|
            && (forall i :: 0 <= i < |w.nodes| && i != k ==> w'.nodes[i] == w.nodes[i])
            && var node, node' := w.nodes[k], w'.nodes[k];
               && node'.total == node.total + 1
               && node'.successes == (if success then node.successes + 1 else node.successes)
               && node'.weight == node'.reputation == node'.successes as real / node'.total as real
               && node'.(total := node.total, successes := node.successes, weight := node.weight,
                         reputation := node.reputation) == node
  {
    assert WellWeighted(Lookup(w.nodes, id));
  }

  lemma EmployedCounts(nodes: seq<Node>, id: string, success: bool, x: string)
    requires Registered(nodes, id)
    ensures var before, after := CountsOf(nodes, x), CountsOf(Employed(nodes, id, success), x);
            after == if x != id then before
                     else Counts(before.total + 1, before.successes + (if success then 1 else 0))
  {
    hide Saved;
    SavedLookup(nodes, Worked(Lookup(nodes, id), success), x);
  }

  /** The listed nodes up to the first that is not registered: there the work ends. */
  function UpToUnknown(nodes: seq<Node>, ids: seq<string>): seq<string>
  {
    if ids == [] || !Registered(nodes, ids[0]) then [] else [ids[0]] + UpToUnknown(nodes, ids[1..])
  }

  lemma {:induction false} AllKnown(nodes: seq<Node>, ids: seq<string>)
    requires forall id :: id in ids ==> Registered(nodes, id)
    ensures UpToUnknown(nodes, ids) == ids
  {
    if ids != [] {
      AllKnown(nodes, ids[1..]);
      assert ids == [ids[0]] + ids[1..];
    }
  }

  lemma {:induction false} UnknownEnds(nodes: seq<Node>, ids: seq<string>, last: string)
    requires !(forall id :: id in ids ==> Registered(nodes, id))
    ensures UpToUnknown(nodes, ids + [last]) == UpToUnknown(nodes, ids)
  {
    hide Registered;
    assert (ids + [last])[0] == ids[0] && (ids + [last])[1..] == ids[1..] + [last];
    if Registered(nodes, ids[0]) {
      assert forall id :: id in ids <==> id == ids[0] || id in ids[1..];
      UnknownEnds(nodes, ids[1..], last);
    }
  }

  lemma {:induction false} UnknownLast(nodes: seq<Node>, ids: seq<string>, last: string)
    requires (forall id :: id in ids ==> Registered(nodes, id)) && !Registered(nodes, last)
    ensures UpToUnknown(nodes, ids + [last]) == ids
  {
    hide Registered;
    if ids != [] {
      assert (ids + [last])[1..] == ids[1..] + [last];
      UnknownLast(nodes, ids[1..], last);
      assert ids == [ids[0]] + ids[1..];
    }
  }

  /** Every listed node is counted once for each mention, as far as the work gets. */
  lemma {:induction false} WorkAllCounts(nodes: seq<Node>, ids: seq<string>, x: string)
    ensures var before, after, n := CountsOf(nodes, x), CountsOf(WorkAll(nodes, ids).0, x),
                                    multiset(UpToUnknown(nodes, ids))[x];
            after == Counts(before.total + n, before.successes + n)
  {
    hide Registered, Employed, CountsOf, UpToUnknown, AllWell, AllFull;
    if ids == [] {
      AllKnown(nodes, ids);
    } else {
      var front, last := ids[..|ids| - 1], ids[|ids| - 1];
      assert ids == front + [last];
      WorkAllCounts(nodes, front, x);
      WorkAllNodes(nodes, front);
      var (worked, ok) := WorkAll(nodes, front);
      if !ok {
        UnknownEnds(nodes, front, last);
      } else {
        AllKnown(nodes, front);
        if Registered(nodes, last) { AllKnown(nodes, ids); } else { UnknownLast(nodes, front, last); }
      }
      if ok && Registered(worked, last) { EmployedCounts(worked, last, true, x); }
    }
  }

  /** The nodes a run makes an attempt on, one mention for each attempt. All of them succeed. */
  function Attempted(r: Request, nodes: seq<Node>): seq<string>
  {
    if !r.admissible then []
    else if NamesNodes(r) then UpToUnknown(nodes, r.nodeIds.value)
    else AssignedTo(r, nodes)
  }

  /**
   * What a run reports and counts: the nodes named are the nodes assigned, and each counts one successful attempt
   * for each mention, up to the first unknown one.
   */
  lemma RunAssigns(env: Env, w: World, r: Request, id: string)
    requires Sound(env, w)
    ensures var (w', outcome) := RunProcess(env, w, r);
            var before, after, n := CountsOf(w.nodes, id), CountsOf(w'.nodes, id), multiset(Attempted(r, w.nodes))[id];
            && (outcome.Completed? ==>
                outcome.result.assignedNodes == if r.admissible then AssignedTo(r, w.nodes) else [])
            && (Admits(w, r) ==> Attempted(r, w.nodes) == AssignedTo(r, w.nodes))
            && after == Counts(before.total + n, before.successes + n)
  {
    hide Sound, RunProcess, Resolve, Initiate, WorkAll, CountsOf, UpToUnknown, AllWell, Registered;
    SoundParts(env, w);
    RunWorkforce(env, w, r);
    ResolvedTo(env, w, r);
    var (resolved, ids) := Resolve(env, Initiate(env, w, r), r.nodeIds);
    if r.admissible {
      WorkAllCounts(resolved.nodes, ids, id);
      if !NamesNodes(r) { AllKnown(resolved.nodes, ids); }
      if Admits(w, r) && NamesNodes(r) { AllKnown(w.nodes, ids); }
    }
  }

  // ----- every call, every run -----

  /** The attempts a call makes on a node, all and successful. They can be told before the call is made. */
  function AttemptsOn(w: World, c: Call, id: string): Counts
  {
    match c
    case Run(r) =>
      var n := multiset(Attempted(r, w.nodes))[id];
      Counts(n, n)
    case Execution(x, success) =>
      if x == id && Registered(w.nodes, id) then Counts(1, if success then 1 else 0) else UNWORKED
    case _ => UNWORKED
  }

  lemma FinalizeKeepsNodes(env: Env, w: World, n: int)
    ensures FinalizeEpoch(env, w, n).0.nodes == w.nodes
  {
    hide SettleEpoch, Observe, CompareSupply;
    SettleLeaves(env, w, n);
    var (settled, outcome) := SettleEpoch(env, w, n);
    if outcome.Done? {
      var r := outcome.result;
      ObserveOnlyWatches(env, settled, Distributed(n, r.paid, r.operationalMargin, r.reconciled));
      CompareOnlyWatches(env, Announced(env, settled, n, r));
    }
  }

  lemma EmitKeepsNodes(env: Env, w: World, processId: string, amount: real)
    ensures Emit(env, w, processId, amount).nodes == w.nodes
  {
    hide NextSnapshot;
  }

  /** Every call adds its own attempts to a node's counters; registering the node starts them afresh. */
  lemma CallCounts(env: Env, w: World, c: Call, id: string)
    requires Sound(env, w)
    ensures var before, after, more := CountsOf(w.nodes, id), CountsOf(Exec(env, w, c).nodes, id), AttemptsOn(w, c, id);
            after == if c.RegisterNode? && c.id == id then UNWORKED
                     else Counts(before.total + more.total, before.successes + more.successes)
  {
    hide Sound, RunProcess, FinalizeEpoch, ActivateRelease, Verify, Emit, Employed, Saved, Accrued, AccrualTick,
         NextSnapshot, JsObject.SortKeys, Attempted;
    match c {
      case Run(r) => RunAssigns(env, w, r, id);
      case FinalizeCall(n) => FinalizeKeepsNodes(env, w, n);
      case RegisterNode(x, kind) => SavedLookup(w.nodes, Fresh(x, kind), id);
      case Activate(threshold, target, volume) => ActivateKeepsNodes(env, w, threshold, target, volume);
      case Audit => AuditKeepsNodes(env, w);
      case VerifyProcess(p) => VerifyKeepsNodes(env, w, p);
      case EmitProcess(p, amount) => EmitKeepsNodes(env, w, p, amount);
      case Execution(x, success) => if Registered(w.nodes, x) { EmployedCounts(w.nodes, x, success, id); }
      case _ =>
    }
  }

  /** A registration stores a fresh row, whatever was stored before, and logs it; every other row stays. */
  lemma RegistersFresh(env: Env, w: World, id: string, kind: string, x: string)
    ensures var nodes' := Exec(env, w, RegisterNode(id, kind)).nodes;
            && Registered(nodes', id) && Lookup(nodes', id) == Node(id, kind, 1.0, 0, 0, Active, 1.0, 1.0)
            && (x != id ==>
                  (Registered(nodes', x) <==> Registered(w.nodes, x))
                  && (Registered(w.nodes, x) ==> Lookup(nodes', x) == Lookup(w.nodes, x)))
  {
    hide Saved, NextSnapshot;
    SavedLookup(w.nodes, Fresh(id, kind), id);
    SavedLookup(w.nodes, Fresh(id, kind), x);
  }

  lemma ActivateKeepsNodes(env: Env, w: World, threshold: real, target: real, processVolume24h: real)
    ensures ActivateRelease(env, w, threshold, target, processVolume24h).nodes == w.nodes
  {
    hide NextSnapshot, Volume, Velocity;
  }

  lemma AuditKeepsNodes(env: Env, w: World)
    ensures AuditChain(env, w).nodes == w.nodes
  {
    hide Intact;
  }

  lemma VerifyKeepsNodes(env: Env, w: World, processId: string)
    ensures Verify(env, w, processId).nodes == w.nodes
  {
    hide VerdictJournal, IssuedVerdict;
  }

  /** The attempts made on a node by the first `i` calls of a run, since it was last registered. */
  function AttemptsSince(calls: seq<Call>, states: seq<World>, i: nat, id: string): Counts
    requires i <= |calls| < |states|
  {
    if i == 0 || (calls[i - 1].RegisterNode? && calls[i - 1].id == id) then UNWORKED
    else
      var before, more := AttemptsSince(calls, states, i - 1, id), AttemptsOn(states[i - 1], calls[i - 1], id);
      Counts(before.total + more.total, before.successes + more.successes)
  }

  /**
   * In every state of every run a node's counters are the numbers of all and of successful attempts made on it
   * since it was last registered, and its weight and reputation are its success rate, 1 before the first attempt.
   */
  lemma {:induction false} CountersAreAttempts(env: Env, watched: bool, calls: seq<Call>, states: seq<World>, i: nat,
                                               id: string)
    requires AllValid(calls) && IsRun(env, watched, calls, states) && i <= |calls|
    ensures var nodes, made := states[i].nodes, AttemptsSince(calls, states, i, id);
            && CountsOf(nodes, id) == made
            && (Registered(nodes, id) ==>
                  var node := Lookup(nodes, id);
                  node.weight == node.reputation
                    == if made.total == 0 then 1.0 else made.successes as real / made.total as real)
  {
    hide Sound, AtRest, Exec, CountsOf, AttemptsOn;
    if i > 0 {
      CountersAreAttempts(env, watched, calls, states, i - 1, id);
      Reachable(env, watched, calls, states, i - 1);
      CallCounts(env, states[i - 1], calls[i - 1], id);
    } else {
      NobodyCounted(watched, id);
    }
    Reachable(env, watched, calls, states, i);
    SoundParts(env, states[i]);
    RateOf(states[i].nodes, id);
  }

  lemma NobodyCounted(watched: bool, id: string)
    ensures CountsOf(Genesis(watched).nodes, id) == UNWORKED
  {
  }

  lemma RateOf(nodes: seq<Node>, id: string)
    requires AllWell(nodes)
    ensures Registered(nodes, id) ==>
              var node, made := Lookup(nodes, id), CountsOf(nodes, id);
              node.weight == node.reputation
                == if made.total == 0 then 1.0 else made.successes as real / made.total as real
  {
    if Registered(nodes, id) { assert WellWeighted(Lookup(nodes, id)); }
  }

  // ----- participations -----

  /** How often an epoch remembers that a node took part in a process. */
  function TakenPart(w: World, m: int, processId: string, nodeId: string): nat
  {
    multiset(PartsOf(w.pools.participation, m))[Participation(processId, nodeId)]
  }

  /** What a call makes an epoch remember; it can be told before the call is made. */
  ghost function PartsFrom(w: World, c: Call, m: int, processId: string, nodeId: string): nat
  {
    match c
    case Run(r) =>
      if EpochOf(r) == m && r.processId == processId && Admits(w, r) then multiset(AssignedTo(r, w.nodes))[nodeId]
          else 0
    case AccrueFee(n, _, parts) => if n == m then multiset(parts)[Participation(processId, nodeId)] else 0
    case _ => 0
  }

  lemma {:induction false} PartsForCount(q: string, ids: seq<string>, processId: string, nodeId: string)
    ensures multiset(PartsFor(q, ids))[Participation(processId, nodeId)] ==
              if q == processId then multiset(ids)[nodeId] else 0
  {
    if ids != [] {
      var front, last := ids[..|ids| - 1], ids[|ids| - 1];
      PartsForCount(q, front, processId, nodeId);
      assert ids == front + [last];
      assert PartsFor(q, ids) == PartsFor(q, front) + [Participation(q, last)];
    }
  }

  lemma AccruedParts(pools: Pools, tick: int, n: int, fee: real, parts: seq<Participation>, m: int, part: Participation)
    ensures multiset(PartsOf(Accrued(pools, tick, n, fee, parts).participation, m))[part] ==
              multiset(PartsOf(pools.participation, m))[part] + (if n == m then multiset(parts)[part] else 0)
  {
    hide SavedEpoch, RowFor;
  }

  lemma RunParts(env: Env, w: World, r: Request, m: int, processId: string, nodeId: string)
    requires Sound(env, w)
    ensures TakenPart(RunProcess(env, w, r).0, m, processId, nodeId) ==
              TakenPart(w, m, processId, nodeId) + PartsFrom(w, Run(r), m, processId, nodeId)
  {
    hide Sound, RunProcess, Accrued, Admits, PartsFor, AssignedTo, Verified, Attempted, CountsOf;
    GateOpens(env, w, r);
    RunEffect(env, w, r);
    RunAssigns(env, w, r, nodeId);
    var (w', outcome) := RunProcess(env, w, r);
    if Produced(outcome) {
      assert r.admissible by { AdmitsAdmissible(w, r); }
      var ids := AssignedTo(r, w.nodes);
      var tick :| w'.pools == Accrued(w.pools, tick, EpochOf(r), ComputeFee(r.amount), PartsFor(r.processId, ids));
      AccruedParts(w.pools, tick, EpochOf(r), ComputeFee(r.amount), PartsFor(r.processId, ids), m,
                   Participation(processId, nodeId));
      PartsForCount(r.processId, ids, processId, nodeId);
    }
  }

  lemma AdmitsAdmissible(w: World, r: Request)
    ensures Admits(w, r) ==> r.admissible
  {
  }

  /** Settling an epoch makes it forget its participations exactly when it closes; every other epoch keeps them. */
  lemma SettledParts(env: Env, w: World, n: int, m: int)
    ensures PartsOf(SettleEpoch(env, w, n).0.pools.participation, m) ==
              if n == m && Closable(w, n) then [] else PartsOf(w.pools.participation, m)
  {
    hide Finalize, Weigh, ToResult, AllRegistered;
    var parts := PartsOf(w.pools.participation, n);
    WeighRight(parts, w.verdicts, w.nodes);
    if HasEpoch(w.pools.epochs, n) && EpochRow(w.pools.epochs, n).status == Open
        && Weigh(parts, w.verdicts, w.nodes).Some? {
      WeighedArePayees(parts, w.verdicts, w.nodes);
      FinalizeForgets(env, w, Weigh(parts, w.verdicts, w.nodes).value, n);
    }
  }

  lemma FinalizeForgets(env: Env, w: World, ws: Weights, n: int)
    requires HasEpoch(w.pools.epochs, n) && Payees(ws, w.nodes)
    ensures Finalize(env, w.journal, w.coin, w.pools, w.nodes, ws, n).pools.participation == w.pools.participation - {n}
  {
    hide NextSnapshot, SavedEpoch, Distribution, Receipts, Abs;
  }

  /** Every call adds its own participations to an epoch; the call that closes it makes it forget them all. */
  lemma CallParts(env: Env, w: World, c: Call, m: int, processId: string, nodeId: string)
    requires Sound(env, w)
    ensures TakenPart(Exec(env, w, c), m, processId, nodeId) ==
              if c == FinalizeCall(m) && Closable(w, m) then 0
              else TakenPart(w, m, processId, nodeId) + PartsFrom(w, c, m, processId, nodeId)
  {
    hide Sound, RunProcess, FinalizeEpoch, SettleEpoch, ActivateRelease, Verify, Emit, Employed, Saved, Accrued,
         AccrualTick, NextSnapshot, JsObject.SortKeys, Closable, Admits, AssignedTo;
    match c {
      case Run(r) => RunParts(env, w, r, m, processId, nodeId);
      case FinalizeCall(n) =>
        FinalizedPools(env, w, n);
        SettledParts(env, w, n, m);
      case AccrueFee(n, fee, parts) =>
        AccruedParts(w.pools, w.journal.tick, n, fee, parts, m, Participation(processId, nodeId));
      case Activate(threshold, target, volume) => ActivateKeepsPools(env, w, threshold, target, volume);
      case Audit => AuditKeepsNodes(env, w);
      case VerifyProcess(p) => VerifyKeepsPools(env, w, p);
      case EmitProcess(p, amount) => EmitPools(env, w, p, amount);
      case _ =>
    }
  }

  lemma ActivateKeepsPools(env: Env, w: World, threshold: real, target: real, processVolume24h: real)
    ensures ActivateRelease(env, w, threshold, target, processVolume24h).pools == w.pools
  {
    hide NextSnapshot, Volume, Velocity;
  }

  lemma VerifyKeepsPools(env: Env, w: World, processId: string)
    ensures Verify(env, w, processId).pools == w.pools
  {
    hide VerdictJournal, IssuedVerdict;
  }

  /** What the first `i` calls of a run make epoch `m` remember, since it was closed if it was. */
  ghost function PartsSince(calls: seq<Call>, states: seq<World>, i: nat, m: int, processId: string,
                            nodeId: string): nat
    requires i <= |calls| < |states|
  {
    if i == 0 || ClosesAt(calls, states, i - 1, m) then 0
    else
      PartsSince(calls, states, i - 1, m, processId, nodeId)
      + PartsFrom(states[i - 1], calls[i - 1], m, processId, nodeId)
  }

  /** In every state of every run an epoch remembers exactly the participations that arrived since it was closed. */
  lemma {:induction false} PartsAreRemembered(env: Env, watched: bool, calls: seq<Call>, states: seq<World>, i: nat,
                                              m: int, processId: string, nodeId: string)
    requires AllValid(calls) && IsRun(env, watched, calls, states) && i <= |calls|
    ensures TakenPart(states[i], m, processId, nodeId) == PartsSince(calls, states, i, m, processId, nodeId)
  {
    hide Sound, AtRest, Exec, TakenPart, PartsFrom, Closable;
    if i > 0 {
      PartsAreRemembered(env, watched, calls, states, i - 1, m, processId, nodeId);
      Reachable(env, watched, calls, states, i - 1);
      CallParts(env, states[i - 1], calls[i - 1], m, processId, nodeId);
    } else {
      NothingTaken(watched, m, processId, nodeId);
    }
  }

  lemma NothingTaken(watched: bool, m: int, processId: string, nodeId: string)
    ensures TakenPart(Genesis(watched), m, processId, nodeId) == 0
  {
  }
}
