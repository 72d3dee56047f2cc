/** Production on its default roster: plain requests, epoch after epoch, and what finalizing each of them pays. */
module RosterRuns {
  import opened Folds
  import opened Strings
  import opened Events
  import opened NodeChain
  import opened Pot
  import opened ArosCoin
  import opened Nodes
  import opened Reserve
  import opened Settlement
  import opened Commission
  import opened Lifecycle
  import opened EventSourcing
  import opened Soundness
  import opened CallInvariants
  import opened Conservation
  import opened Progress
  import opened RunEffects

  const ROSTER: seq<string> := ["node-1", "node-2", "node-3"]

  lemma {:induction false} BelowAfterPrefix(prefix: string, a: string, b: string)
    requires Below(a, b)
    ensures Below(prefix + a, prefix + b)
  {
    if prefix == [] {
      assert prefix + a == a && prefix + b == b;
    } else {
      BelowAfterPrefix(prefix[1..], a, b);
      assert (prefix + a)[1..] == prefix[1..] + a && (prefix + b)[1..] == prefix[1..] + b;
    }
  }

  lemma RosterAscending()
    ensures Ascending(ROSTER) && Distinct(ROSTER)
  {
    assert Below("1", "2") && Below("2", "3") && Below("1", "3");
    assert ROSTER[0] == "node-" + "1" && ROSTER[1] == "node-" + "2" && ROSTER[2] == "node-" + "3";
    BelowAfterPrefix("node-", "1", "2");
    BelowAfterPrefix("node-", "2", "3");
    BelowAfterPrefix("node-", "1", "3");
    assert ROSTER[0][5] != ROSTER[1][5] && ROSTER[1][5] != ROSTER[2][5] && ROSTER[0][5] != ROSTER[2][5];
  }

  // ----- acts -----

  /** A plain request is made, or the current epoch is finalized and the next one begins. */
  datatype Act = Ask(request: Request) | Close

  function Closes(acts: seq<Act>): nat
  {
    if acts == [] then 0 else Closes(acts[..|acts| - 1]) + (if acts[|acts| - 1].Close? then 1 else 0)
  }

  /** The number of the epoch that is current after these acts. */
  function Current(acts: seq<Act>, first: int): int { first + Closes(acts) }

  /** A request that names neither nodes nor an epoch other than `n`. */
  ghost predicate PlainRequest(r: Request, n: int) { r.amount > 0.0 && r.nodeIds == None && EpochOf(r) == n }

  /** Every request goes into the epoch that is current when it is made. */
  ghost predicate AllPlain(acts: seq<Act>, first: int)
  {
    forall i :: 0 <= i < |acts| && acts[i].Ask? ==> PlainRequest(acts[i].request, Current(acts[..i], first))
  }

  function CallFor(act: Act, n: int): Call { if act.Ask? then Run(act.request) else FinalizeCall(n) }

  function CallsFor(acts: seq<Act>, first: int): seq<Call>
  {
    seq(|acts|, i requires 0 <= i < |acts| => CallFor(acts[i], Current(acts[..i], first)))
  }

  /**
   * The books: units of work done per node, the amount admitted in closed epochs, and the processes (repeats
   * included) and the amount admitted in the current one.
   */
  datatype Book = Book(units: nat, settled: real, ids: seq<string>, amount: real)
  {
    function Total(): real { settled + amount }

    /** What each node, and the reserve, has got of the closed pools. */
    function Quarter(): real { settled / 800.0 }

    predicate Right()
    {
      && settled >= 0.0 && amount >= 0.0
      && (ids == [] <==> amount == 0.0)
      && (units == 0 <==> Total() == 0.0)
    }
  }

  const BLANK_BOOK := Book(0, 0.0, [], 0.0)

  function Booked(book: Book, act: Act): Book
  {
    match act
    case Ask(r) =>
      if r.admissible then Book(book.units + 1, book.settled, book.ids + [r.processId], book.amount + r.amount)
      else book
    case Close => Book(book.units, book.Total(), [], 0.0)
  }

  function BookOf(acts: seq<Act>): Book
  {
    if acts == [] then BLANK_BOOK else Booked(BookOf(acts[..|acts| - 1]), acts[|acts| - 1])
  }

  function RosterParts(processIds: seq<string>): seq<Participation>
  {
    if processIds == [] then []
    else RosterParts(processIds[..|processIds| - 1]) + PartsFor(processIds[|processIds| - 1], ROSTER)
  }

  // ----- the registry -----

  function Ids(nodes: seq<Node>): seq<string> { seq(|nodes|, i requires 0 <= i < |nodes| => nodes[i].id) }

  lemma EmployedIds(nodes: seq<Node>, id: string)
    requires Registered(nodes, id)
    ensures Ids(Employed(nodes, id, true)) == Ids(nodes)
  {
    hide Worked;
    WorkedKeepsId(Lookup(nodes, id), true);
  }

  lemma {:induction false} WorkAllIds(nodes: seq<Node>, ids: seq<string>)
    ensures Ids(WorkAll(nodes, ids).0) == Ids(nodes)
  {
    hide Employed, Ids;
    if ids != [] {
      var (front, ok) := WorkAll(nodes, ids[..|ids| - 1]);
      WorkAllIds(nodes, ids[..|ids| - 1]);
      if ok && Registered(front, ids[|ids| - 1]) { EmployedIds(front, ids[|ids| - 1]); }
    }
  }

  lemma {:induction false} AllActive(nodes: seq<Node>)
    requires AllWell(nodes)
    ensures ActiveIds(nodes) == Ids(nodes)
  {
    if nodes != [] {
      AllActive(nodes[..|nodes| - 1]);
      assert WellWeighted(nodes[|nodes| - 1]);
    }
  }

  lemma AdmitNew(env: Env, w: World, id: string, kind: string)
    requires id !in Ids(w.nodes)
    ensures Ids(Admit(env, w, id, kind).nodes) == Ids(w.nodes) + [id]
  {
    hide NextSnapshot;
    RegisteredId(w.nodes, id);
  }

  lemma RegisteredId(nodes: seq<Node>, id: string)
    ensures Registered(nodes, id) ==> id in Ids(nodes)
  {
    if Registered(nodes, id) { assert Ids(nodes)[Position(nodes, id)] == id; }
  }

  lemma RosterNames()
    ensures |DEFAULT_NODES| == |ROSTER| == 3
    ensures forall i :: 0 <= i < 3 ==> DEFAULT_NODES[i].0 == ROSTER[i]
    ensures ROSTER[0] != ROSTER[1] && ROSTER[1] != ROSTER[2] && ROSTER[0] != ROSTER[2]
  {
    RosterAscending();
  }

  lemma RosterAdmitted(env: Env, w: World)
    requires w.nodes == []
    ensures Ids(AdmitAll(env, w, DEFAULT_NODES).nodes) == ROSTER
  {
    hide Admit, Ids, DEFAULT_NODES, ROSTER;
    RosterNames();
    var roster := DEFAULT_NODES;
    var none, one, two := roster[..0], roster[..1], roster[..2];
    assert two[..1] == one && one[..0] == none && roster[..|roster| - 1] == two;
    assert AdmitAll(env, w, none) == w && Ids(w.nodes) == [] by { NoIds(env, w); }
    AdmitNew(env, w, ROSTER[0], roster[0].1);
    assert AdmitAll(env, w, one) == Admit(env, w, ROSTER[0], roster[0].1);
    AdmitNew(env, AdmitAll(env, w, one), ROSTER[1], roster[1].1);
    assert AdmitAll(env, w, two) == Admit(env, AdmitAll(env, w, one), ROSTER[1], roster[1].1);
    AdmitNew(env, AdmitAll(env, w, two), ROSTER[2], roster[2].1);
    assert ROSTER == [ROSTER[0]] + [ROSTER[1]] + [ROSTER[2]];
  }

  lemma NoIds(env: Env, w: World)
    requires w.nodes == []
    ensures AdmitAll(env, w, DEFAULT_NODES[..0]) == w && Ids(w.nodes) == []
  {
  }

  // ----- the state after some acts -----

  /** Epoch `n` is current: it holds this pool, and no later one has begun. */
  ghost predicate CurrentPool(pools: Pools, n: int, total: real, ids: seq<string>)
  {
    && (forall m :: m > n ==> !HasEpoch(pools.epochs, m) && m !in pools.participation)
    && if ids == [] then !HasEpoch(pools.epochs, n) && n !in pools.participation
       else
         && HasEpoch(pools.epochs, n)
         && EpochRow(pools.epochs, n).status == Open && EpochRow(pools.epochs, n).totalFees == total
         && n in pools.participation && pools.participation[n] == RosterParts(ids)
  }

  ghost predicate AfterActs(w: World, n: int, book: Book)
  {
    && book.Right()
    && w.coin == Coin(book.Total(), book.Total(), 3.0 * book.Quarter())
    && (forall p :: p in book.ids ==> Confirmed(w.verdicts, p))
    && (if book.ids == [] then w.nodes == [] || Ids(w.nodes) == ROSTER else Ids(w.nodes) == ROSTER)
    && CurrentPool(w.pools, n, book.amount / 200.0, book.ids)
  }

  lemma ResolvedRoster(env: Env, w: World, r: Request)
    requires AllWell(w.nodes) && r.nodeIds == None && (w.nodes == [] || Ids(w.nodes) == ROSTER)
    ensures var (resolved, ids) := Resolve(env, Initiate(env, w, r), r.nodeIds);
            ids == ROSTER && Ids(resolved.nodes) == ROSTER
  {
    hide AdmitAll, Ids, ActiveIds, AllWell, Initiate, Quiet;
    InitiateKeepsNodes(env, w, r);
    var started := Initiate(env, w, r);
    var (resolved, ids) := Resolve(env, started, r.nodeIds);
    if w.nodes == [] { RosterAdmitted(env, started); }
    QuietResolve(env, started, r.nodeIds);
    QuietKeepsNodes(env, started, resolved);
    AllActive(resolved.nodes);
  }

  lemma PoolAccrued(pools: Pools, pools': Pools, n: int, processIds: seq<string>, amount: real, r: Request)
    requires UniqueEpochs(pools.epochs)
    requires CurrentPool(pools, n, amount / 200.0, processIds) && (processIds == [] ==> amount == 0.0)
    requires FeeAccrued(pools, pools', r, ROSTER) && EpochOf(r) == n
    ensures CurrentPool(pools', n, (amount + r.amount) / 200.0, processIds + [r.processId])
  {
    hide PartsFor, SavedEpoch, UniqueEpochs;
    assert (processIds + [r.processId])[..|processIds|] == processIds;
    var tick :| pools' == Accrued(pools, tick, EpochOf(r), ComputeFee(r.amount), PartsFor(r.processId, ROSTER));
    var row := RowFor(pools, tick, n);
    var row' := row.(totalFees := row.totalFees + ComputeFee(r.amount));
    SavedEpochHas(pools.epochs, row', n);
    forall m | m > n ensures !HasEpoch(pools'.epochs, m) && m !in pools'.participation {
      SavedEpochHas(pools.epochs, row', m);
    }
    assert RosterParts([]) == [];
    assert [] + PartsFor(r.processId, ROSTER) == PartsFor(r.processId, ROSTER);
  }

  /** One more plain request: verified when admissible, turned away otherwise. */
  lemma RequestStep(env: Env, w: World, n: int, book: Book, r: Request)
    requires Sound(env, w) && AtRest(w) && Earned(w) && FeesMatch(w, 0.0)
    requires PlainRequest(r, n) && AfterActs(w, n, book)
    ensures var (w', outcome) := RunProcess(env, w, r);
            && AfterActs(w', n, Booked(book, Ask(r)))
            && if r.admissible then Verified(r, outcome) else TurnedAway(outcome)
  {
    hide RunProcess, Resolve, Initiate, WorkAll, Sound, AtRest, Earned, FeesMatch, FeeAccrued, CurrentPool, Ids, Quiet,
         RosterParts;
    var (w', outcome) := RunProcess(env, w, r);
    EarnedRun(env, w, r);
    RunEffect(env, w, r);
    RunWorkforce(env, w, r);
    RunKeepsVerdicts(env, w, r);
    SoundParts(env, w);
    ResolvedRoster(env, w, r);
    var (resolved, ids) := Resolve(env, Initiate(env, w, r), r.nodeIds);
    WorkAllIds(resolved.nodes, ids);
    if r.admissible {
      PoolAccrued(w.pools, w'.pools, n, book.ids, book.amount, r);
    } else {
      InadmissibleTurned(env, w, r);
    }
  }

  ghost predicate TurnedAway(outcome: RunOutcome)
  {
    outcome.Completed? && !outcome.result.verified && outcome.result.reason == Some(Inadmissible)
    && outcome.result.minted == 0.0 && outcome.result.fee == 0.0
  }

  lemma InadmissibleTurned(env: Env, w: World, r: Request)
    requires !r.admissible
    ensures TurnedAway(RunProcess(env, w, r).1)
  {
    hide Initiate, Observe, Volume;
  }

  lemma RunKeepsVerdicts(env: Env, w: World, r: Request)
    ensures forall p :: Confirmed(w.verdicts, p) ==> Confirmed(RunProcess(env, w, r).0.verdicts, p)
  {
    hide Quiet, Initiate, Observe, Judge, Resolve, RecordStages, RecordAssignment, WorkAll, Decided, Volume;
    var started := Initiate(env, w, r);
    QuietInitiate(env, w, r);
    QuietReplay(env, w, started);
    if !r.admissible {
      QuietObserve(env, started, Rejected(r.processId));
      QuietReplay(env, started, RunProcess(env, w, r).0);
    } else {
      QuietExecuted(env, started, r);
      var (executed, ids, ok) := Executed(env, started, r);
      QuietReplay(env, started, executed);
      if ok {
        JudgeEffect(env, executed, r.processId);
        DecidedVerdicts(env, Judge(env, executed, r.processId), r, ids);
      }
    }
  }

  /** Ledger, pool, registry and verdicts after any such acts are those of the books. */
  lemma {:induction false} ActsReached(env: Env, watched: bool, first: int, acts: seq<Act>, states: seq<World>, i: nat)
    requires AllPlain(acts, first) && IsRun(env, watched, CallsFor(acts, first), states) && i <= |acts|
    ensures AfterActs(states[i], Current(acts[..i], first), BookOf(acts[..i]))
  {
    hide AfterActs, RunProcess, FinalizeEpoch, Sound, AtRest, Earned, FeesMatch, Booked;
    if i == 0 {
      GenesisReached(watched, first);
    } else {
      ActsReached(env, watched, first, acts, states, i - 1);
      OrchestratedActs(env, watched, first, acts, states, i - 1);
      var front := acts[..i - 1];
      assert acts[..i][..i - 1] == front;
      assert CallsFor(acts, first)[i - 1] == CallFor(acts[i - 1], Current(front, first));
      if acts[i - 1].Ask? {
        RequestStep(env, states[i - 1], Current(front, first), BookOf(front), acts[i - 1].request);
      } else {
        CloseStep(env, states[i - 1], Current(front, first), BookOf(front));
      }
    }
  }

  lemma OrchestratedActs(env: Env, watched: bool, first: int, acts: seq<Act>, states: seq<World>, i: nat)
    requires AllPlain(acts, first) && IsRun(env, watched, CallsFor(acts, first), states) && i <= |acts|
    ensures Sound(env, states[i]) && AtRest(states[i]) && Earned(states[i]) && FeesMatch(states[i], 0.0)
  {
    hide Sound, AtRest, Earned, FeesMatch, Exec, Current;
    ReachableOrchestrated(env, watched, CallsFor(acts, first), states, i);
  }

  lemma GenesisReached(watched: bool, n: int)
    ensures AfterActs(Genesis(watched), n, BLANK_BOOK)
  {
    hide Ids, RosterParts, BLANK_BOOK;
    BlankBook(BLANK_BOOK);
  }

  lemma BlankBook(book: Book)
    requires book == BLANK_BOOK
    ensures book.Right() && book.Total() == 0.0 && book.Quarter() == 0.0
    ensures book.ids == [] && book.amount == 0.0 && book.units == 0
  {
  }

  /** Confirmed volume is what was minted plus the reserve's share, a third of what the nodes hold. */
  lemma VolumeOfLedger(env: Env, w: World)
    requires Sound(env, w) && Earned(w)
    ensures Volume(w.journal.chain) == w.coin.processMinted + w.coin.earnedRetained / 3.0
  {
    hide Replay, Volume, Chained, EpochsMatch, VerdictsMatch, PhaseMatches, AllWell, AllFull, AllPositive,
         PartsSettleable, OpenEpochsWorked;
    ReplayIsSums(w.journal.chain);
  }

  // ----- the settlement -----

  lemma CountConcat(a: seq<Participation>, b: seq<Participation>, verdicts: VerdictTable, id: string)
    ensures Count(a + b, verdicts, id) == Count(a, verdicts, id) + Count(b, verdicts, id)
  {
    SumConcat(Mark(verdicts, id), a, b);
  }

  lemma CountThree(a: Participation, b: Participation, c: Participation, verdicts: VerdictTable, id: string)
    ensures Count([a, b, c], verdicts, id) == Mark(verdicts, id)(a) + Mark(verdicts, id)(b) + Mark(verdicts, id)(c)
  {
    SumThree(Mark(verdicts, id), a, b, c);
  }

  lemma SumThree<T>(f: T -> real, a: T, b: T, c: T)
    ensures Sum(f, [a, b, c]) == f(a) + f(b) + f(c)
  {
    assert [a, b, c] == [] + [a] + [b] + [c];
    SumSnoc(f, [], a);
    SumSnoc(f, [] + [a], b);
    SumSnoc(f, [] + [a] + [b], c);
  }

  lemma CountOnce(p: string, verdicts: VerdictTable, id: string)
    requires Confirmed(verdicts, p) && id in ROSTER
    ensures Count(PartsFor(p, ROSTER), verdicts, id) == 1.0
  {
    hide Sum;
    RosterAscending();
    assert PartsFor(p, ROSTER) ==
        [Participation(p, ROSTER[0]), Participation(p, ROSTER[1]), Participation(p, ROSTER[2])];
    CountThree(Participation(p, ROSTER[0]), Participation(p, ROSTER[1]), Participation(p, ROSTER[2]), verdicts, id);
  }

  lemma {:induction false} CountRoster(processIds: seq<string>, verdicts: VerdictTable, id: string)
    requires (forall p :: p in processIds ==> Confirmed(verdicts, p)) && id in ROSTER
    ensures Count(RosterParts(processIds), verdicts, id) == |processIds| as real
  {
    assert Count([], verdicts, id) == 0.0;
    hide Count, PartsFor;
    if processIds != [] {
      var front, last := processIds[..|processIds| - 1], processIds[|processIds| - 1];
      CountRoster(front, verdicts, id);
      CountOnce(last, verdicts, id);
      CountConcat(RosterParts(front), PartsFor(last, ROSTER), verdicts, id);
    }
  }

  lemma {:induction false} RosterTook(processIds: seq<string>, verdicts: VerdictTable, id: string)
    requires processIds != [] && forall p :: p in processIds ==> Confirmed(verdicts, p)
    ensures Took(RosterParts(processIds), verdicts, id) <==> id in ROSTER
  {
    hide Confirmed;
    var front, last := processIds[..|processIds| - 1], processIds[|processIds| - 1];
    var parts := RosterParts(processIds);
    RosterPartsIds(processIds);
    if id in ROSTER {
      var i :| 0 <= i < |ROSTER| && ROSTER[i] == id;
      assert PartsFor(last, ROSTER)[i] == Participation(last, id);
      assert Participation(last, id) in parts;
    }
  }

  lemma {:induction false} RosterPartsIds(processIds: seq<string>)
    ensures forall part :: part in RosterParts(processIds) ==> part.nodeId in ROSTER && part.processId in processIds
  {
    if processIds != [] { RosterPartsIds(processIds[..|processIds| - 1]); }
  }

  /** A quarter of the pool for each of the three, a quarter for the reserve. */
  function QuarterLog(total: real): seq<DistributionEntry>
  {
    [DistributionEntry(ROSTER[0], total / 4.0, WorkWeight), DistributionEntry(ROSTER[1], total / 4.0, WorkWeight),
     DistributionEntry(ROSTER[2], total / 4.0, WorkWeight)]
  }

  lemma EqualThirds(k: real, total: real)
    requires k > 0.0
    ensures Portion(1.0 * k, 0.75 * total, 3.0 * k) == total / 4.0
  {
    assert (1.0 * k) * (0.75 * total) == (3.0 * k) * (total / 4.0);
  }

  lemma RosterOrder(w: World, ws: Weights, processIds: seq<string>)
    requires processIds != [] && forall p :: p in processIds ==> Confirmed(w.verdicts, p)
    requires Weigh(RosterParts(processIds), w.verdicts, w.nodes) == Some(ws)
    ensures Sort(ws.order) == ROSTER
  {
    hide Weigh, RosterParts, Sort, Confirmed, Took;
    var parts := RosterParts(processIds);
    RosterAscending();
    WeighRight(parts, w.verdicts, w.nodes);
    SortAscending(ws.order);
    forall id ensures id in Sort(ws.order) <==> id in ROSTER {
      SameElements(Sort(ws.order), ws.order, id);
      assert WeighedRight(ws, parts, w.verdicts, w.nodes, id);
      RosterTook(processIds, w.verdicts, id);
    }
    AscendingUnique(Sort(ws.order), ROSTER);
  }

  lemma RosterWeights(w: World, ws: Weights, processIds: seq<string>)
    requires AllFull(w.nodes) && Ids(w.nodes) == ROSTER
    requires processIds != [] && forall p :: p in processIds ==> Confirmed(w.verdicts, p)
    requires Weigh(RosterParts(processIds), w.verdicts, w.nodes) == Some(ws)
    ensures Sort(ws.order) == ROSTER && TotalWeight(ws) == 3.0 * |processIds| as real
    ensures forall id :: id in ROSTER ==>
              PresentWeight(w.nodes, id) == 1.0
                  && Count(RosterParts(processIds), w.verdicts, id) == |processIds| as real
  {
    hide Weigh, RosterParts, Count, Sort, Sum, Confirmed, AllFull, Ids, PresentWeight;
    var parts := RosterParts(processIds);
    RosterOrder(w, ws, processIds);
    forall id | id in ROSTER
      ensures PresentWeight(w.nodes, id) == 1.0 && Count(parts, w.verdicts, id) == |processIds| as real
                && ws.Get(id) == |processIds| as real
    {
      CountRoster(processIds, w.verdicts, id);
      FullWeight(w.nodes, id);
      WeightClosedForm(parts, w.verdicts, w.nodes, id);
    }
    assert ROSTER[0] in ROSTER && ROSTER[1] in ROSTER && ROSTER[2] in ROSTER;
    SumPermutation(WeightOf(ws), ws.order, ROSTER);
    SumThree(WeightOf(ws), ROSTER[0], ROSTER[1], ROSTER[2]);
  }

  lemma FullWeight(nodes: seq<Node>, id: string)
    requires AllFull(nodes) && id in Ids(nodes)
    ensures Registered(nodes, id) && PresentWeight(nodes, id) == 1.0
  {
    var i :| 0 <= i < |nodes| && Ids(nodes)[i] == id;
    assert nodes[i].id == id && Position(nodes, id) <= i;
    assert NeverFailed(Lookup(nodes, id));
  }

  lemma {:induction false} QuarterShare(w: World, ws: Weights, processIds: seq<string>, total: real, id: string)
    requires Weigh(RosterParts(processIds), w.verdicts, w.nodes) == Some(ws)
    requires processIds != [] && TotalWeight(ws) == 3.0 * |processIds| as real
    requires PresentWeight(w.nodes, id) == 1.0 && Count(RosterParts(processIds), w.verdicts, id) == |processIds| as real
    ensures FairShare(RosterParts(processIds), w.verdicts, w.nodes, total, id) == total / 4.0
  {
    hide Weigh, RosterParts, Count, Portion, TotalWeight, PresentWeight;
    EqualThirds(|processIds| as real, total);
  }

  lemma QuarterSplit(w: World, ws: Weights, processIds: seq<string>, total: real)
    requires AllFull(w.nodes) && Ids(w.nodes) == ROSTER
    requires processIds != [] && forall p :: p in processIds ==> Confirmed(w.verdicts, p)
    requires Weigh(RosterParts(processIds), w.verdicts, w.nodes) == Some(ws)
    ensures SplitPool(ws, total) == Split(QuarterLog(total), 0.75 * total, 0.25 * total)
  {
    hide Weigh, RosterParts, Count, Sum, Portion, Sort, TotalWeight, Distribution, PresentWeight, AllFull, Ids,
         Confirmed, Ascending, Took, FairShare;
    var parts := RosterParts(processIds);
    RosterWeights(w, ws, processIds);
    SplitShares(ws, total);
    assert Payable(parts, w.verdicts, w.nodes);
    DistributionClosedForm(parts, w.verdicts, w.nodes, total);
    forall i | 0 <= i < 3 ensures SplitPool(ws, total).payments[i] == QuarterLog(total)[i] {
      PaymentClosedForm(parts, w.verdicts, w.nodes, total, i);
      assert ROSTER[i] in ROSTER;
      QuarterShare(w, ws, processIds, total, ROSTER[i]);
    }
    assert SplitPool(ws, total).payments == QuarterLog(total);
  }

  /** What finalizing pays on the default roster, in closed form, epoch after epoch. */
  lemma RosterSettlement(env: Env, w: World, n: int, book: Book)
    requires Sound(env, w) && Earned(w) && AfterActs(w, n, book) && book.ids != []
    ensures var total := book.amount / 200.0;
            var (w', outcome) := FinalizeEpoch(env, w, n);
            && outcome.Done?
            && outcome.result ==
                 FinalizeResult(n, QuarterLog(total) + [DistributionEntry(MARGIN_RECIPIENT, 0.25 * total, AfcReserve)],
                                0.25 * total, 0.75 * total, total, true)
            && w'.coin == w.coin.(earnedRetained := w.coin.earnedRetained + 0.75 * total)
            && Volume(w'.journal.chain) == Volume(w.journal.chain) + 0.25 * total
            && AfterActs(w', n + 1, Booked(book, Close))
  {
    hide Sound, Quiet, SettleEpoch, Observe, CompareSupply, AfterActs, Volume, QuarterLog, Booked, EpochsMatch;
    SettledRoster(env, w, n, book);
    var (settled, outcome) := SettleEpoch(env, w, n);
    var note := Distributed(n, outcome.result.paid, outcome.result.operationalMargin, outcome.result.reconciled);
    var observed := Observe(env, settled, note);
    var w' := CompareSupply(env, observed);
    QuietObserve(env, settled, note);
    QuietReplay(env, settled, observed);
    QuietCompare(env, observed);
    QuietReplay(env, observed, w');
    ReplayIsSums(settled.journal.chain);
    ReplayIsSums(w'.journal.chain);
    ObserveOnlyWatches(env, settled, note);
    CompareOnlyWatches(env, observed);
    SameRows(settled, w', n + 1, Booked(book, Close));
  }

  lemma SameRows(w: World, w': World, n: int, book: Book)
    ensures AfterActs(w, n, book) && w'.coin == w.coin && w'.verdicts == w.verdicts && w'.nodes == w.nodes
              && w'.pools == w.pools ==>
              AfterActs(w', n, book)
  {
  }

  lemma SettledRoster(env: Env, w: World, n: int, book: Book)
    requires Sound(env, w) && Earned(w) && AfterActs(w, n, book) && book.ids != []
    ensures var total := book.amount / 200.0;
            var (w', outcome) := SettleEpoch(env, w, n);
            && outcome.Done?
            && outcome.result ==
                 FinalizeResult(n, QuarterLog(total) + [DistributionEntry(MARGIN_RECIPIENT, 0.25 * total, AfcReserve)],
                                0.25 * total, 0.75 * total, total, true)
            && w'.coin == w.coin.(earnedRetained := w.coin.earnedRetained + 0.75 * total)
            && Volume(w'.journal.chain) == Volume(w.journal.chain) + 0.25 * total
            && AfterActs(w', n + 1, Booked(book, Close))
  {
    hide Sound, Earned, Weigh, Finalize, SplitPool, RosterParts, Volume, QuarterLog, Ids, AfterActs, Booked,
         CurrentPool;
    var total := book.amount / 200.0;
    CurrentRow(w, n, book);
    EarnedParts(w);
    var parts := PartsOf(w.pools.participation, n);
    OpenEpochPayable(env, w, n);
    WeighedArePayees(parts, w.verdicts, w.nodes);
    var ws := Weigh(parts, w.verdicts, w.nodes).value;
    QuarterSplit(w, ws, book.ids, total);
    FinalizeFigures(env, w, ws, n);
    SettledVolume(env, w, ws, n);
    SoundParts(env, w);
    PoolClosed(env, w, ws, n);
    NextBook(w, SettleEpoch(env, w, n).0, n, book);
  }

  /** A settlement raises the volume by its margin. */
  lemma SettledVolume(env: Env, w: World, ws: Weights, n: int)
    requires HasEpoch(w.pools.epochs, n) && EpochRow(w.pools.epochs, n).status == Open
    requires Weigh(PartsOf(w.pools.participation, n), w.verdicts, w.nodes) == Some(ws) && Payees(ws, w.nodes)
    ensures var split := SplitPool(ws, EpochRow(w.pools.epochs, n).totalFees);
            split.margin > 0.0 ==>
              Volume(SettleEpoch(env, w, n).0.journal.chain) == Volume(w.journal.chain) + split.margin
  {
    hide Replay, Weigh, Finalize, SplitPool, Volume, Chained, Step, ToResult, Abs;
    var total := EpochRow(w.pools.epochs, n).totalFees;
    if SplitPool(ws, total).margin > 0.0 {
      FinalizeReplay(env, w.journal, w.coin, w.pools, w.nodes, ws, n);
      ReplayIsSums(w.journal.chain);
      ReplayIsSums(SettleEpoch(env, w, n).0.journal.chain);
      ClosedVolume(Replay(w.journal.chain), ClosingRecord(n, total, SplitPool(ws, total)));
    }
  }

  lemma CurrentRow(w: World, n: int, book: Book)
    requires AfterActs(w, n, book) && book.ids != []
    ensures HasEpoch(w.pools.epochs, n) && EpochRow(w.pools.epochs, n).status == Open
    ensures EpochRow(w.pools.epochs, n).totalFees == book.amount / 200.0 > 0.0
    ensures PartsOf(w.pools.participation, n) == RosterParts(book.ids)
    ensures Ids(w.nodes) == ROSTER && forall p :: p in book.ids ==> Confirmed(w.verdicts, p)
    ensures forall m :: m > n ==> !HasEpoch(w.pools.epochs, m) && m !in w.pools.participation
  {
    hide RosterParts, Ids;
  }

  /** Once an epoch is closed the next one is current, and empty. */
  lemma PoolClosed(env: Env, w: World, ws: Weights, n: int)
    requires UniqueEpochs(w.pools.epochs) && HasEpoch(w.pools.epochs, n) && Payees(ws, w.nodes)
    requires forall m :: m > n ==> !HasEpoch(w.pools.epochs, m) && m !in w.pools.participation
    ensures CurrentPool(Finalize(env, w.journal, w.coin, w.pools, w.nodes, ws, n).pools, n + 1, 0.0, [])
  {
    hide NextSnapshot, SavedEpoch, Distribution, Receipts, Abs, UniqueEpochs, RosterParts;
    FinalizeRow(env, w.journal, w.coin, w.pools, w.nodes, ws, n);
    var f, e := Finalize(env, w.journal, w.coin, w.pools, w.nodes, ws, n), EpochRow(w.pools.epochs, n);
    var split := SplitPool(ws, e.totalFees);
    var row := e.(distributionLog := split.Entries(), operationalMargin := split.margin, status := Finalized,
                  endTime := EpochEnd(f, n));
    forall m | m > n ensures !HasEpoch(f.pools.epochs, m) && m !in f.pools.participation {
      SavedEpochHas(w.pools.epochs, row, m);
    }
  }

  lemma NextBook(w: World, w': World, n: int, book: Book)
    ensures AfterActs(w, n, book)
              && w'.coin == w.coin.(earnedRetained := w.coin.earnedRetained + 0.75 * (book.amount / 200.0))
                   && w'.nodes == w.nodes && CurrentPool(w'.pools, n + 1, 0.0, []) ==>
              AfterActs(w', n + 1, Booked(book, Close))
  {
    hide CurrentPool, Ids;
  }

  /** Finalizing an epoch nobody was admitted to changes nothing. */
  lemma EmptyClose(env: Env, w: World, n: int, book: Book)
    requires AfterActs(w, n, book) && book.ids == []
    ensures FinalizeEpoch(env, w, n) == (w, NoSuchEpoch)
    ensures AfterActs(w, n + 1, Booked(book, Close))
  {
    hide Ids, RosterParts;
  }

  /** Closing the current epoch, empty or not, makes the next one current. */
  lemma CloseStep(env: Env, w: World, n: int, book: Book)
    requires Sound(env, w) && Earned(w) && AfterActs(w, n, book)
    ensures AfterActs(FinalizeEpoch(env, w, n).0, n + 1, Booked(book, Close))
  {
    hide Sound, Earned, AfterActs, FinalizeEpoch, Booked, Volume, QuarterLog;
    if book.ids == [] { EmptyClose(env, w, n, book); } else { RosterSettlement(env, w, n, book); }
  }

}
