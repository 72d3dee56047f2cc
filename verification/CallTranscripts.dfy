/** What each of the ten calls leaves on log and oversight ledger, and what a run answers: all from the state before. */
module CallTranscripts {
  import opened Folds
  import opened Events
  import opened NodeChain
  import opened StateRecording
  import opened Pot
  import opened Nodes
  import opened Reserve
  import opened Settlement
  import opened Commission
  import opened Release
  import opened AllSeeingEye
  import opened Lifecycle
  import opened EventSourcing
  import opened Soundness
  import opened CallInvariants
  import opened RunEffects
  import opened Progress
  import opened FeeFlow
  import opened WorkCounts
  import opened ReleaseGate
  import opened Transcripts
  import RecordedEvidence
  import OversightAudit
  import JsObject

  // ----- a run -----

  ghost predicate StandsPositive(w: World, processId: string)
  {
    processId in w.verdicts ==> w.verdicts[processId].verified
  }

  /** From the verdict on: value is produced behind a positive verdict only. */
  ghost function Sequel(env: Env, w: World, r: Request): seq<Item>
  {
    var q, positive := r.processId, StandsPositive(w, r.processId);
    (Ruling(q, true, [], q in w.verdicts) + Announcement(env, q, positive))
    + (if positive then Production(env, q, r.amount, !HasEpoch(w.pools.epochs, EpochOf(r))) + Closing(env, q)
       else Refusing(q))
  }

  ghost function RunScript(env: Env, w: World, r: Request): seq<Item>
  {
    if !r.admissible then
      Opening(env, r) + [Saw("anomaly_detected", "processing", env.describe(Rejected(r.processId)))]
    else if !NamesRegistered(r, w.nodes) then Preparation(env, r, w.nodes)
    else Preparation(env, r, w.nodes) + Sequel(env, w, r)
  }

  /** The reserve index that goes with this much more confirmed volume. */
  ghost function IndexAfter(env: Env, w: World, more: real): real { env.log10(1.0 + (ConfirmedVolume(w) + more)) }

  const TURNED_AWAY: seq<EventType> := [Initiation]
  const WORKED_AND_JUDGED: seq<EventType> :=
    [Initiation, TaskAssignment, StageTransition, ExecutionComplete, PotVerified, PotVerdict]

  /** The answer to a request, in closed form. */
  ghost function RunAnswer(env: Env, w: World, r: Request): RunOutcome
  {
    var q, retained, ids := r.processId, w.coin.earnedRetained, AssignedTo(r, w.nodes);
    if !r.admissible then
      Completed(RunResult(q, false, Some(Inadmissible), 0.0, 0.0, retained, IndexAfter(env, w, 0.0), [], TURNED_AWAY))
    else if !NamesRegistered(r, w.nodes) then NodeNotRegistered
    else if !StandsPositive(w, q) then
      Completed(RunResult(q, false, Some(Unverified), 0.0, 0.0, retained, IndexAfter(env, w, 0.0), ids,
                          WORKED_AND_JUDGED + [FinalStatus]))
    else
      Completed(RunResult(q, true, None, r.amount, r.amount / 200.0, retained, IndexAfter(env, w, r.amount), ids,
                          WORKED_AND_JUDGED + [EmissionMinted, EmissionRecorded, EmissionBurned, FinalStatus]))
  }

  function ItemVolume(): Item -> real
  {
    (item: Item) =>
      if item.Rec? && item.eventType == EmissionMinted && item.payload.MintRecord? then item.payload.minted
      else if item.Rec? && item.eventType == EpochFinalized && item.payload.EpochRecord?
              && item.payload.operationalMargin > 0.0 then item.payload.operationalMargin
      else 0.0
  }

  lemma PerformVolume(env: Env, j: Journal, eye: Option<Oversight>, item: Item)
    ensures Volume(Perform(env, j, eye, item).0.chain) == Volume(j.chain) + ItemVolume()(item)
  {
    hide Sum;
    if item.Rec? {
      SumSnoc(VolumeOf, j.chain, NextSnapshot(env, j.chain, item.eventType, item.payload, j.tick + 1));
    }
  }

  /** What a transcript adds to the volume. */
  lemma {:induction false} PlayVolume(env: Env, j: Journal, eye: Option<Oversight>, items: seq<Item>)
    ensures Volume(Play(env, j, eye, items).0.chain) == Volume(j.chain) + Sum(ItemVolume(), items)
  {
    hide Volume, Perform, ItemVolume;
    if items != [] {
      var front := items[..|items| - 1];
      PlayVolume(env, j, eye, front);
      var before := Play(env, j, eye, front);
      PerformVolume(env, before.0, before.1, items[|items| - 1]);
    }
  }

  ghost predicate Weightless(items: seq<Item>) { forall item :: item in items ==> ItemVolume()(item) == 0.0 }

  lemma {:induction false} NoVolume(items: seq<Item>)
    requires Weightless(items)
    ensures Sum(ItemVolume(), items) == 0.0
  {
    hide ItemVolume;
    if items != [] {
      assert items[|items| - 1] in items;
      NoVolume(items[..|items| - 1]);
    }
  }

  lemma ProductionVolume(env: Env, q: string, amount: real, opens: bool)
    ensures Sum(ItemVolume(), Production(env, q, amount, opens)) == amount
  {
    var a := Rec(EmissionMinted, MintRecord(q, amount));
    var b := [Rec(EmissionRecorded, Captured(q, JsObject.Single("minted", JsObject.Num(amount)), None)),
              Saw("mint", "token_management", env.describe(Minted(q, amount)))]
             + ((if opens then [Tock] else [])
                + [Rec(EmissionBurned, BurnRecord(q, amount)),
                   Saw("burn", "token_management", env.describe(Burned(q, amount)))]);
    assert Production(env, q, amount, opens) == [a] + b;
    assert [a] == [] + [a];
    SumSnoc(ItemVolume(), [], a);
    SumConcat(ItemVolume(), [a], b);
    NoVolume(b);
  }

  /** Everything but the production leaves the volume alone. */
  lemma PreparationVolume(env: Env, r: Request, nodes: seq<Node>)
    ensures Weightless(Preparation(env, r, nodes))
  {
    hide AssignedTo;
  }

  lemma VerdictVolume(env: Env, q: string, judged: bool, verified: bool)
    ensures Weightless(Ruling(q, true, [], judged) + Announcement(env, q, verified))
    ensures Weightless(Closing(env, q)) && Weightless(Refusing(q))
  {
  }

  lemma PlaysVolume(env: Env, w: World, w': World, items: seq<Item>)
    ensures Plays(env, w, w', items) ==>
              Volume(w'.journal.chain) == Volume(w.journal.chain) + Sum(ItemVolume(), items)
    ensures Plays(env, w, w', items) && Weightless(items) ==> Volume(w'.journal.chain) == Volume(w.journal.chain)
  {
    hide Play, Volume, Weightless;
    PlayVolume(env, w.journal, w.eye, items);
    if Weightless(items) { NoVolume(items); }
  }

  /** From the verdict on, in the state the work leaves behind. */
  lemma DecidedPlays(env: Env, w: World, r: Request, ids: seq<string>)
    requires Sound(env, w) && AtRest(w) && r.amount > 0.0
    requires forall e :: e in REQUIRED ==> e in EventsOf(w.captured, r.processId)
    ensures r.processId in Judge(env, w, r.processId).verdicts
    ensures var (w', outcome) := Decided(env, Judge(env, w, r.processId), r, ids);
            && Plays(env, w, w', Sequel(env, w, r))
            && outcome.Completed?
            && outcome.result.supplyAfter == w.coin.earnedRetained
            && outcome.result.reserveIndex ==
                 env.log10(1.0 + (Volume(w.journal.chain) + (if StandsPositive(w, r.processId) then r.amount else 0.0)))
  {
    hide Sound, Quiet, Judge, Verify, Produce, CloseStage, Refuse, Volume, ComputeFee, Replay, Plays, Ruling,
         Announcement, Production, Closing, Refusing, Confirmed, FeeAccrued;
    var q, positive := r.processId, StandsPositive(w, r.processId);
    JudgeEffect(env, w, q);
    VerdictIs(env, w, q);
    SoundJudge(env, w, q);
    var judged := Judge(env, w, q);
    QuietReplay(env, Verify(env, w, q), judged);
    JudgedStands(judged, q);
    JudgePlays(env, w, q, positive);
    var ruling := Ruling(q, true, [], q in w.verdicts) + Announcement(env, q, positive);
    VerdictVolume(env, q, q in w.verdicts, positive);
    PlaysVolume(env, w, judged, ruling);
    if positive {
      var produced := Produce(env, judged, q, r.amount, EpochOf(r), ids);
      var production := Production(env, q, r.amount, !HasEpoch(w.pools.epochs, EpochOf(r)));
      SoundProduce(env, judged, q, r.amount, EpochOf(r), ids);
      ProduceEffect(env, judged, r, ids);
      ProductionPlays(env, judged, q, r.amount, EpochOf(r), ids);
      ProductionVolume(env, q, r.amount, !HasEpoch(w.pools.epochs, EpochOf(r)));
      PlaysVolume(env, judged, produced, production);
      ClosingPlays(env, produced, q);
      PlaysTransitive(env, judged, produced, CloseStage(env, produced, q), production, Closing(env, q));
      PlaysTransitive(env, w, judged, CloseStage(env, produced, q), ruling, production + Closing(env, q));
      QuietClose(env, produced, q);
      QuietRest(env, produced, CloseStage(env, produced, q));
      QuietReplay(env, produced, CloseStage(env, produced, q));
      SupplyIsRetained(env, CloseStage(env, produced, q));
    } else {
      var refused := Refuse(env, judged, q);
      RefusingPlays(env, judged, q);
      PlaysTransitive(env, w, judged, refused, ruling, Refusing(q));
      PlaysVolume(env, judged, refused, Refusing(q));
      QuietRefuse(env, judged, q);
      QuietRest(env, judged, refused);
      QuietReplay(env, judged, refused);
      SupplyIsRetained(env, refused);
    }
  }

  lemma JudgedStands(w: World, q: string)
    requires q in w.verdicts
    ensures w.verdicts[q].verified <==> Confirmed(w.verdicts, q)
  {
  }

  /**
   * A run, completely: the records it puts on the log, with their bodies, what the Eye notes, and its answer, for
   * every request in every reachable state.
   */
  lemma RunPlays(env: Env, w: World, r: Request)
    requires Sound(env, w) && AtRest(w) && r.amount > 0.0
    ensures Plays(env, w, RunProcess(env, w, r).0, RunScript(env, w, r))
    ensures RunProcess(env, w, r).1 == RunAnswer(env, w, r)
  {
    hide Sound, AtRest, Quiet, Initiate, Observe, Judge, Resolve, RecordStages, RecordAssignment, WorkAll, Decided,
         Volume, Plays, Opening, Preparation, Sequel, NamesRegistered, EventsOf, AssignedTo, StandsPositive,
             ConfirmedVolume, AllWell;
    var q, started := r.processId, Initiate(env, w, r);
    SoundParts(env, w);
    VolumeIsConfirmed(env, w);
    OpeningPlays(env, w, r);
    QuietInitiate(env, w, r);
    QuietRest(env, w, started);
    QuietReplay(env, w, started);
    if !r.admissible {
      var rejected := Observe(env, started, Rejected(q));
      var note := [Saw("anomaly_detected", "processing", env.describe(Rejected(q)))];
      ObservePlays(env, started, Rejected(q));
      PlaysTransitive(env, w, started, rejected, Opening(env, r), note);
      assert Weightless(Opening(env, r) + note) by { OpeningVolume(env, r); }
      PlaysVolume(env, w, rejected, Opening(env, r) + note);
      QuietObserve(env, started, Rejected(q));
      QuietRest(env, started, rejected);
      QuietReplay(env, started, rejected);
      SupplyIsRetained(env, rejected);
    } else {
      var (executed, ids, ok) := Executed(env, started, r);
      PreparationPlays(env, w, r);
      PreparationVolume(env, r, w.nodes);
      PlaysVolume(env, w, executed, Preparation(env, r, w.nodes));
      ReachesVerdict(env, w, r);
      RecordedBefore(env, w, r);
      QuietRest(env, w, executed);
      QuietReplay(env, w, executed);
      RunAssigned(env, w, r);
      if ok {
        DecidedPlays(env, executed, r, ids);
        PlaysTransitive(env, w, executed, RunProcess(env, w, r).0, Preparation(env, r, w.nodes), Sequel(env, w, r));
        SameSequel(env, w, executed, r);
        GateOpens(env, w, r);
        DecidedAnswer(env, executed, r, ids);
      }
    }
  }

  lemma OpeningVolume(env: Env, r: Request)
    ensures Weightless(Opening(env, r) + [Saw("anomaly_detected", "processing", env.describe(Rejected(r.processId)))])
  {
  }

  lemma RunAssigned(env: Env, w: World, r: Request)
    requires AllWell(w.nodes)
    ensures Executed(env, Initiate(env, w, r), r).1 == AssignedTo(r, w.nodes)
  {
    hide Initiate, Resolve, RecordStages, RecordAssignment, WorkAll, AssignedTo, CountsOf, AllWell;
    ResolvedTo(env, w, r);
    ExecutedIds(env, Initiate(env, w, r), r);
  }

  lemma SameSequel(env: Env, w: World, w': World, r: Request)
    ensures w'.verdicts == w.verdicts && w'.pools == w.pools ==>
              Sequel(env, w', r) == Sequel(env, w, r)
                  && StandsPositive(w', r.processId) == StandsPositive(w, r.processId)
  {
    hide Ruling, Announcement, Production, Closing, Refusing;
  }

  /** The rest of the answer, by the verdict. */
  lemma DecidedAnswer(env: Env, w: World, r: Request, ids: seq<string>)
    requires Sound(env, w) && forall e :: e in REQUIRED ==> e in EventsOf(w.captured, r.processId)
    ensures r.processId in Judge(env, w, r.processId).verdicts
    ensures var outcome, positive := Decided(env, Judge(env, w, r.processId), r, ids).1, StandsPositive(w, r.processId);
            && outcome.Completed?
            && var result := outcome.result;
               result == RunResult(r.processId, positive, if positive then None else Some(Unverified),
                                   if positive then r.amount else 0.0, if positive then r.amount / 200.0 else 0.0,
                                   result.supplyAfter, result.reserveIndex, ids,
                                   if positive then WORKED_AND_JUDGED
                                     + [EmissionMinted, EmissionRecorded, EmissionBurned, FinalStatus]
                                   else WORKED_AND_JUDGED + [FinalStatus])
  {
    hide Sound, Quiet, Judge, Verify, Produce, CloseStage, Refuse, Volume;
    VerdictIs(env, w, r.processId);
    JudgeEffect(env, w, r.processId);
    SoundJudge(env, w, r.processId);
    QuietReplay(env, Verify(env, w, r.processId), Judge(env, w, r.processId));
    JudgedStands(Judge(env, w, r.processId), r.processId);
  }

  // ----- finalizing -----

  /** A receipt for every payment, with the weight the node has. */
  function ReceiptItems(nodes: seq<Node>, payments: seq<DistributionEntry>): seq<Item>
  {
    seq(|payments|, i requires 0 <= i < |payments| =>
      Rec(NodePaymentReceived,
          PaymentRecord(payments[i].nodeId, payments[i].amount, PresentWeight(nodes, payments[i].nodeId))))
  }

  /** A closing epoch: receipts, the reserve's share, a tick for the row, and the closing record. */
  function Payout(nodes: seq<Node>, result: FinalizeResult): seq<Item>
    requires result.distributionLog != []
  {
    ReceiptItems(nodes, result.distributionLog[..|result.distributionLog| - 1])
    + ([Rec(AfcAccrual, AfcRecord(result.operationalMargin)), Tock]
       + [Rec(EpochFinalized, EpochRecord(result.epochNumber, result.totalFees, result.operationalMargin, result.paid,
                                          result.reconciled, result.distributionLog))])
  }

  lemma {:induction false} ReceiptsPlay(env: Env, w: World, nodes: seq<Node>, payments: seq<DistributionEntry>)
    requires forall e :: e in payments ==> Registered(nodes, e.nodeId)
    ensures Plays(env, w, w.(journal := Receipts(env, w.journal, nodes, payments)), ReceiptItems(nodes, payments))
  {
    hide Plays, NextSnapshot, Registered;
    if payments == [] {
      PlaysNothing(env, w, w);
    } else {
      var front, last := payments[..|payments| - 1], payments[|payments| - 1];
      var before, after := w.(journal := Receipts(env, w.journal, nodes, front)),
          w.(journal := Receipts(env, w.journal, nodes, payments));
      var item := Rec(NodePaymentReceived, PaymentRecord(last.nodeId, last.amount, PresentWeight(nodes, last.nodeId)));
      ReceiptsPlay(env, w, nodes, front);
      RecPlays(env, before, after, item);
      PlaysTransitive(env, w, before, after, ReceiptItems(nodes, front), [item]);
      assert ReceiptItems(nodes, payments) == ReceiptItems(nodes, front) + [item];
    }
  }

  lemma RecPlays(env: Env, w: World, w': World, item: Item)
    ensures item.Rec? && w'.journal == Log(env, w.journal, item.eventType, item.payload) && w'.eye == w.eye ==>
              Plays(env, w, w', [item])
  {
    hide Play, NextSnapshot;
    PlayOne(env, w.journal, w.eye, item);
  }

  lemma TockPlays(env: Env, w: World, w': World)
    ensures w'.journal == Tick(w.journal) && w'.eye == w.eye ==> Plays(env, w, w', [Tock])
  {
    hide Play;
    PlayOne(env, w.journal, w.eye, Tock);
  }

  /** What closing an epoch logs, by the split of its pool. */
  lemma PayoutPlays(env: Env, w: World, ws: Weights, n: int)
    requires HasEpoch(w.pools.epochs, n) && Payees(ws, w.nodes)
    ensures var f := Finalize(env, w.journal, w.coin, w.pools, w.nodes, ws, n);
            && f.result.distributionLog != []
            && Plays(env, w, w.(journal := f.journal), Payout(w.nodes, f.result))
  {
    hide Plays, Finalize, SplitPool, Receipts, Abs, Registered, NextSnapshot, ReceiptItems;
    var f := Finalize(env, w.journal, w.coin, w.pools, w.nodes, ws, n);
    var total := EpochRow(w.pools.epochs, n).totalFees;
    var split := SplitPool(ws, total);
    RecordedEvidence.SettledLog(env, w, ws, n);
    FinalizeFigures(env, w, ws, n);
    assert f.result.distributionLog[..|split.payments|] == split.payments;
    var paidOut := w.(journal := Receipts(env, w.journal, w.nodes, split.payments));
    var accrued := w.(journal := Log(env, paidOut.journal, AfcAccrual, AfcRecord(split.margin)));
    var stamped := w.(journal := Tick(accrued.journal));
    var closed := w.(journal := f.journal);
    var receipts := ReceiptItems(w.nodes, split.payments);
    var share, closing := Rec(AfcAccrual, AfcRecord(split.margin)), Rec(EpochFinalized, ClosingRecord(n, total, split));
    ReceiptsPlay(env, w, w.nodes, split.payments);
    RecPlays(env, paidOut, accrued, share);
    TockPlays(env, accrued, stamped);
    RecPlays(env, stamped, closed, closing);
    PlaysTransitive(env, paidOut, accrued, stamped, [share], [Tock]);
    assert [share] + [Tock] == [share, Tock];
    PlaysTransitive(env, paidOut, stamped, closed, [share, Tock], [closing]);
    PlaysTransitive(env, w, paidOut, closed, receipts, [share, Tock] + [closing]);
  }

  /** Finalizing: the payout if the epoch is open, then one note; nothing at all if it is refused. */
  ghost function FinalizeScript(env: Env, w: World, n: int): seq<Item>
  {
    var outcome := FinalizeEpoch(env, w, n).1;
    if !outcome.Done? then []
    else
      var r := outcome.result;
      (if Closable(w, n) && r.distributionLog != [] then Payout(w.nodes, r) else [])
      + [Saw("commission_distribution", "token_management",
             env.describe(Distributed(n, r.paid, r.operationalMargin, r.reconciled)))]
  }

  lemma SettlePlays(env: Env, w: World, n: int)
    ensures var (w', outcome) := SettleEpoch(env, w, n);
            if outcome.Done? && Closable(w, n) then
              outcome.result.distributionLog != [] && Plays(env, w, w', Payout(w.nodes, outcome.result))
            else w' == w
  {
    hide Plays, Finalize, Weigh, ToResult, AllRegistered, Payout;
    var parts := PartsOf(w.pools.participation, n);
    PlaysNothing(env, w, w);
    WeighRight(parts, w.verdicts, w.nodes);
    if HasEpoch(w.pools.epochs, n) && EpochRow(w.pools.epochs, n).status == Open
        && Weigh(parts, w.verdicts, w.nodes).Some? {
      var ws := Weigh(parts, w.verdicts, w.nodes).value;
      WeighedArePayees(parts, w.verdicts, w.nodes);
      PayoutPlays(env, w, ws, n);
      SamePlays(env, w, w.(journal := Finalize(env, w.journal, w.coin, w.pools, w.nodes, ws, n).journal),
                SettleEpoch(env, w, n).0);
    }
  }

  lemma FinalizePlays(env: Env, w: World, n: int)
    requires Sound(env, w) && AtRest(w)
    ensures Plays(env, w, FinalizeEpoch(env, w, n).0, FinalizeScript(env, w, n))
  {
    hide Plays, Sound, AtRest, Quiet, SettleEpoch, Observe, CompareSupply, Replay, Payout, Closable;
    var (settled, outcome) := SettleEpoch(env, w, n);
    SettlePlays(env, w, n);
    PlaysNothing(env, w, w);
    SoundSettle(env, w, n);
    SettlesOrNot(env, w, n);
    if outcome.Done? {
      var r := outcome.result;
      var note := Distributed(n, r.paid, r.operationalMargin, r.reconciled);
      var announced := Announced(env, settled, n, r);
      assert AtRest(settled) by { RestKept(w, settled); }
      QuietObserve(env, settled, note);
      QuietRest(env, settled, announced);
      OversightAudit.NothingToReport(env, announced);
      ObservePlays(env, settled, note);
      var items := if Closable(w, n) then Payout(w.nodes, r) else [];
      PlaysTransitive(env, w, settled, announced, items,
                      [Saw("commission_distribution", "token_management", env.describe(note))]);
    }
  }

  lemma SettlesOrNot(env: Env, w: World, n: int)
    ensures !SettleEpoch(env, w, n).1.Done? ==> SettleEpoch(env, w, n).0 == w
  {
    hide Finalize, Weigh, ToResult;
  }

  lemma RestKept(w: World, w': World)
    ensures AtRest(w) && Replay(w'.journal.chain).pairing == Replay(w.journal.chain).pairing ==> AtRest(w')
  {
    hide Replay;
  }

  // ----- the other calls -----

  /** The required events a process lacks, in the order they are required. */
  function Lacking(have: set<EventType>): seq<EventType>
  {
    (if Initiation in have then [] else [Initiation]) + (if TaskAssignment in have then [] else [TaskAssignment])
    + (if StageTransition in have then [] else [StageTransition])
    + (if ExecutionComplete in have then [] else [ExecutionComplete])
  }

  lemma MissingInOrder(have: set<EventType>)
    ensures Missing(have) == Lacking(have)
  {
    var none, one, two, three := REQUIRED[..0], REQUIRED[..1], REQUIRED[..2], REQUIRED[..3];
    assert three[..2] == two && two[..1] == one && one[..0] == none && REQUIRED[..|REQUIRED| - 1] == three;
    assert Missing(have, none) == [];
    assert Missing(have, one) == if Initiation in have then [] else [Initiation];
    assert Missing(have, two) == Missing(have, one) + (if TaskAssignment in have then [] else [TaskAssignment]);
    assert Missing(have, three) == Missing(have, two) + (if StageTransition in have then [] else [StageTransition]);
  }

  /** Why a verdict is negative: each event that lacks, in order, and a broken chain if anything was captured. */
  function Reasons(chainOk: bool, have: set<EventType>): seq<Reason>
  {
    seq(|Lacking(have)|, i requires 0 <= i < |Lacking(have)| => MissingEvent(Lacking(have)[i]))
    + (if !chainOk && have != {} then [StatesNotRecorded] else [])
  }

  lemma {:induction false} ReasonsInOrder(missing: seq<EventType>)
    ensures MissingReasons(missing) ==
              seq(|missing|, i requires 0 <= i < |missing| => MissingEvent(missing[i]))
  {
    if missing != [] { ReasonsInOrder(missing[..|missing| - 1]); }
  }

  /** The reasons of a verdict are exactly these, in this order. */
  lemma ReasonsAre(chainOk: bool, have: set<EventType>)
    ensures FailureReasons(chainOk, have) == Reasons(chainOk, have)
  {
    hide Lacking;
    MissingInOrder(have);
    ReasonsInOrder(Missing(have));
  }

  /** The items of a call, from the state before it. */
  ghost function Script(env: Env, w: World, c: Call): seq<Item>
  {
    match c
    case Run(r) => RunScript(env, w, r)
    case FinalizeCall(n) => FinalizeScript(env, w, n)
    case RegisterNode(id, kind) => [Rec(NodeRegistered, NodeRecord(id, kind, 1.0, 1.0, 1.0))]
    case Activate(threshold, target, volume) =>
      if w.phase.active || !Mature(env, w, threshold, target, volume) then []
      else
        [Tock, Rec(ReleaseActivated, ReleaseRecord(IndexAfter(env, w, 0.0), Turnover(w, volume), threshold, target))]
    case Audit => []
    case CaptureEvent(p, e, data) => [Rec(e, Captured(p, JsObject.SortKeys(data), None))]
    case VerifyProcess(p) =>
      var have := EventsOf(w.captured, p);
      Ruling(p, Lacking(have) == [], Reasons(true, have), p in w.verdicts)
    case EmitProcess(p, amount) =>
      if Confirmed(w.verdicts, p) then
        [Rec(EmissionMinted, MintRecord(p, amount)), Rec(EmissionBurned, BurnRecord(p, amount))]
      else []
    case AccrueFee(n, _, _) => if HasEpoch(w.pools.epochs, n) then [] else [Tock]
    case Execution(_, _) => []
  }

  function Turnover(w: World, processVolume24h: real): real
  {
    if w.coin.earnedRetained > 0.0 then processVolume24h / w.coin.earnedRetained else 0.0
  }

  lemma ActivatePlays(env: Env, w: World, threshold: real, target: real, volume: real)
    requires Sound(env, w) && AtRest(w)
    ensures Plays(env, w, ActivateRelease(env, w, threshold, target, volume),
                  Script(env, w, Activate(threshold, target, volume)))
  {
    hide Plays, Sound, AtRest, Volume, Mature, ConfirmedVolume, NextSnapshot;
    var check := Check(env, w.journal.chain, w.coin, threshold, target, volume);
    var w' := ActivateRelease(env, w, threshold, target, volume);
    CheckIs(env, w, threshold, target, volume);
    SupplyIsRetained(env, w);
    PlaysNothing(env, w, w);
    if !w.phase.active && check.mature {
      var stamped := w.(journal := Tick(w.journal));
      var item := Rec(ReleaseActivated, ReleaseRecord(check.reserveIndex, check.velocity, threshold, target));
      TockPlays(env, w, stamped);
      RecPlays(env, stamped, w', item);
      PlaysTransitive(env, w, stamped, w', [Tock], [item]);
      assert [Tock] + [item] == [Tock, item];
    }
  }

  lemma VerifyPlays(env: Env, w: World, p: string)
    requires Sound(env, w)
    ensures Plays(env, w, Verify(env, w, p), Script(env, w, VerifyProcess(p)))
  {
    hide Plays, Sound, Verify, Evidence, FailureReasons, Missing, Lacking, Reasons, Chained;
    var have := EventsOf(w.captured, p);
    SoundParts(env, w);
    RulingPlays(env, w, p);
    ReasonsAre(true, have);
    EvidenceIffNoReason(true, have);
    assert Reasons(true, have) == [] <==> Lacking(have) == [] by { NoReason(have); }
  }

  lemma NoReason(have: set<EventType>)
    ensures Reasons(true, have) == [] <==> Lacking(have) == []
  {
    hide Lacking;
  }

  lemma EmitPlays(env: Env, w: World, p: string, amount: real)
    ensures Plays(env, w, Emit(env, w, p, amount), Script(env, w, EmitProcess(p, amount)))
  {
    hide Plays, Mint, Burn;
    PlaysNothing(env, w, w);
    var minted := Mint(env, w, p, amount);
    MintPlays(env, w, p, amount);
    MintPlays(env, minted, p, amount);
    var a, b := [Rec(EmissionMinted, MintRecord(p, amount))], [Rec(EmissionBurned, BurnRecord(p, amount))];
    PlaysTransitive(env, w, minted, Burn(env, minted, p, amount), a, b);
    assert a + b == [a[0], b[0]];
  }

  /** Every call, in every reachable state, leaves exactly its transcript. */
  lemma CallPlays(env: Env, w: World, c: Call)
    requires Sound(env, w) && AtRest(w) && c.Valid()
    ensures Plays(env, w, Exec(env, w, c), Script(env, w, c))
  {
    hide Plays, Sound, AtRest, RunProcess, FinalizeEpoch, ActivateRelease, AuditChain, Verify, Emit, Admit, Capture,
         Accrue, Employed, RunScript, FinalizeScript, Reasons, Lacking, Mature, JsObject.SortKeys;
    PlaysNothing(env, w, Exec(env, w, c));
    match c {
      case Run(r) => RunPlays(env, w, r);
      case FinalizeCall(n) => FinalizePlays(env, w, n);
      case RegisterNode(id, kind) => AdmitPlays(env, w, id, kind);
      case Activate(threshold, target, volume) => ActivatePlays(env, w, threshold, target, volume);
      case Audit => OversightAudit.NothingToReport(env, w);
      case CaptureEvent(p, e, data) => CapturePlays(env, w, p, e, JsObject.SortKeys(data));
      case VerifyProcess(p) => VerifyPlays(env, w, p);
      case EmitProcess(p, amount) => EmitPlays(env, w, p, amount);
      case AccrueFee(n, fee, parts) => AccruePlays(env, w, n, fee, parts);
      case Execution(id, success) =>
    }
  }

  // ----- every run -----

  /** The transcripts of the first `i` calls of a run, one after the other. */
  ghost function Transcript(env: Env, calls: seq<Call>, states: seq<World>, i: nat): seq<Item>
    requires i <= |calls| < |states|
  {
    if i == 0 then [] else Transcript(env, calls, states, i - 1) + Script(env, states[i - 1], calls[i - 1])
  }

  /**
   * Log and oversight ledger of every reachable state are the transcript of the calls so far, played from the
   * start.
   */
  lemma {:induction false} RunIsTranscript(env: Env, watched: bool, calls: seq<Call>, states: seq<World>, i: nat)
    requires AllValid(calls) && IsRun(env, watched, calls, states) && i <= |calls|
    ensures Plays(env, Genesis(watched), states[i], Transcript(env, calls, states, i))
  {
    hide Sound, AtRest, Exec, Plays, Script;
    if i == 0 {
      PlaysNothing(env, Genesis(watched), states[0]);
    } else {
      RunIsTranscript(env, watched, calls, states, i - 1);
      Reachable(env, watched, calls, states, i - 1);
      CallPlays(env, states[i - 1], calls[i - 1]);
      PlaysTransitive(env, Genesis(watched), states[i - 1], states[i], Transcript(env, calls, states, i - 1),
                      Script(env, states[i - 1], calls[i - 1]));
    }
  }
}
