/** The order of time: every tick stamps one thing at most, and stamps only grow. */
module Timeline {
  import opened Folds
  import opened Events
  import opened Clock
  import opened NodeChain
  import opened Pot
  import opened Nodes
  import opened Reserve
  import opened Settlement
  import opened Commission
  import opened AllSeeingEye
  import opened Lifecycle
  import opened EventSourcing
  import opened Soundness
  import opened CallInvariants
  import opened RunEffects
  import opened Progress
  import opened Transcripts
  import opened CallTranscripts
  import opened FeeFlow
  import RecordedEvidence
  import JsObject
  import StateRecording

  function ChainStamps(c: Chain): seq<int> { seq(|c|, i requires 0 <= i < |c| => c[i].timestamp) }

  function EyeStamps(log: Oversight): seq<int> { seq(|log|, i requires 0 <= i < |log| => log[i].timestamp) }

  function SeenStamps(eye: Option<Oversight>): seq<int> { if eye.None? then [] else EyeStamps(eye.value) }

  /** Strictly ascending stamps, after the start of the clock and up to now. */
  ghost predicate Ascending(stamps: seq<int>, now: int)
  {
    && (forall i :: 0 <= i < |stamps| ==> EPOCH_START < stamps[i] <= now)
    && forall i, j :: 0 <= i < j < |stamps| ==> stamps[i] < stamps[j]
  }

  /** No tick stamps two things. */
  ghost predicate Disjoint(a: seq<int>, b: seq<int>) { forall s :: s in a ==> s !in b }

  ghost predicate Timely(j: Journal, eye: Option<Oversight>)
  {
    && EPOCH_START <= j.tick
    && Ascending(ChainStamps(j.chain), j.tick) && Ascending(SeenStamps(eye), j.tick)
    && Disjoint(ChainStamps(j.chain), SeenStamps(eye))
  }

  lemma AscendingSnoc(stamps: seq<int>, now: int)
    requires Ascending(stamps, now) && EPOCH_START <= now
    ensures Ascending(stamps, now + 1) && Ascending(stamps + [now + 1], now + 1)
    ensures now + 1 !in stamps
  {
  }

  lemma PerformTimely(env: Env, j: Journal, eye: Option<Oversight>, item: Item)
    requires Timely(j, eye)
    ensures var next := Perform(env, j, eye, item); Timely(next.0, next.1) && next.0.tick <= j.tick + 1
  {
    AscendingSnoc(ChainStamps(j.chain), j.tick);
    AscendingSnoc(SeenStamps(eye), j.tick);
    var next := Perform(env, j, eye, item);
    if item.Rec? {
      assert ChainStamps(next.0.chain) == ChainStamps(j.chain) + [j.tick + 1];
    } else if item.Saw? && eye.Some? {
      assert SeenStamps(next.1) == SeenStamps(eye) + [j.tick + 1];
    }
  }

  lemma {:induction false} PlayTimely(env: Env, j: Journal, eye: Option<Oversight>, items: seq<Item>)
    requires Timely(j, eye)
    ensures var next := Play(env, j, eye, items); Timely(next.0, next.1)
  {
    hide Perform, Timely;
    if items != [] {
      var front := items[..|items| - 1];
      PlayTimely(env, j, eye, front);
      var before := Play(env, j, eye, front);
      PerformTimely(env, before.0, before.1, items[|items| - 1]);
    }
  }

  /**
   * In every state of every run the records of the log carry strictly ascending timestamps, so do the entries of
   * the Eye, none later than now, and no two of all these stamps are equal.
   */
  lemma StampsAscend(env: Env, watched: bool, calls: seq<Call>, states: seq<World>, i: nat)
    requires AllValid(calls) && IsRun(env, watched, calls, states) && i <= |calls|
    ensures Timely(states[i].journal, states[i].eye)
  {
    hide Exec, Play, Transcript, Timely;
    RunIsTranscript(env, watched, calls, states, i);
    assert Timely(Genesis(watched).journal, Genesis(watched).eye) by { StartsTimely(watched); }
    PlayTimely(env, Genesis(watched).journal, Genesis(watched).eye, Transcript(env, calls, states, i));
  }

  lemma StartsTimely(watched: bool)
    ensures Timely(Genesis(watched).journal, Genesis(watched).eye)
  {
  }

  // ----- the log and the oversight ledger, line by line -----

  /** A record without its hashes, and an entry without its. */
  datatype Line = Line(sequenceId: int, eventType: EventType, payload: Payload, timestamp: int)

  datatype Sighting = Sighting(id: int, event: string, layer: string, description: string, timestamp: int)

  /** Every item takes one tick; what would be seen takes none where nobody watches. */
  function Ticks(items: seq<Item>, watched: bool): nat
  {
    if items == [] then 0
    else Ticks(items[..|items| - 1], watched) + (if items[|items| - 1].Saw? && !watched then 0 else 1)
  }

  /** The records of a transcript: numbered from 1, each stamped with its tick. */
  function Lines(items: seq<Item>, watched: bool): seq<Line>
  {
    if items == [] then []
    else
      var front, last := Lines(items[..|items| - 1], watched), items[|items| - 1];
      if !last.Rec? then front
      else front + [Line(|front| + 1, last.eventType, last.payload, EPOCH_START + Ticks(items, watched))]
  }

  /** What a watcher of a transcript has seen, numbered and stamped alike. */
  function Sightings(items: seq<Item>): seq<Sighting>
  {
    if items == [] then []
    else
      var front, last := Sightings(items[..|items| - 1]), items[|items| - 1];
      if !last.Saw? then front
      else
        front + [Sighting(|front| + 1, last.event, last.layer, last.description, EPOCH_START + Ticks(items, true))]
  }

  function ReadLog(c: Chain): seq<Line>
  {
    seq(|c|, i requires 0 <= i < |c| => Line(c[i].sequenceId, c[i].eventType, c[i].payload, c[i].timestamp))
  }

  function ReadEye(log: Oversight): seq<Sighting>
  {
    seq(|log|, i requires 0 <= i < |log| =>
      Sighting(log[i].id, log[i].eventType, log[i].layer, log[i].description, log[i].timestamp))
  }

  ghost predicate Reads(j: Journal, eye: Option<Oversight>, items: seq<Item>)
  {
    && ReadLog(j.chain) == Lines(items, eye.Some?)
    && (eye.Some? ==> ReadEye(eye.value) == Sightings(items))
    && j.tick == EPOCH_START + Ticks(items, eye.Some?)
  }

  lemma PerformReads(env: Env, j: Journal, eye: Option<Oversight>, items: seq<Item>, item: Item)
    requires Reads(j, eye, items)
    ensures var next := Perform(env, j, eye, item); next.1.Some? == eye.Some? && Reads(next.0, next.1, items + [item])
  {
    var next, longer := Perform(env, j, eye, item), items + [item];
    assert longer[..|longer| - 1] == items;
    assert |ReadLog(j.chain)| == |j.chain|;
    if item.Rec? {
      if j.chain != [] { assert j.chain[|j.chain| - 1].sequenceId == ReadLog(j.chain)[|j.chain| - 1].sequenceId; }
      LastLine(items, eye.Some?);
      assert ReadLog(next.0.chain) ==
             ReadLog(j.chain) + [Line(|j.chain| + 1, item.eventType, item.payload, j.tick + 1)];
    } else if item.Saw? && eye.Some? {
      var log := eye.value;
      assert |ReadEye(log)| == |log|;
      if log != [] { assert log[|log| - 1].id == ReadEye(log)[|log| - 1].id; }
      LastSighting(items);
      assert ReadEye(next.1.value) ==
             ReadEye(log) + [Sighting(|log| + 1, item.event, item.layer, item.description, j.tick + 1)];
    }
  }

  lemma {:induction false} LastLine(items: seq<Item>, watched: bool)
    ensures var lines := Lines(items, watched); lines != [] ==> lines[|lines| - 1].sequenceId == |lines|
  {
    if items != [] { LastLine(items[..|items| - 1], watched); }
  }

  lemma {:induction false} LastSighting(items: seq<Item>)
    ensures var seen := Sightings(items); seen != [] ==> seen[|seen| - 1].id == |seen|
  {
    if items != [] { LastSighting(items[..|items| - 1]); }
  }

  lemma {:induction false} PlayReads(env: Env, watched: bool, items: seq<Item>)
    ensures var next := Play(env, Genesis(watched).journal, Genesis(watched).eye, items);
            next.1.Some? == watched && Reads(next.0, next.1, items)
  {
    hide Perform, Reads;
    if items == [] {
      assert Reads(Genesis(watched).journal, Genesis(watched).eye, []) by { NothingRead(watched); }
    } else {
      var front := items[..|items| - 1];
      PlayReads(env, watched, front);
      var before := Play(env, Genesis(watched).journal, Genesis(watched).eye, front);
      PerformReads(env, before.0, before.1, front, items[|items| - 1]);
      assert front + [items[|items| - 1]] == items;
    }
  }

  lemma NothingRead(watched: bool)
    ensures Reads(Genesis(watched).journal, Genesis(watched).eye, [])
  {
  }

  /**
   * In every state of every run the log and the oversight ledger read, line by line, as the transcripts of the
   * calls say: what was recorded and what was seen, both numbered from 1, each with the tick it took.
   */
  lemma LogIsTranscript(env: Env, watched: bool, calls: seq<Call>, states: seq<World>, i: nat)
    requires AllValid(calls) && IsRun(env, watched, calls, states) && i <= |calls|
    ensures states[i].eye.Some? == watched
    ensures Reads(states[i].journal, states[i].eye, Transcript(env, calls, states, i))
  {
    hide Exec, Play, Transcript, Reads;
    RunIsTranscript(env, watched, calls, states, i);
    PlayReads(env, watched, Transcript(env, calls, states, i));
  }

  // ----- the stamps of epoch rows -----

  /** An epoch starts at a tick of the clock, and ends at a later one when it is closed. */
  ghost predicate RowTimely(e: Epoch, now: int)
  {
    && EPOCH_START < e.startTime <= now
    && if e.status == Open then e.endTime == 0 else e.startTime < e.endTime <= now
  }

  ghost predicate RowsTimely(epochs: seq<Epoch>, now: int) { forall e :: e in epochs ==> RowTimely(e, now) }

  ghost predicate KeepsRows(w: World, w': World)
  {
    EPOCH_START <= w.journal.tick && UniqueEpochs(w.pools.epochs) && RowsTimely(w.pools.epochs, w.journal.tick) ==>
      RowsTimely(w'.pools.epochs, w'.journal.tick)
  }

  lemma LaterKeepsRows(w: World, w': World)
    ensures w'.pools == w.pools && w.journal.tick <= w'.journal.tick ==> KeepsRows(w, w')
  {
  }

  lemma AccrueKeepsRows(w: World, n: int, fee: real, parts: seq<Participation>)
    ensures KeepsRows(w, Accrue(w, n, fee, parts))
  {
    hide SavedEpoch;
    var row := RowFor(w.pools, w.journal.tick, n);
    if UniqueEpochs(w.pools.epochs) { SavedEpochRows(w.pools.epochs, row.(totalFees := row.totalFees + fee)); }
  }

  lemma FinalizeTicks(env: Env, w: World, ws: Weights, n: int)
    requires HasEpoch(w.pools.epochs, n) && Payees(ws, w.nodes)
    ensures var f := Finalize(env, w.journal, w.coin, w.pools, w.nodes, ws, n);
            f.journal.tick > EpochEnd(f, n) > w.journal.tick
  {
    hide NextSnapshot, SavedEpoch, Distribution, Receipts, Abs, Registered;
    PayeesRegistered(ws, w.nodes, EpochRow(w.pools.epochs, n).totalFees);
    ReceiptsTick(env, w.journal, w.nodes, SplitPool(ws, EpochRow(w.pools.epochs, n).totalFees).payments);
  }

  lemma {:induction false} ReceiptsTick(env: Env, j: Journal, nodes: seq<Node>, payments: seq<DistributionEntry>)
    requires forall e :: e in payments ==> Registered(nodes, e.nodeId)
    ensures Receipts(env, j, nodes, payments).tick == j.tick + |payments|
  {
    hide NextSnapshot, Registered;
    if payments != [] { ReceiptsTick(env, j, nodes, payments[..|payments| - 1]); }
  }

  lemma SettleKeepsRows(env: Env, w: World, n: int)
    ensures KeepsRows(w, SettleEpoch(env, w, n).0) && w.journal.tick <= SettleEpoch(env, w, n).0.journal.tick
  {
    hide Finalize, Weigh, ToResult, SavedEpoch, SplitPool, UniqueEpochs;
    var parts := PartsOf(w.pools.participation, n);
    if HasEpoch(w.pools.epochs, n) && EpochRow(w.pools.epochs, n).status == Open
        && Weigh(parts, w.verdicts, w.nodes).Some? {
      var ws := Weigh(parts, w.verdicts, w.nodes).value;
      WeighedArePayees(parts, w.verdicts, w.nodes);
      var e := EpochRow(w.pools.epochs, n);
      var f := Finalize(env, w.journal, w.coin, w.pools, w.nodes, ws, n);
      var split := SplitPool(ws, e.totalFees);
      FinalizeRow(env, w.journal, w.coin, w.pools, w.nodes, ws, n);
      FinalizeTicks(env, w, ws, n);
      if UniqueEpochs(w.pools.epochs) {
        SavedEpochRows(w.pools.epochs,
          e.(distributionLog := split.Entries(), operationalMargin := split.margin, status := Finalized,
             endTime := EpochEnd(f, n)));
      }
    }
  }

  lemma FinalizeKeepsRows(env: Env, w: World, n: int)
    ensures KeepsRows(w, FinalizeEpoch(env, w, n).0)
  {
    hide SettleEpoch, Observe, CompareSupply, RowsTimely, UniqueEpochs;
    SettleKeepsRows(env, w, n);
    var (settled, outcome) := SettleEpoch(env, w, n);
    if outcome.Done? {
      var r := outcome.result;
      var announced := Announced(env, settled, n, r);
      ObserveOnlyWatches(env, settled, Distributed(n, r.paid, r.operationalMargin, r.reconciled));
      CompareOnlyWatches(env, announced);
      ObserveTicks(env, settled, Distributed(n, r.paid, r.operationalMargin, r.reconciled));
      CompareTicks(env, announced);
      LaterRows(settled.pools.epochs, settled.journal.tick, CompareSupply(env, announced).journal.tick);
    }
  }

  lemma LaterRows(epochs: seq<Epoch>, now: int, later: int)
    ensures RowsTimely(epochs, now) && now <= later ==> RowsTimely(epochs, later)
  {
  }

  lemma ObserveTicks(env: Env, w: World, note: Note)
    ensures w.journal.tick <= Observe(env, w, note).journal.tick
  {
  }

  lemma CompareTicks(env: Env, w: World)
    ensures w.journal.tick <= CompareSupply(env, w).journal.tick
  {
  }

  lemma {:induction false} PlayTicks(env: Env, j: Journal, eye: Option<Oversight>, items: seq<Item>)
    ensures j.tick <= Play(env, j, eye, items).0.tick
  {
    hide NextSnapshot, NextEntry;
    if items != [] { PlayTicks(env, j, eye, items[..|items| - 1]); }
  }

  lemma CallTicks(env: Env, w: World, c: Call)
    requires Sound(env, w) && AtRest(w) && c.Valid()
    ensures w.journal.tick <= Exec(env, w, c).journal.tick
  {
    hide Sound, AtRest, Exec, Play, Script;
    CallPlays(env, w, c);
    PlayTicks(env, w.journal, w.eye, Script(env, w, c));
  }

  lemma PlaysTicks(env: Env, w: World, w': World, items: seq<Item>)
    ensures Plays(env, w, w', items) ==> w.journal.tick <= w'.journal.tick
  {
    hide Play;
    PlayTicks(env, w.journal, w.eye, items);
  }

  lemma RowsTransitive(a: World, b: World, c: World)
    requires KeepsRows(a, b) && KeepsRows(b, c) && a.journal.tick <= b.journal.tick
    requires UniqueEpochs(a.pools.epochs) ==> UniqueEpochs(b.pools.epochs)
    ensures KeepsRows(a, c)
  {
    hide RowsTimely, UniqueEpochs;
  }

  lemma ProduceKeepsRows(env: Env, w: World, q: string, amount: real, epoch: int, ids: seq<string>)
    requires UniqueEpochs(w.pools.epochs)
    ensures KeepsRows(w, Produce(env, w, q, amount, epoch, ids))
  {
    hide Plays, MintStage, BurnStage, Accrue, ComputeFee, UniqueEpochs, KeepsRows;
    var minted := MintStage(env, w, q, amount);
    var accrued := Accrue(minted, epoch, ComputeFee(amount), PartsFor(q, ids));
    var produced := Produce(env, w, q, amount, epoch, ids);
    StageEffects(env, w, q, amount);
    MintStagePlays(env, w, q, amount);
    PlaysTicks(env, w, minted, [Rec(EmissionMinted, MintRecord(q, amount)),
      Rec(EmissionRecorded, Captured(q, JsObject.Single("minted", JsObject.Num(amount)), None)),
      Saw("mint", "token_management", env.describe(Minted(q, amount)))]);
    LaterKeepsRows(w, minted);
    AccrueKeepsRows(minted, epoch, ComputeFee(amount), PartsFor(q, ids));
    RowsTransitive(w, minted, accrued);
    StageEffects(env, accrued, q, amount);
    BurnStagePlays(env, accrued, q, amount);
    PlaysTicks(env, accrued, produced, [Rec(EmissionBurned, BurnRecord(q, amount)),
      Saw("burn", "token_management", env.describe(Burned(q, amount)))]);
    LaterKeepsRows(accrued, produced);
    AccruedUnique(minted, epoch, ComputeFee(amount), PartsFor(q, ids));
    RowsTransitive(w, accrued, produced);
  }

  lemma AccruedUnique(w: World, n: int, fee: real, parts: seq<Participation>)
    requires UniqueEpochs(w.pools.epochs)
    ensures UniqueEpochs(Accrue(w, n, fee, parts).pools.epochs)
              && w.journal.tick <= Accrue(w, n, fee, parts).journal.tick
  {
    hide SavedEpoch, UniqueEpochs;
    var row := RowFor(w.pools, w.journal.tick, n);
    SavedEpochRows(w.pools.epochs, row.(totalFees := row.totalFees + fee));
  }

  lemma DecidedKeepsRows(env: Env, w: World, r: Request, ids: seq<string>)
    requires Sound(env, w) && AtRest(w) && r.amount > 0.0
    requires forall e :: e in StateRecording.REQUIRED ==> e in StateRecording.EventsOf(w.captured, r.processId)
    ensures r.processId in Judge(env, w, r.processId).verdicts
    ensures KeepsRows(w, Decided(env, Judge(env, w, r.processId), r, ids).0)
  {
    hide Sound, AtRest, Quiet, Judge, Verify, Produce, CloseStage, Refuse, Volume, ComputeFee, Replay, Plays, Ruling,
         Announcement, Production, Closing, Refusing, Confirmed, FeeAccrued, KeepsRows, UniqueEpochs;
    var q, positive := r.processId, StandsPositive(w, r.processId);
    JudgeEffect(env, w, q);
    VerdictIs(env, w, q);
    SoundJudge(env, w, q);
    var judged := Judge(env, w, q);
    QuietReplay(env, Verify(env, w, q), judged);
    JudgedStands(judged, q);
    JudgePlays(env, w, q, positive);
    PlaysTicks(env, w, judged, Ruling(q, true, [], q in w.verdicts) + Announcement(env, q, positive));
    LaterKeepsRows(w, judged);
    SoundParts(env, judged);
    RestKept(w, judged);
    if positive {
      var produced := Produce(env, judged, q, r.amount, EpochOf(r), ids);
      var closed := CloseStage(env, produced, q);
      ProduceKeepsRows(env, judged, q, r.amount, EpochOf(r), ids);
      RowsTransitive(w, judged, produced);
      SoundProduce(env, judged, q, r.amount, EpochOf(r), ids);
      SoundParts(env, produced);
      ProductionPlays(env, judged, q, r.amount, EpochOf(r), ids);
      PlaysTicks(env, judged, produced, Production(env, q, r.amount, !HasEpoch(judged.pools.epochs, EpochOf(r))));
      ClosingPlays(env, produced, q);
      PlaysTicks(env, produced, closed, Closing(env, q));
      QuietClose(env, produced, q);
      QuietReplay(env, produced, closed);
      LaterKeepsRows(produced, closed);
      RowsTransitive(w, produced, closed);
    } else {
      var refused := Refuse(env, judged, q);
      RefusingPlays(env, judged, q);
      PlaysTicks(env, judged, refused, Refusing(q));
      QuietRefuse(env, judged, q);
      QuietReplay(env, judged, refused);
      LaterKeepsRows(judged, refused);
      RowsTransitive(w, judged, refused);
    }
  }

  lemma RunKeepsRows(env: Env, w: World, r: Request)
    requires Sound(env, w) && AtRest(w) && r.amount > 0.0
    ensures KeepsRows(w, RunProcess(env, w, r).0)
  {
    hide Sound, AtRest, Quiet, Initiate, Observe, Judge, Resolve, RecordStages, RecordAssignment, WorkAll, Decided,
         Volume, Plays, Opening, Preparation, StateRecording.EventsOf, AllWell, KeepsRows, UniqueEpochs;
    var started := Initiate(env, w, r);
    SoundParts(env, w);
    QuietInitiate(env, w, r);
    QuietReplay(env, w, started);
    if !r.admissible {
      var rejected := RunProcess(env, w, r).0;
      OpeningPlays(env, w, r);
      PlaysTicks(env, w, started, Opening(env, r));
      ObserveTicks(env, started, Rejected(r.processId));
      QuietObserve(env, started, Rejected(r.processId));
      QuietReplay(env, started, rejected);
      LaterKeepsRows(w, rejected);
    } else {
      var (executed, ids, ok) := Executed(env, started, r);
      PreparationPlays(env, w, r);
      PlaysTicks(env, w, executed, Preparation(env, r, w.nodes));
      RecordedBefore(env, w, r);
      QuietRest(env, w, executed);
      QuietReplay(env, w, executed);
      LaterKeepsRows(w, executed);
      if ok {
        DecidedKeepsRows(env, executed, r, ids);
        RowsTransitive(w, executed, RunProcess(env, w, r).0);
      }
    }
  }

  lemma OthersKeepPools(env: Env, w: World, c: Call)
    requires !c.Run? && !c.FinalizeCall? && !c.AccrueFee?
    ensures Exec(env, w, c).pools == w.pools
  {
    hide NextSnapshot, NextEntry, Volume, Intact, VerdictJournal, IssuedVerdict, Employed, Saved, JsObject.SortKeys;
  }

  lemma CallKeepsRows(env: Env, w: World, c: Call)
    requires Sound(env, w) && AtRest(w) && c.Valid()
    ensures KeepsRows(w, Exec(env, w, c))
  {
    hide Sound, AtRest, RunProcess, FinalizeEpoch, ActivateRelease, AuditChain, Verify, Emit, Admit, Capture, Accrue,
         Employed, KeepsRows, JsObject.SortKeys;
    match c {
      case Run(r) => RunKeepsRows(env, w, r);
      case FinalizeCall(n) => FinalizeKeepsRows(env, w, n);
      case AccrueFee(n, fee, parts) => AccrueKeepsRows(w, n, fee, parts);
      case _ =>
        OthersKeepPools(env, w, c);
        CallTicks(env, w, c);
        LaterKeepsRows(w, Exec(env, w, c));
    }
  }

  /**
   * In every state of every run an epoch row carries the tick it was opened at, and, once it is closed, the later
   * tick it was closed at; an open row carries none.
   */
  lemma {:induction false} RowsAreTimely(env: Env, watched: bool, calls: seq<Call>, states: seq<World>, i: nat)
    requires AllValid(calls) && IsRun(env, watched, calls, states) && i <= |calls|
    ensures RowsTimely(states[i].pools.epochs, states[i].journal.tick)
  {
    hide Sound, AtRest, Exec, RowsTimely, UniqueEpochs, Timely;
    if i == 0 {
      NoRows(watched);
    } else {
      RowsAreTimely(env, watched, calls, states, i - 1);
      Reachable(env, watched, calls, states, i - 1);
      SoundParts(env, states[i - 1]);
      StampsAscend(env, watched, calls, states, i - 1);
      TimelySince(states[i - 1].journal, states[i - 1].eye);
      CallKeepsRows(env, states[i - 1], calls[i - 1]);
    }
  }

  /** A closed row ends one tick before its closing record is written, which is the last record of the call. */
  lemma ClosingStamped(env: Env, w: World, n: int)
    requires UniqueEpochs(w.pools.epochs) && Closable(w, n)
    ensures var w' := FinalizeEpoch(env, w, n).0;
            && HasEpoch(w'.pools.epochs, n) && w'.journal.chain != []
            && var record := w'.journal.chain[|w'.journal.chain| - 1];
               record.eventType == EpochFinalized && record.timestamp == EpochRow(w'.pools.epochs, n).endTime + 1
  {
    hide SettleEpoch, Observe, CompareSupply, Closable, SavedEpoch;
    var (settled, outcome) := SettleEpoch(env, w, n);
    SettledStamped(env, w, n);
    var r := outcome.result;
    ObserveOnlyWatches(env, settled, Distributed(n, r.paid, r.operationalMargin, r.reconciled));
    CompareOnlyWatches(env, Announced(env, settled, n, r));
  }

  lemma SettledStamped(env: Env, w: World, n: int)
    requires UniqueEpochs(w.pools.epochs) && Closable(w, n)
    ensures var (w', outcome) := SettleEpoch(env, w, n);
            && outcome.Done?
            && HasEpoch(w'.pools.epochs, n) && w'.journal.chain != []
            && var record := w'.journal.chain[|w'.journal.chain| - 1];
               record.eventType == EpochFinalized && record.timestamp == EpochRow(w'.pools.epochs, n).endTime + 1
  {
    hide Finalize, Weigh, ToResult, SavedEpoch, SplitPool, UniqueEpochs, AllRegistered;
    var parts := PartsOf(w.pools.participation, n);
    WeighRight(parts, w.verdicts, w.nodes);
    var ws := Weigh(parts, w.verdicts, w.nodes).value;
    WeighedArePayees(parts, w.verdicts, w.nodes);
    var e := EpochRow(w.pools.epochs, n);
    var f := Finalize(env, w.journal, w.coin, w.pools, w.nodes, ws, n);
    var split := SplitPool(ws, e.totalFees);
    FinalizeRow(env, w.journal, w.coin, w.pools, w.nodes, ws, n);
    RecordedEvidence.SettledLog(env, w, ws, n);
    SavedEpochHas(w.pools.epochs,
      e.(distributionLog := split.Entries(), operationalMargin := split.margin, status := Finalized,
         endTime := EpochEnd(f, n)), n);
  }

  lemma NoRows(watched: bool)
    ensures RowsTimely(Genesis(watched).pools.epochs, Genesis(watched).journal.tick)
  {
  }

  lemma TimelySince(j: Journal, eye: Option<Oversight>)
    ensures Timely(j, eye) ==> EPOCH_START <= j.tick
  {
  }
}
