/**
 * Every call as a transcript: what it puts on the log and what the Eye notes, item by item in the order of the
 * clock, written out from the state before the call.
 */
module Transcripts {
  import opened Folds
  import opened Events
  import opened NodeChain
  import opened StateRecording
  import opened Pot
  import opened Nodes
  import opened Settlement
  import opened Commission
  import opened AllSeeingEye
  import opened Lifecycle
  import opened Soundness
  import opened CallInvariants
  import opened RunEffects
  import opened Progress
  import opened WorkCounts
  import OversightAudit
  import JsObject

  /** A record on the log, an entry of the Eye, or a tick that leaves neither. */
  datatype Item =
    | Rec(eventType: EventType, payload: Payload)
    | Saw(event: string, layer: string, description: string)
    | Tock

  /** One item more. It takes one tick; without an Eye nothing is seen. */
  function Perform(env: Env, j: Journal, eye: Option<Oversight>, item: Item): (Journal, Option<Oversight>)
  {
    match item
    case Rec(eventType, payload) => (Log(env, j, eventType, payload), eye)
    case Saw(event, layer, description) =>
      if eye.None? then (j, eye)
      else (Tick(j), Some(eye.value + [NextEntry(env, eye.value, event, layer, description, j.tick + 1)]))
    case Tock => (Tick(j), eye)
  }

  /** The log and the oversight ledger after these items. */
  function Play(env: Env, j: Journal, eye: Option<Oversight>, items: seq<Item>): (Journal, Option<Oversight>)
  {
    if items == [] then (j, eye)
    else
      var before := Play(env, j, eye, items[..|items| - 1]);
      Perform(env, before.0, before.1, items[|items| - 1])
  }

  ghost predicate Plays(env: Env, w: World, w': World, items: seq<Item>)
  {
    (w'.journal, w'.eye) == Play(env, w.journal, w.eye, items)
  }

  lemma {:induction false} PlayConcat(env: Env, j: Journal, eye: Option<Oversight>, a: seq<Item>, b: seq<Item>)
    ensures var (j', eye') := Play(env, j, eye, a); Play(env, j, eye, a + b) == Play(env, j', eye', b)
  {
    hide Perform;
    if b == [] {
      assert a + b == a;
    } else {
      PlayConcat(env, j, eye, a, b[..|b| - 1]);
      assert (a + b)[..|a + b| - 1] == a + b[..|b| - 1];
    }
  }

  lemma PlaysTransitive(env: Env, w: World, w': World, w'': World, a: seq<Item>, b: seq<Item>)
    ensures Plays(env, w, w', a) && Plays(env, w', w'', b) ==> Plays(env, w, w'', a + b)
  {
    hide Play;
    PlayConcat(env, w.journal, w.eye, a, b);
  }

  lemma PlaysNothing(env: Env, w: World, w': World)
    ensures w'.journal == w.journal && w'.eye == w.eye ==> Plays(env, w, w', [])
  {
  }

  lemma PlayOne(env: Env, j: Journal, eye: Option<Oversight>, item: Item)
    ensures Play(env, j, eye, [item]) == Perform(env, j, eye, item)
  {
    hide Perform;
    assert [item][..0] == [];
  }

  // ----- single steps -----

  lemma CapturePlays(env: Env, w: World, q: string, eventType: EventType, data: JsObject.Obj)
    ensures Plays(env, w, Capture(env, w, q, eventType, data), [Rec(eventType, Captured(q, data, None))])
  {
    hide Play, NextSnapshot, Remembered;
    PlayOne(env, w.journal, w.eye, Rec(eventType, Captured(q, data, None)));
  }

  lemma ObservePlays(env: Env, w: World, note: Note)
    ensures Plays(env, w, Observe(env, w, note), [Saw(note.EventName(), note.Layer(), env.describe(note))])
  {
    hide Play, NextEntry, Note.EventName, Note.Layer;
    PlayOne(env, w.journal, w.eye, Saw(note.EventName(), note.Layer(), env.describe(note)));
  }

  /** A record and what the Eye notes about it. */
  lemma WitnessedPlays(env: Env, w: World, q: string, eventType: EventType, data: JsObject.Obj, note: Note)
    ensures Plays(env, w, Observe(env, Capture(env, w, q, eventType, data), note),
                  [Rec(eventType, Captured(q, data, None)), Saw(note.EventName(), note.Layer(), env.describe(note))])
  {
    hide Plays, Capture, Observe, Note.EventName, Note.Layer;
    var captured := Capture(env, w, q, eventType, data);
    CapturePlays(env, w, q, eventType, data);
    ObservePlays(env, captured, note);
    var a, b := [Rec(eventType, Captured(q, data, None))], [Saw(note.EventName(), note.Layer(), env.describe(note))];
    PlaysTransitive(env, w, captured, Observe(env, captured, note), a, b);
    assert a + b == [Rec(eventType, Captured(q, data, None)), Saw(note.EventName(), note.Layer(), env.describe(note))];
  }

  // ----- a run, up to the verdict -----

  function Opening(env: Env, r: Request): seq<Item>
  {
    [Rec(Initiation, Captured(r.processId, JsObject.Single("amount", JsObject.Num(r.amount)), None)),
     Saw("initiation", "processing", env.describe(Initiated(r.processId, r.amount)))]
  }

  const ROSTER_ITEMS: seq<Item> :=
    [Rec(NodeRegistered, NodeRecord("node-1", "validator", 1.0, 1.0, 1.0)),
     Rec(NodeRegistered, NodeRecord("node-2", "router", 1.0, 1.0, 1.0)),
     Rec(NodeRegistered, NodeRecord("node-3", "recorder", 1.0, 1.0, 1.0))]

  /** The roster is registered when no node is named and none is known. */
  function Staffing(r: Request, nodes: seq<Node>): seq<Item>
  {
    if !NamesNodes(r) && nodes == [] then ROSTER_ITEMS else []
  }

  function Staging(env: Env, processId: string, ids: seq<string>): seq<Item>
  {
    [Rec(TaskAssignment, Captured(processId, JsObject.Single("nodes", JsObject.Texts(ids)), None)),
     Saw("task_assignment", "processing", env.describe(Assigned(|ids|))),
     Rec(StageTransition, Captured(processId, JsObject.Single("stage", JsObject.Text("execute")), None)),
     Rec(ExecutionComplete, Captured(processId, JsObject.EMPTY, None))]
  }

  lemma OpeningPlays(env: Env, w: World, r: Request)
    ensures Plays(env, w, Initiate(env, w, r), Opening(env, r))
  {
    hide Plays, Capture, Observe;
    WitnessedPlays(env, w, r.processId, Initiation, JsObject.Single("amount", JsObject.Num(r.amount)),
                   Initiated(r.processId, r.amount));
  }

  lemma AdmitPlays(env: Env, w: World, id: string, kind: string)
    ensures Plays(env, w, Admit(env, w, id, kind), [Rec(NodeRegistered, NodeRecord(id, kind, 1.0, 1.0, 1.0))])
  {
    hide Play, NextSnapshot, Saved;
    PlayOne(env, w.journal, w.eye, Rec(NodeRegistered, NodeRecord(id, kind, 1.0, 1.0, 1.0)));
  }

  lemma RosterPlays(env: Env, w: World)
    ensures Plays(env, w, AdmitAll(env, w, DEFAULT_NODES), ROSTER_ITEMS)
  {
    hide Plays, Admit;
    var none, one, two := DEFAULT_NODES[..0], DEFAULT_NODES[..1], DEFAULT_NODES[..2];
    assert two[..1] == one && one[..0] == none && DEFAULT_NODES[..|DEFAULT_NODES| - 1] == two;
    var a, b, c := [ROSTER_ITEMS[0]], [ROSTER_ITEMS[1]], [ROSTER_ITEMS[2]];
    var w1 := Admit(env, w, "node-1", "validator");
    var w2 := Admit(env, w1, "node-2", "router");
    assert AdmitAll(env, w, none) == w && AdmitAll(env, w, one) == w1 && AdmitAll(env, w, two) == w2;
    AdmitPlays(env, w, "node-1", "validator");
    AdmitPlays(env, w1, "node-2", "router");
    AdmitPlays(env, w2, "node-3", "recorder");
    PlaysTransitive(env, w, w1, w2, a, b);
    PlaysTransitive(env, w, w2, AdmitAll(env, w, DEFAULT_NODES), a + b, c);
    assert a + b + c == ROSTER_ITEMS;
  }

  lemma StaffingPlays(env: Env, w: World, r: Request)
    ensures Plays(env, w, Resolve(env, w, r.nodeIds).0, Staffing(r, w.nodes))
  {
    hide Plays, AdmitAll, ActiveIds, ROSTER_ITEMS, DEFAULT_NODES;
    PlaysNothing(env, w, w);
    RosterPlays(env, w);
  }

  lemma StagingPlays(env: Env, w: World, processId: string, ids: seq<string>)
    ensures Plays(env, w, RecordStages(env, RecordAssignment(env, w, processId, ids), processId),
                  Staging(env, processId, ids))
  {
    hide Plays, Capture, Observe;
    var nodes, stage := JsObject.Single("nodes", JsObject.Texts(ids)),
        JsObject.Single("stage", JsObject.Text("execute"));
    var recorded := RecordAssignment(env, w, processId, ids);
    var staged := Capture(env, recorded, processId, StageTransition, stage);
    WitnessedPlays(env, w, processId, TaskAssignment, nodes, Assigned(|ids|));
    CapturePlays(env, recorded, processId, StageTransition, stage);
    CapturePlays(env, staged, processId, ExecutionComplete, JsObject.EMPTY);
    var a := [Rec(TaskAssignment, Captured(processId, nodes, None)),
              Saw("task_assignment", "processing", env.describe(Assigned(|ids|)))];
    var b, c := [Rec(StageTransition, Captured(processId, stage, None))],
        [Rec(ExecutionComplete, Captured(processId, JsObject.EMPTY, None))];
    PlaysTransitive(env, w, recorded, staged, a, b);
    PlaysTransitive(env, w, staged, RecordStages(env, recorded, processId), a + b, c);
    assert a + b + c == Staging(env, processId, ids);
  }

  /** From the request to the end of the work. */
  function Preparation(env: Env, r: Request, nodes: seq<Node>): seq<Item>
  {
    Opening(env, r) + (Staffing(r, nodes) + Staging(env, r.processId, AssignedTo(r, nodes)))
  }

  lemma PreparationPlays(env: Env, w: World, r: Request)
    requires AllWell(w.nodes)
    ensures Plays(env, w, Executed(env, Initiate(env, w, r), r).0, Preparation(env, r, w.nodes))
  {
    hide Plays, Initiate, Resolve, RecordStages, RecordAssignment, WorkAll, Opening, Staffing, Staging, AssignedTo,
         AllWell, CountsOf;
    var started := Initiate(env, w, r);
    var (resolved, ids) := Resolve(env, started, r.nodeIds);
    var staged := RecordStages(env, RecordAssignment(env, resolved, r.processId, ids), r.processId);
    var executed := Executed(env, started, r).0;
    InitiateKeepsNodes(env, w, r);
    ResolvedTo(env, w, r);
    OpeningPlays(env, w, r);
    StaffingPlays(env, started, r);
    StagingPlays(env, resolved, r.processId, ids);
    PlaysTransitive(env, started, resolved, staged, Staffing(r, w.nodes), Staging(env, r.processId, ids));
    PlaysTransitive(env, w, started, staged, Opening(env, r),
                    Staffing(r, w.nodes) + Staging(env, r.processId, ids));
    assert Plays(env, w, executed, Preparation(env, r, w.nodes)) by { SamePlays(env, w, staged, executed); }
  }

  lemma SamePlays(env: Env, w: World, w': World, w'': World)
    ensures w''.journal == w'.journal && w''.eye == w'.eye ==>
              forall items :: Plays(env, w, w', items) ==> Plays(env, w, w'', items)
  {
    hide Play;
  }

  // ----- a run, from the verdict on -----

  /** A first verdict is recorded, and then stamped. */
  function Ruling(processId: string, verified: bool, reasons: seq<Reason>, judged: bool): seq<Item>
  {
    if judged then [] else [Rec(PotVerified, VerdictRecord(processId, verified, reasons)), Tock]
  }

  lemma RulingPlays(env: Env, w: World, q: string)
    requires Chained(env, w.journal.chain)
    ensures var have := EventsOf(w.captured, q);
            Plays(env, w, Verify(env, w, q),
                  Ruling(q, Evidence(true, have), FailureReasons(true, have), q in w.verdicts))
  {
    hide Evidence, FailureReasons, NextSnapshot, Play, Intact;
    var have := EventsOf(w.captured, q);
    if q in w.verdicts {
      PlaysNothing(env, w, w);
    } else {
      assert Intact(env, w.journal.chain);
      var record := Rec(PotVerified, VerdictRecord(q, Evidence(true, have), FailureReasons(true, have)));
      PlayOne(env, w.journal, w.eye, record);
      var (j, eye) := Play(env, w.journal, w.eye, [record]);
      PlayOne(env, j, eye, Tock);
      PlayConcat(env, w.journal, w.eye, [record], [Tock]);
      assert [record] + [Tock] == [record, Tock];
    }
  }

  /** The verdict is announced. */
  function Announcement(env: Env, processId: string, verified: bool): seq<Item>
  {
    [Rec(PotVerdict,
         Captured(processId, JsObject.Single("verified", JsObject.Num(if verified then 1.0 else 0.0)), None)),
     Saw("pot_verdict", "processing", env.describe(Judged(processId, verified)))]
  }

  lemma JudgePlays(env: Env, w: World, q: string, verified: bool)
    requires Sound(env, w) && forall e :: e in REQUIRED ==> e in EventsOf(w.captured, q)
    requires verified <==> q in w.verdicts ==> w.verdicts[q].verified
    ensures Plays(env, w, Judge(env, w, q), Ruling(q, true, [], q in w.verdicts) + Announcement(env, q, verified))
  {
    hide Plays, Sound, Capture, Observe, Verify, Evidence, FailureReasons, Chained;
    var have, judged := EventsOf(w.captured, q), Verify(env, w, q);
    SoundParts(env, w);
    RulingPlays(env, w, q);
    assert REQUIRED[0] in have && REQUIRED[1] in have && REQUIRED[2] in have && REQUIRED[3] in have;
    assert Evidence(true, have) && FailureReasons(true, have) == [] by { FullEvidence(have); }
    VerifyDecides(env, w, q);
    VerdictIs(env, w, q);
    WitnessedPlays(env, judged, q, PotVerdict, JsObject.Single("verified", Flag(verified)), Judged(q, verified));
    PlaysTransitive(env, w, judged, Judge(env, w, q), Ruling(q, true, [], q in w.verdicts),
                    Announcement(env, q, verified));
  }

  lemma FullEvidence(have: set<EventType>)
    requires Initiation in have && TaskAssignment in have && StageTransition in have && ExecutionComplete in have
    ensures Evidence(true, have) && FailureReasons(true, have) == []
  {
    EvidenceIffNoReason(true, have);
  }

  /** Mint, fee, burn: a fee that opens its epoch takes a tick of its own. */
  function Production(env: Env, processId: string, amount: real, opens: bool): seq<Item>
  {
    [Rec(EmissionMinted, MintRecord(processId, amount)),
     Rec(EmissionRecorded, Captured(processId, JsObject.Single("minted", JsObject.Num(amount)), None)),
     Saw("mint", "token_management", env.describe(Minted(processId, amount)))]
    + ((if opens then [Tock] else [])
       + [Rec(EmissionBurned, BurnRecord(processId, amount)),
          Saw("burn", "token_management", env.describe(Burned(processId, amount)))])
  }

  lemma MintPlays(env: Env, w: World, q: string, amount: real)
    ensures Plays(env, w, Mint(env, w, q, amount), [Rec(EmissionMinted, MintRecord(q, amount))])
    ensures Plays(env, w, Burn(env, w, q, amount), [Rec(EmissionBurned, BurnRecord(q, amount))])
  {
    hide Play, NextSnapshot;
    PlayOne(env, w.journal, w.eye, Rec(EmissionMinted, MintRecord(q, amount)));
    PlayOne(env, w.journal, w.eye, Rec(EmissionBurned, BurnRecord(q, amount)));
  }

  lemma AccruePlays(env: Env, w: World, n: int, fee: real, parts: seq<Participation>)
    ensures Plays(env, w, Accrue(w, n, fee, parts), if HasEpoch(w.pools.epochs, n) then [] else [Tock])
  {
    hide Play, Accrued;
    PlayOne(env, w.journal, w.eye, Tock);
    PlaysNothing(env, w, Accrue(w, n, fee, parts));
  }

  lemma MintStagePlays(env: Env, w: World, q: string, amount: real)
    ensures Plays(env, w, MintStage(env, w, q, amount),
                  [Rec(EmissionMinted, MintRecord(q, amount)),
                   Rec(EmissionRecorded, Captured(q, JsObject.Single("minted", JsObject.Num(amount)), None)),
                   Saw("mint", "token_management", env.describe(Minted(q, amount)))])
  {
    hide Plays, Mint, Capture, Observe;
    var minted := Mint(env, w, q, amount);
    var data := JsObject.Single("minted", JsObject.Num(amount));
    MintPlays(env, w, q, amount);
    WitnessedPlays(env, minted, q, EmissionRecorded, data, Minted(q, amount));
    var a := [Rec(EmissionMinted, MintRecord(q, amount))];
    var b := [Rec(EmissionRecorded, Captured(q, data, None)),
              Saw("mint", "token_management", env.describe(Minted(q, amount)))];
    PlaysTransitive(env, w, minted, MintStage(env, w, q, amount), a, b);
    assert a + b == [a[0], b[0], b[1]];
  }

  lemma BurnStagePlays(env: Env, w: World, q: string, amount: real)
    ensures Plays(env, w, BurnStage(env, w, q, amount),
                  [Rec(EmissionBurned, BurnRecord(q, amount)),
                   Saw("burn", "token_management", env.describe(Burned(q, amount)))])
  {
    hide Plays, Burn, Observe;
    var burned := Burn(env, w, q, amount);
    MintPlays(env, w, q, amount);
    ObservePlays(env, burned, Burned(q, amount));
    var a, b := [Rec(EmissionBurned, BurnRecord(q, amount))],
        [Saw("burn", "token_management", env.describe(Burned(q, amount)))];
    PlaysTransitive(env, w, burned, BurnStage(env, w, q, amount), a, b);
    assert a + b == [a[0], b[0]];
  }

  lemma ProductionPlays(env: Env, w: World, q: string, amount: real, epoch: int, ids: seq<string>)
    ensures Plays(env, w, Produce(env, w, q, amount, epoch, ids),
                  Production(env, q, amount, !HasEpoch(w.pools.epochs, epoch)))
  {
    hide Plays, MintStage, BurnStage, Accrue, ComputeFee;
    var minted := MintStage(env, w, q, amount);
    var accrued := Accrue(minted, epoch, ComputeFee(amount), PartsFor(q, ids));
    StageEffects(env, w, q, amount);
    MintStagePlays(env, w, q, amount);
    AccruePlays(env, minted, epoch, ComputeFee(amount), PartsFor(q, ids));
    BurnStagePlays(env, accrued, q, amount);
    var a := [Rec(EmissionMinted, MintRecord(q, amount)),
              Rec(EmissionRecorded, Captured(q, JsObject.Single("minted", JsObject.Num(amount)), None)),
              Saw("mint", "token_management", env.describe(Minted(q, amount)))];
    var b := if HasEpoch(w.pools.epochs, epoch) then [] else [Tock];
    var c := [Rec(EmissionBurned, BurnRecord(q, amount)),
              Saw("burn", "token_management", env.describe(Burned(q, amount)))];
    PlaysTransitive(env, minted, accrued, BurnStage(env, accrued, q, amount), b, c);
    PlaysTransitive(env, w, minted, BurnStage(env, accrued, q, amount), a, b + c);
  }

  function Closing(env: Env, processId: string): seq<Item>
  {
    [Rec(FinalStatus, Captured(processId, JsObject.Single("status", JsObject.Text("done")), None)),
     Saw("final_status", "ledger_anchoring", env.describe(Finished(processId)))]
  }

  function Refusing(processId: string): seq<Item>
  {
    [Rec(FinalStatus, Captured(processId, JsObject.Single("status", JsObject.Text("rejected")), None))]
  }

  /** At rest the Eye's comparison is silent. */
  lemma ClosingPlays(env: Env, w: World, q: string)
    requires Sound(env, w) && AtRest(w)
    ensures Plays(env, w, CloseStage(env, w, q), Closing(env, q))
  {
    hide Plays, Capture, Observe, Sound, AtRest, Quiet, CompareSupply;
    var data := JsObject.Single("status", JsObject.Text("done"));
    var captured := Capture(env, w, q, FinalStatus, data);
    QuietCapture(env, w, q, FinalStatus, data);
    QuietRest(env, w, captured);
    QuietObserve(env, captured, Finished(q));
    QuietRest(env, captured, Concluded(env, w, q));
    OversightAudit.NothingToReport(env, Concluded(env, w, q));
    WitnessedPlays(env, w, q, FinalStatus, data, Finished(q));
  }

  lemma RefusingPlays(env: Env, w: World, q: string)
    requires Sound(env, w) && AtRest(w)
    ensures Plays(env, w, Refuse(env, w, q), Refusing(q))
  {
    hide Plays, Capture, Sound, AtRest, Quiet, CompareSupply;
    var data := JsObject.Single("status", JsObject.Text("rejected"));
    QuietCapture(env, w, q, FinalStatus, data);
    QuietRest(env, w, Turned(env, w, q));
    OversightAudit.NothingToReport(env, Turned(env, w, q));
    CapturePlays(env, w, q, FinalStatus, data);
  }
}
