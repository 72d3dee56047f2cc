/** The reference orchestrator: the simpler system production is meant to match. */
module Reference {
  import opened Events
  import opened StateRecording
  import opened ArosCoin
  import opened ReferenceChain
  import opened ReferenceSettlement
  import L = Lifecycle
  import JsObject
  import S = Settlement

  datatype State = State(
    chain: History,
    captured: CapturedIndex,
    verdicts: map<string, bool>,
    coin: Coin,
    pool: real,
    contributions: seq<(string, real)>,
    volume: real,
    workers: seq<Worker>)

  function Roster(): seq<Worker>
  {
    Entered(Entered(Entered([], NewWorker("node-1", "validator")), NewWorker("node-2", "router")),
            NewWorker("node-3", "recorder"))
  }

  function Initial(): State { State([], map[], map[], ZERO_COIN, 0.0, [], 0.0, Roster()) }

  datatype Outcome = Turned(reason: L.Refusal) | Yielded(minted: real, fee: real)

  const BURN_EVENT := Other("emission_burn")

  function Capture(env: ReferenceEnv, s: State, processId: string, eventType: EventType, data: JsObject.Obj): State
  {
    s.(chain := s.chain + [NextRecord(env, s.chain, eventType, processId, data)],
       captured := Remembered(s.captured, processId, eventType))
  }

  ghost predicate Criteria(admissible: bool, have: set<EventType>, chainOk: bool)
  {
    && admissible
    && Initiation in have && TaskAssignment in have && StageTransition in have
    && chainOk && have != {}
    && ExecutionComplete in have
  }

  ghost function Initiate(env: ReferenceEnv, s: State, r: L.Request): State
  {
    Capture(env, s, r.processId, Initiation, JsObject.Single("amount", JsObject.Num(r.amount)))
  }

  ghost function Executed(env: ReferenceEnv, s: State, processId: string): State
  {
    var ids := ActiveWorkers(s.workers);
    var recorded :=
      Capture(env,
        Capture(env,
          Capture(env, s, processId, TaskAssignment, JsObject.Single("nodes", JsObject.Texts(ids))),
          processId, StageTransition, JsObject.Single("stage", JsObject.Text("execute"))),
        processId, ExecutionComplete, JsObject.EMPTY);
    recorded.(workers := WorkEach(recorded.workers, ids))
  }

  /** One verdict per process; an existing one stands. */
  ghost function Verified(env: ReferenceEnv, s: State, r: L.Request): State
  {
    if r.processId in s.verdicts then s
    else s.(verdicts :=
            s.verdicts[r.processId :=
                       Criteria(r.admissible, EventsOf(s.captured, r.processId), Unbroken(env, s.chain))])
  }

  ghost function Issued(env: ReferenceEnv, s: State, processId: string, amount: real): State
  {
    Capture(env, s.(coin := s.coin.(processMinted := s.coin.processMinted + amount)),
            processId, EmissionRecorded, JsObject.Single("minted", JsObject.Num(amount)))
  }

  ghost function Accrued(s: State, processId: string, amount: real): State
  {
    var fee := S.ComputeFee(amount);
    s.(pool := s.pool + fee, contributions := s.contributions + [(processId, fee)], volume := s.volume + amount)
  }

  ghost function Closed(env: ReferenceEnv, s: State, processId: string, amount: real): State
  {
    var burned := s.(coin := s.coin.(processBurned := s.coin.processBurned + amount));
    Capture(env,
      Capture(env, burned, processId, BURN_EVENT, JsObject.Single("burned", JsObject.Num(amount))),
      processId, FinalStatus, JsObject.Single("status", JsObject.Text("done")))
  }

  ghost function Run(env: ReferenceEnv, s: State, r: L.Request): (State, Outcome)
  {
    var started := Initiate(env, s, r);
    if !r.admissible then (started, Turned(L.Inadmissible))
    else
      var judged := Verified(env, Executed(env, started, r.processId), r);
      var verified := judged.verdicts[r.processId];
      var recorded := Capture(env, judged, r.processId, PotVerdict, JsObject.Single("verified", L.Flag(verified)));
      if !verified then (recorded, Turned(L.Unverified))
      else
        (Closed(env, Accrued(Issued(env, recorded, r.processId, r.amount), r.processId, r.amount), r.processId,
                r.amount),
         Yielded(r.amount, S.ComputeFee(r.amount)))
  }

  // ----- what a run records -----

  datatype Recorded = Recorded(eventType: EventType, processId: string, data: JsObject.Obj)

  function Contents(h: History): seq<Recorded>
  {
    seq(|h|, i requires 0 <= i < |h| => Recorded(h[i].eventType, h[i].processId, h[i].data))
  }

  /** Records are numbered from 0. */
  ghost predicate Positioned(h: History) { forall i :: 0 <= i < |h| ==> h[i].sequenceId == i }

  ghost predicate Appends(s: State, s': State, more: seq<Recorded>)
  {
    Contents(s'.chain) == Contents(s.chain) + more && (Positioned(s.chain) ==> Positioned(s'.chain))
  }

  lemma CaptureAppends(env: ReferenceEnv, s: State, processId: string, eventType: EventType, data: JsObject.Obj)
    ensures Appends(s, Capture(env, s, processId, eventType, data), [Recorded(eventType, processId, data)])
  {
  }

  lemma AppendsBoth(a: State, b: State, c: State, more: seq<Recorded>, again: seq<Recorded>)
    requires Appends(a, b, more) && Appends(b, c, again)
    ensures Appends(a, c, more + again)
  {
    hide Contents, Positioned;
  }

  function Worked(processId: string, ids: seq<string>): seq<Recorded>
  {
    [Recorded(TaskAssignment, processId, JsObject.Single("nodes", JsObject.Texts(ids))),
     Recorded(StageTransition, processId, JsObject.Single("stage", JsObject.Text("execute"))),
     Recorded(ExecutionComplete, processId, JsObject.EMPTY)]
  }

  function Earned(processId: string, amount: real): seq<Recorded>
  {
    [Recorded(EmissionRecorded, processId, JsObject.Single("minted", JsObject.Num(amount))),
     Recorded(Other("emission_burn"), processId, JsObject.Single("burned", JsObject.Num(amount))),
     Recorded(FinalStatus, processId, JsObject.Single("status", JsObject.Text("done")))]
  }

  /** The records of a run, by its outcome. */
  function Records(s: State, r: L.Request, outcome: Outcome): seq<Recorded>
  {
    var begun := [Recorded(Initiation, r.processId, JsObject.Single("amount", JsObject.Num(r.amount)))];
    var judged :=
        [Recorded(PotVerdict, r.processId,
                  JsObject.Single("verified", JsObject.Num(if outcome.Yielded? then 1.0 else 0.0)))];
    if !r.admissible then begun
    else
      begun + (Worked(r.processId, ActiveWorkers(s.workers))
               + (judged + (if outcome.Yielded? then Earned(r.processId, r.amount) else [])))
  }

  lemma ExecutedAppends(env: ReferenceEnv, s: State, processId: string)
    ensures Appends(s, Executed(env, s, processId), Worked(processId, ActiveWorkers(s.workers)))
  {
    hide Capture, Appends;
    var ids := ActiveWorkers(s.workers);
    var nodes := JsObject.Single("nodes", JsObject.Texts(ids));
    var stage := JsObject.Single("stage", JsObject.Text("execute"));
    var one := Capture(env, s, processId, TaskAssignment, nodes);
    var two := Capture(env, one, processId, StageTransition, stage);
    var three := Capture(env, two, processId, ExecutionComplete, JsObject.EMPTY);
    CaptureAppends(env, s, processId, TaskAssignment, nodes);
    CaptureAppends(env, one, processId, StageTransition, stage);
    CaptureAppends(env, two, processId, ExecutionComplete, JsObject.EMPTY);
    var a, b := [Recorded(TaskAssignment, processId, nodes)], [Recorded(StageTransition, processId, stage)];
    var c := [Recorded(ExecutionComplete, processId, JsObject.EMPTY)];
    AppendsBoth(s, one, two, a, b);
    AppendsBoth(s, two, three, a + b, c);
    assert a + b + c == Worked(processId, ids);
    SameChain(s, three, Executed(env, s, processId));
  }

  lemma SameChain(s: State, s': State, s'': State)
    ensures s''.chain == s'.chain ==> forall more :: Appends(s, s', more) ==> Appends(s, s'', more)
  {
  }

  lemma EarnedAppends(env: ReferenceEnv, s: State, processId: string, amount: real)
    ensures Appends(s, Closed(env, Accrued(Issued(env, s, processId, amount), processId, amount), processId, amount),
                    Earned(processId, amount))
  {
    var issued := Issued(env, s, processId, amount);
    var accrued := Accrued(issued, processId, amount);
    var closed := Closed(env, accrued, processId, amount);
    var burn, done := JsObject.Single("burned", JsObject.Num(amount)), JsObject.Single("status", JsObject.Text("done"));
    var burned := accrued.(coin := accrued.coin.(processBurned := accrued.coin.processBurned + amount));
    var two := Capture(env, burned, processId, BURN_EVENT, burn);
    var a, b, c := Earned(processId, amount)[..1], Earned(processId, amount)[1..2], Earned(processId, amount)[2..];
    hide Appends, NextRecord, Remembered;
    assert Appends(s, burned, a) by {
      var minted := s.(coin := s.coin.(processMinted := s.coin.processMinted + amount));
      CaptureAppends(env, minted, processId, EmissionRecorded, JsObject.Single("minted", JsObject.Num(amount)));
      SameStart(s, minted, issued);
      SameChain(s, issued, burned);
    }
    CaptureAppends(env, burned, processId, BURN_EVENT, burn);
    CaptureAppends(env, two, processId, FinalStatus, done);
    AppendsBoth(s, burned, two, a, b);
    AppendsBoth(s, two, closed, a + b, c);
    assert a + b + c == Earned(processId, amount);
  }

  lemma SameStart(s: State, s': State, s'': State)
    ensures s'.chain == s.chain ==> forall more :: Appends(s', s'', more) ==> Appends(s, s'', more)
  {
  }

  /** A run records exactly these events of its process, with this content, at the next positions. */
  lemma RunRecords(env: ReferenceEnv, s: State, r: L.Request)
    ensures var (s', outcome) := Run(env, s, r); Appends(s, s', Records(s, r, outcome))
  {
    hide Capture, Appends, Executed, Closed, Accrued, Issued, Worked, Earned, Unbroken, Criteria;
    var begun := [Recorded(Initiation, r.processId, JsObject.Single("amount", JsObject.Num(r.amount)))];
    var started := Initiate(env, s, r);
    CaptureAppends(env, s, r.processId, Initiation, JsObject.Single("amount", JsObject.Num(r.amount)));
    if r.admissible {
      var executed := Executed(env, started, r.processId);
      var judged := Verified(env, executed, r);
      var flag := JsObject.Single("verified", L.Flag(judged.verdicts[r.processId]));
      var recorded := Capture(env, judged, r.processId, PotVerdict, flag);
      var verdict := [Recorded(PotVerdict, r.processId, flag)];
      var work := Worked(r.processId, ActiveWorkers(s.workers));
      StartKeepsWorkers(env, s, r);
      ExecutedAppends(env, started, r.processId);
      SameChain(started, executed, judged);
      CaptureAppends(env, judged, r.processId, PotVerdict, flag);
      AppendsBoth(started, judged, recorded, work, verdict);
      var (s', outcome) := Run(env, s, r);
      var rest := if outcome.Yielded? then Earned(r.processId, r.amount) else [];
      if outcome.Yielded? {
        EarnedAppends(env, recorded, r.processId, r.amount);
        AppendsBoth(started, recorded, s', work + verdict, rest);
      }
      assert work + (verdict + rest) == if outcome.Yielded? then work + verdict + rest else work + verdict;
      AppendsBoth(s, started, s', begun, work + (verdict + rest));
    }
  }

  lemma StartKeepsWorkers(env: ReferenceEnv, s: State, r: L.Request)
    ensures Initiate(env, s, r).workers == s.workers
  {
  }

  function Finalize(s: State): (State, Settled)
  {
    var result := SettledPool(s.pool, s.workers);
    (s.(pool := 0.0,
        workers := PaidWorkers(s.workers, s.pool * (1.0 - MARGIN_RATE), TotalOr1(s.workers)),
        coin := s.coin.(earnedRetained := s.coin.earnedRetained + result.paid)),
     result)
  }

  class AST {
    const chain: SnapshotChain
    const coin: CoinLedger
    const commission: Commission
    const nodes: Workforce
    var captured: CapturedIndex
    var verdicts: map<string, bool>
    var totalProcessVolume: real

    constructor (env: ReferenceEnv)
      ensures View() == Initial() && chain.env == env && fresh(chain) && fresh(coin) && fresh(commission)
                && fresh(nodes)
    {
      hide Entered;
      chain := new SnapshotChain(env);
      coin := new CoinLedger();
      commission := new Commission();
      nodes := new Workforce();
      captured := map[];
      verdicts := map[];
      totalProcessVolume := 0.0;
      new;
      nodes.Register("node-1", "validator");
      nodes.Register("node-2", "router");
      nodes.Register("node-3", "recorder");
    }

    ghost function Parts(): set<object> { {this, chain, coin, commission, nodes} }

    ghost function View(): State
      reads this, chain, coin, commission, nodes
    {
      State(chain.snapshots, captured, verdicts, coin.View(), commission.pool, commission.contributions,
            totalProcessVolume, nodes.registry)
    }

    method Record(processId: string, eventType: EventType, data: JsObject.Obj)
      modifies this, chain
      ensures View() == Capture(chain.env, old(View()), processId, eventType, data)
    {
      var _ := chain.RecordState(eventType, processId, data);
      if processId !in captured {
        captured := captured[processId := {}];
      }
      captured := captured[processId := captured[processId] + {eventType}];
    }

    method Execute(processId: string)
      modifies Parts()
      ensures View() == Executed(chain.env, old(View()), processId)
    {
      hide Capture, RecordedWork;
      var chosen := ActiveWorkers(nodes.registry);
      Record(processId, TaskAssignment, JsObject.Single("nodes", JsObject.Texts(chosen)));
      Record(processId, StageTransition, JsObject.Single("stage", JsObject.Text("execute")));
      Record(processId, ExecutionComplete, JsObject.EMPTY);
      assert nodes.registry == old(nodes.registry) by { CaptureKeepsWorkers(); }
      ghost var recorded := View();
      for i := 0 to |chosen|
        invariant View() == recorded.(workers := nodes.registry)
        invariant nodes.registry == WorkEach(recorded.workers, chosen[..i])
      {
        assert chosen[..i + 1][..i] == chosen[..i];
        nodes.RecordWork(chosen[i], true);
      }
      assert chosen[..|chosen|] == chosen;
    }

    lemma CaptureKeepsWorkers()
      ensures forall env, s, p, e, data :: Capture(env, s, p, e, data).workers == s.workers
    {
    }

    method Verify(r: L.Request) returns (verified: bool)
      modifies this
      ensures View() == Verified(chain.env, old(View()), r)
      ensures r.processId in verdicts && verified == verdicts[r.processId]
    {
      hide Unbroken;
      if r.processId in verdicts {
        return verdicts[r.processId];
      }
      var have := if r.processId in captured then captured[r.processId] else {};
      var chainOk, _ := chain.Reconstruct();
      verified :=
        && r.admissible
        && Initiation in have && TaskAssignment in have && StageTransition in have
        && chainOk && have != {}
        && ExecutionComplete in have;
      verdicts := verdicts[r.processId := verified];
    }

    method RunProcess(r: L.Request) returns (outcome: Outcome)
      modifies Parts()
      ensures (View(), outcome) == Run(chain.env, old(View()), r)
    {
      hide Capture, Executed, Verified, Issued, Accrued, Closed, S.ComputeFee;
      Record(r.processId, Initiation, JsObject.Single("amount", JsObject.Num(r.amount)));
      if !r.admissible {
        return Turned(L.Inadmissible);
      }
      Execute(r.processId);
      var verified := Verify(r);
      Record(r.processId, PotVerdict, JsObject.Single("verified", L.Flag(verified)));
      if !verified {
        return Turned(L.Unverified);
      }
      ProduceValue(r.processId, r.amount);
      return Yielded(r.amount, S.ComputeFee(r.amount));
    }

    /** Mint, accrue, burn, and the records of each. */
    method ProduceValue(processId: string, amount: real)
      modifies Parts()
      ensures View() ==
                Closed(chain.env, Accrued(Issued(chain.env, old(View()), processId, amount), processId, amount),
                       processId, amount)
    {
      hide Capture, S.ComputeFee;
      ghost var before := View();
      coin.RecordMint(amount);
      assert View() == before.(coin := before.coin.(processMinted := before.coin.processMinted + amount));
      Record(processId, EmissionRecorded, JsObject.Single("minted", JsObject.Num(amount)));
      ghost var issued := View();
      assert issued == Issued(chain.env, before, processId, amount);
      var fee := S.ComputeFee(amount);
      commission.Accrue(processId, fee);
      totalProcessVolume := totalProcessVolume + amount;
      ghost var accrued := View();
      assert accrued == Accrued(issued, processId, amount);
      coin.RecordBurn(amount);
      assert View() == accrued.(coin := accrued.coin.(processBurned := accrued.coin.processBurned + amount));
      Record(processId, BURN_EVENT, JsObject.Single("burned", JsObject.Num(amount)));
      Record(processId, FinalStatus, JsObject.Single("status", JsObject.Text("done")));
    }

    method FinalizeEpoch() returns (result: Settled)
      modifies Parts()
      ensures (View(), result) == Finalize(old(View()))
    {
      hide SettledPool, PaidWorkers, TotalOr1;
      result := commission.FinalizeEpoch(nodes, coin);
    }
  }
}
