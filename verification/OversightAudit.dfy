/** What the Eye's own ledger holds in reachable states: an intact chain, and no alarm but rejections. */
module OversightAudit {
  import opened Events
  import opened NodeChain
  import opened Pot
  import opened Nodes
  import opened Reserve
  import opened Settlement
  import opened Commission
  import opened AllSeeingEye
  import opened Lifecycle
  import opened EventSourcing
  import opened Soundness
  import opened CallInvariants
  import opened Conservation
  import JsObject

  predicate IsAlarm(e: Entry) { e.eventType == "anomaly_detected" }

  function Alarms(log: Oversight): nat
  {
    if log == [] then 0 else Alarms(log[..|log| - 1]) + (if IsAlarm(log[|log| - 1]) then 1 else 0)
  }

  /** Every alarm is about a request turned away: none about supply, none about the chain. */
  ghost predicate OnlyRejections(log: Oversight)
  {
    forall k :: 0 <= k < |log| && IsAlarm(log[k]) ==> log[k].layer == "processing"
  }

  ghost predicate Healthy(env: Env, log: Oversight) { EyeIntact(env, log) && OnlyRejections(log) }

  /** From `w` to `w'` a healthy oversight ledger stays healthy and gains this many alarms. */
  ghost predicate Watches(env: Env, w: World, w': World, alarms: nat)
  {
    && (w.eye.None? <==> w'.eye.None?)
    && (w.eye.Some? ==>
          && (Healthy(env, w.eye.value) ==> Healthy(env, w'.eye.value))
          && Alarms(w'.eye.value) == Alarms(w.eye.value) + alarms)
  }

  lemma WatchesTransitive(env: Env, a: World, b: World, c: World, m: nat, n: nat)
    ensures Watches(env, a, b, m) && Watches(env, b, c, n) ==> Watches(env, a, c, m + n)
  {
    hide Healthy, Alarms;
  }

  lemma WatchesSame(env: Env, w: World, w': World)
    ensures w'.eye == w.eye ==> Watches(env, w, w', 0)
  {
    hide Healthy, Alarms;
  }

  lemma HealthyEntry(env: Env, log: Oversight, note: Note, timestamp: int)
    requires note.EventName() == "anomaly_detected" ==> note.Layer() == "processing"
    ensures var log' := log + [NextEntry(env, log, note.EventName(), note.Layer(), env.describe(note), timestamp)];
            && (Healthy(env, log) ==> Healthy(env, log'))
            && Alarms(log') == Alarms(log) + (if note.EventName() == "anomaly_detected" then 1 else 0)
  {
    var entry := NextEntry(env, log, note.EventName(), note.Layer(), env.describe(note), timestamp);
    assert (log + [entry])[..|log|] == log;
    if Healthy(env, log) {
      EntryKeepsIntact(env, log, note.EventName(), note.Layer(), env.describe(note), timestamp);
    }
  }

  predicate Plain(note: Note) { !note.Rejected? && !note.SupplyDrift? && !note.ChainBreak? }

  lemma PlainNote(note: Note)
    requires Plain(note) || note.Rejected?
    ensures note.EventName() == "anomaly_detected" <==> note.Rejected?
    ensures note.Rejected? ==> note.Layer() == "processing"
  {
    if !note.Rejected? {
      assert note.EventName()[0] != 'a';
      assert "anomaly_detected"[0] == 'a';
    }
  }

  lemma WatchesObserve(env: Env, w: World, note: Note)
    requires Plain(note) || note.Rejected?
    ensures Watches(env, w, Observe(env, w, note), if note.Rejected? then 1 else 0)
  {
    hide Healthy, Alarms, NextEntry, Note.EventName, Note.Layer;
    PlainNote(note);
    if w.eye.Some? { HealthyEntry(env, w.eye.value, note, w.journal.tick + 1); }
  }

  lemma WatchesCapture(env: Env, w: World, q: string, eventType: EventType, data: JsObject.Obj)
    ensures Watches(env, w, Capture(env, w, q, eventType, data), 0)
  {
    hide Healthy, Alarms, NextSnapshot;
  }

  /** Between a mint and its burn nobody compares; at rest there is nothing to report. */
  lemma NothingToReport(env: Env, w: World)
    requires Sound(env, w) && AtRest(w)
    ensures CompareSupply(env, w) == w && AuditChain(env, w) == w
  {
    hide Observe;
    SupplyIsRetained(env, w);
  }

  lemma WatchesInitiate(env: Env, w: World, r: Request)
    ensures Watches(env, w, Initiate(env, w, r), 0)
  {
    hide Watches, Capture, Observe;
    var data := JsObject.Single("amount", JsObject.Num(r.amount));
    var captured := Capture(env, w, r.processId, Initiation, data);
    WatchesCapture(env, w, r.processId, Initiation, data);
    WatchesObserve(env, captured, Initiated(r.processId, r.amount));
    WatchesTransitive(env, w, captured, Initiate(env, w, r), 0, 0);
  }

  lemma {:induction false} AdmitAllUnseen(env: Env, w: World, roster: seq<(string, string)>)
    ensures AdmitAll(env, w, roster).eye == w.eye
  {
    hide NextSnapshot, Saved;
    if roster != [] { AdmitAllUnseen(env, w, roster[..|roster| - 1]); }
  }

  lemma WatchesExecuted(env: Env, w: World, r: Request)
    ensures Watches(env, w, Executed(env, w, r).0, 0)
  {
    hide Watches, Observe, AdmitAll, WorkAll, ActiveIds, NextSnapshot;
    var q := r.processId;
    var (resolved, ids) := Resolve(env, w, r.nodeIds);
    AdmitAllUnseen(env, w, DEFAULT_NODES);
    WatchesSame(env, w, resolved);
    var data := JsObject.Single("nodes", JsObject.Texts(ids));
    var captured := Capture(env, resolved, q, TaskAssignment, data);
    WatchesCapture(env, resolved, q, TaskAssignment, data);
    WatchesTransitive(env, w, resolved, captured, 0, 0);
    WatchesObserve(env, captured, Assigned(|ids|));
    var recorded := RecordAssignment(env, resolved, q, ids);
    WatchesTransitive(env, w, captured, recorded, 0, 0);
    WatchesSame(env, recorded, Executed(env, w, r).0);
    WatchesTransitive(env, w, recorded, Executed(env, w, r).0, 0, 0);
  }

  lemma WatchesJudge(env: Env, w: World, q: string)
    ensures Watches(env, w, Judge(env, w, q), 0)
  {
    hide Watches, Observe, NextSnapshot, VerdictJournal, IssuedVerdict;
    VerifyDecides(env, w, q);
    var judged := Verify(env, w, q);
    var verified := judged.verdicts[q].verified;
    var data := JsObject.Single("verified", Flag(verified));
    var captured := Capture(env, judged, q, PotVerdict, data);
    WatchesSame(env, w, captured);
    WatchesObserve(env, captured, Judged(q, verified));
    WatchesTransitive(env, w, captured, Judge(env, w, q), 0, 0);
  }

  lemma WatchesProduce(env: Env, w: World, q: string, amount: real, epoch: int, ids: seq<string>)
    ensures Watches(env, w, Produce(env, w, q, amount, epoch, ids), 0)
  {
    hide Watches, Observe, NextSnapshot, Accrued, AccrualTick, ComputeFee;
    var data := JsObject.Single("minted", JsObject.Num(amount));
    var captured := Capture(env, Mint(env, w, q, amount), q, EmissionRecorded, data);
    WatchesSame(env, w, captured);
    WatchesObserve(env, captured, Minted(q, amount));
    var minted := MintStage(env, w, q, amount);
    WatchesTransitive(env, w, captured, minted, 0, 0);
    var burned := Burn(env, Accrue(minted, epoch, ComputeFee(amount), PartsFor(q, ids)), q, amount);
    WatchesSame(env, minted, burned);
    WatchesTransitive(env, w, minted, burned, 0, 0);
    WatchesObserve(env, burned, Burned(q, amount));
    WatchesTransitive(env, w, burned, Produce(env, w, q, amount, epoch, ids), 0, 0);
  }

  lemma WatchesClose(env: Env, w: World, q: string)
    requires Sound(env, w) && AtRest(w)
    ensures Watches(env, w, CloseStage(env, w, q), 0)
  {
    hide Watches, Observe, Capture, Sound, AtRest, Quiet, CompareSupply;
    var data := JsObject.Single("status", JsObject.Text("done"));
    var captured := Capture(env, w, q, FinalStatus, data);
    QuietCapture(env, w, q, FinalStatus, data);
    QuietRest(env, w, captured);
    WatchesCapture(env, w, q, FinalStatus, data);
    var observed := Observe(env, captured, Finished(q));
    QuietObserve(env, captured, Finished(q));
    QuietRest(env, captured, observed);
    WatchesObserve(env, captured, Finished(q));
    WatchesTransitive(env, w, captured, observed, 0, 0);
    NothingToReport(env, observed);
  }

  lemma WatchesRefuse(env: Env, w: World, q: string)
    requires Sound(env, w) && AtRest(w)
    ensures Watches(env, w, Refuse(env, w, q), 0)
  {
    hide Watches, Capture, Sound, AtRest, Quiet, CompareSupply;
    var data := JsObject.Single("status", JsObject.Text("rejected"));
    var captured := Capture(env, w, q, FinalStatus, data);
    QuietCapture(env, w, q, FinalStatus, data);
    QuietRest(env, w, captured);
    WatchesCapture(env, w, q, FinalStatus, data);
    NothingToReport(env, captured);
  }

  lemma WatchesDecided(env: Env, w: World, r: Request, ids: seq<string>)
    requires Sound(env, w) && AtRest(w) && r.amount > 0.0
    ensures r.processId in Judge(env, w, r.processId).verdicts
    ensures Watches(env, w, Decided(env, Judge(env, w, r.processId), r, ids).0, 0)
  {
    hide Watches, Sound, Quiet, Judge, Verify, Produce, CloseStage, Refuse, Volume, ComputeFee, Replay;
    var q := r.processId;
    VerifyDecides(env, w, q);
    SoundJudge(env, w, q);
    var judged := Judge(env, w, q);
    WatchesJudge(env, w, q);
    QuietReplay(env, Verify(env, w, q), judged);
    if judged.verdicts[q].verified {
      SoundProduce(env, judged, q, r.amount, EpochOf(r), ids);
      var produced := Produce(env, judged, q, r.amount, EpochOf(r), ids);
      WatchesProduce(env, judged, q, r.amount, EpochOf(r), ids);
      WatchesTransitive(env, w, judged, produced, 0, 0);
      WatchesClose(env, produced, q);
      WatchesTransitive(env, w, produced, CloseStage(env, produced, q), 0, 0);
    } else {
      WatchesRefuse(env, judged, q);
      WatchesTransitive(env, w, judged, Refuse(env, judged, q), 0, 0);
    }
  }

  lemma WatchesRun(env: Env, w: World, r: Request)
    requires Sound(env, w) && AtRest(w) && r.amount > 0.0
    ensures Watches(env, w, RunProcess(env, w, r).0, if r.admissible then 0 else 1)
  {
    hide Watches, Sound, AtRest, Quiet, Initiate, Observe, Judge, Resolve, RecordStages, RecordAssignment, WorkAll,
         Decided, Volume;
    var started := Initiate(env, w, r);
    WatchesInitiate(env, w, r);
    QuietInitiate(env, w, r);
    QuietRest(env, w, started);
    if !r.admissible {
      WatchesObserve(env, started, Rejected(r.processId));
      WatchesTransitive(env, w, started, RunProcess(env, w, r).0, 0, 1);
    } else {
      QuietExecuted(env, started, r);
      var (executed, ids, ok) := Executed(env, started, r);
      QuietRest(env, started, executed);
      WatchesExecuted(env, started, r);
      WatchesTransitive(env, w, started, executed, 0, 0);
      if ok {
        WatchesDecided(env, executed, r, ids);
        WatchesTransitive(env, w, executed, RunProcess(env, w, r).0, 0, 0);
      }
    }
  }

  lemma WatchesFinalize(env: Env, w: World, n: int)
    requires Sound(env, w) && AtRest(w)
    ensures Watches(env, w, FinalizeEpoch(env, w, n).0, 0)
  {
    hide Watches, Sound, Quiet, SettleEpoch, Observe, CompareSupply, Replay;
    SoundSettle(env, w, n);
    SettleLeaves(env, w, n);
    var (settled, outcome) := SettleEpoch(env, w, n);
    WatchesSame(env, w, settled);
    if outcome.Done? {
      var note := Distributed(n, outcome.result.paid, outcome.result.operationalMargin, outcome.result.reconciled);
      var observed := Observe(env, settled, note);
      QuietObserve(env, settled, note);
      QuietRest(env, settled, observed);
      WatchesObserve(env, settled, note);
      WatchesTransitive(env, w, settled, observed, 0, 0);
      NothingToReport(env, observed);
    }
  }

  /** The alarms a call deserves: one for a request that is not admissible. */
  function Deserved(c: Call): nat { if c.Run? && !c.request.admissible then 1 else 0 }

  function AllDeserved(calls: seq<Call>): nat
  {
    if calls == [] then 0 else AllDeserved(calls[..|calls| - 1]) + Deserved(calls[|calls| - 1])
  }

  lemma WatchesExec(env: Env, w: World, c: Call)
    requires Sound(env, w) && AtRest(w) && c.Valid()
    ensures Watches(env, w, Exec(env, w, c), Deserved(c))
  {
    hide Watches, Sound, AtRest, RunProcess, FinalizeEpoch, AuditChain, NextSnapshot, Employed, Intact, Evidence,
         FailureReasons, Volume, Accrued, AccrualTick;
    match c {
      case Run(r) => WatchesRun(env, w, r);
      case FinalizeCall(n) => WatchesFinalize(env, w, n);
      case Audit =>
        NothingToReport(env, w);
        WatchesSame(env, w, w);
      case _ => WatchesSame(env, w, Exec(env, w, c));
    }
  }

  /**
   * After any calls the oversight ledger audits as intact, and its alarms are the requests turned away,
   * one each: no supply drift and no chain break is ever reported.
   */
  lemma {:induction false} EyeReport(env: Env, calls: seq<Call>, states: seq<World>, i: nat)
    requires AllValid(calls) && IsRun(env, true, calls, states) && i <= |calls|
    ensures var w := states[i];
            && w.eye.Some?
            && EyeIntact(env, w.eye.value) && OnlyRejections(w.eye.value)
            && Alarms(w.eye.value) == AllDeserved(calls[..i])
  {
    hide Sound, AtRest, Exec, Alarms, EyeIntact, OnlyRejections, Deserved;
    if i == 0 {
      assert EyeIntact(env, []) && OnlyRejections([]) && Alarms([]) == 0 by { NothingSeen(env); }
    } else {
      EyeReport(env, calls, states, i - 1);
      Reachable(env, true, calls, states, i - 1);
      WatchesExec(env, states[i - 1], calls[i - 1]);
      assert calls[..i][..i - 1] == calls[..i - 1];
    }
  }

  lemma NothingSeen(env: Env)
    ensures EyeIntact(env, []) && OnlyRejections([]) && Alarms([]) == 0
  {
  }
}
