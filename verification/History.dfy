/** The log as the single source of truth: what it says about every reachable state, now and later. */
module History {
  import opened Folds
  import opened Events
  import opened NodeChain
  import opened Reserve
  import opened Release
  import opened Lifecycle
  import opened EventSourcing
  import opened Soundness
  import opened CallInvariants
  import opened Progression

  // ----- reading verdicts, closings and releases off the log -----

  predicate IsVerdict(s: Snapshot) { s.eventType == PotVerified && s.payload.VerdictRecord? }

  predicate IsClosing(s: Snapshot) { s.eventType == EpochFinalized && s.payload.EpochRecord? }

  predicate IsRelease(s: Snapshot) { s.eventType == ReleaseActivated && s.payload.ReleaseRecord? }

  /** The bodies of the log's records of one kind, in order. */
  function Records(c: Chain, kind: Snapshot -> bool): seq<Payload>
  {
    if c == [] then []
    else
      var front, last := Records(c[..|c| - 1], kind), c[|c| - 1];
      if kind(last) then front + [last.payload] else front
  }

  lemma {:induction false} RecordsExtend(c: Chain, c': Chain, kind: Snapshot -> bool)
    requires c <= c'
    ensures Records(c, kind) <= Records(c', kind)
    decreases |c'|
  {
    if c != c' {
      RecordsExtend(c, c'[..|c'| - 1], kind);
    }
  }

  /** The verdict records are those of the table, one per process. */
  ghost predicate VerdictsRead(vs: seq<Payload>, verdicts: map<string, bool>)
  {
    && (forall i :: 0 <= i < |vs| ==>
        vs[i].VerdictRecord? && vs[i].processId in verdicts && verdicts[vs[i].processId] == vs[i].verified)
    && (forall p :: p in verdicts ==> exists i :: 0 <= i < |vs| && vs[i].VerdictRecord? && vs[i].processId == p)
    && (forall i, j :: 0 <= i < j < |vs| ==> vs[i].processId != vs[j].processId)
  }

  /** The closing records are those of the index, one per epoch. */
  ghost predicate ClosingsRead(cs: seq<Payload>, closings: map<int, Payload>)
  {
    && (forall i :: 0 <= i < |cs| ==>
        cs[i].EpochRecord? && cs[i].epochNumber in closings && closings[cs[i].epochNumber] == cs[i])
    && (forall n :: n in closings ==> exists i :: 0 <= i < |cs| && cs[i].EpochRecord? && cs[i].epochNumber == n)
    && (forall i, j :: 0 <= i < j < |cs| ==> cs[i].epochNumber != cs[j].epochNumber)
  }

  /** What one record adds to the indexes of a replay. */
  lemma StepIndexes(t: Tally, s: Snapshot)
    ensures !IsVerdict(s) ==> Step(t, s).verdicts == t.verdicts && Step(t, s).verdictCount == t.verdictCount
    ensures IsVerdict(s) ==>
              && Step(t, s).verdictCount == t.verdictCount + 1
              && Step(t, s).verdicts == (if s.payload.processId in t.verdicts then t.verdicts
                                         else t.verdicts[s.payload.processId := s.payload.verified])
    ensures !IsClosing(s) ==> Step(t, s).closings == t.closings && Step(t, s).closingCount == t.closingCount
    ensures IsClosing(s) ==>
              && Step(t, s).closingCount == t.closingCount + 1
              && Step(t, s).closings == (if s.payload.epochNumber in t.closings then t.closings
                                         else t.closings[s.payload.epochNumber := s.payload])
    ensures Step(t, s).releases == if IsRelease(s) then t.releases + [s.payload] else t.releases
  {
  }

  lemma VerdictsSnoc(vs: seq<Payload>, verdicts: map<string, bool>, v: Payload)
    requires VerdictsRead(vs, verdicts) && v.VerdictRecord? && v.processId !in verdicts
    ensures VerdictsRead(vs + [v], verdicts[v.processId := v.verified])
  {
    var vs', verdicts' := vs + [v], verdicts[v.processId := v.verified];
    forall p | p in verdicts' ensures exists i :: 0 <= i < |vs'| && vs'[i].VerdictRecord? && vs'[i].processId == p {
      if p != v.processId {
        var i :| 0 <= i < |vs| && vs[i].VerdictRecord? && vs[i].processId == p;
        assert vs'[i] == vs[i];
      } else {
        assert vs'[|vs|] == v;
      }
    }
  }

  lemma ClosingsSnoc(cs: seq<Payload>, closings: map<int, Payload>, r: Payload)
    requires ClosingsRead(cs, closings) && r.EpochRecord? && r.epochNumber !in closings
    ensures ClosingsRead(cs + [r], closings[r.epochNumber := r])
  {
    var cs', closings' := cs + [r], closings[r.epochNumber := r];
    forall n | n in closings' ensures exists i :: 0 <= i < |cs'| && cs'[i].EpochRecord? && cs'[i].epochNumber == n {
      if n != r.epochNumber {
        var i :| 0 <= i < |cs| && cs[i].EpochRecord? && cs[i].epochNumber == n;
        assert cs'[i] == cs[i];
      } else {
        assert cs'[|cs|] == r;
      }
    }
  }

  /** When the log holds no more verdict records than processes judged, it is the verdict table. */
  lemma {:induction false} VerdictsMeaning(c: Chain)
    ensures |Replay(c).verdicts| <= Replay(c).verdictCount
    ensures Replay(c).verdictCount == |Replay(c).verdicts| ==> VerdictsRead(Records(c, IsVerdict), Replay(c).verdicts)
  {
    assert VerdictsRead([], map[]);
    hide Step, VerdictsRead, IsVerdict;
    if c != [] {
      var front, last := c[..|c| - 1], c[|c| - 1];
      VerdictsMeaning(front);
      StepIndexes(Replay(front), last);
      if IsVerdict(last) && Replay(c).verdictCount == |Replay(c).verdicts| {
        RecordShape(last);
        VerdictsSnoc(Records(front, IsVerdict), Replay(front).verdicts, last.payload);
      }
    }
  }

  lemma {:induction false} ClosingsMeaning(c: Chain)
    ensures |Replay(c).closings| <= Replay(c).closingCount
    ensures Replay(c).closingCount == |Replay(c).closings| ==> ClosingsRead(Records(c, IsClosing), Replay(c).closings)
  {
    assert ClosingsRead([], map[]);
    hide Step, ClosingsRead, IsClosing;
    if c != [] {
      var front, last := c[..|c| - 1], c[|c| - 1];
      ClosingsMeaning(front);
      StepIndexes(Replay(front), last);
      if IsClosing(last) && Replay(c).closingCount == |Replay(c).closings| {
        RecordShape(last);
        ClosingsSnoc(Records(front, IsClosing), Replay(front).closings, last.payload);
      }
    }
  }

  lemma RecordShape(s: Snapshot)
    ensures IsVerdict(s) ==> s.payload.VerdictRecord?
    ensures IsClosing(s) ==> s.payload.EpochRecord?
  {
  }

  lemma {:induction false} ReleasesMeaning(c: Chain)
    ensures Replay(c).releases == Records(c, IsRelease)
  {
    hide Step, IsRelease;
    if c != [] {
      ReleasesMeaning(c[..|c| - 1]);
      StepIndexes(Replay(c[..|c| - 1]), c[|c| - 1]);
    }
  }

  // ----- every reachable state is its log -----

  /**
   * After any calls: the tallies are the log sums, the verdict table is the map read from the verdict
   * records, one per process, and the reserve figures are the logged margins.
   */
  lemma EventSourced(env: Env, watched: bool, calls: seq<Call>, states: seq<World>, i: nat)
    requires AllValid(calls) && IsRun(env, watched, calls, states) && i <= |calls|
    ensures var w := states[i];
            var c := w.journal.chain;
            && w.coin.processMinted == Sum(MintedIn, c)
            && w.coin.processBurned == Sum(BurnedIn, c)
            && w.coin.earnedRetained == Sum(ReceivedIn, c)
            && AfcTotal(c) == Sum(MarginIn, c)
            && Volume(c) == w.coin.processMinted + Sum(MarginIn, c)
    ensures var w := states[i];
            VerdictsRead(Records(w.journal.chain, IsVerdict), map p | p in w.verdicts :: w.verdicts[p].verified)
  {
    hide Exec, Replay, Chained, EpochsMatch, PhaseMatches, MintedIn, BurnedIn, ReceivedIn, MarginIn, VerdictsRead,
         AtRest, Records;
    var w := states[i];
    Reachable(env, watched, calls, states, i);
    ReplayIsSums(w.journal.chain);
    VerdictsMeaning(w.journal.chain);
    assert (map p | p in w.verdicts :: w.verdicts[p].verified) == Replay(w.journal.chain).verdicts;
  }

  /**
   * After any calls: the emission records of the whole log pair off as mint and burn of the same
   * process and amount, and every mint stands behind a positive verdict of its process.
   */
  lemma EmissionDiscipline(env: Env, watched: bool, calls: seq<Call>, states: seq<World>, i: nat)
    requires AllValid(calls) && IsRun(env, watched, calls, states) && i <= |calls|
    ensures var c := states[i].journal.chain;
            && PairsOff(Emissions(c))
            && forall k :: 0 <= k < |c| && IsMint(c[k]) ==>
                 exists j :: 0 <= j < k && IsPositiveVerdict(c[j], c[k].payload.processId)
  {
    hide Exec, Replay, Chained, EpochsMatch, PhaseMatches, CoinMatches, VerdictsMatch, ReserveMatches, AllWell,
         PairsOff;
    var w := states[i];
    Reachable(env, watched, calls, states, i);
    GateMeaning(w.journal.chain);
    PairingMeaning(w.journal.chain);
  }

  // ----- nothing is taken back -----

  /** The log is append-only, and a verdict, once issued, is the verdict for good. */
  lemma RecordsAreFinal(env: Env, watched: bool, calls: seq<Call>, states: seq<World>, i: nat, j: nat)
    requires AllValid(calls) && IsRun(env, watched, calls, states) && i <= j <= |calls|
    ensures states[i].journal.chain <= states[j].journal.chain
    ensures forall p :: p in states[i].verdicts ==>
              p in states[j].verdicts && states[j].verdicts[p] == states[i].verdicts[p]
  {
    hide Replay, ClosedKept, Exec;
    RunAdvances(env, watched, calls, states, i, j);
  }

  ghost predicate Monotone(f: real -> real) { forall x, y :: 0.0 <= x <= y ==> f(x) <= f(y) }

  /** Confirmed volume never falls, so neither does the reserve index of a monotone logarithm. */
  lemma ReserveNeverFalls(env: Env, watched: bool, calls: seq<Call>, states: seq<World>, i: nat, j: nat)
    requires AllValid(calls) && IsRun(env, watched, calls, states) && i <= j <= |calls|
    ensures 0.0 <= Volume(states[i].journal.chain) <= Volume(states[j].journal.chain)
    ensures Monotone(env.log10) ==>
              ReserveIndex(env, states[i].journal.chain) <= ReserveIndex(env, states[j].journal.chain)
  {
    assert Volume([]) == 0.0;
    hide Replay, ClosedKept, VerdictsKept, Volume, Exec;
    RunAdvances(env, watched, calls, states, i, j);
    RunAdvances(env, watched, calls, states, 0, i);
    ReplayIsSums(states[0].journal.chain);
    ReplayIsSums(states[i].journal.chain);
    ReplayIsSums(states[j].journal.chain);
  }

  /** What makes an activation legitimate: the recorded figures exceed the recorded bounds, and the row shows them. */
  ghost predicate Justified(phase: Phase, record: Payload)
  {
    && record.ReleaseRecord?
    && record.reserveIndex > record.threshold && record.velocity > record.target
    && phase.reserveIndexAtActivation == Some(record.reserveIndex)
    && phase.velocityAtActivation == Some(record.velocity)
  }

  /** After any calls the phase is active exactly when the log holds one activation, and that one is justified. */
  lemma ReleaseJustified(env: Env, watched: bool, calls: seq<Call>, states: seq<World>, i: nat)
    requires AllValid(calls) && IsRun(env, watched, calls, states) && i <= |calls|
    ensures var w := states[i];
            var releases := Records(w.journal.chain, IsRelease);
            && |releases| <= 1
            && (w.phase.active <==> |releases| == 1)
            && (w.phase.active ==> Justified(w.phase, releases[0]))
            && (!w.phase.active ==> w.phase == INACTIVE)
  {
    hide AtRest, Exec, Replay, Chained, EpochsMatch, CoinMatches, VerdictsMatch, ReserveMatches, EmissionsMatch,
         AllWell;
    Reachable(env, watched, calls, states, i);
    ReleasesMeaning(states[i].journal.chain);
  }

  /** The release is one-way: an active phase and its record stay what they were. */
  lemma ReleaseIsForever(env: Env, watched: bool, calls: seq<Call>, states: seq<World>, i: nat, j: nat)
    requires AllValid(calls) && IsRun(env, watched, calls, states) && i <= j <= |calls|
    ensures states[i].phase.active ==>
              states[j].phase == states[i].phase
              && Records(states[j].journal.chain, IsRelease) == Records(states[i].journal.chain, IsRelease)
  {
    hide Replay, ClosedKept, VerdictsKept, Exec, Records;
    RunAdvances(env, watched, calls, states, i, j);
    ReleaseJustified(env, watched, calls, states, i);
    ReleaseJustified(env, watched, calls, states, j);
    RecordsExtend(states[i].journal.chain, states[j].journal.chain, IsRelease);
  }

  /** Nothing can be released before some epoch has paid its nodes: without supply there is no velocity. */
  lemma NoReleaseWithoutEarnings(env: Env, watched: bool, calls: seq<Call>, states: seq<World>, i: nat,
                                 threshold: real, target: real, processVolume24h: real)
    requires AllValid(calls) && IsRun(env, watched, calls, states) && i <= |calls| && target >= 0.0
    ensures var w := states[i];
            Sum(ReceivedIn, w.journal.chain) == 0.0 ==>
                ActivateRelease(env, w, threshold, target, processVolume24h) == w
  {
    hide Exec, AtRest, Sound, Replay, Velocity, Volume, ReceivedIn, NextSnapshot;
    var w := states[i];
    Reachable(env, watched, calls, states, i);
    EventSourced(env, watched, calls, states, i);
    SupplyIsRetained(env, w);
    VelocityExceeds(w.coin.TotalSupply(), processVolume24h, target);
  }
}
