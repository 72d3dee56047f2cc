/**
 * Replaying the log. One fold over NodeChain rebuilds every durable figure; `Sound` says that the
 * rows the services keep are exactly what the replay yields.
 */
module EventSourcing {
  import opened Folds
  import opened Events
  import opened NodeChain
  import opened Reserve

  /** How far the emission records pair off as mint then burn of the same amount and process. */
  datatype Pairing = Settled | Awaiting(processId: string, amount: real) | Unpaired

  datatype Tally = Tally(
    minted: real, burned: real, paid: real, afc: real, margins: real, volume: real,
    verdicts: map<string, bool>, verdictCount: nat,
    closings: map<int, Payload>, closingCount: nat,
    releases: seq<Payload>,
    mints: multiset<string>,   // the processes of the mints so far
    pairing: Pairing,
    gated: bool)   // every mint so far came after a positive verdict of its process

  const BLANK := Tally(0.0, 0.0, 0.0, 0.0, 0.0, 0.0, map[], 0, map[], 0, [], multiset{}, Settled, true)

  function Step(t: Tally, s: Snapshot): Tally
  {
    match (s.eventType, s.payload)
    case (PotVerified, VerdictRecord(p, verified, _)) =>
      t.(verdicts := if p in t.verdicts then t.verdicts else t.verdicts[p := verified],
         verdictCount := t.verdictCount + 1)
    case (EmissionMinted, MintRecord(p, amount)) =>
      t.(minted := t.minted + amount, volume := t.volume + amount,
         mints := t.mints + multiset{p},
         gated := t.gated && p in t.verdicts && t.verdicts[p],
         pairing := if t.pairing == Settled then Awaiting(p, amount) else Unpaired)
    case (EmissionBurned, BurnRecord(p, amount)) =>
      t.(burned := t.burned + amount,
         pairing := if t.pairing == Awaiting(p, amount) then Settled else Unpaired)
    case (NodePaymentReceived, PaymentRecord(_, amount, _)) => t.(paid := t.paid + amount)
    case (AfcAccrual, AfcRecord(amount)) => t.(afc := t.afc + amount)
    case (EpochFinalized, EpochRecord(n, _, margin, _, _, _)) =>
      t.(margins := t.margins + margin, volume := t.volume + (if margin > 0.0 then margin else 0.0),
         closings := if n in t.closings then t.closings else t.closings[n := s.payload],
         closingCount := t.closingCount + 1)
    case (ReleaseActivated, ReleaseRecord(_, _, _, _)) => t.(releases := t.releases + [s.payload])
    case _ => t
  }

  function Replay(c: Chain): Tally
  {
    if c == [] then BLANK else Step(Replay(c[..|c| - 1]), c[|c| - 1])
  }

  lemma ReplaySnoc(c: Chain, s: Snapshot)
    ensures Replay(c + [s]) == Step(Replay(c), s)
  {
    assert (c + [s])[..|c|] == c;
  }

  function MintedIn(s: Snapshot): real
  {
    if s.eventType == EmissionMinted && s.payload.MintRecord? then s.payload.minted else 0.0
  }
  function BurnedIn(s: Snapshot): real
  {
    if s.eventType == EmissionBurned && s.payload.BurnRecord? then s.payload.burned else 0.0
  }
  function ReceivedIn(s: Snapshot): real
  {
    if s.eventType == NodePaymentReceived && s.payload.PaymentRecord? then s.payload.amount else 0.0
  }
  function MarginIn(s: Snapshot): real
  {
    if s.eventType == EpochFinalized && s.payload.EpochRecord? then s.payload.operationalMargin else 0.0
  }

  lemma StepAddsIssued(t: Tally, s: Snapshot)
    ensures Step(t, s).minted == t.minted + MintedIn(s)
    ensures Step(t, s).burned == t.burned + BurnedIn(s)
  {
  }

  lemma StepAddsPaid(t: Tally, s: Snapshot)
    ensures Step(t, s).paid == t.paid + ReceivedIn(s)
  {
  }

  lemma StepAddsMargin(t: Tally, s: Snapshot)
    ensures Step(t, s).margins == t.margins + MarginIn(s)
    ensures Step(t, s).afc == t.afc + AfcOf(s)
  {
  }

  lemma StepAddsVolume(t: Tally, s: Snapshot)
    ensures Step(t, s).volume == t.volume + MintedIn(s) + (if MarginIn(s) > 0.0 then MarginIn(s) else 0.0)
  {
  }

  lemma StepAddsReserve(t: Tally, s: Snapshot)
    ensures Step(t, s).margins == t.margins + MarginIn(s)
    ensures Step(t, s).volume == t.volume + VolumeOf(s)
    ensures Step(t, s).afc == t.afc + AfcOf(s)
  {
    assert VolumeOf(s) == MintedIn(s) + (if MarginIn(s) > 0.0 then MarginIn(s) else 0.0);
    hide Step, VolumeOf, MarginIn, MintedIn, AfcOf;
    StepAddsMargin(t, s);
    StepAddsVolume(t, s);
  }

  /** The tallies of the replay are plain sums over the log, and those Reserve computes are among them. */
  lemma {:induction false} ReplayIsSums(c: Chain)
    ensures Replay(c).minted == Sum(MintedIn, c) && Replay(c).burned == Sum(BurnedIn, c)
    ensures Replay(c).paid == Sum(ReceivedIn, c) && Replay(c).margins == Sum(MarginIn, c)
    ensures Volume(c) == Replay(c).volume && AfcTotal(c) == Replay(c).afc
  {
    hide Step, MintedIn, BurnedIn, ReceivedIn, MarginIn, VolumeOf, AfcOf;
    if c != [] {
      ReplayIsSums(c[..|c| - 1]);
      StepAddsIssued(Replay(c[..|c| - 1]), c[|c| - 1]);
      StepAddsPaid(Replay(c[..|c| - 1]), c[|c| - 1]);
      StepAddsReserve(Replay(c[..|c| - 1]), c[|c| - 1]);
    }
  }

  predicate IsMint(s: Snapshot) { s.eventType == EmissionMinted && s.payload.MintRecord? }

  /** How often a log mints a process. */
  function MintsOf(c: Chain, processId: string): nat
  {
    if c == [] then 0
    else
      var front, last := MintsOf(c[..|c| - 1], processId), c[|c| - 1];
      if IsMint(last) && last.payload.processId == processId then front + 1 else front
  }

  lemma StepMints(t: Tally, s: Snapshot)
    ensures Step(t, s).mints == t.mints + if IsMint(s) then multiset{s.payload.processId} else multiset{}
  {
  }

  lemma {:induction false} MintsMeaning(c: Chain, processId: string)
    ensures Replay(c).mints[processId] == MintsOf(c, processId)
  {
    hide Step, IsMint;
    if c != [] {
      MintsMeaning(c[..|c| - 1], processId);
      StepMints(Replay(c[..|c| - 1]), c[|c| - 1]);
    }
  }

  ghost predicate IsPositiveVerdict(s: Snapshot, processId: string)
  {
    s.eventType == PotVerified && s.payload.VerdictRecord? && s.payload.processId == processId && s.payload.verified
  }

  /** A gated log: every mint is preceded by a positive verdict of the same process. */
  lemma {:induction false} GateMeaning(c: Chain)
    ensures forall p :: p in Replay(c).verdicts && Replay(c).verdicts[p] ==>
              exists i :: 0 <= i < |c| && IsPositiveVerdict(c[i], p)
    ensures Replay(c).gated ==>
              forall k :: 0 <= k < |c| && IsMint(c[k]) ==>
                exists i :: 0 <= i < k && IsPositiveVerdict(c[i], c[k].payload.processId)
  {
    if c != [] {
      var n := |c| - 1;
      var front := c[..n];
      GateMeaning(front);
      forall p | p in Replay(c).verdicts && Replay(c).verdicts[p]
        ensures exists i :: 0 <= i < |c| && IsPositiveVerdict(c[i], p)
      {
        if p in Replay(front).verdicts && Replay(front).verdicts[p] {
          var i :| 0 <= i < |front| && IsPositiveVerdict(front[i], p);
          assert IsPositiveVerdict(c[i], p);
        } else {
          assert IsPositiveVerdict(c[n], p);
        }
      }
      if Replay(c).gated {
        forall k | 0 <= k < |c| && IsMint(c[k])
          ensures exists i :: 0 <= i < k && IsPositiveVerdict(c[i], c[k].payload.processId)
        {
          if k < n {
            assert IsMint(front[k]);
            var i :| 0 <= i < k && IsPositiveVerdict(front[i], front[k].payload.processId);
            assert IsPositiveVerdict(c[i], c[k].payload.processId);
          } else {
            var p := c[k].payload.processId;
            assert p in Replay(front).verdicts && Replay(front).verdicts[p];
            var i :| 0 <= i < |front| && IsPositiveVerdict(front[i], p);
            assert IsPositiveVerdict(c[i], p);
          }
        }
      }
    }
  }

  predicate IsEmission(s: Snapshot)
  {
    (s.eventType == EmissionMinted && s.payload.MintRecord?) || (s.eventType == EmissionBurned && s.payload.BurnRecord?)
  }

  /** The emission records of a log, in order. */
  function Emissions(c: Chain): seq<Payload>
  {
    if c == [] then []
    else
      var front, last := Emissions(c[..|c| - 1]), c[|c| - 1];
      if IsEmission(last) then front + [last.payload] else front
  }

  /** mint(p, a), burn(p, a), mint(q, b), burn(q, b), ... */
  ghost predicate PairsOff(es: seq<Payload>)
  {
    var n := |es|;
    es == [] ||
    (n >= 2
     && es[n - 2].MintRecord? && es[n - 1] == BurnRecord(es[n - 2].processId, es[n - 2].minted)
     && PairsOff(es[..n - 2]))
  }

  /** What the pairing state says about the emission records so far. */
  ghost predicate PairingRight(pairing: Pairing, es: seq<Payload>)
  {
    match pairing
    case Settled => PairsOff(es)
    case Awaiting(p, a) => es != [] && PairsOff(es[..|es| - 1]) && es[|es| - 1] == MintRecord(p, a)
    case Unpaired => true
  }

  /** How one record moves the pairing. */
  ghost predicate PairingMoves(before: Pairing, s: Snapshot, after: Pairing)
  {
    if IsMint(s) then
      after == if before == Settled then Awaiting(s.payload.processId, s.payload.minted) else Unpaired
    else if IsEmission(s) then
      after == if before == Awaiting(s.payload.processId, s.payload.burned) then Settled else Unpaired
    else after == before
  }

  lemma StepPairing(t: Tally, s: Snapshot)
    ensures PairingMoves(t.pairing, s, Step(t, s).pairing)
  {
  }

  lemma MintPairs(es: seq<Payload>, mint: Payload)
    requires PairsOff(es) && mint.MintRecord?
    ensures PairingRight(Awaiting(mint.processId, mint.minted), es + [mint])
  {
    assert (es + [mint])[..|es|] == es;
  }

  lemma BurnPairs(es: seq<Payload>, burn: Payload)
    requires burn.BurnRecord? && PairingRight(Awaiting(burn.processId, burn.burned), es)
    ensures PairsOff(es + [burn])
  {
    assert (es + [burn])[..|es| - 1] == es[..|es| - 1];
  }

  lemma {:induction false} PairingMeaning(c: Chain)
    ensures PairingRight(Replay(c).pairing, Emissions(c))
  {
    assert PairsOff([]);
    hide Step, PairsOff;
    if c != [] {
      var front, s := c[..|c| - 1], c[|c| - 1];
      PairingMeaning(front);
      StepPairing(Replay(front), s);
      if IsEmission(s) && IsMint(s) && Replay(front).pairing == Settled { MintPairs(Emissions(front), s.payload); }
      if s.payload.BurnRecord? && Replay(front).pairing == Awaiting(s.payload.processId, s.payload.burned) {
        BurnPairs(Emissions(front), s.payload);
      }
    }
  }

}
