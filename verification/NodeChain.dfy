/** The append-only, hash-linked system of record, and its audit. */
module NodeChain {
  import opened Events
  import opened Clock

  datatype Snapshot = Snapshot(
    sequenceId: int, eventType: EventType, payload: Payload,
    timestamp: int, prevHash: string, hash: string)

  type Chain = seq<Snapshot>

  /** What is hashed: neither the event type nor the timestamp is part of it. */
  function Preimage(env: Env, payload: Payload, prevHash: string, sequenceId: int): string
  {
    env.stringify(payload) + prevHash + env.number(sequenceId)
  }

  /** The link the entry after the first `k` must carry. */
  function LinkAt(c: Chain, k: nat): string
    requires k <= |c|
  {
    if k == 0 then "" else c[k - 1].hash
  }

  function NextSnapshot(env: Env, c: Chain, eventType: EventType, payload: Payload, timestamp: int): Snapshot
  {
    var sequenceId := if c == [] then 1 else c[|c| - 1].sequenceId + 1;
    var prevHash := LinkAt(c, |c|);
    Snapshot(sequenceId, eventType, payload, timestamp, prevHash,
             env.sha256(Preimage(env, payload, prevHash, sequenceId)))
  }

  ghost predicate LinkedAt(env: Env, c: Chain, k: nat)
    requires k < |c|
  {
    && c[k].prevHash == LinkAt(c, k)
    && c[k].hash == env.sha256(Preimage(env, c[k].payload, LinkAt(c, k), c[k].sequenceId))
  }

  ghost predicate Intact(env: Env, c: Chain)
  {
    forall k :: 0 <= k < |c| ==> LinkedAt(env, c, k)
  }

  ghost predicate FirstBroken(env: Env, c: Chain, k: int)
  {
    && 0 <= k < |c|
    && !LinkedAt(env, c, k)
    && forall j :: 0 <= j < k ==> LinkedAt(env, c, j)
  }

  /** A chain that is not intact has a first broken position, and only one. */
  lemma {:induction false} BreakExists(env: Env, c: Chain, n: nat)
    requires n <= |c| && !(forall k :: 0 <= k < n ==> LinkedAt(env, c, k))
    ensures exists k :: FirstBroken(env, c, k)
  {
    if forall k :: 0 <= k < n - 1 ==> LinkedAt(env, c, k) {
      assert FirstBroken(env, c, n - 1);
    } else {
      BreakExists(env, c, n - 1);
    }
  }

  /** The sequence id the audit reports for a broken chain. */
  ghost function BreakId(env: Env, c: Chain): int
    requires !Intact(env, c)
  {
    BreakExists(env, c, |c|);
    var k :| FirstBroken(env, c, k);
    c[k].sequenceId
  }

  /** Positions carry the sequence ids 1, 2, 3, ... */
  ghost predicate Numbered(c: Chain)
  {
    forall k :: 0 <= k < |c| ==> c[k].sequenceId == k + 1
  }

  /** Every append keeps the audit positive and the numbering dense. */
  lemma AppendKeepsIntact(env: Env, c: Chain, eventType: EventType, payload: Payload, timestamp: int)
    requires Intact(env, c)
    ensures Intact(env, c + [NextSnapshot(env, c, eventType, payload, timestamp)])
    ensures Numbered(c) ==> Numbered(c + [NextSnapshot(env, c, eventType, payload, timestamp)])
  {
    var c' := c + [NextSnapshot(env, c, eventType, payload, timestamp)];
    forall k | 0 <= k < |c'| ensures LinkedAt(env, c', k) {
      assert LinkAt(c', k) == LinkAt(c, k);
      if k < |c| { assert LinkedAt(env, c, k); }
    }
  }

  /** The clock and the chain together: what every append advances. */
  datatype Journal = Journal(tick: int, chain: Chain)

  function Log(env: Env, j: Journal, eventType: EventType, payload: Payload): Journal
  {
    Journal(j.tick + 1, j.chain + [NextSnapshot(env, j.chain, eventType, payload, j.tick + 1)])
  }

  function Tick(j: Journal): Journal { j.(tick := j.tick + 1) }

  datatype Audit = Ok | BrokenAt(sequenceId: int)

  class NodeChainService {
    const env: Env
    const clock: ClockService
    var snapshots: Chain

    constructor (env: Env, clock: ClockService)
      ensures this.env == env && this.clock == clock && snapshots == []
    {
      this.env := env;
      this.clock := clock;
      snapshots := [];
    }

    ghost function View(): Journal
      reads this, clock
    {
      Journal(clock.t, snapshots)
    }

    method Append(eventType: EventType, payload: Payload) returns (snapshot: Snapshot)
      modifies this, clock
      ensures View() == Log(env, old(View()), eventType, payload)
      ensures snapshots == old(snapshots) + [snapshot]
    {
      var sequenceId := 1;
      var prevHash := "";
      if snapshots != [] {
        var head := snapshots[|snapshots| - 1];
        sequenceId := head.sequenceId + 1;
        prevHash := head.hash;
      }
      var hash := env.sha256(Preimage(env, payload, prevHash, sequenceId));
      var timestamp := clock.Now();
      snapshot := Snapshot(sequenceId, eventType, payload, timestamp, prevHash, hash);
      snapshots := snapshots + [snapshot];
    }

    /** Replays every link from genesis; names the first divergent record. */
    method Reconstruct() returns (audit: Audit)
      ensures audit.Ok? <==> Intact(env, snapshots)
      ensures audit.BrokenAt? ==>
                exists k :: FirstBroken(env, snapshots, k) && audit.sequenceId == snapshots[k].sequenceId
      ensures !Intact(env, snapshots) ==> audit == BrokenAt(BreakId(env, snapshots))
    {
      var expectedPrevHash := "";
      for i := 0 to |snapshots|
        invariant expectedPrevHash == LinkAt(snapshots, i)
        invariant forall j :: 0 <= j < i ==> LinkedAt(env, snapshots, j)
      {
        var snap := snapshots[i];
        var expectedHash := env.sha256(Preimage(env, snap.payload, expectedPrevHash, snap.sequenceId));
        if snap.prevHash != expectedPrevHash || snap.hash != expectedHash {
          assert FirstBroken(env, snapshots, i);
          return BrokenAt(snap.sequenceId);
        }
        expectedPrevHash := snap.hash;
      }
      return Ok;
    }
  }
}
