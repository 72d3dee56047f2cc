/** The passive observer: its own hash-linked ledger, and comparisons that change nothing else. */
module AllSeeingEye {
  import opened Events
  import opened Clock
  import opened NodeChain

  datatype Entry = Entry(id: int, eventType: string, layer: string, description: string,
                         hash: string, prevHash: string, timestamp: int)

  type Oversight = seq<Entry>

  const GENESIS := "GENESIS"

  function EyeLinkAt(log: Oversight, k: nat): string
    requires k <= |log|
  {
    if k == 0 then GENESIS else log[k - 1].hash
  }

  function EyePreimage(env: Env, eventType: string, layer: string, description: string, prevHash: string,
                       timestamp: int): string
  {
    eventType + layer + description + prevHash + env.number(timestamp)
  }

  function NextEntry(env: Env, log: Oversight, eventType: string, layer: string, description: string,
                     timestamp: int): Entry
  {
    var prevHash := EyeLinkAt(log, |log|);
    Entry(if log == [] then 1 else log[|log| - 1].id + 1, eventType, layer, description,
          env.sha256(EyePreimage(env, eventType, layer, description, prevHash, timestamp)), prevHash, timestamp)
  }

  function Noted(env: Env, log: Oversight, note: Note, timestamp: int): Entry
  {
    NextEntry(env, log, note.EventName(), note.Layer(), env.describe(note), timestamp)
  }

  ghost predicate EyeLinkedAt(env: Env, log: Oversight, k: nat)
    requires k < |log|
  {
    && log[k].prevHash == EyeLinkAt(log, k)
    && log[k].hash == env.sha256(EyePreimage(env, log[k].eventType, log[k].layer, log[k].description,
                                             EyeLinkAt(log, k), log[k].timestamp))
  }

  ghost predicate EyeIntact(env: Env, log: Oversight)
  {
    forall k :: 0 <= k < |log| ==> EyeLinkedAt(env, log, k)
  }

  lemma EntryKeepsIntact(env: Env, log: Oversight, eventType: string, layer: string, description: string,
                         timestamp: int)
    requires EyeIntact(env, log)
    ensures EyeIntact(env, log + [NextEntry(env, log, eventType, layer, description, timestamp)])
  {
    var log' := log + [NextEntry(env, log, eventType, layer, description, timestamp)];
    forall k | 0 <= k < |log'| ensures EyeLinkedAt(env, log', k) {
      assert EyeLinkAt(log', k) == EyeLinkAt(log, k);
      if k < |log| { assert EyeLinkedAt(env, log, k); }
    }
  }

  class AllSeeingEyeService {
    const env: Env
    const clock: ClockService
    const nodeChain: NodeChainService
    var entries: Oversight

    constructor (nodeChain: NodeChainService)
      ensures this.env == nodeChain.env && this.clock == nodeChain.clock && this.nodeChain == nodeChain && entries == []
    {
      this.env := nodeChain.env;
      this.clock := nodeChain.clock;
      this.nodeChain := nodeChain;
      entries := [];
    }

    method Log(eventType: string, layer: string, description: string)
      modifies this, clock
      ensures clock.t == old(clock.t) + 1
      ensures entries == old(entries) + [NextEntry(env, old(entries), eventType, layer, description, clock.t)]
    {
      var prevHash := GENESIS;
      var id := 1;
      if entries != [] {
        var head := entries[|entries| - 1];
        prevHash := head.hash;
        id := head.id + 1;
      }
      var timestamp := clock.Now();
      var hash := env.sha256(EyePreimage(env, eventType, layer, description, prevHash, timestamp));
      entries := entries + [Entry(id, eventType, layer, description, hash, prevHash, timestamp)];
    }

    /** Records a note under its event name and layer. */
    method Observe(note: Note)
      modifies this, clock
      ensures clock.t == old(clock.t) + 1
      ensures entries == old(entries) + [Noted(env, old(entries), note, clock.t)]
    {
      Log(note.EventName(), note.Layer(), env.describe(note));
    }

    method CompareSupply(totalSupply: real, retained: real) returns (consistent: bool)
      modifies this, clock
      ensures consistent <==> totalSupply == retained
      ensures consistent ==> entries == old(entries) && clock.t == old(clock.t)
      ensures !consistent ==>
                var note := SupplyDrift(totalSupply, retained);
                && clock.t == old(clock.t) + 1
                && entries == old(entries) + [Noted(env, old(entries), note, clock.t)]
    {
      consistent := totalSupply == retained;
      if !consistent {
        Observe(SupplyDrift(totalSupply, retained));
      }
    }

    /** Audits NodeChain; an anomaly is logged exactly when the chain is broken. */
    method VerifyChain() returns (audit: Audit)
      modifies this, clock
      ensures audit.Ok? <==> Intact(nodeChain.env, nodeChain.snapshots)
      ensures audit.BrokenAt? ==> audit == BrokenAt(BreakId(nodeChain.env, nodeChain.snapshots))
      ensures audit.Ok? ==> entries == old(entries) && clock.t == old(clock.t)
      ensures audit.BrokenAt? ==>
                var note := ChainBreak(BreakId(nodeChain.env, nodeChain.snapshots));
                && clock.t == old(clock.t) + 1
                && entries == old(entries) + [Noted(env, old(entries), note, clock.t)]
    {
      audit := nodeChain.Reconstruct();
      if audit.BrokenAt? {
        Observe(ChainBreak(audit.sequenceId));
      }
    }

    /** Self-audit of the oversight ledger. */
    method VerifyLog() returns (ok: bool, brokenAt: int)
      ensures ok <==> EyeIntact(env, entries)
      ensures !ok ==> exists k :: 0 <= k < |entries| && !EyeLinkedAt(env, entries, k) && brokenAt == entries[k].id
                                  && forall j :: 0 <= j < k ==> EyeLinkedAt(env, entries, j)
    {
      var expectedPrevHash := GENESIS;
      for i := 0 to |entries|
        invariant expectedPrevHash == EyeLinkAt(entries, i)
        invariant forall j :: 0 <= j < i ==> EyeLinkedAt(env, entries, j)
      {
        var entry := entries[i];
        var expectedHash := env.sha256(EyePreimage(env, entry.eventType, entry.layer, entry.description,
                                                   expectedPrevHash, entry.timestamp));
        if entry.prevHash != expectedPrevHash || entry.hash != expectedHash {
          assert !EyeLinkedAt(env, entries, i);
          return false, entry.id;
        }
        expectedPrevHash := entry.hash;
      }
      return true, 0;
    }
  }
}
