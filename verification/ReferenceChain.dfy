/** The chain of the reference implementation: numbered from zero, rooted at a word, event types hashed too. */
module ReferenceChain {
  import opened Strings
  import opened Events
  import A = ChainAudit
  import JsObject

  datatype ReferenceEnv = ReferenceEnv(
    sha256: string -> string,
    stringify: (int, EventType, string, JsObject.Obj) -> string,
    number: int -> string)

  datatype Record = Record(sequenceId: int, eventType: EventType, processId: string, data: JsObject.Obj,
                           prevHash: string, hash: string)

  type History = seq<Record>

  const ROOT := "GENESIS"

  function Link(h: History, k: nat): string
    requires k <= |h|
  {
    if k == 0 then ROOT else h[k - 1].hash
  }

  function Text(env: ReferenceEnv, sequenceId: int, eventType: EventType, processId: string, data: JsObject.Obj,
                prevHash: string): string
  {
    env.stringify(sequenceId, eventType, processId, data) + prevHash + env.number(sequenceId)
  }

  function NextRecord(env: ReferenceEnv, h: History, eventType: EventType, processId: string,
                      data: JsObject.Obj): Record
  {
    Record(|h|, eventType, processId, data, Link(h, |h|),
           env.sha256(Text(env, |h|, eventType, processId, data, Link(h, |h|))))
  }

  ghost predicate Linked(env: ReferenceEnv, h: History, k: nat)
    requires k < |h|
  {
    && h[k].prevHash == Link(h, k)
    && h[k].hash == env.sha256(Text(env, h[k].sequenceId, h[k].eventType, h[k].processId, h[k].data, Link(h, k)))
  }

  ghost predicate Unbroken(env: ReferenceEnv, h: History)
  {
    forall k :: 0 <= k < |h| ==> Linked(env, h, k)
  }

  lemma RecordKeepsUnbroken(env: ReferenceEnv, h: History, eventType: EventType, processId: string, data: JsObject.Obj)
    requires Unbroken(env, h)
    ensures Unbroken(env, h + [NextRecord(env, h, eventType, processId, data)])
  {
    var h' := h + [NextRecord(env, h, eventType, processId, data)];
    forall k | 0 <= k < |h'| ensures Linked(env, h', k) {
      assert Link(h', k) == Link(h, k);
      if k < |h| { assert Linked(env, h, k); }
    }
  }

  /** Unlike the production chain, this one notices when an event type is rewritten, or a collision appears. */
  lemma TypeEditDetected(env: ReferenceEnv, h: History, k: nat, eventType: EventType)
    requires Unbroken(env, h) && k < |h|
    requires env.stringify(h[k].sequenceId, eventType, h[k].processId, h[k].data)
          != env.stringify(h[k].sequenceId, h[k].eventType, h[k].processId, h[k].data)
    ensures var h' := h[k := h[k].(eventType := eventType)];
            var was, now := Text(env, h[k].sequenceId, h[k].eventType, h[k].processId, h[k].data, Link(h, k)),
                            Text(env, h[k].sequenceId, eventType, h[k].processId, h[k].data, Link(h, k));
            || (!Linked(env, h', k) && forall j :: 0 <= j < k ==> Linked(env, h', j))
            || (was != now && env.sha256(was) == env.sha256(now))
  {
    var h' := h[k := h[k].(eventType := eventType)];
    forall j | 0 <= j < k ensures Linked(env, h', j) {
      assert Linked(env, h, j);
      assert Link(h', j) == Link(h, j);
    }
    assert Linked(env, h, k) && Link(h', k) == Link(h, k);
    var tail := Link(h, k) + env.number(h[k].sequenceId);
    var was := env.stringify(h[k].sequenceId, h[k].eventType, h[k].processId, h[k].data);
    var now := env.stringify(h[k].sequenceId, eventType, h[k].processId, h[k].data);
    assert Text(env, h[k].sequenceId, h[k].eventType, h[k].processId, h[k].data, Link(h, k)) == was + tail;
    assert Text(env, h[k].sequenceId, eventType, h[k].processId, h[k].data, Link(h, k)) == now + tail;
    assert was == (was + tail)[..|was + tail| - |tail|] && now == (now + tail)[..|now + tail| - |tail|];
  }

  // ----- what the head hash binds -----

  /** The text whose hash record `k` of an unbroken chain stores, written out. */
  ghost function TextAt(env: ReferenceEnv, h: History, k: nat): string
    requires k < |h|
  {
    env.stringify(h[k].sequenceId, h[k].eventType, h[k].processId, h[k].data)
    + (if k == 0 then "GENESIS" else h[k - 1].hash) + env.number(h[k].sequenceId)
  }

  /** Hashes are digests, bodies are object literals, and the positions at hand print as short numerals. */
  ghost predicate Readable(env: ReferenceEnv, h: History)
  {
    && (forall s: string :: IsDigest(env.sha256(s)))
    && (forall id: int, eventType: EventType, processId: string, data: JsObject.Obj ::
          A.ObjectText(env.stringify(id, eventType, processId, data)))
    && forall k :: 0 <= k < |h| ==> A.NumberText(env.number(h[k].sequenceId))
  }

  /** Two records with the same body, event type included, the same link, position and hash. */
  ghost predicate SameRecord(env: ReferenceEnv, a: Record, b: Record)
  {
    && env.stringify(a.sequenceId, a.eventType, a.processId, a.data)
         == env.stringify(b.sequenceId, b.eventType, b.processId, b.data)
    && a.prevHash == b.prevHash && env.number(a.sequenceId) == env.number(b.sequenceId) && a.hash == b.hash
  }

  ghost predicate SameRecords(env: ReferenceEnv, a: History, i: nat, b: History, j: nat)
    requires i <= |a| && j <= |b|
  {
    i == j && forall k :: 0 <= k < i ==> SameRecord(env, a[k], b[k])
  }

  /** Two different texts with the same hash, equally far before the positions `i` of `a` and `j` of `b`. */
  ghost predicate CollideBefore(env: ReferenceEnv, a: History, i: nat, b: History, j: nat)
    requires i <= |a| && j <= |b|
  {
    exists p, q :: 0 <= p < i && 0 <= q < j && i - p == j - q && TextAt(env, a, p) != TextAt(env, b, q)
                   && env.sha256(TextAt(env, a, p)) == env.sha256(TextAt(env, b, q))
  }

  /** A body ends at the last brace; after it stands a digest, or the word of the first record, and a numeral. */
  lemma TextSplits(j1: string, p1: string, d1: string, j2: string, p2: string, d2: string)
    requires A.ObjectText(j1) && A.ObjectText(j2) && A.NumberText(d1) && A.NumberText(d2)
    requires (p1 == "GENESIS" || IsDigest(p1)) && (p2 == "GENESIS" || IsDigest(p2))
    requires j1 + p1 + d1 == j2 + p2 + d2
    ensures j1 == j2 && p1 == p2 && d1 == d2
  {
    var s := j1 + p1 + d1;
    assert s == j2 + p2 + d2;
    LastBrace(j1, p1, d1);
    LastBrace(j2, p2, d2);
    assert |j1| == |j2|;
    assert j1 == s[..|j1|] && j2 == s[..|j2|];
    assert p1 + d1 == s[|j1|..] == p2 + d2;
    assert (p1 + d1)[0] == p1[0] && (p2 + d2)[0] == p2[0];
    assert "GENESIS"[0] == 'G' && !IsHex('G');
    assert |p1| == |p2|;
    assert p1 == (p1 + d1)[..|p1|] && p2 == (p2 + d2)[..|p2|];
    assert d1 == (p1 + d1)[|p1|..] && d2 == (p2 + d2)[|p2|..];
  }

  lemma LastBrace(j: string, p: string, d: string)
    requires A.ObjectText(j) && A.NumberText(d) && (p == "GENESIS" || IsDigest(p))
    ensures (j + p + d)[|j| - 1] == '}'
    ensures forall i :: |j| <= i < |j + p + d| ==> (j + p + d)[i] != '}'
  {
  }

  lemma RecordText(env: ReferenceEnv, h: History, k: nat)
    requires Readable(env, h) && Unbroken(env, h) && k < |h|
    ensures h[k].hash == env.sha256(TextAt(env, h, k))
    ensures h[k].prevHash == if k == 0 then "GENESIS" else h[k - 1].hash
    ensures IsDigest(h[k].hash) && (k > 0 ==> IsDigest(h[k - 1].hash))
  {
    assert Linked(env, h, k);
    if k > 0 { assert Linked(env, h, k - 1); }
  }

  lemma {:induction false} LinkBinds(env: ReferenceEnv, a: History, i: nat, b: History, j: nat)
    requires Readable(env, a) && Readable(env, b) && Unbroken(env, a) && Unbroken(env, b)
    requires 0 < i <= |a| && 0 < j <= |b| && a[i - 1].hash == b[j - 1].hash
    ensures SameRecords(env, a, i, b, j) || CollideBefore(env, a, i, b, j)
    decreases i
  {
    hide Unbroken;
    var e, f := a[i - 1], b[j - 1];
    RecordText(env, a, i - 1);
    RecordText(env, b, j - 1);
    if TextAt(env, a, i - 1) == TextAt(env, b, j - 1) {
      TextSplits(env.stringify(e.sequenceId, e.eventType, e.processId, e.data), e.prevHash, env.number(e.sequenceId),
                 env.stringify(f.sequenceId, f.eventType, f.processId, f.data), f.prevHash, env.number(f.sequenceId));
      assert !IsDigest("GENESIS");
      if i > 1 { LinkBinds(env, a, i - 1, b, j - 1); }
    }
  }

  /**
   * Two unbroken chains with the same head hash have the same length and the same records, event types included,
   * or two of their own texts, equally far from the ends, collide.
   */
  lemma HeadBindsHistory(env: ReferenceEnv, a: History, b: History)
    requires Readable(env, a) && Readable(env, b) && Unbroken(env, a) && Unbroken(env, b)
    requires a != [] && b != [] && a[|a| - 1].hash == b[|b| - 1].hash
    ensures SameRecords(env, a, |a|, b, |b|) || CollideBefore(env, a, |a|, b, |b|)
  {
    LinkBinds(env, a, |a|, b, |b|);
  }

  class SnapshotChain {
    const env: ReferenceEnv
    var snapshots: History

    constructor (env: ReferenceEnv)
      ensures this.env == env && snapshots == []
    {
      this.env := env;
      snapshots := [];
    }

    method RecordState(eventType: EventType, processId: string, data: JsObject.Obj) returns (snap: Record)
      modifies this
      ensures snap == NextRecord(env, old(snapshots), eventType, processId, data)
      ensures snapshots == old(snapshots) + [snap]
    {
      var sequenceId := |snapshots|;
      var prevHash := if sequenceId == 0 then ROOT else snapshots[sequenceId - 1].hash;
      var hash := env.sha256(env.stringify(sequenceId, eventType, processId, data) + prevHash + env.number(sequenceId));
      snap := Record(sequenceId, eventType, processId, data, prevHash, hash);
      snapshots := snapshots + [snap];
    }

    /** Recomputes every hash from the root; names the first position that does not match. */
    method Reconstruct() returns (ok: bool, brokenAt: nat)
      ensures ok <==> Unbroken(env, snapshots)
      ensures !ok ==> brokenAt < |snapshots| && !Linked(env, snapshots, brokenAt)
                      && forall j :: 0 <= j < brokenAt ==> Linked(env, snapshots, j)
    {
      for i := 0 to |snapshots|
        invariant forall j :: 0 <= j < i ==> Linked(env, snapshots, j)
      {
        var s := snapshots[i];
        var prevHash := if i == 0 then ROOT else snapshots[i - 1].hash;
        var expected :=
            env.sha256(env.stringify(s.sequenceId, s.eventType, s.processId, s.data) + prevHash +
                       env.number(s.sequenceId));
        if s.prevHash != prevHash || s.hash != expected {
          assert !Linked(env, snapshots, i);
          return false, i;
        }
      }
      return true, 0;
    }
  }
}
