/** What the hashes of the oversight ledger cover, in written-out texts. */
module OversightBinding {
  import opened Strings
  import opened Events
  import opened AllSeeingEye

  /** What an entry reports: event type, layer and description, run together. */
  function Report(e: Entry): string { e.eventType + e.layer + e.description }

  /** The text whose hash entry `k` of an intact ledger stores. */
  function TextAt(env: Env, log: Oversight, k: nat): string
    requires k < |log|
  {
    log[k].eventType + log[k].layer + log[k].description
    + (if k == 0 then "GENESIS" else log[k - 1].hash) + env.number(log[k].timestamp)
  }

  lemma TextIsHashed(env: Env, log: Oversight, k: nat)
    requires k < |log|
    ensures EyeLinkedAt(env, log, k) <==>
              && log[k].prevHash == (if k == 0 then "GENESIS" else log[k - 1].hash)
              && log[k].hash == env.sha256(TextAt(env, log, k))
  {
  }

  ghost predicate FirstEyeBreak(env: Env, log: Oversight, k: int)
  {
    && 0 <= k < |log|
    && !EyeLinkedAt(env, log, k)
    && forall j :: 0 <= j < k ==> EyeLinkedAt(env, log, j)
  }

  /** Two concrete texts that collide, read off the two ledgers. */
  ghost predicate TextsCollide(env: Env, a: Oversight, i: int, b: Oversight, j: int)
  {
    && 0 <= i < |a| && 0 <= j < |b|
    && TextAt(env, a, i) != TextAt(env, b, j)
    && env.sha256(TextAt(env, a, i)) == env.sha256(TextAt(env, b, j))
  }

  // ----- rewriting one entry -----

  /** The two places that decide the audit of a rewritten ledger. */
  lemma RewriteAudit(env: Env, log: Oversight, k: nat, e: Entry)
    requires EyeIntact(env, log) && k < |log|
    ensures var log' := log[k := e];
            && (EyeLinkedAt(env, log', k) <==>
                  e.prevHash == log[k].prevHash && e.hash == env.sha256(TextAt(env, log', k)))
            && (k + 1 < |log| ==> (EyeLinkedAt(env, log', k + 1) <==> e.hash == log[k].hash))
            && (EyeIntact(env, log') <==>
                  EyeLinkedAt(env, log', k) && (k + 1 < |log| ==> EyeLinkedAt(env, log', k + 1)))
            && (!EyeIntact(env, log') ==> FirstEyeBreak(env, log', k) || FirstEyeBreak(env, log', k + 1))
  {
    var log' := log[k := e];
    assert EyeLinkedAt(env, log, k) && EyeLinkAt(log', k) == EyeLinkAt(log, k);
    if k + 1 < |log| { assert EyeLinkedAt(env, log, k + 1) && EyeLinkAt(log', k + 1) == e.hash; }
    forall j | 0 <= j < |log| && j != k && j != k + 1 ensures EyeLinkedAt(env, log', j) {
      assert EyeLinkedAt(env, log, j) && EyeLinkAt(log', j) == EyeLinkAt(log, j);
    }
  }

  /**
   * Rewriting event type, layer or description of an entry so that what it reports changes is detected at that
   * very entry, or the two written-out texts are different and collide.
   */
  lemma ReportEditDetected(env: Env, log: Oversight, k: nat, eventType: string, layer: string, description: string)
    requires EyeIntact(env, log) && k < |log|
    requires eventType + layer + description != log[k].eventType + log[k].layer + log[k].description
    ensures var log' := log[k := log[k].(eventType := eventType, layer := layer, description := description)];
            FirstEyeBreak(env, log', k) || TextsCollide(env, log, k, log', k)
  {
    var e := log[k].(eventType := eventType, layer := layer, description := description);
    var log' := log[k := e];
    RewriteAudit(env, log, k, e);
    assert EyeLinkedAt(env, log, k);
    TextIsHashed(env, log, k);
    var tail := (if k == 0 then "GENESIS" else log[k - 1].hash) + env.number(log[k].timestamp);
    SameTail(Report(log[k]), Report(e), tail);
    assert TextAt(env, log, k) == Report(log[k]) + tail && TextAt(env, log', k) == Report(e) + tail;
    forall j | 0 <= j < k ensures EyeLinkedAt(env, log', j) {
      assert EyeLinkedAt(env, log, j) && EyeLinkAt(log', j) == EyeLinkAt(log, j);
    }
  }

  lemma SameTail(a: string, b: string, tail: string)
    ensures a + tail == b + tail ==> a == b
  {
    if a + tail == b + tail {
      assert a == (a + tail)[..|a + tail| - |tail|] && b == (b + tail)[..|b + tail| - |tail|];
    }
  }

  /**
   * Which rewrites of an entry that is not the last go unnoticed, whatever is rewritten in it: those that keep link,
   * hash and hashed text, and no others, short of a collision. The id is free, and so is any shift of text between
   * neighbouring parts: nothing separates event type, layer, description and link in what is hashed.
   */
  lemma EyeRewriteUnnoticedIff(env: Env, log: Oversight, k: nat, e: Entry)
    requires EyeIntact(env, log) && k + 1 < |log|
    ensures var log' := log[k := e];
            var same := e.prevHash == log[k].prevHash && e.hash == log[k].hash;
            && (same && TextAt(env, log', k) == TextAt(env, log, k) ==> EyeIntact(env, log'))
            && (EyeIntact(env, log') ==>
                  same && (TextAt(env, log', k) == TextAt(env, log, k) || TextsCollide(env, log, k, log', k)))
            && (!EyeIntact(env, log') ==> FirstEyeBreak(env, log', k) || FirstEyeBreak(env, log', k + 1))
  {
    hide TextAt;
    RewriteAudit(env, log, k, e);
    assert EyeLinkedAt(env, log, k);
    TextIsHashed(env, log, k);
  }

  // ----- the head binds the ledger -----

  /** Timestamps print as numerals of one width, as the ticks of a clock do for a long time. */
  ghost predicate Stamped(env: Env, log: Oversight, width: nat)
  {
    forall k :: 0 <= k < |log| ==> |env.number(log[k].timestamp)| == width
  }

  /** Thirteen digits, from the clock's start on, for more than eight trillion ticks. */
  lemma {:induction false} TicksPrintAlike(env: Env, log: Oversight)
    requires forall n :: env.number(n) == Decimal(n)
    requires forall k :: 0 <= k < |log| ==> 1_000_000_000_000 <= log[k].timestamp < 10_000_000_000_000
    ensures Stamped(env, log, 13)
  {
    forall k | 0 <= k < |log| ensures |env.number(log[k].timestamp)| == 13 {
      var n := log[k].timestamp;
      DigitsWidth(n, 12);
    }
  }

  lemma {:induction false} DigitsWidth(n: nat, k: nat)
    requires Pow10(k) <= n < Pow10(k + 1)
    ensures |Digits(n)| == k + 1
  {
    if k > 0 {
      DigitsWidth(n / 10, k - 1);
    }
  }

  ghost predicate HashesAreDigests(env: Env) { forall s: string :: IsDigest(env.sha256(s)) }

  /** Two entries that report the same, at the same time, with the same hashes. */
  ghost predicate SameObservation(env: Env, a: Entry, b: Entry)
  {
    && a.eventType + a.layer + a.description == b.eventType + b.layer + b.description
    && env.number(a.timestamp) == env.number(b.timestamp)
    && a.hash == b.hash && a.prevHash == b.prevHash
  }

  /** What precedes the timestamp of a hashed text ends with the previous hash, or with the word of the first entry. */
  lemma TextSplits(r1: string, p1: string, t1: string, r2: string, p2: string, t2: string)
    requires r1 + p1 + t1 == r2 + p2 + t2 && |t1| == |t2|
    requires (p1 == "GENESIS" || IsDigest(p1)) && (p2 == "GENESIS" || IsDigest(p2))
    ensures r1 == r2 && p1 == p2 && t1 == t2
  {
    var u, v := r1 + p1, r2 + p2;
    var s := u + t1;
    assert s == v + t2 && |u| == |v|;
    assert u == s[..|u|] && v == s[..|v|] && t1 == s[|u|..] && t2 == s[|v|..];
    assert u[|u| - 1] == p1[|p1| - 1] && v[|v| - 1] == p2[|p2| - 1];
    assert "GENESIS"[6] == 'S' && !IsHex('S');
    assert |p1| == |p2|;
    assert r1 == u[..|r1|] && r2 == v[..|r2|] && p1 == u[|r1|..] && p2 == v[|r2|..];
  }

  ghost predicate SameObservations(env: Env, a: Oversight, i: nat, b: Oversight, j: nat)
    requires i <= |a| && j <= |b|
  {
    i == j && forall k :: 0 <= k < i ==> SameObservation(env, a[k], b[k])
  }

  ghost predicate CollideBefore(env: Env, a: Oversight, i: nat, b: Oversight, j: nat)
  {
    exists p, q :: i - p == j - q > 0 && TextsCollide(env, a, p, b, q)
  }

  lemma EntryText(env: Env, log: Oversight, k: nat)
    requires HashesAreDigests(env) && EyeIntact(env, log) && k < |log|
    ensures log[k].hash == env.sha256(TextAt(env, log, k)) && IsDigest(log[k].hash)
    ensures TextAt(env, log, k) == Report(log[k]) + log[k].prevHash + env.number(log[k].timestamp)
    ensures if k == 0 then log[k].prevHash == "GENESIS"
            else log[k].prevHash == log[k - 1].hash && IsDigest(log[k].prevHash)
  {
    assert EyeLinkedAt(env, log, k);
    TextIsHashed(env, log, k);
    if k > 0 {
      assert EyeLinkedAt(env, log, k - 1);
      TextIsHashed(env, log, k - 1);
    }
  }

  lemma {:induction false} LinkBindsLedger(env: Env, a: Oversight, i: nat, b: Oversight, j: nat, width: nat)
    requires HashesAreDigests(env) && EyeIntact(env, a) && EyeIntact(env, b)
    requires Stamped(env, a, width) && Stamped(env, b, width)
    requires 0 < i <= |a| && 0 < j <= |b| && a[i - 1].hash == b[j - 1].hash
    ensures SameObservations(env, a, i, b, j) || CollideBefore(env, a, i, b, j)
    decreases i
  {
    hide EyeIntact, TextAt, HashesAreDigests;
    var e, f := a[i - 1], b[j - 1];
    EntryText(env, a, i - 1);
    EntryText(env, b, j - 1);
    if TextAt(env, a, i - 1) != TextAt(env, b, j - 1) {
      assert TextsCollide(env, a, i - 1, b, j - 1);
    } else {
      TextSplits(Report(e), e.prevHash, env.number(e.timestamp), Report(f), f.prevHash, env.number(f.timestamp));
      assert !IsDigest("GENESIS");
      if i > 1 { LinkBindsLedger(env, a, i - 1, b, j - 1, width); }
    }
  }

  /**
   * Binding: two audited oversight ledgers with the same head hash have the same length and report the same, entry
   * by entry, at the same times, or two of their own entries, equally far from the ends, exhibit a collision.
   */
  lemma EyeHeadBindsHistory(env: Env, a: Oversight, b: Oversight, width: nat)
    requires HashesAreDigests(env) && EyeIntact(env, a) && EyeIntact(env, b)
    requires Stamped(env, a, width) && Stamped(env, b, width)
    requires a != [] && b != [] && a[|a| - 1].hash == b[|b| - 1].hash
    ensures SameObservations(env, a, |a|, b, |b|) || CollideBefore(env, a, |a|, b, |b|)
  {
    LinkBindsLedger(env, a, |a|, b, |b|, width);
  }
}
