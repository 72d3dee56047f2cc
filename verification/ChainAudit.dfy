/** What the audit of a hash-linked chain can and cannot detect. */
module ChainAudit {
  import opened Strings
  import opened Events
  import opened NodeChain

  // ----- the hashed framing -----

  ghost predicate ObjectText(json: string) { |json| >= 2 && json[0] == '{' && json[|json| - 1] == '}' }

  ghost predicate LinkText(prevHash: string) { prevHash == "" || IsDigest(prevHash) }

  /** A decimal numeral too short to hold a digest. */
  ghost predicate NumberText(d: string)
  {
    |d| < 64 && forall i :: 0 <= i < |d| ==> IsNumeral(d[i])
  }

  /**
   * payload text + previous hash + sequence number is uniquely decodable: equal hashed strings have
   * equal parts, although no separator stands between them.
   */
  lemma FramingUnique(j1: string, p1: string, d1: string, j2: string, p2: string, d2: string)
    requires ObjectText(j1) && LinkText(p1) && NumberText(d1)
    requires ObjectText(j2) && LinkText(p2) && NumberText(d2)
    requires j1 + p1 + d1 == j2 + p2 + d2
    ensures j1 == j2 && p1 == p2 && d1 == d2
  {
    var s := j1 + p1 + d1;
    assert s == j2 + p2 + d2;
    TailHasNoBrace(j1, p1, d1);
    TailHasNoBrace(j2, p2, d2);
    assert |j1| == |j2|;
    assert j1 == s[..|j1|] && j2 == s[..|j2|];
    assert p1 + d1 == s[|j1|..] && p2 + d2 == s[|j2|..];
    assert |p1| == |p2|;
    assert p1 == (p1 + d1)[..|p1|] && p2 == (p2 + d2)[..|p2|];
    assert d1 == (p1 + d1)[|p1|..] && d2 == (p2 + d2)[|p2|..];
  }

  lemma TailHasNoBrace(j: string, p: string, d: string)
    requires ObjectText(j) && LinkText(p) && NumberText(d)
    ensures (j + p + d)[|j| - 1] == '}'
    ensures forall i :: |j| <= i < |j + p + d| ==> (j + p + d)[i] != '}'
  {
  }

  // ----- environments and chains as stored -----

  /** Integers of a 32-bit column print as short numerals, different ones differently. */
  ghost predicate PrintsIntegers(number: int -> string)
  {
    && (forall n :: IsColumnInteger(n) ==> NumberText(number(n)))
    && (forall m, n :: IsColumnInteger(m) && IsColumnInteger(n) && number(m) == number(n) ==> m == n)
  }

  ghost predicate SoundEnv(env: Env)
  {
    && (forall s: string :: IsDigest(env.sha256(s)))
    && (forall p: Payload :: ObjectText(env.stringify(p)))
    && PrintsIntegers(env.number)
  }

  /** Decimal printing, as String(n) does it, has the property. */
  lemma DecimalPrintsIntegers(number: int -> string)
    requires forall n :: number(n) == Decimal(n)
    ensures PrintsIntegers(number)
  {
    forall n | IsColumnInteger(n) ensures NumberText(number(n)) {
      DecimalShape(n);
      ColumnIntegerShort(n);
    }
    forall m, n | IsColumnInteger(m) && IsColumnInteger(n) && number(m) == number(n) ensures m == n {
      DecimalInjective(m, n);
    }
  }

  /** The rows of the snapshot table: sequence ids fit their column. */
  ghost predicate Stored(c: Chain)
  {
    forall k :: 0 <= k < |c| ==> IsColumnInteger(c[k].sequenceId)
  }

  /** The string whose hash entry `k` of an intact chain stores. */
  ghost function HashedAt(env: Env, c: Chain, k: nat): string
    requires k < |c|
  {
    Preimage(env, c[k].payload, LinkAt(c, k), c[k].sequenceId)
  }

  /** Two concrete strings, read off the two chains, that collide. */
  ghost predicate CollisionAt(env: Env, a: Chain, i: int, b: Chain, j: int)
  {
    && 0 <= i < |a| && 0 <= j < |b|
    && HashedAt(env, a, i) != HashedAt(env, b, j)
    && env.sha256(HashedAt(env, a, i)) == env.sha256(HashedAt(env, b, j))
  }

  /** The two entries agree on everything that is hashed. */
  ghost predicate SameEntry(env: Env, s: Snapshot, t: Snapshot)
  {
    && env.stringify(s.payload) == env.stringify(t.payload)
    && s.prevHash == t.prevHash
    && s.sequenceId == t.sequenceId
    && s.hash == t.hash
  }

  lemma LinksAreText(env: Env, c: Chain, k: nat)
    requires SoundEnv(env) && Intact(env, c) && k <= |c|
    ensures LinkText(LinkAt(c, k)) && (LinkAt(c, k) == "" <==> k == 0)
  {
    if k > 0 { assert LinkedAt(env, c, k - 1); }
  }

  /** Equal hashed strings at two positions mean equal entries there. */
  lemma EqualHashedEntries(env: Env, a: Chain, i: nat, b: Chain, j: nat)
    requires SoundEnv(env) && Intact(env, a) && Intact(env, b) && Stored(a) && Stored(b)
    requires i < |a| && j < |b| && HashedAt(env, a, i) == HashedAt(env, b, j)
    ensures SameEntry(env, a[i], b[j]) && LinkAt(a, i) == LinkAt(b, j)
  {
    assert LinkedAt(env, a, i) && LinkedAt(env, b, j);
    LinksAreText(env, a, i);
    LinksAreText(env, b, j);
    FramingUnique(env.stringify(a[i].payload), LinkAt(a, i), env.number(a[i].sequenceId),
                  env.stringify(b[j].payload), LinkAt(b, j), env.number(b[j].sequenceId));
  }

  /** The first `i` entries of `a` and the first `j` of `b` agree, entry by entry. */
  ghost predicate SameHistory(env: Env, a: Chain, i: nat, b: Chain, j: nat)
    requires i <= |a| && j <= |b|
  {
    i == j && forall k :: 0 <= k < i ==> SameEntry(env, a[k], b[k])
  }

  /** A collision between entries equally far before the positions `i` of `a` and `j` of `b`. */
  ghost predicate CollisionBefore(env: Env, a: Chain, i: nat, b: Chain, j: nat)
  {
    exists p, q :: i - p == j - q > 0 && CollisionAt(env, a, p, b, q)
  }

  lemma StoredHash(env: Env, c: Chain, k: nat)
    requires Intact(env, c) && k < |c|
    ensures c[k].hash == env.sha256(HashedAt(env, c, k)) && LinkAt(c, k + 1) == c[k].hash
  {
    assert LinkedAt(env, c, k);
  }

  lemma {:induction false} LinkBindsHistory(env: Env, a: Chain, i: nat, b: Chain, j: nat)
    requires SoundEnv(env) && Intact(env, a) && Intact(env, b) && Stored(a) && Stored(b)
    requires i <= |a| && j <= |b| && LinkAt(a, i) == LinkAt(b, j)
    ensures SameHistory(env, a, i, b, j) || CollisionBefore(env, a, i, b, j)
    decreases i
  {
    hide SoundEnv, Intact, Stored, HashedAt, LinkText, SameEntry;
    LinksAreText(env, a, i);
    LinksAreText(env, b, j);
    if i > 0 {
      StoredHash(env, a, i - 1);
      StoredHash(env, b, j - 1);
      if HashedAt(env, a, i - 1) == HashedAt(env, b, j - 1) {
        EqualHashedEntries(env, a, i - 1, b, j - 1);
        LinkBindsHistory(env, a, i - 1, b, j - 1);
      } else {
        assert CollisionAt(env, a, i - 1, b, j - 1);
      }
    }
  }

  /**
   * Binding: two audited chains with the same head hash have the same length and the same entries,
   * or two of their own positions, equally far from the ends, exhibit a hash collision.
   */
  lemma HeadBindsHistory(env: Env, a: Chain, b: Chain)
    requires SoundEnv(env) && Intact(env, a) && Intact(env, b) && Stored(a) && Stored(b)
    requires LinkAt(a, |a|) == LinkAt(b, |b|)
    ensures SameHistory(env, a, |a|, b, |b|) || CollisionBefore(env, a, |a|, b, |b|)
  {
    LinkBindsHistory(env, a, |a|, b, |b|);
  }

  // ----- tampering -----

  /** Rewriting the body of one record is reported at that record, or yields a collision there. */
  lemma PayloadEditDetected(env: Env, c: Chain, k: nat, payload: Payload)
    requires Intact(env, c) && k < |c|
    requires env.stringify(payload) != env.stringify(c[k].payload)
    ensures var c' := c[k := c[k].(payload := payload)];
            FirstBroken(env, c', k) || CollisionAt(env, c, k, c', k)
  {
    var c' := c[k := c[k].(payload := payload)];
    forall j | 0 <= j < k ensures LinkedAt(env, c', j) {
      assert LinkedAt(env, c, j);
      assert LinkAt(c', j) == LinkAt(c, j);
    }
    assert LinkedAt(env, c, k);
    var tail := LinkAt(c, k) + env.number(c[k].sequenceId);
    var u, v := env.stringify(c[k].payload), env.stringify(payload);
    assert HashedAt(env, c, k) == u + tail && HashedAt(env, c', k) == v + tail;
    assert u == (u + tail)[..|u + tail| - |tail|] && v == (v + tail)[..|v + tail| - |tail|];
  }

  /** The event type and the timestamp of a record can be rewritten unnoticed: they are not hashed. */
  lemma UnhashedEditUndetected(env: Env, c: Chain, k: nat, eventType: EventType, timestamp: int)
    requires k < |c|
    ensures Intact(env, c[k := c[k].(eventType := eventType, timestamp := timestamp)]) <==> Intact(env, c)
  {
    var c' := c[k := c[k].(eventType := eventType, timestamp := timestamp)];
    forall j | 0 <= j < |c| ensures LinkedAt(env, c', j) <==> LinkedAt(env, c, j) {
      assert LinkAt(c', j) == LinkAt(c, j);
    }
    if Intact(env, c) {
      forall j | 0 <= j < |c'| ensures LinkedAt(env, c', j) { assert LinkedAt(env, c, j); }
    }
    if Intact(env, c') {
      forall j | 0 <= j < |c| ensures LinkedAt(env, c, j) { assert LinkedAt(env, c', j); }
    }
  }

  /** The two places that decide the audit of a rewritten chain. */
  lemma RewriteAudit(env: Env, c: Chain, k: nat, s: Snapshot)
    requires Intact(env, c) && k < |c|
    ensures LinkedAt(env, c[k := s], k) <==>
              s.prevHash == LinkAt(c, k) && s.hash == env.sha256(Preimage(env, s.payload, s.prevHash, s.sequenceId))
    ensures k + 1 < |c| ==> (LinkedAt(env, c[k := s], k + 1) <==> s.hash == c[k].hash)
    ensures Intact(env, c[k := s]) <==>
              LinkedAt(env, c[k := s], k) && (k + 1 < |c| ==> LinkedAt(env, c[k := s], k + 1))
    ensures !Intact(env, c[k := s]) ==>
              FirstBroken(env, c[k := s], k) || (k + 1 < |c| && FirstBroken(env, c[k := s], k + 1))
  {
    var c' := c[k := s];
    assert LinkAt(c', k) == LinkAt(c, k);
    if k + 1 < |c| { assert LinkedAt(env, c, k + 1) && LinkAt(c', k + 1) == s.hash; }
    forall j | 0 <= j < |c| && j != k && j != k + 1 ensures LinkedAt(env, c', j) {
      assert LinkedAt(env, c, j) && LinkAt(c', j) == LinkAt(c, j);
    }
  }

  /**
   * Which rewrites of a record that is not the last go unnoticed, whatever is rewritten in it, link and hash
   * included, as long as it keeps its place: those that leave everything hashed as it was, and no others, short
   * of a collision. Any other is reported at that record or at the next.
   */
  lemma RewriteUnnoticedIff(env: Env, c: Chain, k: nat, s: Snapshot)
    requires SoundEnv(env) && Intact(env, c) && Stored(c) && IsColumnInteger(s.sequenceId)
    requires k + 1 < |c|
    ensures SameEntry(env, s, c[k]) ==> Intact(env, c[k := s])
    ensures Intact(env, c[k := s]) ==> SameEntry(env, s, c[k]) || CollisionAt(env, c, k, c[k := s], k)
    ensures !Intact(env, c[k := s]) ==> FirstBroken(env, c[k := s], k) || FirstBroken(env, c[k := s], k + 1)
  {
    hide SoundEnv;
    var c' := c[k := s];
    RewriteAudit(env, c, k, s);
    StoredHash(env, c, k);
    assert c[k].prevHash == LinkAt(c, k) by { assert LinkedAt(env, c, k); }
    if Intact(env, c') {
      StoredHash(env, c', k);
      if HashedAt(env, c, k) == HashedAt(env, c', k) { EqualHashedEntries(env, c', k, c, k); }
    }
  }

  /**
   * The last record can be rewritten wholly, payload included: unnoticed exactly when it keeps the old link and
   * stores the hash of its new content.
   */
  lemma LastRewriteUnnoticedIff(env: Env, c: Chain, s: Snapshot)
    requires Intact(env, c) && c != []
    ensures Intact(env, c[|c| - 1 := s]) <==>
              && s.prevHash == LinkAt(c, |c| - 1)
              && s.hash == env.sha256(Preimage(env, s.payload, s.prevHash, s.sequenceId))
  {
    hide Intact;
    RewriteAudit(env, c, |c| - 1, s);
  }

  /** Rows are listed by a unique, ascending sequence id. */
  ghost predicate Listed(c: Chain)
  {
    Stored(c) && forall i, j :: 0 <= i < j < |c| ==> c[i].sequenceId < c[j].sequenceId
  }

  /** Deleting a record that is not the last is reported at its successor, or yields a collision. */
  lemma DeletionDetected(env: Env, c: Chain, k: nat)
    requires SoundEnv(env) && Intact(env, c) && Listed(c)
    requires k + 1 < |c|
    ensures var c' := c[..k] + c[k + 1..];
            || (FirstBroken(env, c', k) && c'[k] == c[k + 1])
            || (k > 0 && CollisionAt(env, c, k - 1, c, k))
  {
    var c' := c[..k] + c[k + 1..];
    assert c'[k] == c[k + 1];
    forall j | 0 <= j < k ensures LinkedAt(env, c', j) {
      assert LinkedAt(env, c, j);
      assert LinkAt(c', j) == LinkAt(c, j);
    }
    assert LinkedAt(env, c, k + 1) && LinkedAt(env, c, k);
    LinksAreText(env, c, k + 1);
    if k > 0 {
      assert LinkAt(c', k) == c[k - 1].hash;
      assert LinkedAt(env, c, k - 1);
      assert c[k - 1].sequenceId < c[k].sequenceId;
      if HashedAt(env, c, k - 1) == HashedAt(env, c, k) {
        EqualHashedEntries(env, c, k - 1, c, k);
      }
    }
  }

  /** Deleting the tail is never detected: the audit has no record of how long the chain was. */
  lemma TruncationUndetected(env: Env, c: Chain, n: nat)
    requires Intact(env, c) && n <= |c|
    ensures Intact(env, c[..n])
  {
    forall k | 0 <= k < n ensures LinkedAt(env, c[..n], k) {
      assert LinkedAt(env, c, k);
      assert LinkAt(c[..n], k) == LinkAt(c, k);
    }
  }
}
