/**
 * The supply laws do not depend on exact arithmetic. They hold for any deterministic addition, however
 * it rounds: nothing is assumed to be associative or commutative.
 */
module SupplyArithmetic {
  import opened Folds
  import opened Events
  import opened NodeChain
  import opened Pot
  import opened ArosCoin
  import opened Reserve
  import opened Lifecycle
  import opened EventSourcing
  import opened Soundness
  import opened CallInvariants
  import opened History

  /** The numbers a machine really has, and what it makes of an amount. */
  datatype Arithmetic<!T> = Arithmetic(zero: T, add: (T, T) -> T, sub: (T, T) -> T, of: real -> T)

  datatype Tallies<T> = Tallies(minted: T, burned: T, earned: T)

  /** The ledger row after the record calls that stand behind the log: one per mint, burn and payment. */
  function TalliesOf<T>(m: Arithmetic<T>, c: Chain): Tallies<T>
  {
    if c == [] then Tallies(m.zero, m.zero, m.zero)
    else
      var t, s := TalliesOf(m, c[..|c| - 1]), c[|c| - 1];
      match (s.eventType, s.payload)
      case (EmissionMinted, MintRecord(_, amount)) => t.(minted := m.add(t.minted, m.of(amount)))
      case (EmissionBurned, BurnRecord(_, amount)) => t.(burned := m.add(t.burned, m.of(amount)))
      case (NodePaymentReceived, PaymentRecord(_, amount, _)) => t.(earned := m.add(t.earned, m.of(amount)))
      case _ => t
  }

  function TotalSupply<T>(m: Arithmetic<T>, t: Tallies<T>): T { m.add(m.sub(t.minted, t.burned), t.earned) }

  /** An accumulating variable: start at zero, add one amount after the other. */
  function Accumulated<T>(m: Arithmetic<T>, amounts: seq<real>): T
  {
    if amounts == [] then m.zero
    else m.add(Accumulated(m, amounts[..|amounts| - 1]), m.of(amounts[|amounts| - 1]))
  }

  function MintedAmounts(es: seq<Payload>): seq<real>
  {
    if es == [] then []
    else
      var front, last := MintedAmounts(es[..|es| - 1]), es[|es| - 1];
      if last.MintRecord? then front + [last.minted] else front
  }

  function BurnedAmounts(es: seq<Payload>): seq<real>
  {
    if es == [] then []
    else
      var front, last := BurnedAmounts(es[..|es| - 1]), es[|es| - 1];
      if last.BurnRecord? then front + [last.burned] else front
  }

  /** Emissions that pair off list the same amounts, in the same order, on both sides. */
  lemma {:induction false} PairedAmounts(es: seq<Payload>)
    requires PairsOff(es)
    ensures MintedAmounts(es) == BurnedAmounts(es)
  {
    if es != [] {
      var n := |es|;
      assert es[..n - 1][..n - 2] == es[..n - 2];
      PairedAmounts(es[..n - 2]);
    }
  }

  lemma AccumulatedSnoc<T>(m: Arithmetic<T>, amounts: seq<real>, a: real)
    ensures Accumulated(m, amounts + [a]) == m.add(Accumulated(m, amounts), m.of(a))
  {
    assert (amounts + [a])[..|amounts|] == amounts;
  }

  lemma AmountsSnoc(es: seq<Payload>, p: Payload)
    ensures MintedAmounts(es + [p]) == if p.MintRecord? then MintedAmounts(es) + [p.minted] else MintedAmounts(es)
    ensures BurnedAmounts(es + [p]) == if p.BurnRecord? then BurnedAmounts(es) + [p.burned] else BurnedAmounts(es)
  {
    assert (es + [p])[..|es|] == es;
  }

  lemma TalliesStep<T>(m: Arithmetic<T>, c: Chain)
    requires c != []
    ensures var t, t', s := TalliesOf(m, c[..|c| - 1]), TalliesOf(m, c), c[|c| - 1];
            && t'.minted ==
                 (if IsEmission(s) && s.payload.MintRecord? then m.add(t.minted, m.of(s.payload.minted)) else t.minted)
            && t'.burned ==
                 (if IsEmission(s) && s.payload.BurnRecord? then m.add(t.burned, m.of(s.payload.burned)) else t.burned)
  {
  }

  /** The tallies are the accumulated amounts of the emission records. */
  lemma {:induction false} TalliesAccumulate<T>(m: Arithmetic<T>, c: Chain)
    ensures TalliesOf(m, c).minted == Accumulated(m, MintedAmounts(Emissions(c)))
    ensures TalliesOf(m, c).burned == Accumulated(m, BurnedAmounts(Emissions(c)))
  {
    assert TalliesOf(m, []) == Tallies(m.zero, m.zero, m.zero)
        && Accumulated(m, MintedAmounts([])) == m.zero && Accumulated(m, BurnedAmounts([])) == m.zero;
    hide TalliesOf, MintedAmounts, BurnedAmounts, Accumulated, IsEmission;
    if c != [] {
      var s := c[|c| - 1];
      var es := Emissions(c[..|c| - 1]);
      TalliesAccumulate(m, c[..|c| - 1]);
      TalliesStep(m, c);
      AmountsSnoc(es, s.payload);
      if s.payload.MintRecord? { AccumulatedSnoc(m, MintedAmounts(es), s.payload.minted); }
      if s.payload.BurnRecord? { AccumulatedSnoc(m, BurnedAmounts(es), s.payload.burned); }
    }
  }

  /** A number less itself is zero, and adding to zero changes nothing: asked of the two numbers at hand, no others. */
  predicate CancelsAt<T(==)>(m: Arithmetic<T>, t: Tallies<T>)
  {
    m.sub(t.minted, t.minted) == m.zero && m.add(m.zero, t.earned) == t.earned
  }

  /** On any log whose emissions pair off, the two tallies are identical, and total supply is what was earned. */
  lemma PairedSupply<T>(m: Arithmetic<T>, c: Chain)
    requires PairsOff(Emissions(c))
    ensures TalliesOf(m, c).minted == TalliesOf(m, c).burned
    ensures CancelsAt(m, TalliesOf(m, c)) ==> TotalSupply(m, TalliesOf(m, c)) == TalliesOf(m, c).earned
  {
    TalliesAccumulate(m, c);
    PairedAmounts(Emissions(c));
  }

  // ----- the comparisons of the Eye -----

  /** The state a run hands to the Eye's comparison, if it gets that far. */
  ghost function ComparedByRun(env: Env, w: World, r: Request): Option<World>
  {
    var (executed, ids, ok) := Executed(env, Initiate(env, w, r), r);
    if !r.admissible || !ok then None
    else
      var judged := Judge(env, executed, r.processId);
      if !judged.verdicts[r.processId].verified then Some(Turned(env, judged, r.processId))
      else if !Confirmed(judged.verdicts, r.processId) then None
      else Some(Concluded(env, Produce(env, judged, r.processId, r.amount, EpochOf(r), ids), r.processId))
  }

  /** The state a call hands to the Eye's comparison, if it makes one. */
  ghost function Compared(env: Env, w: World, c: Call): Option<World>
  {
    match c
    case Run(r) => ComparedByRun(env, w, r)
    case FinalizeCall(n) =>
      var (settled, outcome) := SettleEpoch(env, w, n);
      if outcome.Done? then Some(Announced(env, settled, n, outcome.result)) else None
    case _ => None
  }

  /** Comparing is the last thing such a call does; the log compared is the log the call ends with. */
  lemma ComparedLast(env: Env, w: World, c: Call)
    ensures Compared(env, w, c).Some? ==>
              && Exec(env, w, c) == CompareSupply(env, Compared(env, w, c).value)
              && Exec(env, w, c).journal.chain == Compared(env, w, c).value.journal.chain
  {
    hide SettleEpoch, Announced, Initiate, Resolve, RecordStages, RecordAssignment, WorkAll, Judge, Produce, Concluded,
         Turned, Volume, Observe;
    if Compared(env, w, c).Some? { CompareOnlyWatches(env, Compared(env, w, c).value); }
  }

  /** What the Eye compares, in this arithmetic, over this log. */
  predicate Drifts<T(==)>(m: Arithmetic<T>, c: Chain)
  {
    TotalSupply(m, TalliesOf(m, c)) != TalliesOf(m, c).earned
  }

  /**
   * Rounding never makes the Eye report a drift. Take any arithmetic, any run, and any of its calls that
   * compares supply, over the log compared or any other with the same emission records (payments may have
   * been rounded as well): the mint and burn tallies are the same number, and no drift is seen as long as
   * x - x = 0 and 0 + x = x hold of the two tallies at hand.
   */
  lemma NoDriftInAnyArithmetic<T>(m: Arithmetic<T>, env: Env, watched: bool, calls: seq<Call>, states: seq<World>,
                                  i: nat, logged: Chain)
    requires AllValid(calls) && IsRun(env, watched, calls, states) && i < |calls|
    ensures var compared, t := Compared(env, states[i], calls[i]), TalliesOf(m, logged);
            compared.Some? && Emissions(logged) == Emissions(compared.value.journal.chain) ==>
              t.minted == t.burned && (CancelsAt(m, t) ==> !Drifts(m, logged))
  {
    hide Exec, Compared, CompareSupply, PairsOff, TalliesOf, CancelsAt, TotalSupply, Emissions;
    ComparedLast(env, states[i], calls[i]);
    EmissionDiscipline(env, watched, calls, states, i + 1);
    if PairsOff(Emissions(logged)) { PairedSupply(m, logged); }
  }

  /** In any arithmetic, in every state of every run, the two tallies of its log are the same number. */
  lemma SupplyInAnyArithmetic<T>(m: Arithmetic<T>, env: Env, watched: bool, calls: seq<Call>, states: seq<World>,
                                 i: nat)
    requires AllValid(calls) && IsRun(env, watched, calls, states) && i <= |calls|
    ensures var t := TalliesOf(m, states[i].journal.chain);
            t.minted == t.burned && (CancelsAt(m, t) ==> TotalSupply(m, t) == t.earned)
  {
    hide Exec, PairsOff, TalliesOf, CancelsAt, TotalSupply;
    EmissionDiscipline(env, watched, calls, states, i);
    PairedSupply(m, states[i].journal.chain);
  }

  const EXACT: Arithmetic<real> :=
      Arithmetic(0.0, (x: real, y: real) => x + y, (x: real, y: real) => x - y, (x: real) => x)

  lemma {:induction false} ExactTallies(c: Chain)
    ensures var t := TalliesOf(EXACT, c);
            t.minted == Replay(c).minted && t.burned == Replay(c).burned && t.earned == Replay(c).paid
  {
    hide Step;
    if c != [] {
      ExactTallies(c[..|c| - 1]);
      StepAddsIssued(Replay(c[..|c| - 1]), c[|c| - 1]);
      StepAddsPaid(Replay(c[..|c| - 1]), c[|c| - 1]);
    }
  }

  /** In exact arithmetic these tallies are the ledger row itself. */
  lemma LedgerIsExactTallies(env: Env, watched: bool, calls: seq<Call>, states: seq<World>, i: nat)
    requires AllValid(calls) && IsRun(env, watched, calls, states) && i <= |calls|
    ensures var w := states[i];
            var t := TalliesOf(EXACT, w.journal.chain);
            w.coin == Coin(t.minted, t.burned, t.earned)
  {
    hide Exec, Replay, TalliesOf, AtRest, Chained, EpochsMatch, PhaseMatches, VerdictsMatch, ReserveMatches,
         EmissionsMatch, AllWell;
    Reachable(env, watched, calls, states, i);
    ExactTallies(states[i].journal.chain);
  }
}
