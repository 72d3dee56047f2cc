/**
 * Concurrent first access to the ledger row of one service instance, interleaved at every await: any
 * number of callers share one initialization, whose database steps run in between theirs.
 */
module LedgerInit {
  import opened Folds
  import opened ArosCoin

  /** What a caller of the service wants with the row. */
  datatype Op = Read | AddMinted(amount: real) | AddBurned(amount: real) | AddEarned(amount: real)

  function Apply(op: Op, row: Coin): Coin
  {
    match op
    case Read => row
    case AddMinted(a) => row.(processMinted := row.processMinted + a)
    case AddBurned(a) => row.(processBurned := row.processBurned + a)
    case AddEarned(a) => row.(earnedRetained := row.earnedRetained + a)
  }

  /** The shared promise, by what it awaits next. */
  datatype Initialization = NotStarted | Querying | Answered(found: bool) | Inserting | Inserted | Ready

  /** A call in progress, by what it awaits next. */
  datatype Caller =
    | Arriving(op: Op)                              // has not run yet
    | Waiting(op: Op)                               // awaits the initialization
    | Fetching(op: Op)                              // awaits findOneOrFail
    | Holding(op: Op, fetched: Coin)                // got its copy of the row
    | Storing(op: Op, fetched: Coin, stored: Coin)  // awaits save of the changed copy
    | Finished(op: Op, seen: Coin)
    | Failed(op: Op)                                // findOneOrFail found no row

  datatype System = System(row: Option<Coin>, init: Initialization, inserts: nat, callers: seq<Caller>)

  /** What the event loop or the database may do next. An event that is not enabled does nothing. */
  datatype Event =
    | Call(op: Op)
    | Arrive(i: nat)
    | QueryRuns | QueryReturns | InsertRuns | InsertReturns
    | Resume(i: nat)
    | Fetch(i: nat)
    | Continue(i: nat)
    | Store(i: nat)

  function Step(s: System, e: Event): System
  {
    match e
    case Call(op) => s.(callers := s.callers + [Arriving(op)])
    case QueryRuns => if s.init == Querying then s.(init := Answered(s.row.Some?)) else s
    case QueryReturns => if s.init.Answered? then s.(init := if s.init.found then Ready else Inserting) else s
    case InsertRuns =>
      if s.init == Inserting then s.(row := Some(ZERO_COIN), inserts := s.inserts + 1, init := Inserted) else s
    case InsertReturns => if s.init == Inserted then s.(init := Ready) else s
    case _ => if e.i < |s.callers| then CallerStep(s, e) else s
  }

  function CallerStep(s: System, e: Event): System
    requires (e.Arrive? || e.Resume? || e.Fetch? || e.Continue? || e.Store?) && e.i < |s.callers|
  {
    var c := s.callers[e.i];
    match e
    case Arrive(i) =>
      if !c.Arriving? then s
      else s.(callers := s.callers[i := Waiting(c.op)], init := if s.init == NotStarted then Querying else s.init)
    case Resume(i) => if c.Waiting? && s.init == Ready then s.(callers := s.callers[i := Fetching(c.op)]) else s
    case Fetch(i) =>
      if !c.Fetching? then s
      else s.(callers := s.callers[i := if s.row.Some? then Holding(c.op, s.row.value) else Failed(c.op)])
    case Continue(i) =>
      if !c.Holding? then s
      else if c.op.Read? then s.(callers := s.callers[i := Finished(c.op, c.fetched)])
      else s.(callers := s.callers[i := Storing(c.op, c.fetched, Apply(c.op, c.fetched))])
    case Store(i) =>
      if !c.Storing? then s
      else s.(row := Some(c.stored), callers := s.callers[i := Finished(c.op, c.stored)])
  }

  /** A service just constructed over a database that may or may not hold the row already. */
  function Started(row: Option<Coin>): System { System(row, NotStarted, 0, []) }

  function Run(s: System, events: seq<Event>): System
  {
    if events == [] then s else Step(Run(s, events[..|events| - 1]), events[|events| - 1])
  }

  // ----- what every interleaving keeps -----

  predicate Early(c: Caller) { c.Arriving? || c.Waiting? }

  ghost predicate AllEarly(callers: seq<Caller>) { forall i :: 0 <= i < |callers| ==> Early(callers[i]) }

  ghost predicate NoneFailed(callers: seq<Caller>) { forall i :: 0 <= i < |callers| ==> !callers[i].Failed? }

  /** `base` is what the database held when the service started. */
  ghost predicate Inv(base: Option<Coin>, s: System)
  {
    && NoneFailed(s.callers)
    && (s.init != Ready ==> AllEarly(s.callers))
    && match s.init
       case NotStarted => s.row == base && s.inserts == 0
       case Querying => s.row == base && s.inserts == 0
       case Answered(found) => s.row == base && s.inserts == 0 && found == base.Some?
       case Inserting => s.row == base == None && s.inserts == 0
       case Inserted => base == None && s.row == Some(ZERO_COIN) && s.inserts == 1
       case Ready => s.row.Some? && s.inserts == if base.None? then 1 else 0
  }

  lemma StepInv(base: Option<Coin>, s: System, e: Event)
    ensures Inv(base, s) ==> Inv(base, Step(s, e))
  {
  }

  lemma {:induction false} RunInv(base: Option<Coin>, events: seq<Event>)
    ensures Inv(base, Run(Started(base), events))
  {
    assert Inv(base, Started(base));
    hide Step, Inv;
    if events != [] {
      RunInv(base, events[..|events| - 1]);
      StepInv(base, Run(Started(base), events[..|events| - 1]), events[|events| - 1]);
    }
  }

  /** However the callers interleave, the zero row is inserted at most once, and only into an empty table. */
  lemma InsertedOnce(base: Option<Coin>, events: seq<Event>)
    ensures Run(Started(base), events).inserts <= if base.None? then 1 else 0
  {
    hide Run, Step;
    RunInv(base, events);
  }

  /** Every caller that gets to read finds a row. */
  lemma EveryReaderServed(base: Option<Coin>, events: seq<Event>)
    ensures var s := Run(Started(base), events);
            forall i :: 0 <= i < |s.callers| ==> !s.callers[i].Failed? && (!Early(s.callers[i]) ==> s.row.Some?)
  {
    hide Run, Step;
    RunInv(base, events);
    var s := Run(Started(base), events);
    assert s.init != Ready ==> AllEarly(s.callers);
  }

  /**
   * Only a caller's own save ever changes an existing row. In particular the insert of the
   * initialization never runs while a row exists, so it never resets a recorded tally.
   */
  lemma TalliesSurviveInit(base: Option<Coin>, events: seq<Event>, e: Event)
    requires !e.Store?
    ensures var s := Run(Started(base), events);
            s.row.Some? ==> Step(s, e).row == s.row
  {
    hide Run;
    RunInv(base, events);
  }

  // ----- what the interleaving does not keep: updates -----

  /** A copy about to be saved is the fetched row with the caller's own amount applied. */
  ghost predicate StoredRight(s: System)
  {
    forall i :: 0 <= i < |s.callers| && s.callers[i].Storing? ==>
      s.callers[i].stored == Apply(s.callers[i].op, s.callers[i].fetched) && !s.callers[i].op.Read?
  }

  lemma StepStoredRight(s: System, e: Event)
    ensures StoredRight(s) ==> StoredRight(Step(s, e))
  {
  }

  lemma {:induction false} RunStoredRight(base: Option<Coin>, events: seq<Event>)
    ensures StoredRight(Run(Started(base), events))
  {
    assert StoredRight(Started(base));
    hide Step, StoredRight;
    if events != [] {
      RunStoredRight(base, events[..|events| - 1]);
      StepStoredRight(Run(Started(base), events[..|events| - 1]), events[|events| - 1]);
    }
  }

  lemma ApplyInjective(op: Op, a: Coin, b: Coin)
    requires Apply(op, a) == Apply(op, b)
    ensures a == b
  {
  }

  /**
   * However the callers interleaved so far, a save adds its amount to the row as it stands exactly when the
   * row is still the one it fetched.
   */
  lemma StoreAddsIffUnchanged(base: Option<Coin>, events: seq<Event>, i: nat)
    ensures var s := Run(Started(base), events);
            i < |s.callers| && s.callers[i].Storing? ==>
              && s.row.Some?
              && var c := s.callers[i];
                 Step(s, Store(i)).row == Some(Apply(c.op, s.row.value)) <==> c.fetched == s.row.value
  {
    hide Run, NoneFailed;
    RunInv(base, events);
    RunStoredRight(base, events);
    var s := Run(Started(base), events);
    if i < |s.callers| && s.callers[i].Storing? {
      assert !Early(s.callers[i]);
      var c := s.callers[i];
      if Apply(c.op, c.fetched) == Apply(c.op, s.row.value) { ApplyInjective(c.op, c.fetched, s.row.value); }
    }
  }

  /** The row as it stands was fetched by the caller whose save comes next. */
  ghost predicate Unraced(s: System, e: Event)
  {
    e.Store? && e.i < |s.callers| && s.callers[e.i].Storing? ==> s.row == Some(s.callers[e.i].fetched)
  }

  ghost predicate RaceFree(s: System, events: seq<Event>)
  {
    forall k :: 0 <= k < |events| ==> Unraced(Run(s, events[..k]), events[k])
  }

  function MintedBy(): Caller -> real { (c: Caller) => if c.Finished? && c.op.AddMinted? then c.op.amount else 0.0 }
  function BurnedBy(): Caller -> real { (c: Caller) => if c.Finished? && c.op.AddBurned? then c.op.amount else 0.0 }
  function EarnedBy(): Caller -> real { (c: Caller) => if c.Finished? && c.op.AddEarned? then c.op.amount else 0.0 }

  function RowOr0(row: Option<Coin>): Coin { if row.Some? then row.value else ZERO_COIN }

  /** The base row plus what the finished callers recorded. */
  function Expected(base: Option<Coin>, callers: seq<Caller>): Coin
  {
    var start := RowOr0(base);
    Coin(start.processMinted + Sum(MintedBy(), callers), start.processBurned + Sum(BurnedBy(), callers),
         start.earnedRetained + Sum(EarnedBy(), callers))
  }

  /** Nothing recorded is lost. */
  ghost predicate AddsUp(base: Option<Coin>, s: System) { RowOr0(s.row) == Expected(base, s.callers) }

  /** This event saves a caller's changed copy. */
  predicate Saves(s: System, e: Event) { e.Store? && e.i < |s.callers| && s.callers[e.i].Storing? }

  /** Only a save moves the expected row, by its caller's own amount. */
  lemma StepExpected(base: Option<Coin>, s: System, e: Event)
    ensures Expected(base, Step(s, e).callers) ==
              if Saves(s, e) then Apply(s.callers[e.i].op, Expected(base, s.callers)) else Expected(base, s.callers)
  {
    hide Sum;
    var s' := Step(s, e);
    if e.Call? {
      SumSnoc(MintedBy(), s.callers, Arriving(e.op));
      SumSnoc(BurnedBy(), s.callers, Arriving(e.op));
      SumSnoc(EarnedBy(), s.callers, Arriving(e.op));
    } else if (e.Arrive? || e.Resume? || e.Fetch? || e.Continue? || e.Store?) && e.i < |s.callers|
        && s'.callers != s.callers {
      assert s'.callers == s.callers[e.i := s'.callers[e.i]];
      SumUpdate(MintedBy(), s.callers, e.i, s'.callers[e.i]);
      SumUpdate(BurnedBy(), s.callers, e.i, s'.callers[e.i]);
      SumUpdate(EarnedBy(), s.callers, e.i, s'.callers[e.i]);
    }
  }

  /** A step from a row that adds up leads to one exactly when it is not a raced save. */
  lemma StepAddsUp(base: Option<Coin>, s: System, e: Event)
    requires Inv(base, s) && AddsUp(base, s) && StoredRight(s)
    ensures AddsUp(base, Step(s, e)) <==> Unraced(s, e)
  {
    assert AllEarly(s.callers) ==> forall i :: 0 <= i < |s.callers| ==> Early(s.callers[i]);
    hide Expected, AllEarly, NoneFailed, Apply;
    StepExpected(base, s, e);
    if Saves(s, e) {
      var c := s.callers[e.i];
      assert s.row.Some? by { assert !Early(c) && (s.init != Ready ==> AllEarly(s.callers)); }
      if Apply(c.op, c.fetched) == Apply(c.op, s.row.value) { ApplyInjective(c.op, c.fetched, s.row.value); }
    }
  }

  lemma StartedAddsUp(base: Option<Coin>)
    ensures AddsUp(base, Started(base)) && RaceFree(Started(base), []) && Bounded(base, Started(base))
  {
  }

  lemma RaceFreeLast(s: System, events: seq<Event>)
    requires events != []
    ensures var n := |events| - 1;
            RaceFree(s, events) <==> RaceFree(s, events[..n]) && Unraced(Run(s, events[..n]), events[n])
  {
    hide Unraced, Run;
    var n := |events| - 1;
    assert forall k :: 0 <= k <= n ==> events[..n][..k] == events[..k];
    if RaceFree(s, events) {
      forall k | 0 <= k < n ensures Unraced(Run(s, events[..n][..k]), events[..n][k]) {
        assert Unraced(Run(s, events[..k]), events[k]);
      }
    }
    if RaceFree(s, events[..n]) && Unraced(Run(s, events[..n]), events[n]) {
      forall k | 0 <= k < |events| ensures Unraced(Run(s, events[..k]), events[k]) {
        if k < n { assert Unraced(Run(s, events[..n][..k]), events[..n][k]); }
      }
    }
  }

  /** Nothing recorded is lost at any time. */
  ghost predicate AlwaysAddsUp(base: Option<Coin>, events: seq<Event>)
  {
    forall k :: 0 <= k <= |events| ==> AddsUp(base, Run(Started(base), events[..k]))
  }

  lemma AlwaysLast(base: Option<Coin>, events: seq<Event>)
    requires events != []
    ensures AlwaysAddsUp(base, events) <==>
              AlwaysAddsUp(base, events[..|events| - 1]) && AddsUp(base, Run(Started(base), events))
  {
    hide AddsUp, Run;
    var n := |events| - 1;
    assert forall k :: 0 <= k <= n ==> events[..n][..k] == events[..k];
    assert events[..n + 1] == events;
    if AlwaysAddsUp(base, events) {
      forall k | 0 <= k <= n ensures AddsUp(base, Run(Started(base), events[..n][..k])) {
        assert AddsUp(base, Run(Started(base), events[..k]));
      }
    }
    if AlwaysAddsUp(base, events[..n]) && AddsUp(base, Run(Started(base), events)) {
      forall k | 0 <= k <= |events| ensures AddsUp(base, Run(Started(base), events[..k])) {
        if k <= n { assert AddsUp(base, Run(Started(base), events[..n][..k])); }
      }
    }
  }

  /** The tallies add up all along, whatever amounts are recorded, exactly when no save is raced. */
  lemma {:induction false} AlwaysAddsUpIff(base: Option<Coin>, events: seq<Event>)
    ensures AlwaysAddsUp(base, events) <==> RaceFree(Started(base), events)
  {
    hide Step, AddsUp, StoredRight, Unraced, Inv, RaceFree;
    if events == [] {
      StartedAddsUp(base);
    } else {
      hide AlwaysAddsUp;
      var n := |events| - 1;
      var front := events[..n];
      AlwaysAddsUpIff(base, front);
      AlwaysLast(base, events);
      RaceFreeLast(Started(base), events);
      if AlwaysAddsUp(base, front) {
        AlwaysNow(base, front);
        RunInv(base, front);
        RunStoredRight(base, front);
        StepAddsUp(base, Run(Started(base), front), events[n]);
      }
    }
  }

  lemma AlwaysNow(base: Option<Coin>, events: seq<Event>)
    requires AlwaysAddsUp(base, events)
    ensures AddsUp(base, Run(Started(base), events))
  {
    hide AddsUp, Run;
    assert events[..|events|] == events;
  }

  // ----- what is lost stays lost -----

  predicate Positive(op: Op) { op.Read? || op.amount > 0.0 }

  /** Every call either reads or records a positive amount. */
  ghost predicate AllPositive(events: seq<Event>)
  {
    forall k :: 0 <= k < |events| && events[k].Call? ==> Positive(events[k].op)
  }

  predicate AtMost(a: Coin, b: Coin)
  {
    a.processMinted <= b.processMinted && a.processBurned <= b.processBurned && a.earnedRetained <= b.earnedRetained
  }

  predicate HasCopy(c: Caller) { c.Holding? || c.Storing? }

  /** Neither the row nor any copy exceeds the expected row, and a copy that reaches it is still the row. */
  ghost predicate Bounded(base: Option<Coin>, s: System)
  {
    && AtMost(RowOr0(s.row), Expected(base, s.callers))
    && (forall i :: 0 <= i < |s.callers| ==> Positive(s.callers[i].op))
    && forall i :: 0 <= i < |s.callers| && HasCopy(s.callers[i]) ==>
         && AtMost(s.callers[i].fetched, Expected(base, s.callers))
         && (s.callers[i].fetched == Expected(base, s.callers) ==> s.row == Some(s.callers[i].fetched))
  }

  lemma ApplyAbove(op: Op, a: Coin, b: Coin)
    requires Positive(op) && !op.Read? && AtMost(a, b)
    ensures AtMost(Apply(op, a), Apply(op, b)) && AtMost(a, Apply(op, b)) && a != Apply(op, b)
  {
  }

  lemma SaveBounded(base: Option<Coin>, s: System, e: Event)
    requires Bounded(base, s) && StoredRight(s) && Saves(s, e)
    ensures Bounded(base, Step(s, e))
  {
    hide Expected, Apply, AtMost, Positive;
    StepExpected(base, s, e);
    var c, s' := s.callers[e.i], Step(s, e);
    assert Positive(c.op) && !c.op.Read?;
    ApplyAbove(c.op, c.fetched, Expected(base, s.callers));
    forall i | 0 <= i < |s'.callers| && HasCopy(s'.callers[i])
      ensures AtMost(s'.callers[i].fetched, Expected(base, s'.callers))
                && s'.callers[i].fetched != Expected(base, s'.callers)
    {
      assert s'.callers[i] == s.callers[i];
      ApplyAbove(c.op, s.callers[i].fetched, Expected(base, s.callers));
    }
  }

  lemma StepBounded(base: Option<Coin>, s: System, e: Event)
    requires Inv(base, s) && Bounded(base, s) && StoredRight(s) && (e.Call? ==> Positive(e.op))
    ensures Bounded(base, Step(s, e))
  {
    hide Expected, Apply, AtMost, Positive, AllEarly, NoneFailed;
    if Saves(s, e) {
      SaveBounded(base, s, e);
    } else {
      StepExpected(base, s, e);
    }
  }

  /** With positive amounts, once the row is short it stays short. */
  lemma StepShort(base: Option<Coin>, s: System, e: Event)
    requires Inv(base, s) && Bounded(base, s) && StoredRight(s)
    ensures AddsUp(base, Step(s, e)) ==> AddsUp(base, s)
  {
    hide Expected, Apply, AtMost, Positive, AllEarly, NoneFailed;
    StepExpected(base, s, e);
    if Saves(s, e) && AddsUp(base, Step(s, e)) {
      ApplyInjective(s.callers[e.i].op, s.callers[e.i].fetched, Expected(base, s.callers));
    }
  }

  lemma {:induction false} RunBounded(base: Option<Coin>, events: seq<Event>)
    requires AllPositive(events)
    ensures Bounded(base, Run(Started(base), events))
  {
    hide Step, StoredRight, Inv, Bounded, Positive;
    if events == [] {
      StartedAddsUp(base);
    } else {
      var n := |events| - 1;
      RunBounded(base, events[..n]);
      RunInv(base, events[..n]);
      RunStoredRight(base, events[..n]);
      StepBounded(base, Run(Started(base), events[..n]), events[n]);
    }
  }

  /**
   * Nothing recorded is lost, initialization included, exactly when no save is raced: however the callers
   * interleave, as long as each records a positive amount or only reads. (A lost copy of nothing could be made
   * good by a later save of a copy that still holds what it lost; `AlwaysAddsUpIff` asks nothing of the amounts.)
   */
  lemma {:induction false} AddsUpIffRaceFree(base: Option<Coin>, events: seq<Event>)
    requires AllPositive(events)
    ensures AddsUp(base, Run(Started(base), events)) <==> RaceFree(Started(base), events)
  {
    hide Step, AddsUp, StoredRight, Unraced, Inv, RaceFree, Bounded;
    if events == [] {
      StartedAddsUp(base);
    } else {
      var n := |events| - 1;
      var front := events[..n];
      assert AllPositive(front);
      AddsUpIffRaceFree(base, front);
      RaceFreeLast(Started(base), events);
      RunInv(base, front);
      RunStoredRight(base, front);
      RunBounded(base, front);
      var s := Run(Started(base), front);
      StepShort(base, s, events[n]);
      if AddsUp(base, s) { StepAddsUp(base, s, events[n]); }
    }
  }

  lemma {:induction false} RunConcat(s: System, first: seq<Event>, second: seq<Event>)
    ensures Run(s, first + second) == Run(Run(s, first), second)
  {
    hide Step;
    if second == [] {
      assert first + second == first;
    } else {
      var n := |second| - 1;
      RunConcat(s, first, second[..n]);
      assert (first + second)[..|first + second| - 1] == first + second[..n];
    }
  }

  lemma RunFirst(s: System, e: Event, rest: seq<Event>)
    ensures Run(s, [e] + rest) == Run(Step(s, e), rest)
  {
    hide Step;
    assert [e][..0] == [];
    assert Run(s, [e][..0]) == s;
    RunConcat(s, [e], rest);
  }

  lemma RunNothing(s: System)
    ensures Run(s, []) == s
  {
  }

  /** Two callers arrive, and the shared initialization finds the row. */
  function Arrivals(a: Op, b: Op): seq<Event>
  {
    [Call(a)] + ([Call(b)] + ([Arrive(0)] + ([Arrive(1)]
    + ([QueryRuns] + ([QueryReturns] + ([Resume(0)] + ([Resume(1)] + [])))))))
  }

  /** Both fetch before either saves. */
  const RACE: seq<Event> :=
    [Fetch(0)] + ([Fetch(1)] + ([Continue(0)] + ([Continue(1)] + ([Store(0)] + ([Store(1)] + [])))))

  lemma BothArrive(row: Coin, a: Op, b: Op)
    ensures Run(Started(Some(row)), Arrivals(a, b)) == System(Some(row), Ready, 0, [Fetching(a), Fetching(b)])
  {
    hide Run;
    var s0 := Started(Some(row));
    var s1 := s0.(callers := [Arriving(a)]);
    var s2 := s0.(callers := [Arriving(a), Arriving(b)]);
    var s3 := s2.(callers := [Waiting(a), Arriving(b)], init := Querying);
    var s4 := s3.(callers := [Waiting(a), Waiting(b)]);
    var s5 := s4.(init := Answered(true));
    var s6 := s4.(init := Ready);
    var s7 := s6.(callers := [Fetching(a), Waiting(b)]);
    var s8 := s6.(callers := [Fetching(a), Fetching(b)]);
    var r7 := [Resume(1)] + [];
    var r6 := [Resume(0)] + r7;
    var r5 := [QueryReturns] + r6;
    var r4 := [QueryRuns] + r5;
    var r3 := [Arrive(1)] + r4;
    var r2 := [Arrive(0)] + r3;
    var r1 := [Call(b)] + r2;
    assert Step(s0, Call(a)).callers == s1.callers;
    RunFirst(s0, Call(a), r1);
    assert Step(s1, Call(b)).callers == s2.callers;
    RunFirst(s1, Call(b), r2);
    assert Step(s2, Arrive(0)).callers == s3.callers;
    RunFirst(s2, Arrive(0), r3);
    assert Step(s3, Arrive(1)).callers == s4.callers;
    RunFirst(s3, Arrive(1), r4);
    assert Step(s4, QueryRuns).callers == s5.callers;
    RunFirst(s4, QueryRuns, r5);
    assert Step(s5, QueryReturns).callers == s6.callers;
    RunFirst(s5, QueryReturns, r6);
    assert Step(s6, Resume(0)).callers == s7.callers;
    RunFirst(s6, Resume(0), r7);
    assert Step(s7, Resume(1)).callers == s8.callers;
    RunFirst(s7, Resume(1), []);
    RunNothing(s8);
  }

  lemma BothSave(row: Coin, a: Op, b: Op)
    requires !a.Read? && !b.Read?
    ensures Run(System(Some(row), Ready, 0, [Fetching(a), Fetching(b)]), RACE)
         == System(Some(Apply(b, row)), Ready, 0, [Finished(a, Apply(a, row)), Finished(b, Apply(b, row))])
  {
    hide Run, Apply;
    var s0 := System(Some(row), Ready, 0, [Fetching(a), Fetching(b)]);
    var s1 := s0.(callers := [Holding(a, row), Fetching(b)]);
    var s2 := s0.(callers := [Holding(a, row), Holding(b, row)]);
    var s3 := s0.(callers := [Storing(a, row, Apply(a, row)), Holding(b, row)]);
    var s4 := s0.(callers := [Storing(a, row, Apply(a, row)), Storing(b, row, Apply(b, row))]);
    var s5 := System(Some(Apply(a, row)), Ready, 0, [Finished(a, Apply(a, row)), Storing(b, row, Apply(b, row))]);
    var s6 := System(Some(Apply(b, row)), Ready, 0, [Finished(a, Apply(a, row)), Finished(b, Apply(b, row))]);
    var r5 := [Store(1)] + [];
    var r4 := [Store(0)] + r5;
    var r3 := [Continue(1)] + r4;
    var r2 := [Continue(0)] + r3;
    var r1 := [Fetch(1)] + r2;
    assert Step(s0, Fetch(0)).callers == s1.callers;
    RunFirst(s0, Fetch(0), r1);
    assert Step(s1, Fetch(1)).callers == s2.callers;
    RunFirst(s1, Fetch(1), r2);
    assert Step(s2, Continue(0)).callers == s3.callers;
    RunFirst(s2, Continue(0), r3);
    assert Step(s3, Continue(1)).callers == s4.callers;
    RunFirst(s3, Continue(1), r4);
    assert Step(s4, Store(0)).callers == s5.callers;
    RunFirst(s4, Store(0), r5);
    assert Step(s5, Store(1)).callers == s6.callers;
    RunFirst(s5, Store(1), []);
    RunNothing(s6);
  }

  /** The raced save, from a fresh service on: two callers finish, and one of their two amounts is lost. */
  lemma RacedUpdateLost(row: Coin, a: real, b: real)
    requires a != 0.0 && b != 0.0
    ensures var s := Run(Started(Some(row)), Arrivals(AddMinted(a), AddMinted(b)) + RACE);
            && (forall i :: 0 <= i < |s.callers| ==> s.callers[i].Finished?)
            && |s.callers| == 2
            && s.row == Some(row.(processMinted := row.processMinted + b))
            && s.row != Some(row.(processMinted := row.processMinted + a + b))
            && !AddsUp(Some(row), s)
  {
    hide Run, Sum, MintedBy, BurnedBy, EarnedBy;
    BothArrive(row, AddMinted(a), AddMinted(b));
    BothSave(row, AddMinted(a), AddMinted(b));
    RunConcat(Started(Some(row)), Arrivals(AddMinted(a), AddMinted(b)), RACE);
    BothCounted(row, a, b);
  }

  lemma BothCounted(row: Coin, a: real, b: real)
    ensures Sum(MintedBy(),
                [Finished(AddMinted(a), Apply(AddMinted(a), row)),
                 Finished(AddMinted(b), Apply(AddMinted(b), row))]) == a + b
  {
    var first, second := Finished(AddMinted(a), Apply(AddMinted(a), row)),
        Finished(AddMinted(b), Apply(AddMinted(b), row));
    assert [first, second] == ([] + [first]) + [second];
    SumSnoc(MintedBy(), [], first);
    SumSnoc(MintedBy(), [] + [first], second);
  }
}
