/** Read backpressure: when a connection is paused and what resumes it, over the same steps as the request budget. */
module Backpressure {
  import opened Basics
  import opened Budget

  // A request being charged or a release still to reach its scan: of anyone under an aggregate budget, else of
  // connection c.
  function PulsePart(o: Options, t: Token, c: nat): int {
    if Strict(o) then (if t.place == OwesScan then 1 else 0)
    else if t.conn == c && (t.place == TakesConn || t.place == OwesCount || t.place == OwesTotal || t.place == OwesScan)
    then 1
    else 0
  }

  function Pulsing(o: Options, c: nat): Token -> int { (t: Token) => PulsePart(o, t, c) }
  function Pulse(o: Options, tokens: seq<Token>, c: nat): int { Sum(tokens, Pulsing(o, c)) }

  // Something is in flight whose release will look at connection c.
  ghost predicate Live(o: Options, s: State, c: nat)
    requires c < |s.conns|
  {
    (if Strict(o) then s.total else s.conns[c].bytes) + Pulse(o, s.tokens, c) > 0
  }

  // No open connection is paused for good.
  ghost predicate Awake(o: Options, s: State) {
    forall c: nat | c < |s.conns| && s.conns[c].open && s.conns[c].paused :: Live(o, s, c)
  }

  // The reactor never works on a paused connection.
  ghost predicate Free(s: State) {
    s.reactor != Away ==> s.reactor.conn < |s.conns| && !s.conns[s.reactor.conn].paused
  }

  // Under an aggregate budget the total is still what is held.
  ghost predicate Exact(o: Options, s: State) { Strict(o) ==> Lossless(s) }

  lemma PulseNonNegative(o: Options, tokens: seq<Token>, c: nat)
    ensures Pulse(o, tokens, c) >= 0
  {
    SumNonNegative(tokens, Pulsing(o, c));
  }

  lemma ReservedBound(conns: seq<Conn>, c: nat)
    requires c < |conns| && forall d: nat | d < |conns| :: conns[d].lost == 0
    ensures conns[c].reserved <= Sum(conns, OnBooks())
  {
    SumAt(conns, c, OnBooks());
    SumNonNegative(conns[..c], OnBooks());
    SumNonNegative(conns[c + 1..], OnBooks());
  }

  // No connection counter exceeds the total, but for a half-made reservation.
  lemma ConnBelowTotal(o: Options, s: State, c: nat)
    requires Inv(o, s) && Strict(o) && Lossless(s) && c < |s.conns|
    requires !((s.reactor.Half? || s.reactor.RollingBack?) && s.reactor.conn == c)
    ensures s.conns[c].bytes <= s.total && s.conns[c].requests <= s.total
  {
    ReservedBound(s.conns, c);
    forall i | 0 <= i < |s.tokens|
      ensures OnConn(c)(s.tokens[i]) <= OnTotal()(s.tokens[i]) && OnCount(c)(s.tokens[i]) <= OnTotal()(s.tokens[i])
    {
      assert TokenOk(o, s.tokens[i], |s.conns|);
    }
    SumBound(s.tokens, OnConn(c), OnTotal());
    SumBound(s.tokens, OnCount(c), OnTotal());
    NonNegative(o, s, c);
  }

  function ConnOrPulse(o: Options, c: nat): Token -> int { (t: Token) => ConnPart(t, c) + PulsePart(o, t, c) }

  lemma {:induction false} SumOfBoth(o: Options, tokens: seq<Token>, c: nat)
    ensures Sum(tokens, ConnOrPulse(o, c)) == ConnSum(tokens, c) + Pulse(o, tokens, c)
  {
    if tokens == [] {
    } else {
      SumOfBoth(o, tokens[1..], c);
    }
  }

  lemma CountBelowBytes(o: Options, s: State, c: nat)
    requires Inv(o, s) && !Strict(o) && c < |s.conns|
    ensures s.conns[c].requests <= s.conns[c].bytes + Pulse(o, s.tokens, c)
  {
    forall i | 0 <= i < |s.tokens|
      ensures OnCount(c)(s.tokens[i]) <= ConnOrPulse(o, c)(s.tokens[i])
    {
      assert TokenOk(o, s.tokens[i], |s.conns|);
    }
    SumBound(s.tokens, OnCount(c), ConnOrPulse(o, c));
    SumOfBoth(o, s.tokens, c);
    assert ConnOk(o, s.conns[c]);
  }

  // A connection with nothing in flight is below its resume watermarks.
  lemma StillIsBelow(o: Options, s: State, c: nat)
    requires Inv(o, s) && Exact(o, s) && Free(s) && c < |s.conns| && s.conns[c].paused && !Live(o, s, c)
    ensures BelowResume(o, s.conns[c], s.total)
  {
    PulseNonNegative(o, s.tokens, c);
    NonNegative(o, s, c);
    if Strict(o) {
      ConnBelowTotal(o, s, c);
    } else {
      CountBelowBytes(o, s, c);
    }
  }

  // The scan that ends a release leaves nobody behind.
  lemma ScanWakes(o: Options, s: State, i: nat)
    requires Inv(o, s) && Exact(o, s) && Awake(o, s) && Free(s) && At(s, i, OwesScan)
    ensures Awake(o, Pay(o, s, Scan(i))) && Free(Pay(o, s, Scan(i)))
  {
    var q := Pay(o, s, Scan(i));
    var mid := s.(tokens := Without(s.tokens, i));
    DropKeeps(o, s, i);
    forall c: nat | c < |q.conns| && q.conns[c].open && q.conns[c].paused
      ensures Live(o, q, c)
    {
      assert s.conns[c].open && s.conns[c].paused && Live(o, s, c);
      SumWithout(s.tokens, i, Pulsing(o, c));
      if !Live(o, mid, c) {
        StillIsBelow(o, mid, c);
      }
    }
  }

  // A step that pauses nobody and takes nothing away from what is in flight.
  ghost predicate NoLess(o: Options, s: State, q: State) {
    && |s.conns| <= |q.conns| && (Strict(o) ==> s.total <= q.total)
    && (forall c: nat | |s.conns| <= c < |q.conns| :: !q.conns[c].paused)
    && (forall c: nat | c < |s.conns| ::
          (q.conns[c].paused ==> s.conns[c].paused) && (q.conns[c].open ==> s.conns[c].open))
    && (!Strict(o) ==> forall c: nat | c < |s.conns| :: s.conns[c].bytes <= q.conns[c].bytes)
  }

  lemma NoLessAwake(o: Options, s: State, q: State)
    requires Awake(o, s) && NoLess(o, s, q)
    requires forall c: nat :: Pulse(o, q.tokens, c) >= Pulse(o, s.tokens, c)
    ensures Awake(o, q)
  {
    forall c: nat | c < |q.conns| && q.conns[c].open && q.conns[c].paused
      ensures Live(o, q, c)
    {
      assert c < |s.conns| && s.conns[c].open && s.conns[c].paused && Live(o, s, c);
      assert Pulse(o, q.tokens, c) >= Pulse(o, s.tokens, c);
    }
  }

  lemma AddedPulse(o: Options, tokens: seq<Token>, t: Token)
    ensures forall c: nat :: Pulse(o, tokens + [t], c) >= Pulse(o, tokens, c)
  {
    forall c: nat
      ensures Pulse(o, tokens + [t], c) >= Pulse(o, tokens, c)
    {
      SumAppend(tokens, t, Pulsing(o, c));
    }
  }

  lemma MovedPulse(o: Options, tokens: seq<Token>, i: nat, t: Token)
    requires i < |tokens| && forall c: nat :: PulsePart(o, tokens[i], c) <= PulsePart(o, t, c)
    ensures forall c: nat :: Pulse(o, tokens[i := t], c) >= Pulse(o, tokens, c)
  {
    forall c: nat
      ensures Pulse(o, tokens[i := t], c) >= Pulse(o, tokens, c)
    {
      SumUpdate(tokens, i, t, Pulsing(o, c));
    }
  }

  lemma ReadNoLess(o: Options, s: State, step: Reading)
    requires Free(s)
    ensures NoLess(o, s, Read(o, s, step)) && Free(Read(o, s, step))
    ensures s.tokens <= Read(o, s, step).tokens && |Read(o, s, step).tokens| <= |s.tokens| + 1
  {
    match step
    case Connect =>
    case Enter(_) =>
    case Announce(_, _) =>
    case Begin(_) =>
    case ReserveConn(_) =>
    case Collect(_, _) =>
    case Dispatch(_, _) =>
    case Continue(_, _) =>
    case Break(_) =>
    case Close(_) =>
  }

  lemma ReadStaysAwake(o: Options, s: State, step: Reading)
    requires Inv(o, s) && Awake(o, s) && Free(s)
    ensures Awake(o, Read(o, s, step)) && Free(Read(o, s, step))
  {
    ReadNoLess(o, s, step);
    MoreTokens(o, s, Read(o, s, step));
  }

  lemma MoreTokens(o: Options, s: State, q: State)
    requires Awake(o, s) && NoLess(o, s, q) && s.tokens <= q.tokens && |q.tokens| <= |s.tokens| + 1
    ensures Awake(o, q)
  {
    if |q.tokens| == |s.tokens| + 1 {
      AddedPulse(o, s.tokens, q.tokens[|s.tokens|]);
      assert q.tokens == s.tokens + [q.tokens[|s.tokens|]];
    } else {
      assert q.tokens == s.tokens;
    }
    NoLessAwake(o, s, q);
  }

  lemma ActStaysAwake(o: Options, s: State, step: Acting)
    requires Inv(o, s) && Awake(o, s) && Free(s) && step != Pause
    ensures Awake(o, Act(o, s, step)) && Free(Act(o, s, step))
  {
    var q := Act(o, s, step);
    MoreTokens(o, s, q);
  }

  // A request that takes its bytes on the connection's counter.
  lemma ChargeStaysAwake(o: Options, s: State, i: nat)
    requires Inv(o, s) && Awake(o, s) && Free(s) && At(s, i, TakesConn)
    ensures Awake(o, Work(o, s, ChargeConn(i))) && Free(Work(o, s, ChargeConn(i)))
  {
    var q := Work(o, s, ChargeConn(i));
    assert TokenOk(o, s.tokens[i], |s.conns|);
    forall c: nat | c < |q.conns| && q.conns[c].open && q.conns[c].paused
      ensures Live(o, q, c)
    {
      assert s.conns[c].open && s.conns[c].paused && Live(o, s, c);
      SumUpdate(s.tokens, i, q.tokens[i], Pulsing(o, c));
    }
  }

  lemma DropStaysAwake(o: Options, s: State, q: State, i: nat)
    requires Awake(o, s) && i < |s.tokens| && s.tokens[i].place == Running
    requires NoLess(o, s, q) && q.tokens == Without(s.tokens, i)
    ensures Awake(o, q)
  {
    forall c: nat
      ensures Pulse(o, q.tokens, c) >= Pulse(o, s.tokens, c)
    {
      SumWithout(s.tokens, i, Pulsing(o, c));
    }
    NoLessAwake(o, s, q);
  }

  lemma WorkStaysAwake(o: Options, s: State, step: Working)
    requires Inv(o, s) && Awake(o, s) && Free(s)
    ensures Awake(o, Work(o, s, step)) && Free(Work(o, s, step))
  {
    var q, i := Work(o, s, step), step.token;
    if step.ChargeConn? && At(s, i, TakesConn) {
      ChargeStaysAwake(o, s, i);
    } else if |q.tokens| < |s.tokens| {
      DropStaysAwake(o, s, q, i);
    } else if q != s {
      assert TokenOk(o, s.tokens[i], |s.conns|);
      MovedPulse(o, s.tokens, i, q.tokens[i]);
      NoLessAwake(o, s, q);
    }
  }

  lemma SubConnStaysAwake(o: Options, s: State, i: nat)
    requires Inv(o, s) && Exact(o, s) && Awake(o, s) && Free(s) && At(s, i, OwesConn)
    ensures Awake(o, Pay(o, s, SubConn(i))) && Free(Pay(o, s, SubConn(i)))
  {
    var q, t := Pay(o, s, SubConn(i)), s.tokens[i];
    assert TokenOk(o, t, |s.conns|);
    PayKeeps(o, s, SubConn(i));
    PayLoss(o, s, SubConn(i));
    MovedPulse(o, s.tokens, i, q.tokens[i]);
    forall c: nat | c < |q.conns| && q.conns[c].open && q.conns[c].paused
      ensures Live(o, q, c)
    {
      assert s.conns[c].open && s.conns[c].paused && Live(o, s, c);
      NonNegative(o, q, c);
      SumUpdate(s.tokens, i, q.tokens[i], Pulsing(o, c));
      PulseNonNegative(o, s.tokens, c);
    }
  }

  lemma SubTotalStaysAwake(o: Options, s: State, i: nat)
    requires Inv(o, s) && Exact(o, s) && Awake(o, s) && Free(s) && At(s, i, OwesTotal)
    ensures Awake(o, Pay(o, s, SubTotal(i))) && Free(Pay(o, s, SubTotal(i)))
  {
    var q := Pay(o, s, SubTotal(i));
    PayKeeps(o, s, SubTotal(i));
    PayLoss(o, s, SubTotal(i));
    forall c: nat | c < |q.conns| && q.conns[c].open && q.conns[c].paused
      ensures Live(o, q, c)
    {
      assert s.conns[c].open && s.conns[c].paused && Live(o, s, c);
      NonNegative(o, q, c);
      SumUpdate(s.tokens, i, q.tokens[i], Pulsing(o, c));
      PulseNonNegative(o, s.tokens, c);
    }
  }

  lemma SubCountStaysAwake(o: Options, s: State, i: nat)
    requires Inv(o, s) && Exact(o, s) && Awake(o, s) && Free(s) && At(s, i, OwesCount)
    ensures Awake(o, Pay(o, s, SubCount(i))) && Free(Pay(o, s, SubCount(i)))
  {
    var q := Pay(o, s, SubCount(i));
    assert TokenOk(o, s.tokens[i], |s.conns|);
    MovedPulse(o, s.tokens, i, q.tokens[i]);
    NoLessAwake(o, s, q);
  }

  // Every step but a pause leaves no connection behind.
  lemma StepStaysAwake(o: Options, s: State, step: Step)
    requires Inv(o, s) && Exact(o, s) && Awake(o, s) && Free(s) && step != Acts(Pause)
    ensures Awake(o, Apply(o, s, step)) && Free(Apply(o, s, step))
  {
    match step {
      case Reads(r) => ReadStaysAwake(o, s, r);
      case Acts(a) => ActStaysAwake(o, s, a);
      case Works(w) => WorkStaysAwake(o, s, w);
      case Pays(p) =>
        var i := p.token;
        if p.SubConn? && At(s, i, OwesConn) {
          SubConnStaysAwake(o, s, i);
        } else if p.SubCount? && At(s, i, OwesCount) {
          SubCountStaysAwake(o, s, i);
        } else if p.SubTotal? && At(s, i, OwesTotal) {
          SubTotalStaysAwake(o, s, i);
        } else if p.Scan? && At(s, i, OwesScan) {
          ScanWakes(o, s, i);
        }
    }
  }

  // A pause is safe exactly when something is in flight at that moment.
  lemma PauseStaysAwakeIff(o: Options, s: State)
    requires Inv(o, s) && Awake(o, s) && Free(s) && s.reactor.Pausing?
    ensures Free(Act(o, s, Pause))
    ensures Awake(o, Act(o, s, Pause)) <==> (s.conns[s.reactor.conn].open ==> Live(o, s, s.reactor.conn))
  {
    var q, c := Act(o, s, Pause), s.reactor.conn;
    assert forall d: nat | d < |s.conns| :: Live(o, q, d) == Live(o, s, d);
    assert q.conns[c].paused && q.conns[c].open == s.conns[c].open;
    assert forall d: nat | d < |s.conns| && d != c :: q.conns[d] == s.conns[d];
  }

  ghost predicate AlwaysAwake(o: Options, s: State, steps: seq<Step>)
    decreases |steps|
  {
    Awake(o, s) && (steps != [] ==> AlwaysAwake(o, Apply(o, s, steps[0]), steps[1..]))
  }

  // Every pause of an open connection comes while something is in flight.
  ghost predicate GoodPauses(o: Options, s: State, steps: seq<Step>)
    decreases |steps|
  {
    steps != [] ==>
      && (steps[0] == Acts(Pause) && s.reactor.Pausing? && s.reactor.conn < |s.conns| ==>
            (s.conns[s.reactor.conn].open ==> Live(o, s, s.reactor.conn)))
      && GoodPauses(o, Apply(o, s, steps[0]), steps[1..])
  }

  // A run that keeps the ledger never strands a connection if and only if each of its pauses is good.
  lemma {:induction false} AwakeIffGoodPauses(o: Options, s: State, steps: seq<Step>)
    requires Inv(o, s) && Exact(o, s) && Awake(o, s) && Free(s) && (Strict(o) ==> Clean(o, s, steps))
    ensures AlwaysAwake(o, s, steps) <==> GoodPauses(o, s, steps)
    decreases |steps|
  {
    if steps == [] {
    } else {
      var q := Apply(o, s, steps[0]);
      StepKeeps(o, s, steps[0]);
      if Strict(o) {
        StepLoss(o, s, steps[0]);
      }
      if steps[0] == Acts(Pause) && s.reactor.Pausing? {
        PauseStaysAwakeIff(o, s);
      } else if steps[0] != Acts(Pause) {
        StepStaysAwake(o, s, steps[0]);
      }
      if Awake(o, q) {
        AwakeIffGoodPauses(o, q, steps[1..]);
      }
    }
  }

  /** A run both keeps the ledger and never strands a connection if and only if no step of it offends against the ledger
      and every pause comes while something is in flight. */
  lemma SoundIffCleanAndGood(o: Options, steps: seq<Step>)
    ensures Balanced(o, Run(o, Init(), steps)) && AlwaysAwake(o, Init(), steps) <==>
            Clean(o, Init(), steps) && GoodPauses(o, Init(), steps)
  {
    BudgetConserved(o, steps);
    StartsLossless(o);
    if Clean(o, Init(), steps) {
      AwakeIffGoodPauses(o, Init(), steps);
    }
  }

  ghost predicate CommitLive(o: Options, s: State) {
    Committed(s.reactor) ==> s.reactor.conn < |s.conns| && Live(o, s, s.reactor.conn)
  }

  lemma InFlight(o: Options, s: State, c: nat)
    requires Inv(o, s) && Exact(o, s) && c < |s.conns| && !s.reactor.Half? && !s.reactor.RollingBack?
    requires s.conns[c].bytes > 0 || s.conns[c].requests > 0 || (Strict(o) && s.total > 0)
    ensures Live(o, s, c)
  {
    PulseNonNegative(o, s.tokens, c);
    if Strict(o) {
      ConnBelowTotal(o, s, c);
    } else {
      CountBelowBytes(o, s, c);
    }
  }

  lemma ReservationRefused(o: Options, s: State, c: nat)
    requires Inv(o, s) && Exact(o, s) && Validated(o)
    ensures CommitLive(o, s) ==> CommitLive(o, Read(o, s, ReserveConn(c)))
  {
    if Strict(o) && Parsing(s, c) && s.conns[c].phase.Announced? {
      var q := Read(o, s, ReserveConn(c));
      assert ConnOk(o, s.conns[c]);
      NonNegative(o, s, c);
      if q.reactor == Pausing(c) {
        InFlight(o, s, c);
        assert q == s.(reactor := Pausing(c));
      }
    }
  }

  lemma DecisionIsLive(o: Options, s: State, step: Acting)
    requires Inv(o, s) && Exact(o, s) && Validated(o) && CommitLive(o, s)
    requires Committed(s.reactor) ==> step == RollBack || step == Pause
    ensures CommitLive(o, Act(o, s, step))
  {
    var q := Act(o, s, step);
    if step == ReserveTotal && s.reactor.Half? {
      PulseNonNegative(o, s.tokens, s.reactor.conn);
      NonNegative(o, s, 0);
      assert ConnOk(o, s.conns[s.reactor.conn]);
    } else if step == Decide && s.reactor.Deciding? {
      NonNegative(o, s, s.reactor.conn);
      if q.reactor.Pausing? {
        InFlight(o, s, s.reactor.conn);
      }
    }
  }

  // A commitment is only ever made by the reactor's own steps.
  lemma NoNewCommitment(o: Options, s: State, step: Step)
    requires !step.Acts? && (step.Reads? ==> !step.reading.ReserveConn?)
    ensures Committed(Apply(o, s, step).reactor) ==> Apply(o, s, step).reactor == s.reactor
  {
  }

  lemma {:induction false} PromptIsGood(o: Options, s: State, steps: seq<Step>)
    requires Inv(o, s) && Exact(o, s) && Validated(o) && CommitLive(o, s) && Prompt(o, s, steps)
    requires Strict(o) ==> Clean(o, s, steps)
    ensures GoodPauses(o, s, steps)
    decreases |steps|
  {
    if steps == [] {
    } else {
      var step, q := steps[0], Apply(o, s, steps[0]);
      StepKeeps(o, s, step);
      if Strict(o) {
        StepLoss(o, s, step);
      }
      if step.Acts? {
        DecisionIsLive(o, s, step.acting);
      } else if step.Reads? && step.reading.ReserveConn? {
        ReservationRefused(o, s, step.reading.conn);
      } else {
        NoNewCommitment(o, s, step);
      }
      PromptIsGood(o, q, steps[1..]);
    }
  }

  /** Taking decision and pause as one step, on a run that keeps the ledger no open connection is ever left paused with
      nothing in flight to resume it; without an aggregate budget this holds on every run. */
  lemma BackpressureNeverStalls(o: Options, steps: seq<Step>)
    requires Validated(o) && Prompt(o, Init(), steps) && (Strict(o) ==> Clean(o, Init(), steps))
    ensures AlwaysAwake(o, Init(), steps)
    ensures var s := Run(o, Init(), steps);
            s.tokens == [] && s.total == 0 ==> forall c: nat | c < |s.conns| && s.conns[c].open :: !s.conns[c].paused
  {
    StartsLossless(o);
    PromptIsGood(o, Init(), steps);
    AwakeIffGoodPauses(o, Init(), steps);
    AwakeAtEnd(o, Init(), steps);
    RunKeeps(o, Init(), steps);
    NoneLeftPaused(o, Run(o, Init(), steps));
  }

  lemma NoneLeftPaused(o: Options, s: State)
    requires Inv(o, s) && Awake(o, s)
    ensures s.tokens == [] && s.total == 0 ==> forall c: nat | c < |s.conns| && s.conns[c].open :: !s.conns[c].paused
  {
    forall c: nat | c < |s.conns| && s.conns[c].open && s.tokens == [] && s.total == 0
      ensures !s.conns[c].paused
    {
      assert ConnOk(o, s.conns[c]);
      assert s.conns[c].paused ==> Live(o, s, c);
    }
  }

  lemma {:induction false} AwakeAtEnd(o: Options, s: State, steps: seq<Step>)
    requires AlwaysAwake(o, s, steps)
    ensures Awake(o, Run(o, s, steps))
    decreases |steps|
  {
    if steps == [] {
    } else {
      AwakeAtEnd(o, Apply(o, s, steps[0]), steps[1..]);
    }
  }

  // As the code has it, a job may finish between the decision and the pause; its connection is then paused with nothing
  // in flight.
  lemma SplitPauseStrands() returns (o: Options, steps: seq<Step>)
    ensures Validated(o) && Run(o, Init(), steps) == State([Fresh().(paused := true)], [], Away, 0)
    ensures !AlwaysAwake(o, Init(), steps)
  {
    o, steps := Options(1, 1, 1, 1), [];
    var end := State([Fresh().(paused := true)], [], Away, 0);
    var k := Fresh().(bytes := 1, requests := 1);
    steps := Prepend(false, o, State([Fresh()], [], Pausing(0), 0), Acts(Pause), end, steps, end);
    steps := JobReleased(false, o, Pausing(0), steps, end);
    steps := JobRuns(false, o, Pausing(0), steps, end);
    steps := Prepend(false, o, State([k], [Job(Queued)], Deciding(0), 1), Acts(Decide),
                     State([k], [Job(Queued)], Pausing(0), 1), steps, end);
    steps := RequestQueued(false, o, steps, end);
    steps := RequestParsed(false, o, steps, end);
    steps := ConnectionEntered(false, o, steps, end);
    assert end.conns[0].paused && end.conns[0].open && !Live(o, end, 0);
    if AlwaysAwake(o, Init(), steps) {
      AwakeAtEnd(o, Init(), steps);
    }
  }

  // With the total below zero another connection is accepted, ...
  lemma NextConnectionEntered(prompt: bool, o: Options, rest: seq<Step>, end: State) returns (steps: seq<Step>)
    requires o == Options(1, 2, 2, 2)
    requires Leads(prompt, o, State([Overpaid().(paused := true), Fresh()], [], Consuming(1), -1), rest, end)
    ensures Leads(prompt, o, State([Overpaid()], [], Deciding(0), -1), steps, end)
  {
    var s0 := State([Overpaid()], [], Deciding(0), -1);
    var s1 := State([Overpaid()], [], Pausing(0), -1);
    var s2 := State([Overpaid().(paused := true)], [], Away, -1);
    var s3 := State([Overpaid().(paused := true), Fresh()], [], Away, -1);
    var s4 := State([Overpaid().(paused := true), Fresh()], [], Consuming(1), -1);
    steps := rest;
    steps := Prepend(prompt, o, s3, Reads(Enter(1)), s4, steps, end);
    steps := Prepend(prompt, o, s2, Reads(Connect), s3, steps, end);
    steps := Prepend(prompt, o, s1, Acts(Pause), s2, steps, end);
    steps := Prepend(prompt, o, s0, Acts(Decide), s1, steps, end);
  }

  // ... and its first request is refused room, so it is paused.
  lemma NextRequestRefused(prompt: bool, o: Options, rest: seq<Step>, end: State) returns (steps: seq<Step>)
    requires o == Options(1, 2, 2, 2)
    requires Leads(prompt, o, State([Overpaid().(paused := true), Fresh().(paused := true, phase := Announced(1))],
                                    [], Away, -1), rest, end)
    ensures Leads(prompt, o, State([Overpaid().(paused := true), Fresh()], [], Consuming(1), -1), steps, end)
  {
    var s0 := State([Overpaid().(paused := true), Fresh()], [], Consuming(1), -1);
    var s1 := State([Overpaid().(paused := true), Fresh().(phase := Announced(1))], [], Consuming(1), -1);
    var s2 := State([Overpaid().(paused := true), Fresh().(bytes := 1, phase := Announced(1))], [], Half(1, 1), -1);
    var s3 := State([Overpaid().(paused := true), Fresh().(bytes := 1, phase := Announced(1))],
                    [], RollingBack(1, 1), -1);
    var s4 := State([Overpaid().(paused := true), Fresh().(phase := Announced(1))], [], Pausing(1), -1);
    var s5 := State([Overpaid().(paused := true), Fresh().(paused := true, phase := Announced(1))], [], Away, -1);
    steps := rest;
    steps := Prepend(prompt, o, s4, Acts(Pause), s5, steps, end);
    steps := Prepend(prompt, o, s3, Acts(RollBack), s4, steps, end);
    steps := Prepend(prompt, o, s2, Acts(ReserveTotal), s3, steps, end);
    steps := Prepend(prompt, o, s1, Reads(ReserveConn(1)), s2, steps, end);
    steps := Prepend(prompt, o, s0, Reads(Announce(1, 1)), s1, steps, end);
  }

  /** Once bytes have been released twice, a connection is stranded although decision and pause are one step: the total
      shows nearly its whole range, and nothing is in flight that would ever bring it down. */
  lemma UncleanRunStrands() returns (o: Options, steps: seq<Step>)
    ensures Validated(o) && Strict(o) && Prompt(o, Init(), steps) && !Clean(o, Init(), steps)
    ensures var s := Run(o, Init(), steps); |s.conns| == 2 && s.conns[1].open && s.conns[1].paused && s.tokens == []
    ensures !AlwaysAwake(o, Init(), steps)
  {
    o := Options(1, 2, 2, 2);
    var end := State([Overpaid().(paused := true), Fresh().(paused := true, phase := Announced(1))], [], Away, -1);
    steps := NextRequestRefused(true, o, [], end);
    steps := NextConnectionEntered(true, o, steps, end);
    steps := BelowZero(true, o, steps, end);
    assert end.conns[1].paused && end.conns[1].open && !Live(o, end, 1);
    if AlwaysAwake(o, Init(), steps) {
      AwakeAtEnd(o, Init(), steps);
    }
    assert end.conns[0].lost == -1;
    LossIsUnclean(o, steps);
  }
}
