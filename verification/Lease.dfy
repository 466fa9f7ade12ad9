/** Who may read a connection, and what happens to its unread bytes: reactor, stream workers and continuation workers
    pass the read side on, one step per locked section. */
module Lease {
  import opened Codec

  datatype Phase = InHeader | InRequest | InRoute

  // The reactor thread, with respect to this connection: away from it, reading it, or done reading and about to leave.
  // The number names the map entry it looked up.
  datatype Reactor = Away | Reading(entry: nat) | Leaving(entry: nat)

  // What a lease holder is doing: using the connection, or giving it back, past the tests and not yet under the lock.
  datatype Giving = Holding | Giving(stream: bool, reuse: bool)

  // The jobs dispatched from a connection: the count of regular ones, of which continuation workers serve `own`
  // themselves and have left `dropped` by an exception, and the count of serialized ones.
  datatype Jobs = Jobs(regular: nat, own: nat, dropped: nat, serialized: nat)

  predicate NoJobs(j: Jobs) { j.regular == 0 && j.serialized == 0 }

  // Flags, map entry and the threads at work. `streams` and `continuations` count the leases held by stream and
  // continuation workers, `askers` the workers about to ask for a continuation lease.
  datatype Control = Control(
    running: bool, closing: bool, session: bool,
    present: bool, entry: nat, nextEntry: nat, busy: bool, paused: bool, streamActive: bool, workerOwned: bool,
    reactor: Reactor, streams: nat, continuations: nat, giving: Giving, askers: nat, jobs: Jobs)

  // `taken` is the frame in progress in the current map entry, `pending` its read-ahead, `leased` the bytes that went
  // along with a lease, `inHand` what a continuation worker has read of its next frame, `wire` what is still in the
  // socket. `done` has been used up and `sent` is all the peer ever sent.
  datatype Bytes = Bytes(
    phase: Phase, taken: seq<byte>, pending: seq<byte>, leased: seq<byte>, inHand: seq<byte>, wire: seq<byte>,
    done: seq<byte>, sent: seq<byte>)

  // `strict` says whether the server has an aggregate budget.
  datatype State = State(strict: bool, c: Control, d: Bytes)

  function Idle(): Control {
    Control(true, false, false, true, 0, 1, false, false, false, false, Away, 0, 0, Holding, 0, Jobs(0, 0, 0, 0))
  }

  function Empty(): Bytes { Bytes(InHeader, [], [], [], [], [], [], []) }

  function Accepted(strict: bool): State { State(strict, Idle(), Empty()) }

  // ---- closing and giving the connection back ------------------------------------------------------

  // Closing leaves the map entry while dispatched jobs are about.
  function Shut(c: Control): Control {
    if !c.present then c else c.(closing := true, present := !NoJobs(c.jobs))
  }

  predicate Returns(c: Control) { !c.closing && c.running }

  function Less(n: nat): nat { if n == 0 then 0 else n - 1 }

  function Ended(c: Control, stream: bool): Control {
    if stream then c.(streams := Less(c.streams)) else c.(continuations := Less(c.continuations))
  }

  // A lease holder looks at the flags before it takes the lock. A closing connection is shut, a stopped server leaves
  // everything as it is; otherwise the connection is on its way back.
  function Offered(c: Control, stream: bool): Control {
    if c.closing then Shut(Ended(c, stream))
    else if !c.running then Ended(c, stream)
    else c.(giving := Giving(stream, c.workerOwned && !c.streamActive))
  }

  // What the holder has read ahead goes along, or is dropped with the connection.
  function Kept(c: Control, d: Bytes, bytes: seq<byte>): Bytes {
    d.(leased := if Returns(c) then bytes else [], inHand := [])
  }

  // Under the lock, whatever the flags say by then, the connection returns to the reactor: in its old map entry if a
  // continuation worker brings it back and the reactor is not looking at that entry.
  function Rearmed(c: Control): Control
    requires c.giving.Giving?
  {
    var reuse := c.giving.reuse && c.present && !c.busy;
    c.(present := true, entry := if reuse then c.entry else c.nextEntry, nextEntry := c.nextEntry + 1,
       busy := false, paused := false, streamActive := false, workerOwned := false, giving := Holding,
       streams := if c.giving.stream then Less(c.streams) else c.streams,
       continuations := if c.giving.stream then c.continuations else Less(c.continuations))
  }

  // Rearming clears the map entry's parse state and appends the bytes handed back.
  function Restored(d: Bytes): Bytes { d.(phase := InHeader, taken := [], pending := d.leased, leased := []) }

  // ---- the reactor -----------------------------------------------------------------------------------

  datatype Reacting = Wake | StopReading | Leave | DispatchStream(slot: bool, queued: bool)

  function React(s: State, step: Reacting): State {
    var c := s.c;
    match step
    case Wake =>
      if c.reactor == Away && c.present && !c.closing && !c.streamActive && !c.workerOwned
      then s.(c := c.(busy := true, reactor := Reading(c.entry))) else s
    case StopReading => if c.reactor.Reading? then s.(c := c.(reactor := Leaving(c.reactor.entry))) else s
    case Leave =>
      if !c.reactor.Leaving? then s
      else if c.closing then s.(c := Shut(c).(reactor := Away))
      else s.(c := c.(busy := c.busy && !(c.present && c.entry == c.reactor.entry), reactor := Away))
    case DispatchStream(slot, queued) =>
      if !c.reactor.Reading? || s.d.phase != InRoute then s
      else if !NoJobs(c.jobs) || !slot
      then s.(c := c.(closing := true, reactor := Leaving(c.reactor.entry)))
      else HandedToStream(s, queued)
  }

  function ToStream(c: Control, queued: bool): Control
    requires c.reactor.Reading?
  {
    c.(streamActive := true, reactor := Leaving(c.reactor.entry), closing := c.closing || !queued,
       streams := c.streams + (if queued then 1 else 0))
  }

  // Nothing looks at the parse state left behind before the connection is rearmed.
  function WithStream(d: Bytes, queued: bool): Bytes {
    d.(phase := InHeader, done := d.done + d.taken, taken := [], pending := [],
       leased := if queued then d.pending else [])
  }

  // The stream worker gets the connection and everything read ahead; if the queue refuses the job nobody does.
  function HandedToStream(s: State, queued: bool): State
    requires s.c.reactor.Reading?
  {
    s.(c := ToStream(s.c, queued), d := WithStream(s.d, queued))
  }

  // The parser, while the reactor reads.
  datatype Parsing =
    | Receive(count: nat) | Take(count: nat) | Judge(next: Phase) | Cancelled
    | DispatchRequest(serialized: bool, session: bool)

  function Parse(s: State, step: Parsing): State {
    var c, d := s.c, s.d;
    if !c.reactor.Reading? then s
    else
      match step
      case Receive(n) =>
        if n <= |d.wire| then s.(d := d.(pending := d.pending + d.wire[..n], wire := d.wire[n..])) else s
      case Take(n) =>
        if n <= |d.pending| && (d.phase == InHeader ==> |d.taken| + n <= HEADER_SIZE)
        then s.(d := d.(taken := d.taken + d.pending[..n], pending := d.pending[n..])) else s
      case Judge(next) => if d.phase == InHeader && |d.taken| == HEADER_SIZE then s.(d := d.(phase := next)) else s
      case Cancelled =>
        if d.phase == InHeader && |d.taken| == HEADER_SIZE
        then s.(d := d.(done := d.done + d.taken, taken := [])) else s
      case DispatchRequest(serialized, session) =>
        if d.phase != InRequest then s
        else s.(c := c.(session := c.session || session, jobs := Dispatched(c.jobs, serialized)),
                d := d.(done := d.done + d.taken, taken := [], phase := InHeader))
  }

  function Dispatched(j: Jobs, serialized: bool): Jobs {
    if serialized then j.(serialized := j.serialized + 1) else j.(regular := j.regular + 1)
  }

  // ---- workers ----------------------------------------------------------------------------------------

  // The next n bytes a lease holder reads: what came with the lease first, then the socket.
  predicate CanRead(d: Bytes, n: nat) { n <= |d.leased| || (d.leased == [] && n <= |d.wire|) }

  function Next(d: Bytes, n: nat): seq<byte>
    requires CanRead(d, n)
  {
    if n <= |d.leased| then d.leased[..n] else d.wire[..n]
  }

  function Advanced(d: Bytes, n: nat): Bytes
    requires CanRead(d, n)
  {
    if n <= |d.leased| then d.(leased := d.leased[n..]) else d.(wire := d.wire[n..])
  }

  datatype Streaming = StreamRead(count: nat) | StreamEnd

  function Stream(s: State, step: Streaming): State {
    var c, d := s.c, s.d;
    if c.streams == 0 || c.giving != Holding then s
    else
      match step
      case StreamRead(n) => if CanRead(d, n) then s.(d := Advanced(d, n).(done := d.done + Next(d, n))) else s
      case StreamEnd => s.(c := Offered(c, true), d := Kept(c, d, d.leased))
  }

  // A regular job, a worker's own or not, or a serialized one completes; a regular job is passed on to its domain; a
  // continuation worker drops its own; a worker asks for a lease.
  datatype Completing = CompleteRegular(own: bool) | CompleteSerialized | PassOn | Drop | Acquire

  predicate MayLease(c: Control) {
    && c.running && c.session && !c.closing && NoJobs(c.jobs)
    && c.present && !c.busy && !c.paused && !c.streamActive && !c.workerOwned
  }

  // The continuation guard: it looks at the phase and the read-ahead, not at how much of a header was copied out.
  predicate MayContinue(s: State) { !s.strict && MayLease(s.c) && s.d.phase == InHeader && s.d.pending == [] }

  // There is such a job, and its worker has not left it.
  predicate Live(j: Jobs, own: bool) { j.regular > 0 && if own then j.own > 0 else j.regular > j.own + j.dropped }

  function JobsAfter(j: Jobs, step: Completing): Jobs {
    match step
    case CompleteRegular(own) =>
      if !Live(j, own) then j else j.(regular := j.regular - 1, own := if own then j.own - 1 else j.own)
    case CompleteSerialized => j.(serialized := Less(j.serialized))
    case PassOn => if j.regular <= j.dropped then j else j.(serialized := j.serialized + 1)
    case Drop => if j.own == 0 then j else j.(own := j.own - 1, dropped := j.dropped + 1)
    case Acquire => j
  }

  // The worker that completes the last regular job of an open connection asks for a lease; one that drops its job gives
  // the connection up.
  function Worked(c: Control, step: Completing): Control {
    var last := step.CompleteRegular? && Live(c.jobs, step.own) && c.jobs.regular == 1 && !c.closing;
    c.(jobs := JobsAfter(c.jobs, step), askers := c.askers + (if last then 1 else 0),
       closing := c.closing || (step.Drop? && c.jobs.own > 0))
  }

  function Granted(c: Control): Control {
    c.(askers := Less(c.askers), workerOwned := true, continuations := c.continuations + 1)
  }

  function Complete(s: State, step: Completing): State {
    if step != Acquire then s.(c := Worked(s.c, step))
    else if s.c.askers == 0 then s
    else if !MayContinue(s) then s.(c := s.c.(askers := s.c.askers - 1))
    else s.(c := Granted(s.c))
  }

  datatype Continuing = Read(count: nat) | CancelRead | RequestRead(session: bool) | StreamHeaderRead | GiveBack

  function Continue(s: State, step: Continuing): State {
    var c, d := s.c, s.d;
    if c.continuations == 0 || c.giving != Holding then s
    else
      match step
      case Read(n) => if CanRead(d, n) then s.(d := Advanced(d, n).(inHand := d.inHand + Next(d, n))) else s
      case CancelRead => s.(d := d.(done := d.done + d.inHand, inHand := []))
      case RequestRead(session) =>
        s.(c := Offered(Counted(c, session), false), d := Kept(c, d.(done := d.done + d.inHand), d.leased))
      case StreamHeaderRead => s.(c := Offered(c, false), d := Kept(c, d, d.inHand + d.leased))
      case GiveBack =>
        if d.inHand != [] && !c.closing then s else s.(c := Offered(c, false), d := Kept(c, d, d.leased))
  }

  // A request a continuation worker has read itself.
  function Counted(c: Control, session: bool): Control {
    c.(jobs := c.jobs.(regular := c.jobs.regular + 1, own := c.jobs.own + 1), session := c.session || session)
  }

  // ---- runs ----------------------------------------------------------------------------------------------

  // A continuation worker may fail before it gets the lock, and then gives the connection up.
  // At any time the peer may send, any thread may give the connection up or close it (a worker whose response
  // overflows, the reactor on expiry, hang-up or an event of a closing connection), reads may pause and the server may
  // stop.
  datatype Step =
    | Sends(bytes: seq<byte>) | Breaks | Closes | Stops | Pauses(paused: bool)
    | Reacts(reacting: Reacting) | Parses(parsing: Parsing)
    | Streams(streaming: Streaming) | Completes(completing: Completing) | Continues(continuing: Continuing)
    | Rearms | RearmFails

  function Apply(s: State, step: Step): State {
    match step
    case Sends(bytes) => s.(d := s.d.(wire := s.d.wire + bytes, sent := s.d.sent + bytes))
    case Breaks => s.(c := s.c.(closing := true))
    case Closes => s.(c := Shut(s.c))
    case Stops => s.(c := s.c.(running := false))
    case Pauses(paused) => s.(c := s.c.(paused := paused))
    case Reacts(r) => React(s, r)
    case Parses(p) => Parse(s, p)
    case Streams(t) => Stream(s, t)
    case Completes(t) => Complete(s, t)
    case Continues(t) => Continue(s, t)
    case Rearms => if s.c.giving.Giving? then s.(c := Rearmed(s.c), d := Restored(s.d)) else s
    case RearmFails =>
      if s.c.giving.Giving? && !s.c.giving.stream then s.(c := s.c.(giving := Holding, closing := true)) else s
  }

  function Run(s: State, steps: seq<Step>): State
    decreases |steps|
  {
    if steps == [] then s else Run(Apply(s, steps[0]), steps[1..])
  }

  // ---- exclusive reading -----------------------------------------------------------------------------------

  function Readers(c: Control): nat { (if c.reactor.Reading? then 1 else 0) + c.streams + c.continuations }

  ghost predicate Exclusive(c: Control) {
    && Readers(c) <= 1
    && (c.streams > 0 ==> c.streamActive) && (c.continuations > 0 ==> c.workerOwned)
    && (c.reactor.Reading? ==> !c.streamActive && !c.workerOwned)
    && (c.reactor != Away && c.present && c.entry == c.reactor.entry ==> c.busy)
    && (c.reactor.Reading? && c.present ==> c.entry == c.reactor.entry)
    && c.entry < c.nextEntry && (c.reactor != Away ==> c.reactor.entry < c.nextEntry)
    && (c.giving.Giving? ==> (if c.giving.stream then c.streams else c.continuations) > 0)
  }

  lemma ShutKeeps(c: Control)
    requires Exclusive(c)
    ensures Exclusive(Shut(c))
  {
  }

  // A lease holder starts to give the connection back, ...
  lemma OfferKeeps(c: Control, stream: bool)
    requires Exclusive(c) && c.giving == Holding && (if stream then c.streams else c.continuations) > 0
    ensures Exclusive(Offered(c, stream))
  {
    if !Returns(c) {
      ShutKeeps(Ended(c, stream));
    }
  }

  // ... and does, even if the connection was closed or the server stopped meanwhile.
  lemma RearmKeeps(c: Control)
    requires Exclusive(c) && c.giving.Giving?
    ensures Exclusive(Rearmed(c))
  {
  }

  lemma LeaveKeeps(c: Control)
    requires Exclusive(c) && c.reactor.Leaving?
    ensures Exclusive(Shut(c).(reactor := Away))
    ensures Exclusive(c.(busy := c.busy && !(c.present && c.entry == c.reactor.entry), reactor := Away))
  {
  }

  lemma ReactKeeps(s: State, step: Reacting)
    requires Exclusive(s.c)
    ensures Exclusive(React(s, step).c)
  {
    match step {
      case Wake =>
      case StopReading =>
      case Leave =>
        if s.c.reactor.Leaving? {
          LeaveKeeps(s.c);
        }
      case DispatchStream(slot, queued) => LeaseToStreamKeeps(s, slot, queued);
    }
  }

  lemma LeaseToStreamKeeps(s: State, slot: bool, queued: bool)
    requires Exclusive(s.c)
    ensures Exclusive(React(s, DispatchStream(slot, queued)).c)
  {
  }

  lemma ParseKeeps(s: State, step: Parsing)
    requires Exclusive(s.c)
    ensures Exclusive(Parse(s, step).c)
  {
  }

  lemma StreamKeeps(s: State, step: Streaming)
    requires Exclusive(s.c)
    ensures Exclusive(Stream(s, step).c)
  {
    if s.c.streams > 0 && s.c.giving == Holding && step == StreamEnd {
      OfferKeeps(s.c, true);
    }
  }

  lemma WorkedKeeps(c: Control, step: Completing)
    requires Exclusive(c)
    ensures Exclusive(Worked(c, step))
  {
  }

  lemma CompleteKeeps(s: State, step: Completing)
    requires Exclusive(s.c)
    ensures Exclusive(Complete(s, step).c)
  {
    if step != Acquire {
      WorkedKeeps(s.c, step);
    } else if s.c.askers > 0 && MayLease(s.c) {
      LeaseKeeps(s.c);
    }
  }

  lemma LeaseKeeps(c: Control)
    requires Exclusive(c) && c.askers > 0 && MayLease(c)
    ensures Exclusive(Granted(c))
  {
  }

  lemma ContinueKeeps(s: State, step: Continuing)
    requires Exclusive(s.c)
    ensures Exclusive(Continue(s, step).c)
  {
    if s.c.continuations > 0 && s.c.giving == Holding {
      match step {
        case Read(_) =>
        case CancelRead =>
        case RequestRead(session) =>
          CountedKeeps(s.c, session);
          OfferKeeps(Counted(s.c, session), false);
        case StreamHeaderRead => OfferKeeps(s.c, false);
        case GiveBack => OfferKeeps(s.c, false);
      }
    }
  }

  lemma CountedKeeps(c: Control, session: bool)
    requires Exclusive(c)
    ensures Exclusive(Counted(c, session))
  {
  }

  predicate ByWorker(step: Step) {
    step.Streams? || step.Completes? || step.Continues? || step.Rearms? || step.RearmFails?
  }

  lemma WorkerKeeps(s: State, step: Step)
    requires Exclusive(s.c) && ByWorker(step)
    ensures Exclusive(Apply(s, step).c)
  {
    match step {
      case Streams(t) => StreamKeeps(s, t);
      case Completes(t) => CompleteKeeps(s, t);
      case Continues(t) => ContinueKeeps(s, t);
      case Rearms =>
        if s.c.giving.Giving? {
          RearmKeeps(s.c);
        }
      case RearmFails =>
    }
  }

  lemma StepKeeps(s: State, step: Step)
    requires Exclusive(s.c)
    ensures Exclusive(Apply(s, step).c)
  {
    if ByWorker(step) {
      WorkerKeeps(s, step);
    } else if step.Reacts? {
      ReactKeeps(s, step.reacting);
    } else if step.Parses? {
      ParseKeeps(s, step.parsing);
    } else {
      OutsideKeeps(s, step);
    }
  }

  // Steps of the peer, of other threads and of the server as a whole.
  predicate FromOutside(step: Step) { step.Sends? || step.Breaks? || step.Closes? || step.Stops? || step.Pauses? }

  lemma OutsideKeeps(s: State, step: Step)
    requires Exclusive(s.c) && FromOutside(step)
    ensures Exclusive(Apply(s, step).c)
  {
    ShutKeeps(s.c);
    FlagsKeep(s.c, true, s.c.running, s.c.paused);
    FlagsKeep(s.c, s.c.closing, false, s.c.paused);
    if step.Pauses? {
      FlagsKeep(s.c, s.c.closing, s.c.running, step.paused);
    }
  }

  lemma FlagsKeep(c: Control, closing: bool, running: bool, paused: bool)
    requires Exclusive(c)
    ensures Exclusive(c.(closing := closing, running := running, paused := paused))
  {
  }

  lemma {:induction false} RunKeeps(s: State, steps: seq<Step>)
    requires Exclusive(s.c)
    ensures Exclusive(Run(s, steps).c)
    decreases |steps|
  {
    if steps == [] {
    } else {
      StepKeeps(s, steps[0]);
      RunKeeps(Apply(s, steps[0]), steps[1..]);
    }
  }

  /** On every run of a connection, at most one of the reactor, a stream worker and a continuation worker may read
      it. */
  lemma OneReader(strict: bool, steps: seq<Step>)
    ensures Readers(Run(Accepted(strict), steps).c) <= 1
  {
    RunKeeps(Accepted(strict), steps);
  }

  // ---- the byte stream ---------------------------------------------------------------------------------------

  predicate Leased(c: Control) { c.streams + c.continuations > 0 }

  // What the present reader will read next, in order.
  function Unread(leased: bool, d: Bytes): seq<byte> {
    if leased then d.inHand + d.leased + d.wire else d.taken + d.pending + d.wire
  }

  // The connection is being closed, or the server has stopped: its bytes no longer matter.
  predicate Over(c: Control) { c.closing || !c.running }

  // No byte has been lost, repeated or reordered.
  ghost predicate Intact(s: State) { Over(s.c) || s.d.done + Unread(Leased(s.c), s.d) == s.d.sent }

  ghost predicate Tidy(s: State) {
    && (!Leased(s.c) ==> s.d.leased == []) && (s.c.continuations == 0 ==> s.d.inHand == [])
    && (Leased(s.c) ==> s.d.pending == []) && (s.c.streams > 0 ==> s.d.taken == [])
    && (s.c.giving.Giving? ==> s.d.inHand == [])
  }

  ghost predicate Sound(s: State) { Exclusive(s.c) && Tidy(s) && Intact(s) }

  lemma Moved(done: seq<byte>, a: seq<byte>, b: seq<byte>, c: seq<byte>, n: nat)
    requires n <= |b|
    ensures done + (a + b[..n] + b[n..] + c) == done + (a + b + c)
    ensures done + (a + b[..n] + (b[n..] + c)) == done + (a + b + c)
    ensures done + a + (b + c) == done + (a + b + c)
  {
    assert b[..n] + b[n..] == b;
    assert a + b[..n] + b[n..] == a + b;
    assert a + b[..n] + (b[n..] + c) == a + b + c;
  }

  lemma SendIntact(s: State, bytes: seq<byte>)
    requires Sound(s)
    ensures Sound(Apply(s, Sends(bytes)))
  {
    var q := Apply(s, Sends(bytes));
    if !Over(s.c) {
      assert Unread(Leased(q.c), q.d) == Unread(Leased(s.c), s.d) + bytes;
      assert s.d.done + (Unread(Leased(s.c), s.d) + bytes) == s.d.done + Unread(Leased(s.c), s.d) + bytes;
    }
  }

  lemma ParseIntact(s: State, step: Parsing)
    requires Sound(s)
    ensures Tidy(Parse(s, step)) && Intact(Parse(s, step))
  {
    var d := s.d;
    var q := Parse(s, step);
    if s.c.reactor.Reading? && !Over(s.c) {
      match step {
        case Receive(n) =>
          if n <= |d.wire| {
            assert d.taken + (d.pending + d.wire[..n]) + d.wire[n..] == d.taken + d.pending + d.wire;
          }
        case Take(n) =>
          if n <= |d.pending| {
            Moved(d.done, d.taken, d.pending, d.wire, n);
          }
        case Judge(_) =>
        case Cancelled => UsedUp(d);
        case DispatchRequest(_, _) => UsedUp(d);
      }
    }
  }

  // A complete frame is used up.
  lemma UsedUp(d: Bytes)
    ensures d.done + d.taken + Unread(false, d.(taken := [])) == d.done + Unread(false, d)
  {
    assert [] + d.pending + d.wire == d.pending + d.wire;
    assert d.done + d.taken + (d.pending + d.wire) == d.done + (d.taken + d.pending + d.wire);
  }

  // Flags change, the readers do not.
  lemma FlagsIntact(s: State, c: Control)
    requires Sound(s) && c.streams == s.c.streams && c.continuations == s.c.continuations && c.giving == s.c.giving
    requires Over(s.c) ==> Over(c)
    ensures Tidy(s.(c := c)) && Intact(s.(c := c))
  {
  }

  lemma LeaseToStreamIntact(s: State, queued: bool)
    requires Sound(s) && s.c.reactor.Reading?
    ensures Tidy(HandedToStream(s, queued)) && Intact(HandedToStream(s, queued))
  {
    var d, q := s.d, HandedToStream(s, queued);
    assert !Leased(s.c) && d.inHand == [] && s.c.giving == Holding;
    UsedUp(d);
    if queued {
      assert [] + d.pending + d.wire == [] + [] + d.pending + d.wire;
    }
  }

  predicate HandsOver(s: State, step: Reacting) {
    && step.DispatchStream? && s.c.reactor.Reading? && s.d.phase == InRoute
    && NoJobs(s.c.jobs) && step.slot
  }

  lemma ReactFlags(s: State, step: Reacting)
    requires !HandsOver(s, step)
    ensures var c := React(s, step).c;
            && React(s, step) == s.(c := c) && (Over(s.c) ==> Over(c))
            && c.streams == s.c.streams && c.continuations == s.c.continuations && c.giving == s.c.giving
  {
  }

  lemma ReactIntact(s: State, step: Reacting)
    requires Sound(s)
    ensures Tidy(React(s, step)) && Intact(React(s, step))
  {
    if HandsOver(s, step) {
      LeaseToStreamIntact(s, step.queued);
    } else {
      ReactFlags(s, step);
      FlagsIntact(s, React(s, step).c);
    }
  }

  lemma ReadIntact(d: Bytes, n: nat)
    requires CanRead(d, n)
    ensures Next(d, n) + (Advanced(d, n).leased + Advanced(d, n).wire) == d.leased + d.wire
    ensures Advanced(d, n).(leased := d.leased, wire := d.wire) == d
  {
    if n <= |d.leased| {
      assert d.leased[..n] + (d.leased[n..] + d.wire) == d.leased + d.wire;
    } else {
      assert d.wire[..n] + ([] + d.wire[n..]) == [] + d.wire;
    }
  }

  // What a lease holder has not used up goes along on the way back ...
  lemma OfferIntact(c: Control, s: State, stream: bool, bytes: seq<byte>)
    requires Exclusive(c) && Tidy(s.(c := c)) && c.giving == Holding
    requires (if stream then c.streams else c.continuations) > 0
    requires !Over(c) ==> s.d.done + (bytes + s.d.wire) == s.d.sent
    ensures var q := s.(c := Offered(c, stream), d := Kept(c, s.d, bytes)); Tidy(q) && Intact(q)
  {
    if Returns(c) {
      assert [] + bytes + s.d.wire == bytes + s.d.wire;
    } else {
      assert Over(Offered(c, stream)) && !Leased(Offered(c, stream));
    }
  }

  // ... and is put back in front of the socket.
  lemma RearmIntact(s: State)
    requires Sound(s) && s.c.giving.Giving?
    ensures Tidy(Apply(s, Rearms)) && Intact(Apply(s, Rearms))
  {
    assert [] + s.d.leased + s.d.wire == [] + s.d.leased + s.d.wire;
    assert !Leased(Rearmed(s.c));
  }

  lemma StreamReadIntact(strict: bool, c: Control, d: Bytes, n: nat)
    requires Sound(State(strict, c, d)) && c.streams > 0 && CanRead(d, n)
    ensures var q := State(strict, c, Advanced(d, n).(done := d.done + Next(d, n))); Tidy(q) && Intact(q)
  {
    var e := Advanced(d, n);
    ReadIntact(d, n);
    assert c.continuations == 0 && d.inHand == [] && e.inHand == [];
    assert [] + d.leased + d.wire == d.leased + d.wire && [] + e.leased + e.wire == e.leased + e.wire;
    assert d.done + Next(d, n) + (e.leased + e.wire) == d.done + (Next(d, n) + (e.leased + e.wire));
  }

  lemma StreamIntact(s: State, step: Streaming)
    requires Sound(s)
    ensures Tidy(Stream(s, step)) && Intact(Stream(s, step))
  {
    var c, d := s.c, s.d;
    if c.streams > 0 && c.giving == Holding {
      if step == StreamEnd {
        assert c.continuations == 0 && d.inHand == [];
        assert [] + d.leased + d.wire == d.leased + d.wire;
        OfferIntact(c, s, true, d.leased);
      } else if CanRead(d, step.count) {
        StreamReadIntact(s.strict, c, d, step.count);
      }
    }
  }

  lemma ContinueReadIntact(strict: bool, c: Control, d: Bytes, n: nat)
    requires Sound(State(strict, c, d)) && c.continuations > 0 && c.giving == Holding && CanRead(d, n)
    ensures var q := State(strict, c, Advanced(d, n).(inHand := d.inHand + Next(d, n))); Tidy(q) && Intact(q)
  {
    var e := Advanced(d, n);
    ReadIntact(d, n);
    assert d.inHand + Next(d, n) + e.leased + e.wire == d.inHand + (Next(d, n) + (e.leased + e.wire));
    assert d.inHand + d.leased + d.wire == d.inHand + (d.leased + d.wire);
  }

  lemma HandUsed(d: Bytes)
    ensures d.done + d.inHand + (d.leased + d.wire) == d.done + (d.inHand + d.leased + d.wire)
  {
  }

  lemma CancelIntact(strict: bool, c: Control, d: Bytes)
    requires Sound(State(strict, c, d)) && c.continuations > 0
    ensures var q := State(strict, c, d.(done := d.done + d.inHand, inHand := [])); Tidy(q) && Intact(q)
  {
    HandUsed(d);
    assert [] + d.leased + d.wire == d.leased + d.wire;
  }

  lemma RequestIntact(s: State, session: bool)
    requires Sound(s) && s.c.continuations > 0 && s.c.giving == Holding
    ensures var q := Continue(s, RequestRead(session)); Tidy(q) && Intact(q)
  {
    var c, d := Counted(s.c, session), s.d.(done := s.d.done + s.d.inHand);
    HandUsed(s.d);
    CountedKeeps(s.c, session);
    OfferIntact(c, s.(d := d), false, d.leased);
    assert Kept(c, d, d.leased) == Kept(s.c, d, d.leased);
  }

  lemma GiveBackIntact(s: State, bytes: seq<byte>)
    requires Sound(s) && s.c.continuations > 0 && s.c.giving == Holding
    requires bytes == s.d.inHand + s.d.leased || (bytes == s.d.leased && (s.d.inHand == [] || s.c.closing))
    ensures var q := s.(c := Offered(s.c, false), d := Kept(s.c, s.d, bytes)); Tidy(q) && Intact(q)
  {
    assert s.d.inHand == [] ==> s.d.inHand + s.d.leased == s.d.leased;
    OfferIntact(s.c, s, false, bytes);
  }

  lemma ContinueIntact(s: State, step: Continuing)
    requires Sound(s)
    ensures Tidy(Continue(s, step)) && Intact(Continue(s, step))
  {
    var c, d := s.c, s.d;
    if c.continuations > 0 && c.giving == Holding {
      match step {
        case Read(n) =>
          if CanRead(d, n) {
            ContinueReadIntact(s.strict, c, d, n);
          }
        case CancelRead => CancelIntact(s.strict, c, d);
        case RequestRead(session) => RequestIntact(s, session);
        case StreamHeaderRead => GiveBackIntact(s, d.inHand + d.leased);
        case GiveBack =>
          if d.inHand == [] || c.closing {
            GiveBackIntact(s, d.leased);
          }
      }
    }
  }

  lemma CompleteIntact(s: State, step: Completing)
    requires Sound(s) && step != Acquire
    ensures Tidy(Complete(s, step)) && Intact(Complete(s, step))
  {
  }

  // A continuation lease drops what was copied out of a partial header; it keeps the stream exactly when there was
  // none.
  lemma AcquireIntactIff(s: State)
    requires Sound(s) && s.c.askers > 0 && MayContinue(s)
    ensures Tidy(Complete(s, Acquire)) && (Intact(Complete(s, Acquire)) <==> s.d.taken == [])
  {
    var d, q := s.d, Complete(s, Acquire);
    assert !Leased(s.c) && d.leased == [] && d.inHand == [] && q.d == d;
    assert Unread(true, d) == d.wire && Unread(false, d) == d.taken + d.wire;
    assert |d.done + (d.taken + d.wire)| == |d.done| + |d.taken| + |d.wire|;
    assert |d.done + d.wire| == |d.done| + |d.wire|;
    assert d.taken == [] ==> d.taken + d.wire == d.wire;
  }

  ghost predicate AlwaysIntact(s: State, steps: seq<Step>)
    decreases |steps|
  {
    Intact(s) && (steps != [] ==> AlwaysIntact(Apply(s, steps[0]), steps[1..]))
  }

  // Every continuation lease is taken at a frame boundary.
  ghost predicate GoodLeases(s: State, steps: seq<Step>)
    decreases |steps|
  {
    steps != [] ==> !BadLease(s, steps[0]) && GoodLeases(Apply(s, steps[0]), steps[1..])
  }

  lemma WorkerIntact(s: State, step: Step)
    requires Sound(s) && ByWorker(step) && step != Completes(Acquire)
    ensures Tidy(Apply(s, step)) && Intact(Apply(s, step))
  {
    match step {
      case Streams(t) => StreamIntact(s, t);
      case Completes(t) => CompleteIntact(s, t);
      case Continues(t) => ContinueIntact(s, t);
      case Rearms =>
        if s.c.giving.Giving? {
          RearmIntact(s);
        }
      case RearmFails =>
    }
  }

  lemma OutsideIntact(s: State, step: Step)
    requires Sound(s) && FromOutside(step)
    ensures Tidy(Apply(s, step)) && Intact(Apply(s, step))
  {
    if step.Sends? {
      SendIntact(s, step.bytes);
    } else {
      FlagsIntact(s, Apply(s, step).c);
    }
  }

  lemma StepIntact(s: State, step: Step)
    requires Sound(s) && step != Completes(Acquire)
    ensures Sound(Apply(s, step))
  {
    StepKeeps(s, step);
    if ByWorker(step) {
      WorkerIntact(s, step);
    } else if step.Reacts? {
      ReactIntact(s, step.reacting);
    } else if step.Parses? {
      ParseIntact(s, step.parsing);
    } else {
      OutsideIntact(s, step);
    }
  }

  // A continuation lease is granted in the middle of a header.
  predicate BadLease(s: State, step: Step) {
    step == Completes(Acquire) && s.c.askers > 0 && MayContinue(s) && s.d.taken != []
  }

  lemma StepIntactIff(s: State, step: Step)
    requires Sound(s)
    ensures Exclusive(Apply(s, step).c) && Tidy(Apply(s, step)) && (Intact(Apply(s, step)) <==> !BadLease(s, step))
  {
    StepKeeps(s, step);
    if step != Completes(Acquire) {
      StepIntact(s, step);
    } else if s.c.askers > 0 && MayContinue(s) {
      AcquireIntactIff(s);
    } else {
      RefusedIntact(s);
    }
  }

  lemma RefusedIntact(s: State)
    requires Sound(s) && (s.c.askers == 0 || !MayContinue(s))
    ensures Tidy(Complete(s, Acquire)) && Intact(Complete(s, Acquire))
  {
  }

  /** Through any chain of hand-offs the bytes used up and the bytes still to be read make up exactly what the peer
      sent, if and only if every continuation lease is taken with no header byte copied out. */
  lemma {:induction false} IntactIffGoodLeases(s: State, steps: seq<Step>)
    requires Sound(s)
    ensures AlwaysIntact(s, steps) <==> GoodLeases(s, steps)
    decreases |steps|
  {
    if steps == [] {
    } else {
      StepIntactIff(s, steps[0]);
      if !BadLease(s, steps[0]) {
        IntactIffGoodLeases(Apply(s, steps[0]), steps[1..]);
      }
    }
  }

  lemma StartsSound(strict: bool)
    ensures Sound(Accepted(strict))
  {
  }

  lemma HandOffsKeepStream(strict: bool, steps: seq<Step>)
    ensures AlwaysIntact(Accepted(strict), steps) <==> GoodLeases(Accepted(strict), steps)
  {
    StartsSound(strict);
    IntactIffGoodLeases(Accepted(strict), steps);
  }

  lemma {:induction false} StrictLeasesAreGood(s: State, steps: seq<Step>)
    requires s.strict
    ensures GoodLeases(s, steps)
    decreases |steps|
  {
    if steps == [] {
    } else {
      assert Apply(s, steps[0]).strict;
      StrictLeasesAreGood(Apply(s, steps[0]), steps[1..]);
    }
  }

  // Under an aggregate budget there are no continuation leases, so no run ever loses a byte.
  lemma StrictIsAlwaysIntact(steps: seq<Step>)
    ensures AlwaysIntact(Accepted(true), steps)
  {
    StartsSound(true);
    StrictLeasesAreGood(Accepted(true), steps);
    IntactIffGoodLeases(Accepted(true), steps);
  }

  lemma Prepend(s: State, step: Step, q: State, rest: seq<Step>, end: State) returns (steps: seq<Step>)
    requires Apply(s, step) == q && Run(q, rest) == end
    ensures Run(s, steps) == end
  {
    steps := [step] + rest;
    assert steps[1..] == rest;
  }

  // The reactor reading, first with no job about and then with one.
  function AtWork(): Control { Idle().(busy := true, reactor := Reading(0)) }
  function WithJob(): Control { AtWork().(session := true, jobs := OneJob()) }
  function OneJob(): Jobs { Jobs(1, 0, 0, 0) }

  // A session request arrives, ...
  lemma RequestArrives(frame: seq<byte>, rest: seq<Step>, end: State) returns (steps: seq<Step>)
    requires |frame| == 21
    requires var d := Empty().(taken := frame[..20], pending := frame[20..], sent := frame);
             Run(State(false, AtWork(), d), rest) == end
    ensures Run(Accepted(false), steps) == end
  {
    var s1 := State(false, Idle(), Empty().(wire := frame, sent := frame));
    var s2 := s1.(c := AtWork());
    var s3 := State(false, AtWork(), Empty().(pending := frame, sent := frame));
    var s4 := State(false, AtWork(), Empty().(taken := frame[..20], pending := frame[20..], sent := frame));
    steps := rest;
    assert [] + frame[..20] == frame[..20];
    steps := Prepend(s3, Parses(Take(20)), s4, steps, end);
    assert [] + frame[..21] == frame && frame[21..] == [];
    steps := Prepend(s2, Parses(Receive(21)), s3, steps, end);
    steps := Prepend(s1, Reacts(Wake), s2, steps, end);
    assert [] + frame == frame;
    steps := Prepend(Accepted(false), Sends(frame), s1, steps, end);
  }

  // ... is dispatched, ...
  lemma RequestDispatched(frame: seq<byte>, rest: seq<Step>, end: State) returns (steps: seq<Step>)
    requires |frame| == 21
    requires Run(State(false, WithJob(), Empty().(done := frame, sent := frame)), rest) == end
    ensures var d := Empty().(taken := frame[..20], pending := frame[20..], sent := frame);
            Run(State(false, AtWork(), d), steps) == end
  {
    var s4 := State(false, AtWork(), Empty().(taken := frame[..20], pending := frame[20..], sent := frame));
    var s5 := s4.(d := s4.d.(phase := InRequest));
    var s6 := State(false, AtWork(), Empty().(phase := InRequest, taken := frame, sent := frame));
    var s7 := State(false, WithJob(), Empty().(done := frame, sent := frame));
    steps := rest;
    assert [] + frame == frame;
    steps := Prepend(s6, Parses(DispatchRequest(false, true)), s7, steps, end);
    assert frame[20..][..1] == frame[20..] && frame[20..][1..] == [] && frame[..20] + frame[20..] == frame;
    steps := Prepend(s5, Parses(Take(1)), s6, steps, end);
    steps := Prepend(s4, Parses(Judge(InRequest)), s5, steps, end);
  }

  // ... the first byte of the next header is copied out of the read-ahead, ...
  lemma NextHeaderBegins(frame: seq<byte>, b: byte, rest: seq<Step>, end: State) returns (steps: seq<Step>)
    requires Run(State(false, WithJob(), Empty().(taken := [b], done := frame, sent := frame + [b])), rest) == end
    ensures Run(State(false, WithJob(), Empty().(done := frame, sent := frame)), steps) == end
  {
    var s7 := State(false, WithJob(), Empty().(done := frame, sent := frame));
    var s8 := State(false, WithJob(), Empty().(wire := [b], done := frame, sent := frame + [b]));
    var s9 := State(false, WithJob(), Empty().(pending := [b], done := frame, sent := frame + [b]));
    var s10 := State(false, WithJob(), Empty().(taken := [b], done := frame, sent := frame + [b]));
    steps := rest;
    assert [] + [b][..1] == [b] && [b][1..] == [];
    steps := Prepend(s9, Parses(Take(1)), s10, steps, end);
    steps := Prepend(s8, Parses(Receive(1)), s9, steps, end);
    assert [] + [b] == [b];
    steps := Prepend(s7, Sends([b]), s8, steps, end);
  }

  // ... and the worker that finishes the request takes the connection over.
  lemma WorkerTakesOver(d: Bytes, rest: seq<Step>, end: State) returns (steps: seq<Step>)
    requires d.phase == InHeader && d.pending == []
    requires Run(State(false, Idle().(session := true, workerOwned := true, continuations := 1), d), rest) == end
    ensures Run(State(false, WithJob(), d), steps) == end
  {
    var s10 := State(false, WithJob(), d);
    var s11 := s10.(c := WithJob().(reactor := Leaving(0)));
    var s12 := s10.(c := Idle().(session := true, jobs := OneJob()));
    var s13 := s10.(c := Idle().(session := true, askers := 1));
    var s14 := s10.(c := Idle().(session := true, workerOwned := true, continuations := 1));
    steps := rest;
    steps := Prepend(s13, Completes(Acquire), s14, steps, end);
    steps := Prepend(s12, Completes(CompleteRegular(false)), s13, steps, end);
    steps := Prepend(s11, Reacts(Leave), s12, steps, end);
    steps := Prepend(s10, Reacts(StopReading), s11, steps, end);
  }

  // That byte is lost: the guard of the continuation lease does not look at it.
  lemma PartialHeaderIsLost(frame: seq<byte>, b: byte) returns (steps: seq<Step>)
    requires |frame| == 21
    ensures var s := Run(Accepted(false), steps);
            s.c.continuations == 1 && !Over(s.c) && s.d.sent == frame + [b] && s.d.done + Unread(true, s.d) == frame
    ensures !AlwaysIntact(Accepted(false), steps)
  {
    var d := Empty().(taken := [b], done := frame, sent := frame + [b]);
    var end := State(false, Idle().(session := true, workerOwned := true, continuations := 1), d);
    steps := WorkerTakesOver(d, [], end);
    steps := NextHeaderBegins(frame, b, steps, end);
    steps := RequestDispatched(frame, steps, end);
    steps := RequestArrives(frame, steps, end);
    assert frame + ([] + [] + []) == frame;
    if AlwaysIntact(Accepted(false), steps) {
      IntactAtEnd(Accepted(false), steps);
    }
  }

  lemma {:induction false} IntactAtEnd(s: State, steps: seq<Step>)
    requires AlwaysIntact(s, steps)
    ensures Intact(Run(s, steps))
    decreases |steps|
  {
    if steps == [] {
    } else {
      IntactAtEnd(Apply(s, steps[0]), steps[1..]);
    }
  }

  // ---- the map entry --------------------------------------------------------------------------------

  ghost predicate JobsMatch(j: Jobs) { j.own + j.dropped <= j.regular }

  // A continuation worker leaves its own job by an exception.
  predicate DropsJob(s: State, step: Step) { step == Completes(Drop) && s.c.jobs.own > 0 }

  predicate NoDrops(s: State, steps: seq<Step>)
    decreases |steps|
  {
    steps != [] ==> !DropsJob(s, steps[0]) && NoDrops(Apply(s, steps[0]), steps[1..])
  }

  // What a step does to the jobs, and to the entry of a connection with a dropped one.
  ghost predicate Follows(before: Control, after: Control) {
    && JobsMatch(after.jobs) && after.jobs.dropped == before.jobs.dropped
    && (before.jobs.dropped > 0 && before.present ==> after.present)
  }

  lemma ShutJobs(c: Control)
    requires JobsMatch(c.jobs)
    ensures Follows(c, Shut(c))
  {
  }

  lemma OfferJobs(c: Control, stream: bool)
    requires JobsMatch(c.jobs)
    ensures Follows(c, Offered(c, stream))
  {
    if c.closing {
      ShutJobs(Ended(c, stream));
    }
  }

  lemma LeaveJobs(c: Control, busy: bool)
    requires JobsMatch(c.jobs)
    ensures Follows(c, Shut(c).(reactor := Away)) && Follows(c, c.(busy := busy, reactor := Away))
  {
    ShutJobs(c);
  }

  lemma HandJobs(c: Control, queued: bool)
    requires JobsMatch(c.jobs) && c.reactor.Reading?
    ensures Follows(c, ToStream(c, queued)) && Follows(c, c.(closing := true, reactor := Leaving(c.reactor.entry)))
  {
  }

  lemma ReactJobs(s: State, step: Reacting)
    requires JobsMatch(s.c.jobs)
    ensures Follows(s.c, React(s, step).c)
  {
    match step {
      case Wake => assert React(s, Wake).c in {s.c, s.c.(busy := true, reactor := Reading(s.c.entry))};
      case StopReading =>
        if s.c.reactor.Reading? {
          assert React(s, StopReading).c == s.c.(reactor := Leaving(s.c.reactor.entry));
        }
      case Leave => LeaveJobs(s.c, React(s, step).c.busy);
      case DispatchStream(_, queued) =>
        if s.c.reactor.Reading? {
          HandJobs(s.c, queued);
        }
    }
  }

  lemma ParseJobs(s: State, step: Parsing)
    requires JobsMatch(s.c.jobs)
    ensures Follows(s.c, Parse(s, step).c)
  {
  }

  lemma StreamJobs(s: State, step: Streaming)
    requires JobsMatch(s.c.jobs)
    ensures Follows(s.c, Stream(s, step).c)
  {
    if step == StreamEnd {
      OfferJobs(s.c, true);
    }
  }

  lemma WorkedJobs(j: Jobs, step: Completing)
    requires JobsMatch(j) && !(step.Drop? && j.own > 0)
    ensures JobsMatch(JobsAfter(j, step)) && JobsAfter(j, step).dropped == j.dropped
  {
  }

  lemma WorkedFollows(c: Control, step: Completing)
    requires JobsMatch(c.jobs) && !(step.Drop? && c.jobs.own > 0)
    ensures Follows(c, Worked(c, step))
  {
    WorkedJobs(c.jobs, step);
  }

  lemma AcquireJobs(s: State)
    requires JobsMatch(s.c.jobs)
    ensures Follows(s.c, Complete(s, Acquire).c)
  {
    var c := s.c;
    assert Complete(s, Acquire).c in {c, c.(askers := Less(c.askers)), Granted(c)};
  }

  lemma CompleteJobs(s: State, step: Completing)
    requires JobsMatch(s.c.jobs) && !DropsJob(s, Completes(step))
    ensures Follows(s.c, Complete(s, step).c)
  {
    if step != Acquire {
      WorkedFollows(s.c, step);
    } else {
      AcquireJobs(s);
    }
  }

  lemma ContinueJobs(s: State, step: Continuing)
    requires JobsMatch(s.c.jobs)
    ensures Follows(s.c, Continue(s, step).c)
  {
    match step {
      case Read(_) =>
      case CancelRead =>
      case RequestRead(session) => OfferJobs(Counted(s.c, session), false);
      case StreamHeaderRead => OfferJobs(s.c, false);
      case GiveBack => OfferJobs(s.c, false);
    }
  }

  lemma JobStep(s: State, step: Step)
    requires JobsMatch(s.c.jobs) && !DropsJob(s, step)
    ensures Follows(s.c, Apply(s, step).c)
  {
    match step {
      case Sends(_) =>
      case Breaks =>
      case Closes => ShutJobs(s.c);
      case Stops =>
      case Pauses(_) =>
      case Reacts(r) => ReactJobs(s, r);
      case Parses(p) => ParseJobs(s, p);
      case Streams(t) => StreamJobs(s, t);
      case Completes(t) => CompleteJobs(s, t);
      case Continues(t) => ContinueJobs(s, t);
      case Rearms =>
      case RearmFails =>
    }
  }

  lemma {:induction false} JobsKept(s: State, steps: seq<Step>)
    requires JobsMatch(s.c.jobs)
    ensures var c := Run(s, steps).c;
            && JobsMatch(c.jobs) && c.jobs.dropped >= s.c.jobs.dropped
            && (c.jobs.dropped == s.c.jobs.dropped <==> NoDrops(s, steps))
            && (s.c.jobs.dropped > 0 && s.c.present ==> c.present)
    decreases |steps|
  {
    if steps == [] {
    } else {
      if !DropsJob(s, steps[0]) {
        JobStep(s, steps[0]);
      }
      JobsKept(Apply(s, steps[0]), steps[1..]);
    }
  }

  /** When every job of a connection has completed or been dropped, closing it frees its place among the connections if
      and only if none was dropped. */
  lemma PlaceFreedIff(strict: bool, steps: seq<Step>)
    requires var j := Run(Accepted(strict), steps).c.jobs; j.regular == j.dropped && j.serialized == 0
    ensures var s := Run(Accepted(strict), steps);
            s.c.present ==> (!Apply(s, Closes).c.present <==> NoDrops(Accepted(strict), steps))
  {
    JobsKept(Accepted(strict), steps);
  }

  /** A place with a dropped job is never free again. */
  lemma PlaceLostForGood(s: State, steps: seq<Step>)
    requires JobsMatch(s.c.jobs) && s.c.jobs.dropped > 0 && s.c.present
    ensures Run(s, steps).c.present
  {
    JobsKept(s, steps);
  }

  // A continuation worker reads the next request and drops it after the connection went back; the close leaves it.
  lemma DroppedJobKeepsPlace(frame: seq<byte>) returns (steps: seq<Step>)
    requires |frame| == 21
    ensures var c := Run(Accepted(false), steps).c; c.closing && c.present && c.jobs == Jobs(1, 0, 1, 0)
  {
    var d := Empty().(done := frame, sent := frame);
    var own := Idle().(session := true, entry := 0, nextEntry := 2, jobs := Jobs(1, 1, 0, 0));
    var lost := own.(closing := true, jobs := Jobs(1, 0, 1, 0));
    var e := Empty().(done := frame + frame, sent := frame + frame);
    var end := State(false, lost, e);
    steps := Prepend(end, Closes, end, [], end);
    steps := Prepend(State(false, own, e), Completes(Drop), end, steps, end);
    steps := NextRequestRead(frame, steps, end);
    steps := WorkerTakesOver(d, steps, end);
    steps := RequestDispatched(frame, steps, end);
    steps := RequestArrives(frame, steps, end);
  }

  lemma NextRequestRead(frame: seq<byte>, rest: seq<Step>, end: State) returns (steps: seq<Step>)
    requires |frame| == 21
    requires var c := Idle().(session := true, entry := 0, nextEntry := 2, jobs := Jobs(1, 1, 0, 0));
             Run(State(false, c, Empty().(done := frame + frame, sent := frame + frame)), rest) == end
    ensures var c := Idle().(session := true, workerOwned := true, continuations := 1);
            Run(State(false, c, Empty().(done := frame, sent := frame)), steps) == end
  {
    var c := Idle().(session := true, workerOwned := true, continuations := 1);
    var given := c.(jobs := Jobs(1, 1, 0, 0), giving := Giving(false, true));
    var s0 := State(false, c, Empty().(done := frame, sent := frame));
    var s1 := State(false, c, Empty().(wire := frame, done := frame, sent := frame + frame));
    var s2 := State(false, c, Empty().(inHand := frame, done := frame, sent := frame + frame));
    var s3 := State(false, given, Empty().(done := frame + frame, sent := frame + frame));
    var s4 := State(false, Idle().(session := true, entry := 0, nextEntry := 2, jobs := Jobs(1, 1, 0, 0)), s3.d);
    steps := Prepend(s3, Rearms, s4, rest, end);
    steps := Prepend(s2, Continues(RequestRead(true)), s3, steps, end);
    assert [] + frame[..21] == frame && frame[21..] == [];
    steps := Prepend(s1, Continues(Read(21)), s2, steps, end);
    assert [] + frame == frame;
    steps := Prepend(s0, Sends(frame), s1, steps, end);
  }

  // ---- the hand-offs in place -----------------------------------------------------------------------------------

  // The tests made before the lock. The lease ends at once if the connection is closing, and is then closed, or if the
  // server has stopped.
  method TestFlags(c: Control, stream: bool) returns (r: Control)
    requires (if stream then c.streams else c.continuations) > 0
    ensures r == Offered(c, stream)
  {
    r := c;
    if !c.closing && c.running {
      r := r.(giving := Giving(stream, c.workerOwned && !c.streamActive));
      return;
    }
    if stream {
      r := r.(streams := c.streams - 1);
    } else {
      r := r.(continuations := c.continuations - 1);
    }
    if c.closing && c.present && NoJobs(c.jobs) {
      r := r.(present := false);
    }
  }

  // The lease flags, and what a refused job leaves.
  method HandOut(c: Control, queued: bool) returns (r: Control)
    requires c.reactor.Reading?
    ensures r == ToStream(c, queued)
  {
    r := c.(streamActive := true, reactor := Leaving(c.reactor.entry));
    if queued {
      r := r.(streams := r.streams + 1);
    } else {
      r := r.(closing := true);
    }
  }

  // The map entry and the flags, under the lock.
  method PutBack(c: Control) returns (r: Control)
    requires c.giving.Giving? && (if c.giving.stream then c.streams else c.continuations) > 0
    ensures r == Rearmed(c)
  {
    var entry, streams, continuations := c.entry, c.streams, c.continuations;
    if !c.giving.reuse || !c.present || c.busy {
      entry := c.nextEntry;
    }
    if c.giving.stream {
      streams := streams - 1;
    } else {
      continuations := continuations - 1;
    }
    r := c.(present := true, entry := entry, nextEntry := c.nextEntry + 1, busy := false, paused := false,
            streamActive := false, workerOwned := false,
            streams := streams, continuations := continuations, giving := Holding);
  }

  /** A connection's buffers as the code keeps them: consumed prefixes stay in place behind an offset. */
  class ReadSide {
    const strict: bool
    var control: Control
    var phase: Phase
    var header: seq<byte>
    var headerReceived: nat
    var payload: seq<byte>
    var pending: seq<byte>
    var pendingOffset: nat
    var buffered: seq<byte>
    var bufferedOffset: nat
    var inHand: seq<byte>
    var wire: seq<byte>
    var done: seq<byte>
    var sent: seq<byte>

    constructor (strict: bool)
      ensures Valid() && View() == Accepted(strict)
    {
      this.strict, control := strict, Idle();
      phase, header, headerReceived, payload := InHeader, seq(HEADER_SIZE, _ => 0), 0, [];
      pending, pendingOffset, buffered, bufferedOffset := [], 0, [], 0;
      inHand, wire, done, sent := [], [], [], [];
    }

    ghost predicate Valid()
      reads this
    {
      && |header| == HEADER_SIZE && headerReceived <= HEADER_SIZE
      && pendingOffset <= |pending| && bufferedOffset <= |buffered|
    }

    ghost function Taken(): seq<byte>
      requires Valid()
      reads this
    {
      if phase == InHeader then header[..headerReceived] else header + payload
    }

    ghost function View(): State
      requires Valid()
      reads this
    {
      State(strict, control,
            Bytes(phase, Taken(), pending[pendingOffset..], buffered[bufferedOffset..], inHand, wire, done, sent))
    }

    method ClearParser()
      requires Valid()
      modifies `phase, `headerReceived, `payload, `pending, `pendingOffset
      ensures Valid() && phase == InHeader && Taken() == [] && pending == [] && pendingOffset == 0
    {
      phase, headerReceived, payload := InHeader, 0, [];
      pending, pendingOffset := [], 0;
    }

    // Leases the connection to a stream worker together with the unread part of the read-ahead.
    method DispatchStream(slot: bool, queued: bool)
      requires Valid() && control.reactor.Reading? && phase == InRoute
      modifies this
      ensures Valid() && View() == React(old(View()), Reacting.DispatchStream(slot, queued))
    {
      if !NoJobs(control.jobs) || !slot {
        control := control.(closing := true, reactor := Leaving(control.reactor.entry));
      } else {
        LeaseOut(queued);
      }
    }

    method LeaseOut(queued: bool)
      requires Valid() && control.reactor.Reading? && phase == InRoute
      modifies this
      ensures Valid() && View().c == ToStream(old(control), queued) && View().d == WithStream(old(View().d), queued)
    {
      control := HandOut(control, queued);
      done := done + (header + payload);
      if queued {
        buffered, bufferedOffset := pending, pendingOffset;
      } else {
        buffered, bufferedOffset := [], 0;
      }
      ClearParser();
    }

    // The continuation lease, with the guard the code uses.
    method TryAcquire() returns (ok: bool)
      requires Valid() && control.askers > 0
      modifies this`control
      ensures Valid() && ok == MayContinue(old(View())) && View() == Complete(old(View()), Acquire)
    {
      ok := !strict && MayLease(control) && phase == InHeader && pendingOffset == |pending|;
      assert ok == MayContinue(View()) by {
        assert pendingOffset == |pending| <==> pending[pendingOffset..] == [];
      }
      control := control.(askers := control.askers - 1);
      if ok {
        control := control.(workerOwned := true, continuations := control.continuations + 1);
      }
    }

    // Starts giving the connection back.
    method Offer(stream: bool, bytes: seq<byte>, offset: nat)
      requires Valid() && control.giving == Holding && offset <= |bytes|
      requires (if stream then control.streams else control.continuations) > 0
      modifies this
      ensures Valid()
      ensures View().c == Offered(old(control), stream)
      ensures View().d == Kept(old(control), old(View().d), bytes[offset..])
    {
      var goesOn := !control.closing && control.running;
      control := TestFlags(control, stream);
      inHand := [];
      if goesOn {
        buffered, bufferedOffset := bytes, offset;
      } else {
        buffered, bufferedOffset := [], 0;
      }
    }

    // The locked section: a clean parse state in a map entry nobody looks at, and the bytes left over as read-ahead.
    method Rearm()
      requires Valid() && control.giving.Giving?
      requires (if control.giving.stream then control.streams else control.continuations) > 0
      modifies this
      ensures Valid()
      ensures View().c == Rearmed(old(control)) && View().d == Restored(old(View().d))
    {
      control := PutBack(control);
      ClearParser();
      if bufferedOffset < |buffered| {
        pending := pending + buffered[bufferedOffset..];
      }
      buffered, bufferedOffset := [], 0;
      assert pending[pendingOffset..] == pending;
    }

    // A stream worker is done with the connection.
    method EndStream()
      requires Valid() && control.streams > 0 && control.giving == Holding
      modifies this
      ensures Valid() && View() == Stream(old(View()), StreamEnd)
    {
      Offer(true, buffered, bufferedOffset);
    }

    // A continuation worker that reads a stream header puts it back in front of what it had buffered.
    method ReplayStreamHeader()
      requires Valid() && control.continuations > 0 && control.giving == Holding
      modifies this
      ensures Valid() && View() == Continue(old(View()), StreamHeaderRead)
    {
      var replay := inHand + buffered[bufferedOffset..];
      assert replay[0..] == replay;
      Offer(false, replay, 0);
    }
  }
}
