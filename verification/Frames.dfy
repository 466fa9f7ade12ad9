/** The frames a connection's readers take out of its byte stream between them: the reactor's parser and the
    continuation workers, across every hand-off, against the one-pass parse. The peer passes no descriptors. */
module Frames {
  import opened Basics
  import opened Codec
  import opened Parser
  import Lease

  // ---- state and steps -----------------------------------------------------------------------------

  // A connection with its wire version. The rest is history: `log` holds the events since the last stream, which ended
  // after `base` bytes under version `first`; `at` is the version as of the last frame that was used up.
  datatype State = State(lease: Lease.State, seen: byte, base: nat, first: byte, at: byte, log: seq<Event>)

  function Accepted(strict: bool): State { State(Lease.Accepted(strict), 0, 0, 0, 0, []) }

  // How long the frame is that this header begins.
  function Size(v: Verdict): nat {
    HEADER_SIZE + if v.Fixed? then v.arg1 + v.arg2 else if v.Stream? then v.arg1 else 0
  }

  // A request a reader without descriptors goes on with.
  predicate Plainly(v: Verdict) { v.Fixed? && v.lengths.Ok? && !CarriesFd(v.flags) }

  function Head(classify: Classifier, seen: byte, bytes: seq<byte>): Verdict {
    if |bytes| < HEADER_SIZE then Reject(Undecodable(BadMagic)) else classify(seen, bytes[..HEADER_SIZE])
  }

  // A whole cancellation or request, and the event it makes.
  predicate IsFrame(classify: Classifier, seen: byte, frame: seq<byte>) {
    var v := Head(classify, seen, frame);
    (v.Cancel? || Plainly(v)) && |frame| == Size(v)
  }

  function EventOf(classify: Classifier, seen: byte, frame: seq<byte>): Event
    requires IsFrame(classify, seen, frame)
  {
    var v := Head(classify, seen, frame);
    if v.Cancel? then Cancelled(v.id)
    else Dispatched(v.id, v.flags, frame[HEADER_SIZE..HEADER_SIZE + v.arg1], frame[HEADER_SIZE + v.arg1..], [])
  }

  // What the header in front allows a reader to do next; every other step is open at any time.
  predicate Enabled(classify: Classifier, s: State, step: Lease.Step) {
    var c, d := s.lease.c, s.lease.d;
    match step
    case Parses(p) => c.reactor.Reading? && MayParse(Head(classify, s.seen, d.taken), d, p)
    case Reacts(r) =>
      Lease.HandsOver(s.lease, r) ==>
        var v := Head(classify, s.seen, d.taken);
        v.Stream? && |d.taken| == Size(v)
    case Continues(t) => c.continuations > 0 && c.giving == Lease.Holding && MayTake(classify, s.seen, d.inHand, t)
    case _ => true
  }

  predicate MayParse(v: Verdict, d: Lease.Bytes, step: Lease.Parsing) {
    match step
    case Receive(_) => true
    case Take(n) => d.phase == Lease.InHeader || |d.taken| + n <= Size(v)
    case Judge(next) =>
      d.phase == Lease.InHeader && |d.taken| == HEADER_SIZE
      && ((Plainly(v) && next == Lease.InRequest) || (v.Stream? && next == Lease.InRoute))
    case Cancelled => d.phase == Lease.InHeader && |d.taken| == HEADER_SIZE && v.Cancel?
    case DispatchRequest(_, session) =>
      d.phase == Lease.InRequest && Plainly(v) && |d.taken| == Size(v) && session == (v.id != 0)
  }

  // A continuation worker serves whole cancellations and requests itself and gives a stream's header back unread.
  predicate MayTake(classify: Classifier, seen: byte, inHand: seq<byte>, step: Lease.Continuing) {
    var v := Head(classify, seen, inHand);
    match step
    case CancelRead => IsFrame(classify, seen, inHand) && v.Cancel?
    case RequestRead(session) => IsFrame(classify, seen, inHand) && v.Fixed? && session == (v.id != 0)
    case StreamHeaderRead => |inHand| == HEADER_SIZE && (v.Stream? || v == Reject(BadStreamHeader))
    case _ => true
  }

  function Apply(classify: Classifier, s: State, step: Lease.Step): State {
    if !Enabled(classify, s, step) then s
    else
      var q, d := s.(lease := Lease.Apply(s.lease, step)), s.lease.d;
      match step
      case Parses(Judge(_)) => q.(seen := Head(classify, s.seen, d.taken).version)
      case Parses(Cancelled) => Used(classify, q, d.taken)
      case Parses(DispatchRequest(_, _)) => Used(classify, q, d.taken)
      case Reacts(r) =>
        if !Lease.HandsOver(s.lease, r) then q
        else q.(log := s.log + [Leased(Head(classify, s.seen, d.taken).id, d.taken[HEADER_SIZE..])])
      case Continues(CancelRead) => Used(classify, q, d.inHand)
      case Continues(RequestRead(_)) => Used(classify, q, d.inHand)
      case Continues(StreamHeaderRead) =>
        var v := Head(classify, s.seen, d.inHand);
        if v.Stream? then q.(seen := v.version) else q
      case Streams(StreamEnd) =>
        if InStream(s.lease.c) then q.(base := |d.done|, first := s.seen, at := s.seen, log := []) else q
      case _ => q
  }

  // A whole frame is used up.
  function Used(classify: Classifier, q: State, frame: seq<byte>): State
    requires IsFrame(classify, q.seen, frame)
  {
    var v := Head(classify, q.seen, frame);
    q.(seen := v.version, at := v.version, log := q.log + [EventOf(classify, q.seen, frame)])
  }

  // A stream worker is reading.
  predicate InStream(c: Lease.Control) { c.streams > 0 && c.giving == Lease.Holding }

  function Run(classify: Classifier, s: State, steps: seq<Lease.Step>): State
    decreases |steps|
  {
    if steps == [] then s else Run(classify, Apply(classify, s, steps[0]), steps[1..])
  }

  // ---- agreement --------------------------------------------------------------------------------------

  // All the peer sent since the last stream, read in one pass.
  function Reference(classify: Classifier, s: State): Whole {
    Parse(classify, s.first, [], s.lease.d.sent[Min(s.base, |s.lease.d.sent|)..])
  }

  function Unread(s: State): seq<byte> { Lease.Unread(Lease.Leased(s.lease.c), s.lease.d) }

  // The events so far, followed by the one-pass reading of what the present reader has not used up, are the one-pass
  // reading of the whole; while a stream is read they are all there is.
  ghost predicate Agrees(classify: Classifier, s: State) {
    || Lease.Over(s.lease.c)
    || (if InStream(s.lease.c) then Reference(classify, s).stop.HandedOver? && Reference(classify, s).events == s.log
        else Before(s.log, Parse(classify, s.seen, [], Unread(s))) == Reference(classify, s))
  }

  // These bytes are whole frames that make these events and leave the connection at this version.
  ghost predicate Eats(classify: Classifier, first: byte, eaten: seq<byte>, at: byte, log: seq<Event>) {
    forall rest: seq<byte> ::
      Parse(classify, first, [], eaten + rest) == Before(log, Parse(classify, at, [], rest))
  }

  // The version seen is that of the last frame, or already that of the next.
  ghost predicate Dated(classify: Classifier, at: byte, seen: byte, rest: seq<byte>) {
    seen == at || (|rest| >= HEADER_SIZE && var v := classify(at, rest[..HEADER_SIZE]); !v.Reject? && v.version == seen)
  }

  // The parser is past a header only with one that began a request or a stream.
  ghost predicate Begun(classify: Classifier, seen: byte, d: Lease.Bytes) {
    var v := Head(classify, seen, d.taken);
    match d.phase
    case InHeader => |d.taken| <= HEADER_SIZE
    case InRequest => Plainly(v) && v.version == seen && |d.taken| <= Size(v)
    case InRoute => v.Stream? && v.version == seen && |d.taken| <= Size(v)
  }

  // The parse state a lease leaves behind.
  predicate BetweenFrames(d: Lease.Bytes) { d.phase == Lease.InHeader && d.taken == [] }

  ghost predicate Framed(classify: Classifier, s: State) {
    var d := s.lease.d;
    && s.base <= |d.done| && Begun(classify, s.seen, d) && |d.done| <= |d.sent|
    && (Lease.Leased(s.lease.c) ==> BetweenFrames(d))
    && if InStream(s.lease.c) then Agrees(classify, s)
       else Eats(classify, s.first, d.done[s.base..], s.at, s.log) && Dated(classify, s.at, s.seen, Unread(s))
  }

  ghost predicate Inv(classify: Classifier, s: State) {
    Lease.Sound(s.lease) && (Lease.Over(s.lease.c) || Framed(classify, s))
  }

  lemma FramedAgrees(classify: Classifier, s: State)
    requires Steady(classify) && Inv(classify, s)
    ensures Agrees(classify, s)
  {
    if !Lease.Over(s.lease.c) && !InStream(s.lease.c) {
      var d := s.lease.d;
      assert d.done[s.base..] + Unread(s) == d.sent[s.base..];
      SameReading(classify, s.at, s.seen, Unread(s));
    }
  }

  lemma SameReading(classify: Classifier, at: byte, seen: byte, rest: seq<byte>)
    requires Steady(classify) && Dated(classify, at, seen, rest)
    ensures Parse(classify, seen, [], rest) == Parse(classify, at, [], rest)
  {
    if seen != at {
      ParseAgain(classify, at, seen, [], rest);
    }
  }

  // The verdict on the next header is the same under either version.
  lemma SameVerdict(classify: Classifier, at: byte, seen: byte, header: seq<byte>, rest: seq<byte>)
    requires Steady(classify) && Dated(classify, at, seen, rest) && |header| == HEADER_SIZE && header <= rest
    ensures classify(seen, header) == classify(at, header)
  {
    assert rest[..HEADER_SIZE] == header;
  }

  // ---- steps that use nothing up ------------------------------------------------------------------------

  lemma OverStreams(l: Lease.State, step: Lease.Streaming)
    requires Lease.Over(l.c)
    ensures Lease.Over(Lease.Stream(l, step).c)
  {
  }

  lemma OverContinues(l: Lease.State, step: Lease.Continuing)
    requires Lease.Over(l.c)
    ensures Lease.Over(Lease.Continue(l, step).c)
  {
    match step {
      case Read(_) =>
      case CancelRead =>
      case RequestRead(session) => assert Lease.Over(Lease.Offered(Lease.Counted(l.c, session), false));
      case StreamHeaderRead => assert Lease.Over(Lease.Offered(l.c, false));
      case GiveBack => assert Lease.Over(Lease.Offered(l.c, false));
    }
  }

  lemma OverReacts(l: Lease.State, step: Lease.Reacting)
    requires Lease.Over(l.c)
    ensures Lease.Over(Lease.React(l, step).c)
  {
    if !Lease.HandsOver(l, step) {
      Lease.ReactFlags(l, step);
    }
  }

  lemma OverCompletes(l: Lease.State, step: Lease.Completing)
    requires Lease.Over(l.c)
    ensures Lease.Over(Lease.Complete(l, step).c)
  {
    if step == Lease.Acquire {
      assert Lease.Complete(l, step).c.closing == l.c.closing && Lease.Complete(l, step).c.running == l.c.running;
    } else {
      assert Lease.Over(Lease.Worked(l.c, step));
    }
  }

  lemma OverParses(l: Lease.State, step: Lease.Parsing)
    requires Lease.Over(l.c)
    ensures Lease.Over(Lease.Parse(l, step).c)
  {
  }

  lemma OverStays(l: Lease.State, step: Lease.Step)
    requires Lease.Over(l.c)
    ensures Lease.Over(Lease.Apply(l, step).c)
  {
    match step {
      case Sends(_) =>
      case Breaks =>
      case Closes =>
      case Stops =>
      case Pauses(_) =>
      case Reacts(r) => OverReacts(l, r);
      case Parses(p) => OverParses(l, p);
      case Streams(t) => OverStreams(l, t);
      case Completes(t) => OverCompletes(l, t);
      case Continues(t) => OverContinues(l, t);
      case Rearms =>
      case RearmFails =>
    }
  }

  // Two sound states with the same bytes used up and sent have the same bytes unread.
  lemma SameUnread(a: State, b: State)
    requires Lease.Sound(a.lease) && Lease.Sound(b.lease) && !Lease.Over(a.lease.c) && !Lease.Over(b.lease.c)
    requires a.lease.d.done == b.lease.d.done && a.lease.d.sent == b.lease.d.sent
    ensures Unread(a) == Unread(b)
  {
    var done := a.lease.d.done;
    assert Unread(a) == (done + Unread(a))[|done|..] && Unread(b) == (done + Unread(b))[|done|..];
  }

  lemma StillFramed(classify: Classifier, s: State, q: State)
    requires Inv(classify, s) && Lease.Sound(q.lease) && !Lease.Over(s.lease.c) && !Lease.Over(q.lease.c)
    requires q.lease.d.done == s.lease.d.done && q.lease.d.sent == s.lease.d.sent && Begun(classify, q.seen, q.lease.d)
    requires Lease.Leased(q.lease.c) ==> BetweenFrames(q.lease.d)
    requires InStream(q.lease.c) == InStream(s.lease.c) && q == s.(lease := q.lease, seen := q.seen)
    requires !InStream(s.lease.c) ==> Dated(classify, s.at, q.seen, Unread(q))
    ensures Framed(classify, q)
  {
  }

  // What a step may change that uses nothing up.
  ghost predicate Idled(l: Lease.State, q: Lease.State) {
    && q.d.done == l.d.done && q.d.sent == l.d.sent
    && (!Lease.Over(q.c) ==> InStream(q.c) == InStream(l.c))
  }

  lemma IdleParse(l: Lease.State, step: Lease.Parsing)
    requires step.Receive? || step.Take? || step.Judge?
    ensures var q := Lease.Parse(l, step); q.c == l.c && Idled(l, q)
  {
  }

  lemma IdleComplete(l: Lease.State, step: Lease.Completing)
    ensures var q := Lease.Complete(l, step); q.d == l.d && Idled(l, q)
  {
    var c := Lease.Complete(l, step).c;
    if step == Lease.Acquire {
      assert c in {l.c, l.c.(askers := Lease.Less(l.c.askers)), Lease.Granted(l.c)};
    } else {
      assert c == Lease.Worked(l.c, step);
    }
    assert c.streams == l.c.streams && c.giving == l.c.giving;
  }

  lemma IdleContinue(l: Lease.State, step: Lease.Continuing)
    requires Lease.Exclusive(l.c) && (step.Read? || step.StreamHeaderRead? || step.GiveBack?)
    ensures var q := Lease.Continue(l, step); Idled(l, q) && q.d.phase == l.d.phase && q.d.taken == l.d.taken
  {
    if l.c.continuations > 0 && !step.Read? {
      IdleOffer(l.c);
    }
  }

  lemma IdleOffer(c: Lease.Control)
    requires Lease.Exclusive(c) && c.continuations > 0
    ensures !InStream(c) && !InStream(Lease.Offered(c, false))
  {
    if c.closing {
      assert Lease.Shut(Lease.Ended(c, false)).streams == c.streams;
    }
  }

  lemma IdleRearm(l: Lease.State)
    requires Lease.Exclusive(l.c)
    ensures Idled(l, Lease.Apply(l, Lease.Rearms)) && Idled(l, Lease.Apply(l, Lease.RearmFails))
  {
  }

  // A sound step from s to q on a connection that goes on.
  ghost predicate Goes(classify: Classifier, s: State, q: State) {
    && Steady(classify) && Inv(classify, s) && Lease.Sound(q.lease)
    && !Lease.Over(s.lease.c) && !Lease.Over(q.lease.c)
  }

  lemma PlainKeeps(classify: Classifier, s: State, q: State)
    requires Goes(classify, s, q) && Idled(s.lease, q.lease) && q == s.(lease := q.lease)
    requires Begun(classify, q.seen, q.lease.d) && (Lease.Leased(q.lease.c) ==> BetweenFrames(q.lease.d))
    ensures Framed(classify, q)
  {
    SameUnread(s, q);
    StillFramed(classify, s, q);
  }

  // The version of the header in front is noted before its frame is used up.
  lemma NotedKeeps(classify: Classifier, s: State, q: State, header: seq<byte>)
    requires Goes(classify, s, q) && Idled(s.lease, q.lease) && q == s.(lease := q.lease, seen := q.seen)
    requires Begun(classify, q.seen, q.lease.d) && (Lease.Leased(q.lease.c) ==> BetweenFrames(q.lease.d))
    requires !InStream(s.lease.c) && |header| == HEADER_SIZE && header <= Unread(s)
    requires var v := classify(s.seen, header); !v.Reject? && q.seen == v.version
    ensures Framed(classify, q)
  {
    SameUnread(s, q);
    SameVerdict(classify, s.at, s.seen, header, Unread(s));
    assert Unread(s)[..HEADER_SIZE] == header;
    StillFramed(classify, s, q);
  }

  lemma ParseIdles(classify: Classifier, s: State, step: Lease.Parsing)
    requires Enabled(classify, s, Lease.Parses(step)) && (step.Receive? || step.Take? || step.Judge?)
    requires Goes(classify, s, Apply(classify, s, Lease.Parses(step)))
    ensures Framed(classify, Apply(classify, s, Lease.Parses(step)))
  {
    var d, q := s.lease.d, Apply(classify, s, Lease.Parses(step));
    IdleParse(s.lease, step);
    if step.Judge? {
      assert d.taken[..HEADER_SIZE] == d.taken;
      NotedKeeps(classify, s, q, d.taken);
    } else {
      if d.phase != Lease.InHeader {
        assert q.lease.d.taken[..HEADER_SIZE] == d.taken[..HEADER_SIZE];
      }
      PlainKeeps(classify, s, q);
    }
  }

  lemma ContinueIdles(classify: Classifier, s: State, step: Lease.Continuing)
    requires Enabled(classify, s, Lease.Continues(step)) && (step.Read? || step.StreamHeaderRead? || step.GiveBack?)
    requires Goes(classify, s, Apply(classify, s, Lease.Continues(step)))
    ensures Framed(classify, Apply(classify, s, Lease.Continues(step)))
  {
    var d, q := s.lease.d, Apply(classify, s, Lease.Continues(step));
    IdleContinue(s.lease, step);
    if step.StreamHeaderRead? && Head(classify, s.seen, d.inHand).Stream? {
      assert d.inHand[..HEADER_SIZE] == d.inHand;
      NotedKeeps(classify, s, q, d.inHand);
    } else {
      PlainKeeps(classify, s, q);
    }
  }

  lemma CompleteIdles(classify: Classifier, s: State, step: Lease.Completing)
    requires Goes(classify, s, Apply(classify, s, Lease.Completes(step)))
    requires !Lease.BadLease(s.lease, Lease.Completes(step))
    ensures Framed(classify, Apply(classify, s, Lease.Completes(step)))
  {
    IdleComplete(s.lease, step);
    CompleteLeases(s.lease, step);
    PlainKeeps(classify, s, Apply(classify, s, Lease.Completes(step)));
  }

  lemma CompleteLeases(l: Lease.State, step: Lease.Completing)
    requires !Lease.BadLease(l, Lease.Completes(step))
    ensures Lease.Leased(Lease.Complete(l, step).c) ==> Lease.Leased(l.c) || BetweenFrames(l.d)
  {
    if step != Lease.Acquire {
      assert Lease.Worked(l.c, step).streams == l.c.streams;
    }
  }

  lemma OtherIdles(classify: Classifier, s: State, step: Lease.Step)
    requires !step.Sends? && !step.Parses? && !step.Streams? && !step.Completes? && !step.Continues?
    requires step.Reacts? ==> !Lease.HandsOver(s.lease, step.reacting)
    requires Goes(classify, s, Apply(classify, s, step))
    ensures Framed(classify, Apply(classify, s, step))
  {
    if step.Reacts? {
      Lease.ReactFlags(s.lease, step.reacting);
    } else if step.Rearms? || step.RearmFails? {
      IdleRearm(s.lease);
    }
    PlainKeeps(classify, s, Apply(classify, s, step));
  }

  // ---- steps that do --------------------------------------------------------------------------------------

  lemma FrameRead(classify: Classifier, seen: byte, frame: seq<byte>, rest: seq<byte>)
    requires IsFrame(classify, seen, frame)
    ensures Parse(classify, seen, [], frame + rest) ==
            Before([EventOf(classify, seen, frame)], Parse(classify, Head(classify, seen, frame).version, [], rest))
  {
    var v, all := Head(classify, seen, frame), frame + rest;
    assert all[..HEADER_SIZE] == frame[..HEADER_SIZE] && all[|frame|..] == rest;
    if v.Fixed? {
      var split := HEADER_SIZE + v.arg1;
      assert all[HEADER_SIZE..split] == frame[HEADER_SIZE..split] && all[split..|frame|] == frame[split..];
    }
  }

  lemma EatsMore(classify: Classifier, first: byte, eaten: seq<byte>, at: byte, log: seq<Event>, frame: seq<byte>)
    requires Eats(classify, first, eaten, at, log) && IsFrame(classify, at, frame)
    ensures Eats(classify, first, eaten + frame, Head(classify, at, frame).version,
                 log + [EventOf(classify, at, frame)])
  {
    var version, event := Head(classify, at, frame).version, EventOf(classify, at, frame);
    forall rest: seq<byte>
      ensures Parse(classify, first, [], eaten + frame + rest) ==
              Before(log + [event], Parse(classify, version, [], rest))
    {
      Assoc(eaten, frame, rest);
      FrameRead(classify, at, frame, rest);
      BeforeTwice(log, [event], Parse(classify, version, [], rest));
    }
  }

  // The frame in front is the same under the version seen and under the last frame's.
  lemma SameFrame(classify: Classifier, at: byte, seen: byte, frame: seq<byte>, rest: seq<byte>)
    requires Steady(classify) && Dated(classify, at, seen, rest) && frame <= rest && IsFrame(classify, seen, frame)
    ensures IsFrame(classify, at, frame) && Head(classify, at, frame) == Head(classify, seen, frame)
  {
    SameVerdict(classify, at, seen, frame[..HEADER_SIZE], rest);
  }

  lemma UsedKeeps(classify: Classifier, s: State, q: State, frame: seq<byte>)
    requires Goes(classify, s, q) && !InStream(s.lease.c) && !InStream(q.lease.c)
    requires frame <= Unread(s) && IsFrame(classify, s.seen, frame) && q == Used(classify, s.(lease := q.lease), frame)
    requires q.lease.d.done == s.lease.d.done + frame && q.lease.d.sent == s.lease.d.sent
    requires q.lease.d.phase == Lease.InHeader && q.lease.d.taken == []
    ensures Framed(classify, q)
  {
    var eaten := s.lease.d.done[s.base..];
    SameFrame(classify, s.at, s.seen, frame, Unread(s));
    assert EventOf(classify, s.at, frame) == EventOf(classify, s.seen, frame);
    EatsMore(classify, s.first, eaten, s.at, s.log, frame);
    assert q.lease.d.done[q.base..] == eaten + frame;
    assert Eats(classify, q.first, q.lease.d.done[q.base..], q.at, q.log);
  }

  lemma ParseUses(classify: Classifier, s: State, step: Lease.Parsing)
    requires Enabled(classify, s, Lease.Parses(step)) && (step.Cancelled? || step.DispatchRequest?)
    requires Goes(classify, s, Apply(classify, s, Lease.Parses(step)))
    ensures Framed(classify, Apply(classify, s, Lease.Parses(step)))
  {
    var q := Apply(classify, s, Lease.Parses(step));
    assert q.lease.d.done == s.lease.d.done + s.lease.d.taken && !InStream(q.lease.c);
    UsedKeeps(classify, s, q, s.lease.d.taken);
  }

  lemma ContinueUses(classify: Classifier, s: State, step: Lease.Continuing)
    requires Enabled(classify, s, Lease.Continues(step)) && (step.CancelRead? || step.RequestRead?)
    requires Goes(classify, s, Apply(classify, s, Lease.Continues(step)))
    ensures Framed(classify, Apply(classify, s, Lease.Continues(step)))
  {
    var q := Apply(classify, s, Lease.Continues(step));
    if step.RequestRead? {
      IdleOffer(s.lease.c);
      Lease.CountedKeeps(s.lease.c, step.session);
      IdleOffer(Lease.Counted(s.lease.c, step.session));
    }
    assert q.lease.d.done == s.lease.d.done + s.lease.d.inHand && !InStream(q.lease.c);
    UsedKeeps(classify, s, q, s.lease.d.inHand);
  }

  // More input changes nothing that was read.
  lemma SendKeeps(classify: Classifier, s: State, bytes: seq<byte>)
    requires Goes(classify, s, Apply(classify, s, Lease.Sends(bytes)))
    ensures Framed(classify, Apply(classify, s, Lease.Sends(bytes)))
  {
    if InStream(s.lease.c) {
      SendInStream(classify, s, bytes);
    } else {
      MoreUnread(s, bytes);
      StillDated(classify, s.at, s.seen, Unread(s), bytes);
    }
  }

  lemma SendInStream(classify: Classifier, s: State, bytes: seq<byte>)
    requires !Lease.Over(s.lease.c) && InStream(s.lease.c) && Agrees(classify, s) && s.base <= |s.lease.d.sent|
    ensures Agrees(classify, Apply(classify, s, Lease.Sends(bytes)))
  {
    var sent := s.lease.d.sent;
    StreamGrows(classify, s.first, sent[s.base..], bytes);
    assert (sent + bytes)[s.base..] == sent[s.base..] + bytes;
  }

  lemma StillDated(classify: Classifier, at: byte, seen: byte, rest: seq<byte>, more: seq<byte>)
    requires Dated(classify, at, seen, rest)
    ensures Dated(classify, at, seen, rest + more)
  {
    assert |rest| >= HEADER_SIZE ==> (rest + more)[..HEADER_SIZE] == rest[..HEADER_SIZE];
  }

  lemma MoreUnread(s: State, bytes: seq<byte>)
    ensures var d := s.lease.d.(wire := s.lease.d.wire + bytes, sent := s.lease.d.sent + bytes);
            Unread(s.(lease := s.lease.(d := d))) == Unread(s) + bytes
  {
    var d := s.lease.d;
    Assoc(d.inHand + d.leased, d.wire, bytes);
    Assoc(d.taken + d.pending, d.wire, bytes);
  }

  // Once a stream has begun, what follows is its own.
  lemma {:induction false} StreamGrows(classify: Classifier, seen: byte, bytes: seq<byte>, more: seq<byte>)
    requires Parse(classify, seen, [], bytes).stop.HandedOver?
    ensures Parse(classify, seen, [], bytes + more).stop.HandedOver?
    ensures Parse(classify, seen, [], bytes + more).events == Parse(classify, seen, [], bytes).events
    decreases |bytes|
  {
    var v, all := classify(seen, bytes[..HEADER_SIZE]), bytes + more;
    assert all[..HEADER_SIZE] == bytes[..HEADER_SIZE];
    if v.Cancel? {
      StreamGrows(classify, v.version, bytes[HEADER_SIZE..], more);
      assert all[HEADER_SIZE..] == bytes[HEADER_SIZE..] + more;
    } else if v.Fixed? {
      var split, end := HEADER_SIZE + v.arg1, HEADER_SIZE + v.arg1 + v.arg2;
      StreamGrows(classify, v.version, bytes[end..], more);
      assert all[end..] == bytes[end..] + more;
      assert all[HEADER_SIZE..split] == bytes[HEADER_SIZE..split] && all[split..end] == bytes[split..end];
    } else {
      assert all[HEADER_SIZE..HEADER_SIZE + v.arg1] == bytes[HEADER_SIZE..HEADER_SIZE + v.arg1];
    }
  }

  lemma StreamFrame(classify: Classifier, seen: byte, frame: seq<byte>, rest: seq<byte>)
    requires var v := Head(classify, seen, frame); v.Stream? && |frame| == Size(v)
    ensures Parse(classify, seen, [], frame + rest) ==
            Whole([Leased(Head(classify, seen, frame).id, frame[HEADER_SIZE..])], HandedOver(rest))
  {
    var all := frame + rest;
    assert all[..HEADER_SIZE] == frame[..HEADER_SIZE] && all[HEADER_SIZE..|frame|] == frame[HEADER_SIZE..];
    assert all[|frame|..] == rest;
  }

  lemma StreamReached(classify: Classifier, first: byte, eaten: seq<byte>, at: byte, log: seq<Event>, seen: byte,
                      frame: seq<byte>, rest: seq<byte>)
    requires Steady(classify) && Eats(classify, first, eaten, at, log) && Dated(classify, at, seen, frame + rest)
    requires var v := Head(classify, seen, frame); v.Stream? && |frame| == Size(v)
    ensures Parse(classify, first, [], eaten + (frame + rest)) ==
            Whole(log + [Leased(Head(classify, seen, frame).id, frame[HEADER_SIZE..])], HandedOver(rest))
  {
    SameReading(classify, at, seen, frame + rest);
    StreamFrame(classify, seen, frame, rest);
  }

  lemma StreamInFront(classify: Classifier, s: State)
    requires Goes(classify, s, s) && !InStream(s.lease.c) && !Lease.Leased(s.lease.c)
    requires var v := Head(classify, s.seen, s.lease.d.taken); v.Stream? && |s.lease.d.taken| == Size(v)
    ensures var d := s.lease.d;
            var event := Leased(Head(classify, s.seen, d.taken).id, d.taken[HEADER_SIZE..]);
            Reference(classify, s) == Whole(s.log + [event], HandedOver(d.pending + d.wire))
  {
    var d := s.lease.d;
    var eaten, rest := d.done[s.base..], d.pending + d.wire;
    assert Unread(s) == d.taken + rest;
    assert d.sent[s.base..] == eaten + (d.taken + rest);
    StreamReached(classify, s.first, eaten, s.at, s.log, s.seen, d.taken, rest);
  }

  lemma HandOverKeeps(classify: Classifier, s: State, step: Lease.Reacting)
    requires Enabled(classify, s, Lease.Reacts(step)) && Lease.HandsOver(s.lease, step)
    requires Goes(classify, s, Apply(classify, s, Lease.Reacts(step)))
    ensures Framed(classify, Apply(classify, s, Lease.Reacts(step)))
  {
    HandedOn(classify, s, step);
    StreamInFront(classify, s);
    var q := Apply(classify, s, Lease.Reacts(step));
    assert Reference(classify, q) == Reference(classify, s);
  }

  lemma HandedOn(classify: Classifier, s: State, step: Lease.Reacting)
    requires Enabled(classify, s, Lease.Reacts(step)) && Lease.HandsOver(s.lease, step) && Lease.Exclusive(s.lease.c)
    ensures var q := Apply(classify, s, Lease.Reacts(step));
            && BetweenFrames(q.lease.d) && q.lease.d.done == s.lease.d.done + s.lease.d.taken
            && q.lease.d.sent == s.lease.d.sent && (Lease.Over(q.lease.c) || InStream(q.lease.c))
  {
  }

  lemma StreamKeeps(classify: Classifier, s: State, step: Lease.Streaming)
    requires Goes(classify, s, Apply(classify, s, Lease.Streams(step)))
    ensures Framed(classify, Apply(classify, s, Lease.Streams(step)))
  {
    var q := Apply(classify, s, Lease.Streams(step));
    if InStream(s.lease.c) && step == Lease.StreamEnd {
      assert q.lease.d.done == s.lease.d.done && q.lease.d.done[q.base..] == [];
      NothingEaten(classify, s.seen);
    } else if InStream(s.lease.c) {
      assert q.lease.d.sent == s.lease.d.sent && q.lease.c == s.lease.c && |s.lease.d.done| <= |q.lease.d.done|;
    }
  }

  lemma NothingEaten(classify: Classifier, seen: byte)
    ensures Eats(classify, seen, [], seen, [])
  {
    forall rest: seq<byte>
      ensures Parse(classify, seen, [], [] + rest) == Before([], Parse(classify, seen, [], rest))
    {
      assert [] + rest == rest;
      Idle(Parse(classify, seen, [], rest));
    }
  }

  // ---- runs -----------------------------------------------------------------------------------------------------

  lemma StepGoes(classify: Classifier, s: State, step: Lease.Step)
    requires Enabled(classify, s, step) && !Lease.BadLease(s.lease, step) && Goes(classify, s, Apply(classify, s, step))
    ensures Framed(classify, Apply(classify, s, step))
  {
    if step.Sends? {
      SendKeeps(classify, s, step.bytes);
    } else if step.Reacts? && Lease.HandsOver(s.lease, step.reacting) {
      HandOverKeeps(classify, s, step.reacting);
    } else if step.Parses? {
      if step.parsing.Cancelled? || step.parsing.DispatchRequest? {
        ParseUses(classify, s, step.parsing);
      } else {
        ParseIdles(classify, s, step.parsing);
      }
    } else if step.Streams? {
      StreamKeeps(classify, s, step.streaming);
    } else if step.Completes? {
      CompleteIdles(classify, s, step.completing);
    } else if step.Continues? {
      if step.continuing.CancelRead? || step.continuing.RequestRead? {
        ContinueUses(classify, s, step.continuing);
      } else {
        ContinueIdles(classify, s, step.continuing);
      }
    } else {
      OtherIdles(classify, s, step);
    }
  }

  lemma LeaseApplied(classify: Classifier, s: State, step: Lease.Step)
    requires Enabled(classify, s, step)
    ensures Apply(classify, s, step).lease == Lease.Apply(s.lease, step)
  {
  }

  lemma StepKeeps(classify: Classifier, s: State, step: Lease.Step)
    requires Steady(classify) && Inv(classify, s) && !Lease.BadLease(s.lease, step)
    ensures Inv(classify, Apply(classify, s, step))
  {
    if Enabled(classify, s, step) {
      LeaseApplied(classify, s, step);
      Lease.StepIntactIff(s.lease, step);
      if Lease.Over(s.lease.c) {
        OverStays(s.lease, step);
      } else if !Lease.Over(Apply(classify, s, step).lease.c) {
        StepGoes(classify, s, step);
      }
    }
  }

  // ---- a lease in the middle of a header ----------------------------------------------------------------------------

  // How many bytes a reading accounts for.
  function EventSize(e: Event): nat {
    match e
    case Dispatched(_, _, route, body, _) => HEADER_SIZE + |route| + |body|
    case Cancelled(_) => HEADER_SIZE
    case Leased(_, route) => HEADER_SIZE + |route|
  }

  function EventSizes(): Event -> int { (e: Event) => EventSize(e) }

  function StopSize(stop: Stop): nat {
    match stop
    case Waiting(tail) => |tail|
    case Broken(_) => 0
    case HandedOver(rest) => |rest|
  }

  function Length(w: Whole): int { Sum(w.events, EventSizes()) + StopSize(w.stop) }

  lemma LengthBefore(e: Event, w: Whole)
    ensures Length(Before([e], w)) == EventSize(e) + Length(w)
  {
    assert ([e] + w.events)[1..] == w.events;
  }

  // A reading without an error accounts for every byte.
  lemma {:induction false} ReadingIsWhole(classify: Classifier, seen: byte, bytes: seq<byte>)
    requires !Parse(classify, seen, [], bytes).stop.Broken?
    ensures Length(Parse(classify, seen, [], bytes)) == |bytes|
    decreases |bytes|
  {
    if |bytes| < HEADER_SIZE {
    } else {
      var v := classify(seen, bytes[..HEADER_SIZE]);
      if v.Cancel? {
        ReadingIsWhole(classify, v.version, bytes[HEADER_SIZE..]);
        LengthBefore(Cancelled(v.id), Parse(classify, v.version, [], bytes[HEADER_SIZE..]));
      } else if v.Fixed? && HEADER_SIZE + v.arg1 + v.arg2 <= |bytes| {
        RequestIsWhole(classify, seen, bytes, v);
      } else if v.Stream? && HEADER_SIZE + v.arg1 <= |bytes| {
        var route, rest := bytes[HEADER_SIZE..HEADER_SIZE + v.arg1], bytes[HEADER_SIZE + v.arg1..];
        LengthBefore(Leased(v.id, route), Whole([], HandedOver(rest)));
        assert [Leased(v.id, route)] + [] == [Leased(v.id, route)];
      }
    }
  }

  lemma {:induction false} RequestIsWhole(classify: Classifier, seen: byte, bytes: seq<byte>, v: Verdict)
    requires |bytes| >= HEADER_SIZE && v == classify(seen, bytes[..HEADER_SIZE]) && v.Fixed?
    requires HEADER_SIZE + v.arg1 + v.arg2 <= |bytes| && !Parse(classify, seen, [], bytes).stop.Broken?
    ensures Length(Parse(classify, seen, [], bytes)) == |bytes|
    decreases |bytes|, 0
  {
    var split, end := HEADER_SIZE + v.arg1, HEADER_SIZE + v.arg1 + v.arg2;
    var event := Dispatched(v.id, v.flags, bytes[HEADER_SIZE..split], bytes[split..end], []);
    assert Parse(classify, seen, [], bytes) == Before([event], Parse(classify, v.version, [], bytes[end..]));
    ReadingIsWhole(classify, v.version, bytes[end..]);
    LengthBefore(event, Parse(classify, v.version, [], bytes[end..]));
  }

  lemma LeasedOut(l: Lease.State, step: Lease.Step)
    requires Lease.Exclusive(l.c) && Lease.BadLease(l, step)
    ensures !Lease.Over(l.c) && !InStream(l.c)
  {
  }

  /** A continuation lease in the middle of a header makes the frames to come differ from the one-pass reading, if that
      has no error. */
  lemma BadLeaseDisagrees(classify: Classifier, s: State, step: Lease.Step)
    requires Steady(classify) && Inv(classify, s) && Lease.BadLease(s.lease, step)
    requires !Reference(classify, s).stop.Broken?
    ensures !Agrees(classify, Apply(classify, s, step))
  {
    LeasedOut(s.lease, step);
    FramedAgrees(classify, s);
    UnreadLost(s, step);
    LostBytesShow(classify, s.seen, s.log, s.lease.d.taken, s.lease.d.wire, Reference(classify, s));
  }

  // What the lease leaves unread, and what there was to read.
  lemma UnreadLost(s: State, step: Lease.Step)
    requires Lease.Sound(s.lease) && Lease.BadLease(s.lease, step)
    ensures var c, d := Lease.Apply(s.lease, step).c, s.lease.d;
            && Lease.Apply(s.lease, step).d == d && !Lease.Over(c) && !InStream(c)
            && Unread(s) == d.taken + d.wire && Lease.Unread(Lease.Leased(c), d) == d.wire
  {
    var d := s.lease.d;
    LeasedOut(s.lease, step);
    assert Lease.Apply(s.lease, step).c == Lease.Granted(s.lease.c);
    assert d.pending == [] && d.leased == [] && d.inHand == [];
    assert [] + [] + d.wire == d.wire && d.taken + [] + d.wire == d.taken + d.wire;
  }

  lemma LostBytesShow(classify: Classifier, seen: byte, log: seq<Event>, lost: seq<byte>, rest: seq<byte>, all: Whole)
    requires lost != [] && !all.stop.Broken? && Before(log, Parse(classify, seen, [], lost + rest)) == all
    ensures Before(log, Parse(classify, seen, [], rest)) != all
  {
    if Before(log, Parse(classify, seen, [], rest)) == all {
      BeforeInjective(log, Parse(classify, seen, [], lost + rest), Parse(classify, seen, [], rest));
      ReadingIsWhole(classify, seen, lost + rest);
      ReadingIsWhole(classify, seen, rest);
    }
  }

  // ---- the promise --------------------------------------------------------------------------------------------------

  ghost predicate AlwaysAgrees(classify: Classifier, s: State, steps: seq<Lease.Step>)
    decreases |steps|
  {
    Agrees(classify, s) && (steps != [] ==> AlwaysAgrees(classify, Apply(classify, s, steps[0]), steps[1..]))
  }

  // Every continuation lease is taken at a frame boundary.
  ghost predicate GoodLeases(classify: Classifier, s: State, steps: seq<Lease.Step>)
    decreases |steps|
  {
    steps != [] ==>
      !Lease.BadLease(s.lease, steps[0]) && GoodLeases(classify, Apply(classify, s, steps[0]), steps[1..])
  }

  // At no point is there an error in what the peer has sent since the last stream.
  predicate Unbroken(classify: Classifier, s: State, steps: seq<Lease.Step>)
    decreases |steps|
  {
    && (Lease.Over(s.lease.c) || InStream(s.lease.c) || !Reference(classify, s).stop.Broken?)
    && (steps != [] ==> Unbroken(classify, Apply(classify, s, steps[0]), steps[1..]))
  }

  lemma {:induction false} GoodLeasesAgree(classify: Classifier, s: State, steps: seq<Lease.Step>)
    requires Steady(classify) && Inv(classify, s) && GoodLeases(classify, s, steps)
    ensures AlwaysAgrees(classify, s, steps)
    decreases |steps|
  {
    FramedAgrees(classify, s);
    if steps == [] {
    } else {
      StepKeeps(classify, s, steps[0]);
      GoodLeasesAgree(classify, Apply(classify, s, steps[0]), steps[1..]);
    }
  }

  lemma {:induction false} AgreeIffGoodLeases(classify: Classifier, s: State, steps: seq<Lease.Step>)
    requires Steady(classify) && Inv(classify, s) && Unbroken(classify, s, steps)
    ensures AlwaysAgrees(classify, s, steps) <==> GoodLeases(classify, s, steps)
    decreases |steps|
  {
    FramedAgrees(classify, s);
    if steps == [] {
    } else if Lease.BadLease(s.lease, steps[0]) {
      LeasedOut(s.lease, steps[0]);
      BadLeaseDisagrees(classify, s, steps[0]);
    } else {
      StepKeeps(classify, s, steps[0]);
      AgreeIffGoodLeases(classify, Apply(classify, s, steps[0]), steps[1..]);
    }
  }

  lemma Starts(classify: Classifier, strict: bool)
    ensures Inv(classify, Accepted(strict))
  {
    Lease.StartsSound(strict);
    NothingEaten(classify, 0);
  }

  /** Across any chain of hand-offs the cancellations, requests and streams that the reactor and the continuation
      workers take out of the stream between them are, in order, those of the one-pass parse, if every continuation
      lease is taken with no header byte copied out; and for a peer that sends no malformed frame, only if. */
  lemma HandOffsKeepFrames(maxMessage: nat, strict: bool, steps: seq<Lease.Step>)
    ensures var classify := ServerClassifier(maxMessage);
            && (GoodLeases(classify, Accepted(strict), steps) ==> AlwaysAgrees(classify, Accepted(strict), steps))
            && (Unbroken(classify, Accepted(strict), steps) && AlwaysAgrees(classify, Accepted(strict), steps) ==>
                  GoodLeases(classify, Accepted(strict), steps))
  {
    var classify := ServerClassifier(maxMessage);
    ServerIsSteady(maxMessage);
    Starts(classify, strict);
    if GoodLeases(classify, Accepted(strict), steps) {
      GoodLeasesAgree(classify, Accepted(strict), steps);
    }
    if Unbroken(classify, Accepted(strict), steps) {
      AgreeIffGoodLeases(classify, Accepted(strict), steps);
    }
  }

  lemma {:induction false} StrictLeasesAreGood(classify: Classifier, s: State, steps: seq<Lease.Step>)
    requires s.lease.strict
    ensures GoodLeases(classify, s, steps)
    decreases |steps|
  {
    if steps == [] {
    } else {
      assert Lease.Apply(s.lease, steps[0]).strict && Apply(classify, s, steps[0]).lease.strict;
      StrictLeasesAreGood(classify, Apply(classify, s, steps[0]), steps[1..]);
    }
  }

  // Under an aggregate budget every run agrees, whatever the peer sends.
  lemma StrictAlwaysAgrees(maxMessage: nat, steps: seq<Lease.Step>)
    ensures AlwaysAgrees(ServerClassifier(maxMessage), Accepted(true), steps)
  {
    StrictLeasesAreGood(ServerClassifier(maxMessage), Accepted(true), steps);
    HandOffsKeepFrames(maxMessage, true, steps);
  }

  // With nothing left to read the events are exactly those of the one-pass parse.
  lemma AllRead(classify: Classifier, s: State)
    requires Agrees(classify, s) && !Lease.Over(s.lease.c) && !InStream(s.lease.c) && Unread(s) == []
    ensures Reference(classify, s) == Whole(s.log, Waiting([]))
  {
    assert s.log + [] == s.log;
  }

  // ---- where it fails -------------------------------------------------------------------------------------

  lemma Prepend(classify: Classifier, s: State, step: Lease.Step, q: State, rest: seq<Lease.Step>, end: State)
    returns (steps: seq<Lease.Step>)
    requires Apply(classify, s, step) == q && Run(classify, q, rest) == end
    ensures Run(classify, s, steps) == end
  {
    steps := [step] + rest;
    assert steps[1..] == rest;
  }

  // A session request of one byte.
  ghost predicate Small(classify: Classifier, frame: seq<byte>) {
    Steady(classify) && |frame| == HEADER_SIZE + 1 && IsFrame(classify, 0, frame) && Head(classify, 0, frame).Fixed?
    && Head(classify, 0, frame).id != 0
  }

  function Before0(c: Lease.Control, d: Lease.Bytes): State { State(Lease.State(false, c, d), 0, 0, 0, 0, []) }

  // After it was dispatched.
  function After0(classify: Classifier, frame: seq<byte>, c: Lease.Control, d: Lease.Bytes): State
    requires IsFrame(classify, 0, frame)
  {
    var version := Head(classify, 0, frame).version;
    State(Lease.State(false, c, d), version, 0, 0, version, [EventOf(classify, 0, frame)])
  }

  lemma RequestArrives(classify: Classifier, frame: seq<byte>, rest: seq<Lease.Step>, end: State)
    returns (steps: seq<Lease.Step>)
    requires Small(classify, frame)
    requires var d := Lease.Empty().(taken := frame[..20], pending := frame[20..], sent := frame);
             Run(classify, Before0(Lease.AtWork(), d), rest) == end
    ensures Run(classify, Accepted(false), steps) == end
  {
    var s1 := Before0(Lease.Idle(), Lease.Empty().(wire := frame, sent := frame));
    var s2 := Before0(Lease.AtWork(), Lease.Empty().(wire := frame, sent := frame));
    var s3 := Before0(Lease.AtWork(), Lease.Empty().(pending := frame, sent := frame));
    var s4 := Before0(Lease.AtWork(),
                      Lease.Empty().(taken := frame[..20], pending := frame[20..], sent := frame));
    assert [] + frame[..20] == frame[..20];
    steps := Prepend(classify, s3, Lease.Parses(Lease.Take(20)), s4, rest, end);
    assert [] + frame[..21] == frame && frame[21..] == [];
    steps := Prepend(classify, s2, Lease.Parses(Lease.Receive(21)), s3, steps, end);
    steps := Prepend(classify, s1, Lease.Reacts(Lease.Wake), s2, steps, end);
    assert [] + frame == frame;
    steps := Prepend(classify, Accepted(false), Lease.Sends(frame), s1, steps, end);
  }

  lemma RequestDispatched(classify: Classifier, frame: seq<byte>, rest: seq<Lease.Step>, end: State)
    returns (steps: seq<Lease.Step>)
    requires Small(classify, frame)
    requires Run(classify, After0(classify, frame, Lease.WithJob(), Lease.Empty().(done := frame, sent := frame)),
                 rest) == end
    ensures var d := Lease.Empty().(taken := frame[..20], pending := frame[20..], sent := frame);
            Run(classify, Before0(Lease.AtWork(), d), steps) == end
  {
    var version := Head(classify, 0, frame).version;
    var s4 := Before0(Lease.AtWork(),
                      Lease.Empty().(taken := frame[..20], pending := frame[20..], sent := frame));
    var d5 := s4.lease.d.(phase := Lease.InRequest);
    var d6 := Lease.Empty().(phase := Lease.InRequest, taken := frame, sent := frame);
    var s5 := s4.(seen := version, lease := s4.lease.(d := d5));
    var s6 := s5.(lease := s5.lease.(d := d6));
    var s7 := After0(classify, frame, Lease.WithJob(), Lease.Empty().(done := frame, sent := frame));
    assert frame[..20][..HEADER_SIZE] == frame[..20] && classify(version, frame[..20]) == Head(classify, 0, frame);
    assert [] + frame == frame;
    steps := Prepend(classify, s6, Lease.Parses(Lease.DispatchRequest(false, true)), s7, rest, end);
    assert frame[20..][..1] == frame[20..] && frame[20..][1..] == [] && frame[..20] + frame[20..] == frame;
    steps := Prepend(classify, s5, Lease.Parses(Lease.Take(1)), s6, steps, end);
    steps := Prepend(classify, s4, Lease.Parses(Lease.Judge(Lease.InRequest)), s5, steps, end);
  }

  lemma NextHeaderBegins(classify: Classifier, frame: seq<byte>, b: byte, rest: seq<Lease.Step>, end: State)
    returns (steps: seq<Lease.Step>)
    requires Small(classify, frame)
    requires var d := Lease.Empty().(taken := [b], done := frame, sent := frame + [b]);
             Run(classify, After0(classify, frame, Lease.WithJob(), d), rest) == end
    ensures Run(classify, After0(classify, frame, Lease.WithJob(), Lease.Empty().(done := frame, sent := frame)),
                steps) == end
  {
    var done := Lease.Empty().(done := frame, sent := frame + [b]);
    var s7 := After0(classify, frame, Lease.WithJob(), Lease.Empty().(done := frame, sent := frame));
    var s8 := After0(classify, frame, Lease.WithJob(), done.(wire := [b]));
    var s9 := After0(classify, frame, Lease.WithJob(), done.(pending := [b]));
    var s10 := After0(classify, frame, Lease.WithJob(), done.(taken := [b]));
    assert [] + [b][..1] == [b] && [b][1..] == [];
    steps := Prepend(classify, s9, Lease.Parses(Lease.Take(1)), s10, rest, end);
    steps := Prepend(classify, s8, Lease.Parses(Lease.Receive(1)), s9, steps, end);
    assert [] + [b] == [b];
    steps := Prepend(classify, s7, Lease.Sends([b]), s8, steps, end);
  }

  lemma WorkerTakesOver(classify: Classifier, frame: seq<byte>, d: Lease.Bytes, rest: seq<Lease.Step>, end: State)
    returns (steps: seq<Lease.Step>)
    requires Small(classify, frame) && d.phase == Lease.InHeader && d.pending == []
    requires var c := Lease.Idle().(session := true, workerOwned := true, continuations := 1);
             Run(classify, After0(classify, frame, c, d), rest) == end
    ensures Run(classify, After0(classify, frame, Lease.WithJob(), d), steps) == end
  {
    var s10 := After0(classify, frame, Lease.WithJob(), d);
    var s11 := After0(classify, frame, Lease.WithJob().(reactor := Lease.Leaving(0)), d);
    var s12 := After0(classify, frame, Lease.Idle().(session := true, jobs := Lease.OneJob()), d);
    var s13 := After0(classify, frame, Lease.Idle().(session := true, askers := 1), d);
    var s14 := After0(classify, frame, Lease.Idle().(session := true, workerOwned := true, continuations := 1), d);
    steps := Prepend(classify, s13, Lease.Completes(Lease.Acquire), s14, rest, end);
    steps := Prepend(classify, s12, Lease.Completes(Lease.CompleteRegular(false)), s13, steps, end);
    steps := Prepend(classify, s11, Lease.Reacts(Lease.Leave), s12, steps, end);
    steps := Prepend(classify, s10, Lease.Reacts(Lease.StopReading), s11, steps, end);
  }

  /** The worker that finishes a request takes the connection over while the first byte of the next header is already
      copied out: what it will read is not what was sent. */
  lemma SplitHeaderDisagrees(classify: Classifier, frame: seq<byte>, b: byte) returns (steps: seq<Lease.Step>)
    requires Small(classify, frame)
    ensures !Agrees(classify, Run(classify, Accepted(false), steps))
    ensures Unbroken(classify, Run(classify, Accepted(false), steps), [])
  {
    var d := Lease.Empty().(taken := [b], done := frame, sent := frame + [b]);
    var c := Lease.Idle().(session := true, workerOwned := true, continuations := 1);
    var end := After0(classify, frame, c, d);
    steps := WorkerTakesOver(classify, frame, d, [], end);
    steps := NextHeaderBegins(classify, frame, b, steps, end);
    steps := RequestDispatched(classify, frame, steps, end);
    steps := RequestArrives(classify, frame, steps, end);
    var event, version := EventOf(classify, 0, frame), Head(classify, 0, frame).version;
    FrameRead(classify, 0, frame, [b]);
    assert (frame + [b])[0..] == frame + [b] && [event] + [] == [event];
    assert Reference(classify, end) == Whole([event], Waiting([b]));
    assert Unread(end) == [] && Parse(classify, version, [], []) == Whole([], Waiting([]));
  }
}
