/** The reactor's incremental frame parser and the one-pass parse it must agree with. */
module Parser {
  import opened Basics
  import opened Codec

  // ---- what a header asks for ----------------------------------------------------------

  datatype ParseError =
    | Undecodable(cause: DecodeError) | VersionChanged | HandleUnavailable | MissingDescriptor
    | BadLengths(reason: LengthError) | BadStreamHeader | UnexpectedType

  // `version` is the connection's wire version from this frame on.
  datatype Verdict =
    | Reject(error: ParseError)
    | Cancel(version: byte, id: u32)
    | Fixed(version: byte, id: u32, flags: u16, arg1: u32, arg2: u32, lengths: Result<(), LengthError>)
    | Stream(version: byte, id: u32, arg1: u32)

  type Classifier = (byte, seq<byte>) -> Verdict

  // The server's checks on a complete header; version 0 means none has been seen yet.
  function Classify(maxMessage: nat, seen: byte, header: seq<byte>): Verdict {
    if |header| != HEADER_SIZE then Reject(Undecodable(BadMagic))
    else
      var decoded := Decode(header);
      if decoded.Err? then Reject(Undecodable(decoded.error))
      else
        var h := decoded.value;
        if seen != 0 && seen != h.version then Reject(VersionChanged)
        else if h.kind == CancelRequest then Cancel(h.version, h.id)
        else if h.kind == Request then
          if CarriesHandle(h.flags) then Reject(HandleUnavailable)
          else Fixed(h.version, h.id, h.flags, h.arg1, h.arg2, ValidateRequestLengths(h.arg1, h.arg2, maxMessage))
        else if h.kind == StreamRequest then
          if h.arg1 == 0 || h.arg2 != 0 || h.arg1 > maxMessage then Reject(BadStreamHeader)
          else Stream(h.version, h.id, h.arg1)
        else Reject(UnexpectedType)
  }

  function ServerClassifier(maxMessage: nat): Classifier {
    (seen: byte, header: seq<byte>) => Classify(maxMessage, seen, header)
  }

  // The version a header establishes is the version it was judged under.
  ghost predicate Steady(classify: Classifier) {
    forall seen: byte, header: seq<byte> ::
      var v := classify(seen, header);
      !v.Reject? ==> classify(v.version, header) == v
  }

  lemma ServerIsSteady(maxMessage: nat)
    ensures Steady(ServerClassifier(maxMessage))
  {
    forall seen: byte, header: seq<byte>
      ensures var v := Classify(maxMessage, seen, header); !v.Reject? ==> Classify(maxMessage, v.version, header) == v
    {
    }
  }

  // ---- one-pass reference ------------------------------------------------------------------

  datatype Event =
    | Dispatched(id: u32, flags: u16, route: seq<byte>, body: seq<byte>, fd: seq<int>)
    | Cancelled(cancelId: u32)
    | Leased(streamId: u32, streamRoute: seq<byte>)

  // Where parsing stops: short of a frame, at an error, or with the connection handed to a stream worker.
  datatype Stop = Waiting(tail: seq<byte>) | Broken(error: ParseError) | HandedOver(rest: seq<byte>)

  datatype Whole = Whole(events: seq<Event>, stop: Stop)

  function Before(events: seq<Event>, w: Whole): Whole { Whole(events + w.events, w.stop) }

  // Parses all bytes at once; `fds` are the passed descriptors in arrival order.
  function Parse(classify: Classifier, seen: byte, fds: seq<int>, bytes: seq<byte>): Whole
    decreases |bytes|
  {
    if |bytes| < HEADER_SIZE then Whole([], Waiting(bytes))
    else match classify(seen, bytes[..HEADER_SIZE])
      case Reject(e) => Whole([], Broken(e))
      case Cancel(version, id) => Before([Cancelled(id)], Parse(classify, version, fds, bytes[HEADER_SIZE..]))
      case Fixed(version, id, flags, arg1, arg2, lengths) =>
        var used := if CarriesFd(flags) then 1 else 0;
        var split, end := HEADER_SIZE + arg1, HEADER_SIZE + arg1 + arg2;
        if used > |fds| then Whole([], Broken(MissingDescriptor))
        else if lengths.Err? then Whole([], Broken(BadLengths(lengths.error)))
        else if |bytes| < end then Whole([], Waiting(bytes))
        else Before([Dispatched(id, flags, bytes[HEADER_SIZE..split], bytes[split..end], fds[..used])],
                    Parse(classify, version, fds[used..], bytes[end..]))
      case Stream(version, id, arg1) =>
        var end := HEADER_SIZE + arg1;
        if |bytes| < end then Whole([], Waiting(bytes))
        else Whole([Leased(id, bytes[HEADER_SIZE..end])], HandedOver(bytes[end..]))
  }

  // ---- the incremental parser ---------------------------------------------------------------

  // A received byte with the descriptors that arrived attached to it.
  datatype Cell = Cell(value: byte, fds: seq<int>)

  function Bytes(cells: seq<Cell>): (r: seq<byte>)
    ensures |r| == |cells|
  {
    seq(|cells|, i requires 0 <= i < |cells| => cells[i].value)
  }

  function Fds(cells: seq<Cell>): seq<int> {
    if cells == [] then [] else cells[0].fds + Fds(cells[1..])
  }

  datatype Phase =
    | InHeader | RequestBudget | RequestPayload | StreamBudget | StreamRoute | Given | Dead(error: ParseError)

  // The parse state of one connection. `header` holds the header bytes received so far, all of them past phase
  // InHeader; `fd` is the descriptor taken for the frame in progress, `unread` the
  // pending input, `spent` the number of descriptors that left with earlier frames.
  datatype P = P(phase: Phase, header: seq<byte>, route: seq<byte>, body: seq<byte>, fd: seq<int>,
                 seen: byte, fds: seq<int>, unread: seq<byte>, spent: nat)

  function Start(): P { P(InHeader, [], [], [], [], 0, [], [], 0) }

  // Receive appends to the pending input; every other step is one action of the parse loop.
  datatype Step = Receive(cells: seq<Cell>) | FillHeader | JudgeHeader | Admit | Collect | Dispatch

  // What a step does to the state, and the events it emits. A step that is not enabled does nothing.
  function Apply(classify: Classifier, p: P, step: Step): (P, seq<Event>) {
    match step
    case Receive(cells) =>
      if p.phase.Dead? then (p, []) else (p.(unread := p.unread + Bytes(cells), fds := p.fds + Fds(cells)), [])
    case FillHeader =>
      if p.phase != InHeader || |p.header| >= HEADER_SIZE then (p, [])
      else
        var take := Min(|p.unread|, HEADER_SIZE - |p.header|);
        (p.(header := p.header + p.unread[..take], unread := p.unread[take..]), [])
    case JudgeHeader => if p.phase == InHeader && |p.header| == HEADER_SIZE then Judged(classify, p) else (p, [])
    case Admit =>
      if p.phase == RequestBudget then (p.(phase := RequestPayload, route := [], body := []), [])
      else if p.phase == StreamBudget then (p.(phase := StreamRoute, route := []), [])
      else (p, [])
    case Collect => (Collected(classify, p), [])
    case Dispatch => Emitted(classify, p)
  }

  function Judged(classify: Classifier, p: P): (P, seq<Event>) {
    match classify(p.seen, p.header)
    case Reject(e) => (p.(phase := Dead(e)), [])
    case Cancel(version, id) => (p.(header := [], seen := version), [Cancelled(id)])
    case Fixed(version, id, flags, arg1, arg2, lengths) =>
      var used := if CarriesFd(flags) then 1 else 0;
      if used > |p.fds| then (p.(phase := Dead(MissingDescriptor)), [])
      else if lengths.Err? then (p.(phase := Dead(BadLengths(lengths.error))), [])
      else (p.(phase := RequestBudget, seen := version, fd := p.fds[..used], fds := p.fds[used..]), [])
    case Stream(version, id, arg1) => (p.(phase := StreamBudget, seen := version), [])
  }

  // Moves pending input into the frame in progress.
  function Collected(classify: Classifier, p: P): P {
    var v := classify(p.seen, p.header);
    if p.phase == RequestPayload && v.Fixed? && |p.route| <= v.arg1 && |p.route| + |p.body| <= v.arg1 + v.arg2 then
      var take := Min(|p.unread|, v.arg1 + v.arg2 - |p.route| - |p.body|);
      var routePart := Min(take, v.arg1 - |p.route|);
      p.(route := p.route + p.unread[..routePart], body := p.body + p.unread[routePart..take],
         unread := p.unread[take..])
    else if p.phase == StreamRoute && v.Stream? && |p.route| <= v.arg1 then
      var take := Min(|p.unread|, v.arg1 - |p.route|);
      p.(route := p.route + p.unread[..take], unread := p.unread[take..])
    else p
  }

  // A complete frame leaves the parser.
  function Emitted(classify: Classifier, p: P): (P, seq<Event>) {
    var v := classify(p.seen, p.header);
    if p.phase == RequestPayload && v.Fixed? && |p.route| + |p.body| == v.arg1 + v.arg2 then
      (p.(phase := InHeader, header := [], route := [], body := [], fd := [], spent := p.spent + |p.fd|),
       [Dispatched(v.id, v.flags, p.route, p.body, p.fd)])
    else if p.phase == StreamRoute && v.Stream? && |p.route| == v.arg1 then
      (p.(phase := Given, header := [], route := []), [Leased(v.id, p.route)])
    else (p, [])
  }

  function Run(classify: Classifier, p: P, steps: seq<Step>): (P, seq<Event>)
    decreases |steps|
  {
    if steps == [] then (p, [])
    else
      var (q, events) := Apply(classify, p, steps[0]);
      var (r, more) := Run(classify, q, steps[1..]);
      (r, events + more)
  }

  // All input a run receives.
  function Received(steps: seq<Step>): seq<Cell> {
    if steps == [] then [] else (if steps[0].Receive? then steps[0].cells else []) + Received(steps[1..])
  }

  // ---- what is still to come -----------------------------------------------------------------

  // The bytes of the frame in progress that have been taken so far.
  function Raw(p: P): seq<byte> { p.header + p.route + p.body }

  // The one-pass reading of everything not yet emitted: the frame in progress, pending input and later input.
  function Ahead(classify: Classifier, p: P, later: seq<Cell>): Whole {
    match p.phase
    case Dead(e) => Whole([], Broken(e))
    case Given => Whole([], HandedOver(p.unread + Bytes(later)))
    case _ => Parse(classify, p.seen, p.fd + p.fds + Fds(later), Raw(p) + p.unread + Bytes(later))
  }

  // The shape of a state between steps.
  ghost predicate Shaped(classify: Classifier, p: P) {
    var v := classify(p.seen, p.header);
    match p.phase
    case InHeader => |p.header| <= HEADER_SIZE && p.route == [] && p.body == [] && p.fd == []
    case RequestBudget => InFixed(p, v) && p.route == [] && p.body == []
    case RequestPayload =>
      InFixed(p, v) && |p.route| <= v.arg1 && |p.body| <= v.arg2 && (p.body != [] ==> |p.route| == v.arg1)
    case StreamBudget =>
      |p.header| == HEADER_SIZE && v.Stream? && v.version == p.seen && p.route == [] && p.body == [] && p.fd == []
    case StreamRoute =>
      |p.header| == HEADER_SIZE && v.Stream? && v.version == p.seen && |p.route| <= v.arg1 && p.body == [] && p.fd == []
    case _ => true
  }

  ghost predicate InFixed(p: P, v: Verdict) {
    && |p.header| == HEADER_SIZE && v.Fixed? && v.version == p.seen && v.lengths.Ok?
    && |p.fd| == (if CarriesFd(v.flags) then 1 else 0)
  }

  // ---- each step keeps what is to come ---------------------------------------------------------

  lemma BytesConcat(a: seq<Cell>, b: seq<Cell>)
    ensures Bytes(a + b) == Bytes(a) + Bytes(b)
  {
  }

  lemma {:induction false} FdsConcat(a: seq<Cell>, b: seq<Cell>)
    ensures Fds(a + b) == Fds(a) + Fds(b)
  {
    if a == [] {
      assert a + b == b;
    } else {
      FdsConcat(a[1..], b);
      assert (a + b)[1..] == a[1..] + b && (a + b)[0] == a[0];
      Assoc(a[0].fds, Fds(a[1..]), Fds(b));
    }
  }

  // Everything taken or pending, in order.
  function Input(p: P): seq<byte> { Raw(p) + p.unread }

  lemma Assoc4<T>(a: seq<T>, b: seq<T>, c: seq<T>, d: seq<T>)
    ensures a + (b + c) + d == a + b + (c + d)
  {
  }

  lemma ReceiveAhead(classify: Classifier, p: P, cells: seq<Cell>, later: seq<Cell>)
    ensures Ahead(classify, Apply(classify, p, Receive(cells)).0, later) == Ahead(classify, p, cells + later)
  {
    BytesConcat(cells, later);
    FdsConcat(cells, later);
    Assoc(p.unread, Bytes(cells), Bytes(later));
    Assoc4(Raw(p), p.unread, Bytes(cells), Bytes(later));
    Assoc4(p.fd, p.fds, Fds(cells), Fds(later));
  }

  lemma FillInput(classify: Classifier, p: P)
    requires Shaped(classify, p) && p.phase == InHeader
    ensures var q := Apply(classify, p, FillHeader).0; Input(q) == Input(p) && Shaped(classify, q)
  {
    if |p.header| < HEADER_SIZE {
      var take := Min(|p.unread|, HEADER_SIZE - |p.header|);
      assert p.header + p.unread[..take] + [] + [] + p.unread[take..] == p.header + [] + [] + p.unread;
    }
  }

  lemma CollectInput(classify: Classifier, p: P)
    requires Shaped(classify, p)
    ensures var q := Collected(classify, p); Input(q) == Input(p) && Shaped(classify, q) && q.phase == p.phase
  {
    if p.phase == RequestPayload {
      CollectRequest(classify, p, classify(p.seen, p.header));
    } else if p.phase == StreamRoute {
      CollectRoute(classify, p, classify(p.seen, p.header));
    }
  }

  lemma CollectRequest(classify: Classifier, p: P, v: Verdict)
    requires Shaped(classify, p) && p.phase == RequestPayload && v == classify(p.seen, p.header)
    ensures var q := Collected(classify, p); Input(q) == Input(p) && Shaped(classify, q) && q.phase == p.phase
  {
    var take := Min(|p.unread|, v.arg1 + v.arg2 - |p.route| - |p.body|);
    var part := Min(take, v.arg1 - |p.route|);
    Regroup(p.header, p.route, p.body, p.unread, part, take);
  }

  lemma CollectRoute(classify: Classifier, p: P, v: Verdict)
    requires Shaped(classify, p) && p.phase == StreamRoute && v == classify(p.seen, p.header)
    ensures var q := Collected(classify, p); Input(q) == Input(p) && Shaped(classify, q) && q.phase == p.phase
  {
    var take := Min(|p.unread|, v.arg1 - |p.route|);
    Regroup(p.header, p.route, [], p.unread, take, take);
    assert [] + p.unread[take..take] == [] == p.body;
  }

  lemma Regroup(header: seq<byte>, route: seq<byte>, body: seq<byte>, unread: seq<byte>, part: nat, take: nat)
    requires part <= take <= |unread| && (part > 0 ==> body == [])
    ensures header + (route + unread[..part]) + (body + unread[part..take]) + unread[take..] ==
            header + route + body + unread
  {
    var a, b, c := unread[..part], unread[part..take], unread[take..];
    assert b + c == unread[part..] && a + unread[part..] == unread;
    Assoc4(header + (route + a), body, b, c);
    if part == 0 {
      assert a == [] && route + [] == route;
    } else {
      assert header + (route + a) + [] == header + (route + a) && header + route + [] == header + route;
      Assoc(header, route, a);
      Assoc(header + route, a, b + c);
    }
  }

  // A step that only rearranges input, under the same version and descriptors, leaves what is ahead alone.
  lemma SameInput(classify: Classifier, p: P, q: P, later: seq<Cell>)
    requires !p.phase.Dead? && p.phase != Given && !q.phase.Dead? && q.phase != Given
    requires Input(q) == Input(p) && q.seen == p.seen && q.fd + q.fds == p.fd + p.fds
    ensures Ahead(classify, q, later) == Ahead(classify, p, later)
  {
  }

  // The first 20 bytes ahead of a complete header are that header.
  lemma HeaderInFront(p: P, later: seq<byte>)
    requires |p.header| == HEADER_SIZE
    ensures var all := Input(p) + later;
            |all| >= HEADER_SIZE && all[..HEADER_SIZE] == p.header
            && all[HEADER_SIZE..] == p.route + p.body + p.unread + later
  {
    var rest := p.route + p.body + p.unread + later;
    assert Input(p) + later == p.header + rest;
  }

  // A judged header: either the frame is refused, or its descriptor is set aside, or a cancellation is emitted.
  lemma JudgeAhead(classify: Classifier, p: P, later: seq<Cell>)
    requires Steady(classify) && Shaped(classify, p) && p.phase == InHeader && |p.header| == HEADER_SIZE
    requires var v := classify(p.seen, p.header); v.Fixed? && CarriesFd(v.flags) && p.fds == [] ==> Fds(later) == []
    ensures var (q, events) := Judged(classify, p);
            Shaped(classify, q) && Before(events, Ahead(classify, q, later)) == Ahead(classify, p, later)
  {
    var v := classify(p.seen, p.header);
    var (q, events) := Judged(classify, p);
    HeaderInFront(p, Bytes(later));
    match v {
      case Reject(_) =>
      case Cancel(version, id) =>
        assert Raw(q) == [];
        assert p.route + p.body + p.unread + Bytes(later) == Raw(q) + q.unread + Bytes(later);
      case Fixed(version, id, flags, arg1, arg2, lengths) =>
        var used := if CarriesFd(flags) then 1 else 0;
        if used <= |p.fds| && lengths.Ok? {
          JudgedFixed(classify, p, q, later);
        } else {
          assert [] + p.fds + Fds(later) == p.fds + Fds(later);
        }
      case Stream(version, id, arg1) =>
        ParseAgain(classify, p.seen, version, p.fd + p.fds + Fds(later), Input(p) + Bytes(later));
    }
    assert [] + Ahead(classify, q, later).events == Ahead(classify, q, later).events;
  }

  lemma JudgedFixed(classify: Classifier, p: P, q: P, later: seq<Cell>)
    requires Steady(classify) && Shaped(classify, p) && p.phase == InHeader && |p.header| == HEADER_SIZE
    requires var v := classify(p.seen, p.header); v.Fixed? && v.lengths.Ok? && (CarriesFd(v.flags) ==> p.fds != [])
    requires q == Judged(classify, p).0
    ensures Shaped(classify, q) && Ahead(classify, q, later) == Ahead(classify, p, later)
  {
    var v := classify(p.seen, p.header);
    var used := if CarriesFd(v.flags) then 1 else 0;
    HeaderInFront(p, Bytes(later));
    assert p.fds[..used] + p.fds[used..] == p.fds == [] + p.fds;
    ParseAgain(classify, p.seen, v.version, p.fds + Fds(later), Input(p) + Bytes(later));
  }

  // Parsing again under the version the first header established changes nothing.
  lemma ParseAgain(classify: Classifier, seen: byte, version: byte, fds: seq<int>, bytes: seq<byte>)
    requires Steady(classify) && |bytes| >= HEADER_SIZE
    requires var v := classify(seen, bytes[..HEADER_SIZE]); !v.Reject? && v.version == version
    ensures Parse(classify, version, fds, bytes) == Parse(classify, seen, fds, bytes)
  {
    assert classify(version, bytes[..HEADER_SIZE]) == classify(seen, bytes[..HEADER_SIZE]);
  }

  // A complete frame is emitted exactly as the one-pass parse emits it.
  lemma EmitAhead(classify: Classifier, p: P, later: seq<Cell>)
    requires Shaped(classify, p)
    ensures var (q, events) := Emitted(classify, p);
            Shaped(classify, q) && Before(events, Ahead(classify, q, later)) == Ahead(classify, p, later)
  {
    var v := classify(p.seen, p.header);
    var (q, events) := Emitted(classify, p);
    if p.phase == RequestPayload && |p.route| + |p.body| == v.arg1 + v.arg2 {
      EmitFixed(classify, p, later);
    } else if p.phase == StreamRoute && |p.route| == v.arg1 {
      EmitStream(classify, p, later);
    } else {
      assert [] + Ahead(classify, p, later).events == Ahead(classify, p, later).events;
    }
  }

  lemma EmitFixed(classify: Classifier, p: P, later: seq<Cell>)
    requires Shaped(classify, p) && p.phase == RequestPayload
    requires |p.route| + |p.body| == classify(p.seen, p.header).arg1 + classify(p.seen, p.header).arg2
    ensures var (q, events) := Emitted(classify, p);
            Shaped(classify, q) && Before(events, Ahead(classify, q, later)) == Ahead(classify, p, later)
  {
    var v := classify(p.seen, p.header);
    var (q, events) := Emitted(classify, p);
    var bytes, fds := Input(p) + Bytes(later), p.fd + p.fds + Fds(later);
    var split, end := HEADER_SIZE + v.arg1, HEADER_SIZE + v.arg1 + v.arg2;
    HeaderInFront(p, Bytes(later));
    assert |p.route| == v.arg1 && |p.body| == v.arg2;
    FrameInFront(p.header, p.route, p.body, p.unread + Bytes(later));
    Assoc(Raw(p), p.unread, Bytes(later));
    assert Raw(q) + q.unread + Bytes(later) == bytes[end..];
    assert fds[..|p.fd|] == p.fd && fds[|p.fd|..] == p.fds + Fds(later) == q.fd + q.fds + Fds(later);
  }

  lemma EmitStream(classify: Classifier, p: P, later: seq<Cell>)
    requires Shaped(classify, p) && p.phase == StreamRoute && |p.route| == classify(p.seen, p.header).arg1
    ensures var (q, events) := Emitted(classify, p);
            Shaped(classify, q) && Before(events, Ahead(classify, q, later)) == Ahead(classify, p, later)
  {
    var v := classify(p.seen, p.header);
    var bytes, end := Input(p) + Bytes(later), HEADER_SIZE + v.arg1;
    HeaderInFront(p, Bytes(later));
    FrameInFront(p.header, p.route, p.body, p.unread + Bytes(later));
    Assoc(Raw(p), p.unread, Bytes(later));
    assert p.body + (p.unread + Bytes(later)) == p.unread + Bytes(later);
  }

  lemma FrameInFront(header: seq<byte>, route: seq<byte>, body: seq<byte>, rest: seq<byte>)
    ensures var all := header + route + body + rest;
            var a, b, c := |header|, |header| + |route|, |header| + |route| + |body|;
            all[a..b] == route && all[b..c] == body && all[c..] == rest
  {
  }

  // ---- when the descriptors are there in time ----------------------------------------------------

  function Count(cells: seq<Cell>): nat { |Fds(cells)| }

  lemma CountSplit(cells: seq<Cell>, n: nat)
    requires n <= |cells|
    ensures Count(cells) == Count(cells[..n]) + Count(cells[n..])
  {
    FdsConcat(cells[..n], cells[n..]);
    assert cells[..n] + cells[n..] == cells;
  }

  // Every frame that announces a descriptor has one by the last byte of its header, or never gets one.
  // `arrived[k]` counts the descriptors that came with the first k bytes, `spent` those used by earlier frames.
  ghost predicate Timely(classify: Classifier, seen: byte, spent: nat, bytes: seq<byte>, arrived: seq<int>)
    requires |arrived| == |bytes| + 1
    decreases |bytes|
  {
    if |bytes| < HEADER_SIZE then true
    else match classify(seen, bytes[..HEADER_SIZE])
      case Reject(_) => true
      case Stream(_, _, _) => true
      case Cancel(version, id) => Timely(classify, version, spent, bytes[HEADER_SIZE..], arrived[HEADER_SIZE..])
      case Fixed(version, id, flags, arg1, arg2, lengths) =>
        var used := if CarriesFd(flags) then 1 else 0;
        var end := HEADER_SIZE + arg1 + arg2;
        if spent + used > arrived[HEADER_SIZE] then spent + used > arrived[|bytes|]
        else if lengths.Err? || |bytes| < end then true
        else Timely(classify, version, spent + used, bytes[end..], arrived[end..])
  }

  function Arrived(cells: seq<Cell>): (r: seq<int>)
    ensures |r| == |Bytes(cells)| + 1
  {
    seq(|cells| + 1, k requires 0 <= k <= |cells| => Count(cells[..k]))
  }

  // The same descriptors, each at least as early.
  ghost predicate Sooner(a: seq<int>, b: seq<int>) {
    |a| == |b| > 0 && a[|a| - 1] == b[|b| - 1] && forall k | 0 <= k < |a| :: a[k] <= b[k] <= b[|b| - 1]
  }

  // Receiving descriptors sooner cannot make a stream untimely.
  lemma {:induction false} SoonerIsTimely(classify: Classifier, seen: byte, spent: nat, bytes: seq<byte>, a: seq<int>,
                                          b: seq<int>)
    requires |a| == |bytes| + 1 && Sooner(a, b) && Timely(classify, seen, spent, bytes, a)
    ensures Timely(classify, seen, spent, bytes, b)
    decreases |bytes|
  {
    if |bytes| < HEADER_SIZE {
    } else {
      match classify(seen, bytes[..HEADER_SIZE]) {
        case Reject(_) =>
        case Stream(_, _, _) =>
        case Cancel(version, id) =>
          SoonerIsTimely(classify, version, spent, bytes[HEADER_SIZE..], a[HEADER_SIZE..], b[HEADER_SIZE..]);
        case Fixed(version, id, flags, arg1, arg2, lengths) =>
          var used := if CarriesFd(flags) then 1 else 0;
          var end := HEADER_SIZE + arg1 + arg2;
          assert a[HEADER_SIZE] <= b[HEADER_SIZE] <= b[|bytes|];
          if spent + used <= a[HEADER_SIZE] && lengths.Ok? && |bytes| >= end {
            SoonerIsTimely(classify, version, spent + used, bytes[end..], a[end..], b[end..]);
          }
      }
    }
  }

  // Descriptors by byte count when `here` are present already, with the first m bytes, and the rest come later.
  function Tally(m: nat, here: nat, later: seq<Cell>): (r: seq<int>)
    ensures |r| == m + |later| + 1
  {
    seq(m + |later| + 1, k requires 0 <= k <= m + |later| => here + LaterBy(later, k - m))
  }

  function LaterBy(later: seq<Cell>, k: int): nat
    requires k <= |later|
  {
    if k <= 0 then 0 else Count(later[..k])
  }

  // Everything pending is here already, from the first byte of the frame in progress.
  function Expected(p: P, later: seq<Cell>): seq<int> { Tally(|Input(p)|, p.spent + |p.fd| + |p.fds|, later) }

  ghost predicate InTime(classify: Classifier, p: P, later: seq<Cell>) {
    p.phase.Dead? || p.phase == Given || Timely(classify, p.seen, p.spent, Input(p) + Bytes(later), Expected(p, later))
  }

  lemma LaterBounds(cells: seq<Cell>, k: int)
    requires k <= |cells|
    ensures LaterBy(cells, k) <= Count(cells) && (k == |cells| ==> LaterBy(cells, k) == Count(cells))
  {
    if k > 0 {
      CountSplit(cells, k);
      assert k == |cells| ==> cells[..k] == cells;
    }
  }

  lemma LaterSplit(cells: seq<Cell>, later: seq<Cell>, k: int)
    requires k <= |cells| + |later|
    ensures LaterBy(cells + later, k) ==
            if k <= |cells| then LaterBy(cells, k) else Count(cells) + LaterBy(later, k - |cells|)
  {
    if 0 < k <= |cells| {
      assert (cells + later)[..k] == cells[..k];
    } else if k > |cells| {
      FdsConcat(cells, later[..k - |cells|]);
      assert (cells + later)[..k] == cells + later[..k - |cells|];
    }
  }

  lemma TallySooner(m: nat, here: nat, cells: seq<Cell>, later: seq<Cell>)
    ensures Sooner(Tally(m, here, cells + later), Tally(m + |cells|, here + Count(cells), later))
  {
    var a, b := Tally(m, here, cells + later), Tally(m + |cells|, here + Count(cells), later);
    LaterBounds(later, |later|);
    forall k | 0 <= k < |a|
      ensures a[k] <= b[k] <= b[|b| - 1] && (k == |a| - 1 ==> a[k] == b[k])
    {
      LaterSplit(cells, later, k - m);
      LaterBounds(later, k - m - |cells|);
      if k - m <= |cells| {
        LaterBounds(cells, k - m);
      }
    }
  }

  // Receiving brings forward the descriptors that come with the bytes received.
  lemma ReceiveInTime(classify: Classifier, p: P, cells: seq<Cell>, later: seq<Cell>)
    requires InTime(classify, p, cells + later)
    ensures InTime(classify, Apply(classify, p, Receive(cells)).0, later)
  {
    var q := Apply(classify, p, Receive(cells)).0;
    if !p.phase.Dead? && p.phase != Given {
      BytesConcat(cells, later);
      Assoc(Raw(p), p.unread, Bytes(cells));
      Assoc(Input(p), Bytes(cells), Bytes(later));
      TallySooner(|Input(p)|, p.spent + |p.fd| + |p.fds|, cells, later);
      SoonerIsTimely(classify, p.seen, p.spent, Input(p) + Bytes(cells + later), Expected(p, cells + later),
                     Expected(q, later));
    }
  }

  lemma TallyAt(m: nat, here: nat, later: seq<Cell>, k: nat)
    requires k <= m
    ensures Tally(m, here, later)[k] == here && Tally(m, here, later)[m + |later|] == here + Count(later)
  {
    LaterBounds(later, |later|);
    assert LaterBy(later, k - m) == 0;
  }

  // A frame that leaves takes its bytes and its descriptors with it.
  lemma TallyRest(m: nat, here: nat, later: seq<Cell>, n: nat)
    requires n <= m
    ensures Tally(m, here, later)[n..] == Tally(m - n, here, later)
  {
  }

  lemma JudgeInTime(classify: Classifier, p: P, later: seq<Cell>)
    requires Steady(classify) && Shaped(classify, p) && p.phase == InHeader && |p.header| == HEADER_SIZE
    requires InTime(classify, p, later)
    ensures InTime(classify, Judged(classify, p).0, later)
    ensures var v := classify(p.seen, p.header); v.Fixed? && CarriesFd(v.flags) && p.fds == [] ==> Fds(later) == []
  {
    var v := classify(p.seen, p.header);
    HeaderInFront(p, Bytes(later));
    if v.Cancel? {
      CancelInTime(classify, p, later);
    } else if v.Fixed? {
      FixedInTime(classify, p, later);
    } else if v.Stream? {
      TimelyAgain(classify, p.seen, v.version, p.spent, Input(p) + Bytes(later), Expected(p, later));
    }
  }

  lemma CancelInTime(classify: Classifier, p: P, later: seq<Cell>)
    requires Shaped(classify, p) && p.phase == InHeader && |p.header| == HEADER_SIZE && InTime(classify, p, later)
    requires classify(p.seen, p.header).Cancel?
    ensures InTime(classify, Judged(classify, p).0, later)
  {
    var q := Judged(classify, p).0;
    HeaderInFront(p, Bytes(later));
    TallyRest(|Input(p)|, p.spent + |p.fd| + |p.fds|, later, HEADER_SIZE);
    assert Input(q) + Bytes(later) == p.route + p.body + p.unread + Bytes(later);
    TimelyCancel(classify, p.seen, p.spent, Input(p) + Bytes(later), Expected(p, later));
  }

  lemma TimelyCancel(classify: Classifier, seen: byte, spent: nat, bytes: seq<byte>, arrived: seq<int>)
    requires |bytes| >= HEADER_SIZE && |arrived| == |bytes| + 1 && Timely(classify, seen, spent, bytes, arrived)
    requires classify(seen, bytes[..HEADER_SIZE]).Cancel?
    ensures var version := classify(seen, bytes[..HEADER_SIZE]).version;
            Timely(classify, version, spent, bytes[HEADER_SIZE..], arrived[HEADER_SIZE..])
  {
  }

  lemma FixedInTime(classify: Classifier, p: P, later: seq<Cell>)
    requires Steady(classify) && Shaped(classify, p) && p.phase == InHeader && |p.header| == HEADER_SIZE
    requires InTime(classify, p, later)
    requires classify(p.seen, p.header).Fixed?
    ensures InTime(classify, Judged(classify, p).0, later)
    ensures CarriesFd(classify(p.seen, p.header).flags) && p.fds == [] ==> Fds(later) == []
  {
    var v := classify(p.seen, p.header);
    HeaderInFront(p, Bytes(later));
    TallyAt(|Input(p)|, p.spent + |p.fd| + |p.fds|, later, HEADER_SIZE);
    TimelyFixed(classify, p.seen, p.spent, Input(p) + Bytes(later), Expected(p, later));
    var q := Judged(classify, p).0;
    if !q.phase.Dead? {
      TimelyAgain(classify, p.seen, v.version, p.spent, Input(p) + Bytes(later), Expected(p, later));
      SameExpected(p, q, later);
    }
  }

  lemma SameExpected(p: P, q: P, later: seq<Cell>)
    requires Raw(q) == Raw(p) && q.unread == p.unread && q.spent == p.spent && |q.fd| + |q.fds| == |p.fd| + |p.fds|
    ensures Input(q) == Input(p) && Expected(q, later) == Expected(p, later)
  {
  }

  // What timeliness says of the first frame, and of what follows it.
  lemma TimelyFixed(classify: Classifier, seen: byte, spent: nat, bytes: seq<byte>, arrived: seq<int>)
    requires |bytes| >= HEADER_SIZE && |arrived| == |bytes| + 1 && Timely(classify, seen, spent, bytes, arrived)
    requires classify(seen, bytes[..HEADER_SIZE]).Fixed?
    ensures var v := classify(seen, bytes[..HEADER_SIZE]);
            var used, end := if CarriesFd(v.flags) then 1 else 0, HEADER_SIZE + v.arg1 + v.arg2;
            if spent + used > arrived[HEADER_SIZE] then spent + used > arrived[|bytes|]
            else v.lengths.Ok? && |bytes| >= end ==>
                   Timely(classify, v.version, spent + used, bytes[end..], arrived[end..])
  {
  }

  lemma TimelyAgain(classify: Classifier, seen: byte, version: byte, spent: nat, bytes: seq<byte>, arrived: seq<int>)
    requires Steady(classify) && |bytes| >= HEADER_SIZE && |arrived| == |bytes| + 1
    requires var v := classify(seen, bytes[..HEADER_SIZE]); !v.Reject? && v.version == version
    ensures Timely(classify, version, spent, bytes, arrived) == Timely(classify, seen, spent, bytes, arrived)
  {
    assert classify(version, bytes[..HEADER_SIZE]) == classify(seen, bytes[..HEADER_SIZE]);
  }

  lemma EmitInTime(classify: Classifier, p: P, later: seq<Cell>)
    requires Shaped(classify, p) && InTime(classify, p, later)
    ensures InTime(classify, Emitted(classify, p).0, later)
  {
    var v := classify(p.seen, p.header);
    if p.phase == RequestPayload && |p.route| + |p.body| == v.arg1 + v.arg2 {
      FixedGone(classify, p, v, later);
      FreshInTime(classify, p, Emitted(classify, p).0, later);
    }
  }

  lemma FixedGone(classify: Classifier, p: P, v: Verdict, later: seq<Cell>)
    requires v == classify(p.seen, p.header) && InFixed(p, v) && |p.route| + |p.body| == v.arg1 + v.arg2
    requires Timely(classify, p.seen, p.spent, Input(p) + Bytes(later), Expected(p, later))
    ensures Timely(classify, p.seen, p.spent + |p.fd|, p.unread + Bytes(later),
                   Tally(|p.unread|, p.spent + (|p.fd| + |p.fds|), later))
  {
    RawInFront(p, Bytes(later));
    FixedLeaves(classify, p.seen, p.spent, |p.fd| + |p.fds|, |Input(p)|, Input(p) + Bytes(later), later);
  }

  lemma FreshInTime(classify: Classifier, p: P, q: P, later: seq<Cell>)
    requires Raw(q) == [] && q.unread == p.unread && q.seen == p.seen && q.spent == p.spent + |p.fd| && q.fd == []
    requires q.fds == p.fds
    requires Timely(classify, p.seen, p.spent + |p.fd|, p.unread + Bytes(later),
                    Tally(|p.unread|, p.spent + (|p.fd| + |p.fds|), later))
    ensures InTime(classify, q, later)
  {
    assert Input(q) == p.unread;
  }

  lemma RawInFront(p: P, later: seq<byte>)
    requires |p.header| == HEADER_SIZE
    ensures var all := Input(p) + later;
            |all| >= |Raw(p)| >= HEADER_SIZE && all[..HEADER_SIZE] == p.header && all[|Raw(p)|..] == p.unread + later
  {
    HeaderInFront(p, later);
    FrameInFront(p.header, p.route, p.body, p.unread + later);
    Assoc(Raw(p), p.unread, later);
  }

  lemma FixedLeaves(classify: Classifier, seen: byte, spent: nat, held: nat, m: nat, bytes: seq<byte>, later: seq<Cell>)
    requires HEADER_SIZE <= m && m + |later| == |bytes|
    requires Timely(classify, seen, spent, bytes, Tally(m, spent + held, later))
    requires var v := classify(seen, bytes[..HEADER_SIZE]);
             v.Fixed? && v.lengths.Ok? && (CarriesFd(v.flags) ==> held > 0) && HEADER_SIZE + v.arg1 + v.arg2 <= m
    ensures var v := classify(seen, bytes[..HEADER_SIZE]);
            var used, end := if CarriesFd(v.flags) then 1 else 0, HEADER_SIZE + v.arg1 + v.arg2;
            Timely(classify, v.version, spent + used, bytes[end..], Tally(m - end, spent + held, later))
  {
    var v := classify(seen, bytes[..HEADER_SIZE]);
    TallyAt(m, spent + held, later, HEADER_SIZE);
    TimelyCut(classify, seen, spent, spent + held, m, bytes, later, v, if CarriesFd(v.flags) then 1 else 0);
  }

  lemma TimelyCut(classify: Classifier, seen: byte, spent: nat, here: nat, m: nat, bytes: seq<byte>, later: seq<Cell>,
                  v: Verdict, used: nat)
    requires HEADER_SIZE <= m && m + |later| == |bytes| && Timely(classify, seen, spent, bytes, Tally(m, here, later))
    requires v == classify(seen, bytes[..HEADER_SIZE]) && v.Fixed? && v.lengths.Ok?
    requires used == (if CarriesFd(v.flags) then 1 else 0)
    requires spent + used <= Tally(m, here, later)[HEADER_SIZE] && HEADER_SIZE + v.arg1 + v.arg2 <= m
    ensures var end := HEADER_SIZE + v.arg1 + v.arg2;
            Timely(classify, v.version, spent + used, bytes[end..], Tally(m - end, here, later))
  {
    var end := HEADER_SIZE + v.arg1 + v.arg2;
    TallyRest(m, here, later, end);
    TimelyTail(classify, seen, spent, bytes, Tally(m, here, later), v, used, bytes[end..], Tally(m - end, here, later));
  }

  lemma TimelyTail(classify: Classifier, seen: byte, spent: nat, bytes: seq<byte>, arrived: seq<int>, v: Verdict,
                   used: nat, rest: seq<byte>, after: seq<int>)
    requires |bytes| >= HEADER_SIZE && |arrived| == |bytes| + 1 && Timely(classify, seen, spent, bytes, arrived)
    requires v == classify(seen, bytes[..HEADER_SIZE]) && v.Fixed? && v.lengths.Ok?
    requires used == (if CarriesFd(v.flags) then 1 else 0)
    requires spent + used <= arrived[HEADER_SIZE] && HEADER_SIZE + v.arg1 + v.arg2 <= |bytes|
    requires rest == bytes[HEADER_SIZE + v.arg1 + v.arg2..] && after == arrived[HEADER_SIZE + v.arg1 + v.arg2..]
    ensures Timely(classify, v.version, spent + used, rest, after)
  {
  }

  // ---- whole runs ------------------------------------------------------------------------------

  ghost predicate Kept(classify: Classifier, p: P, ahead: seq<Cell>, q: P, events: seq<Event>, later: seq<Cell>) {
    && Shaped(classify, q) && InTime(classify, q, later)
    && Before(events, Ahead(classify, q, later)) == Ahead(classify, p, ahead)
  }

  lemma Idle(w: Whole)
    ensures Before([], w) == w
  {
    assert [] + w.events == w.events;
  }

  // A step that emits nothing and keeps the input, the version and the descriptors.
  lemma QuietKeeps(classify: Classifier, p: P, q: P, later: seq<Cell>)
    requires Shaped(classify, q) && InTime(classify, p, later)
    requires p == q || (!p.phase.Dead? && p.phase != Given && !q.phase.Dead? && q.phase != Given)
    requires Input(q) == Input(p) && q.seen == p.seen && q.fd == p.fd && q.fds == p.fds && q.spent == p.spent
    ensures Kept(classify, p, later, q, [], later)
  {
    Idle(Ahead(classify, q, later));
    if p != q {
      SameInput(classify, p, q, later);
    }
  }

  lemma ReceiveKeeps(classify: Classifier, p: P, cells: seq<Cell>, later: seq<Cell>)
    requires Shaped(classify, p) && InTime(classify, p, cells + later)
    ensures Kept(classify, p, cells + later, Apply(classify, p, Receive(cells)).0, [], later)
  {
    ReceiveAhead(classify, p, cells, later);
    ReceiveInTime(classify, p, cells, later);
    Idle(Ahead(classify, p, cells + later));
  }

  lemma ActKeeps(classify: Classifier, p: P, step: Step, later: seq<Cell>)
    requires Steady(classify) && Shaped(classify, p) && InTime(classify, p, later) && !step.Receive?
    ensures Kept(classify, p, later, Apply(classify, p, step).0, Apply(classify, p, step).1, later)
  {
    var (q, events) := Apply(classify, p, step);
    match step {
      case FillHeader =>
        if p.phase == InHeader {
          FillInput(classify, p);
        }
        QuietKeeps(classify, p, q, later);
      case JudgeHeader =>
        if p.phase == InHeader && |p.header| == HEADER_SIZE {
          JudgeInTime(classify, p, later);
          JudgeAhead(classify, p, later);
        } else {
          QuietKeeps(classify, p, q, later);
        }
      case Admit => QuietKeeps(classify, p, q, later);
      case Collect =>
        CollectInput(classify, p);
        QuietKeeps(classify, p, q, later);
      case Dispatch =>
        EmitAhead(classify, p, later);
        EmitInTime(classify, p, later);
    }
  }

  lemma {:induction false} RunKeeps(classify: Classifier, p: P, steps: seq<Step>, later: seq<Cell>)
    requires Steady(classify) && Shaped(classify, p) && InTime(classify, p, Received(steps) + later)
    ensures Kept(classify, p, Received(steps) + later, Run(classify, p, steps).0, Run(classify, p, steps).1, later)
    decreases |steps|
  {
    if steps == [] {
      assert [] + later == later;
      QuietKeeps(classify, p, p, later);
    } else {
      var ahead := Received(steps[1..]) + later;
      var (q, events) := Apply(classify, p, steps[0]);
      if steps[0].Receive? {
        Assoc(steps[0].cells, Received(steps[1..]), later);
        ReceiveKeeps(classify, p, steps[0].cells, ahead);
      } else {
        assert [] + Received(steps[1..]) == Received(steps[1..]);
        ActKeeps(classify, p, steps[0], ahead);
      }
      RunKeeps(classify, q, steps[1..], later);
      var (r, more) := Run(classify, q, steps[1..]);
      Assoc(events, more, Ahead(classify, r, later).events);
    }
  }

  // What the parser has emitted, with the one-pass reading of what is left, is the one-pass reading of the whole
  // stream.
  ghost predicate Agrees(classify: Classifier, steps: seq<Step>, later: seq<Cell>, cells: seq<Cell>) {
    var (p, log) := Run(classify, Start(), steps);
    Before(log, Ahead(classify, p, later)) == Parse(classify, 0, Fds(cells), Bytes(cells))
  }

  ghost predicate StreamTimely(classify: Classifier, cells: seq<Cell>) {
    Timely(classify, 0, 0, Bytes(cells), Arrived(cells))
  }

  lemma ArrivedIsTally(cells: seq<Cell>)
    ensures Arrived(cells) == Tally(0, 0, cells)
  {
    forall k | 0 <= k <= |cells|
      ensures Arrived(cells)[k] == Tally(0, 0, cells)[k]
    {
      assert Tally(0, 0, cells)[k] == LaterBy(cells, k - 0);
      if k == 0 {
        assert cells[..0] == [] && Fds([]) == [];
      }
    }
  }

  lemma StartReads(classify: Classifier, cells: seq<Cell>)
    ensures Ahead(classify, Start(), cells) == Parse(classify, 0, Fds(cells), Bytes(cells))
    ensures InTime(classify, Start(), cells) == StreamTimely(classify, cells)
  {
    assert Raw(Start()) + [] == [] && [] + Bytes(cells) == Bytes(cells) && [] + [] + Fds(cells) == Fds(cells);
    ArrivedIsTally(cells);
    CleanInTime(classify, Start(), cells);
  }

  lemma EveryRunAgrees(classify: Classifier, steps: seq<Step>, later: seq<Cell>)
    requires Steady(classify) && StreamTimely(classify, Received(steps) + later)
    ensures Agrees(classify, steps, later, Received(steps) + later)
  {
    StartReads(classify, Received(steps) + later);
    RunKeeps(classify, Start(), steps, later);
  }

  // ---- a late descriptor makes some run disagree --------------------------------------------------

  // From p, with `cells` to come, this run disagrees with the one-pass reading.
  ghost predicate Diverges(classify: Classifier, p: P, cells: seq<Cell>, steps: seq<Step>, later: seq<Cell>) {
    && Received(steps) + later == cells
    && Before(Run(classify, p, steps).1, Ahead(classify, Run(classify, p, steps).0, later)) != Ahead(classify, p, cells)
  }

  lemma BeforeTwice(a: seq<Event>, b: seq<Event>, w: Whole)
    ensures Before(a + b, w) == Before(a, Before(b, w))
  {
    Assoc(a, b, w.events);
  }

  lemma BeforeInjective(a: seq<Event>, v: Whole, w: Whole)
    requires Before(a, v) == Before(a, w)
    ensures v == w
  {
    assert v.events == (a + v.events)[|a|..] == (a + w.events)[|a|..] == w.events;
  }

  lemma DivergesEarlier(classify: Classifier, p: P, step: Step, cells: seq<Cell>, next: seq<Cell>, steps: seq<Step>,
                        later: seq<Cell>)
    requires var (q, events) := Apply(classify, p, step);
             && Before(events, Ahead(classify, q, next)) == Ahead(classify, p, cells)
             && Diverges(classify, q, next, steps, later)
    requires (if step.Receive? then step.cells else []) + next == cells
    ensures Diverges(classify, p, cells, [step] + steps, later)
  {
    var (q, events) := Apply(classify, p, step);
    var (r, more) := Run(classify, q, steps);
    var all := [step] + steps;
    assert all[0] == step && all[1..] == steps;
    Assoc(if step.Receive? then step.cells else [], Received(steps), later);
    BeforeTwice(events, more, Ahead(classify, r, later));
    if Before(events + more, Ahead(classify, r, later)) == Ahead(classify, p, cells) {
      BeforeInjective(events, Before(more, Ahead(classify, r, later)), Ahead(classify, q, next));
    }
  }

  lemma DivergesAct(classify: Classifier, p: P, step: Step, cells: seq<Cell>, steps: seq<Step>, later: seq<Cell>)
    requires !step.Receive?
    requires var (q, events) := Apply(classify, p, step);
             && Before(events, Ahead(classify, q, cells)) == Ahead(classify, p, cells)
             && Diverges(classify, q, cells, steps, later)
    ensures Diverges(classify, p, cells, [step] + steps, later)
  {
    assert [] + cells == cells;
    DivergesEarlier(classify, p, step, cells, cells, steps, later);
  }

  // Between frames, with nothing pending.
  ghost predicate Clean(p: P) { p.phase == InHeader && p.header == p.route == p.body == p.unread == [] && p.fd == [] }

  // A connection between frames after receiving `a` and copying its header out.
  function HeaderTaken(p: P, a: seq<Cell>): P
    requires |a| >= HEADER_SIZE
  {
    p.(header := Bytes(a)[..HEADER_SIZE], unread := Bytes(a)[HEADER_SIZE..], fds := p.fds + Fds(a))
  }

  lemma DivergesHeader(classify: Classifier, p: P, a: seq<Cell>, b: seq<Cell>, steps: seq<Step>, later: seq<Cell>)
    requires Clean(p) && |a| >= HEADER_SIZE && Diverges(classify, HeaderTaken(p, a), b, steps, later)
    ensures Diverges(classify, p, a + b, [Receive(a)] + ([FillHeader] + steps), later)
  {
    var q := Apply(classify, p, Receive(a)).0;
    assert q.unread == Bytes(a);
    assert Apply(classify, q, FillHeader).0 == HeaderTaken(p, a);
    FillInput(classify, q);
    SameInput(classify, q, HeaderTaken(p, a), b);
    Idle(Ahead(classify, HeaderTaken(p, a), b));
    DivergesAct(classify, q, FillHeader, b, steps, later);
    ReceiveAhead(classify, p, a, b);
    Idle(Ahead(classify, q, b));
    DivergesEarlier(classify, p, Receive(a), a + b, b, [FillHeader] + steps, later);
  }

  // The descriptor of the first frame is still to come when its header is complete.
  lemma LateDiverges(classify: Classifier, p: P, a: seq<Cell>, b: seq<Cell>)
    requires Clean(p) && |a| == HEADER_SIZE && p.fds + Fds(a) == [] && Fds(b) != []
    requires var v := classify(p.seen, Bytes(a)); v.Fixed? && CarriesFd(v.flags)
    ensures Diverges(classify, p, a + b, [Receive(a)] + ([FillHeader] + [JudgeHeader]), b)
  {
    var q := HeaderTaken(p, a);
    assert Bytes(a)[..HEADER_SIZE] == Bytes(a);
    HeaderInFront(q, Bytes(b));
    assert Run(classify, q, [JudgeHeader]) == (q.(phase := Dead(MissingDescriptor)), []);
    assert [] + b == b && Received([JudgeHeader]) == [];
    DivergesHeader(classify, p, a, b, [JudgeHeader], b);
  }

  lemma CancelTaken(classify: Classifier, p: P, a: seq<Cell>)
    requires Clean(p) && |a| == HEADER_SIZE && classify(p.seen, Bytes(a)).Cancel?
    ensures var q := HeaderTaken(p, a);
            && Shaped(classify, q) && q.header == Bytes(a)
            && Judged(classify, q).0 == p.(seen := classify(p.seen, Bytes(a)).version, fds := p.fds + Fds(a))
  {
    assert Bytes(a)[..HEADER_SIZE] == Bytes(a) && Bytes(a)[HEADER_SIZE..] == [];
  }

  lemma CancelDiverges(classify: Classifier, p: P, a: seq<Cell>, b: seq<Cell>, steps: seq<Step>, later: seq<Cell>)
    requires Steady(classify) && Clean(p) && |a| == HEADER_SIZE && classify(p.seen, Bytes(a)).Cancel?
    requires Diverges(classify, p.(seen := classify(p.seen, Bytes(a)).version, fds := p.fds + Fds(a)), b, steps, later)
    ensures Diverges(classify, p, a + b, [Receive(a)] + ([FillHeader] + ([JudgeHeader] + steps)), later)
  {
    var q := HeaderTaken(p, a);
    CancelTaken(classify, p, a);
    JudgeAhead(classify, q, b);
    DivergesAct(classify, q, JudgeHeader, b, steps, later);
    DivergesHeader(classify, p, a, b, [JudgeHeader] + steps, later);
  }

  // A connection between frames once the request frame v, with `used` descriptors, has been dispatched.
  function FrameGone(p: P, a: seq<Cell>, v: Verdict, used: nat): P
    requires v.Fixed? && used <= |p.fds + Fds(a)|
  {
    p.(seen := v.version, fds := (p.fds + Fds(a))[used..], spent := p.spent + used)
  }

  lemma BudgetReached(classify: Classifier, p: P, a: seq<Cell>, v: Verdict, used: nat)
    requires Steady(classify) && Clean(p) && |a| >= HEADER_SIZE && v == classify(p.seen, Bytes(a)[..HEADER_SIZE])
    requires v.Fixed? && v.lengths.Ok? && used == (if CarriesFd(v.flags) then 1 else 0) <= |p.fds + Fds(a)|
    ensures var q, fds := HeaderTaken(p, a), p.fds + Fds(a);
            var q1 := q.(phase := RequestBudget, seen := v.version, fd := fds[..used], fds := fds[used..]);
            Shaped(classify, q) && Judged(classify, q) == (q1, []) && Shaped(classify, q1)
  {
    assert classify(v.version, Bytes(a)[..HEADER_SIZE]) == v;
  }

  lemma FixedDiverges(classify: Classifier, p: P, a: seq<Cell>, b: seq<Cell>, v: Verdict, used: nat, steps: seq<Step>,
                      later: seq<Cell>)
    requires Steady(classify) && Clean(p) && |a| >= HEADER_SIZE && v == classify(p.seen, Bytes(a)[..HEADER_SIZE])
    requires v.Fixed? && v.lengths.Ok? && used == (if CarriesFd(v.flags) then 1 else 0) <= |p.fds + Fds(a)|
    requires |a| == HEADER_SIZE + v.arg1 + v.arg2
    requires Diverges(classify, FrameGone(p, a, v, used), b, steps, later)
    ensures var tail := [Admit] + ([Collect] + ([Dispatch] + steps));
            Diverges(classify, p, a + b, [Receive(a)] + ([FillHeader] + ([JudgeHeader] + tail)), later)
  {
    var q := HeaderTaken(p, a);
    var fds := p.fds + Fds(a);
    var q1 := q.(phase := RequestBudget, seen := v.version, fd := fds[..used], fds := fds[used..]);
    var tail := [Admit] + ([Collect] + ([Dispatch] + steps));
    BudgetReached(classify, p, a, v, used);
    PayloadDiverges(classify, q1, v, b, steps, later);
    JudgeAhead(classify, q, b);
    DivergesAct(classify, q, JudgeHeader, b, tail, later);
    DivergesHeader(classify, p, a, b, [JudgeHeader] + tail, later);
  }

  lemma PayloadDiverges(classify: Classifier, p: P, v: Verdict, b: seq<Cell>, steps: seq<Step>, later: seq<Cell>)
    requires Shaped(classify, p) && p.phase == RequestBudget && v == classify(p.seen, p.header)
    requires |p.unread| == v.arg1 + v.arg2
    requires var gone := p.(phase := InHeader, header := [], unread := [], fd := [], spent := p.spent + |p.fd|);
             Diverges(classify, gone, b, steps, later)
    ensures Diverges(classify, p, b, [Admit] + ([Collect] + ([Dispatch] + steps)), later)
  {
    var q := p.(phase := RequestPayload);
    CollectDiverges(classify, q, v, b, steps, later);
    SameInput(classify, p, q, b);
    Idle(Ahead(classify, q, b));
    DivergesAct(classify, p, Admit, b, [Collect] + ([Dispatch] + steps), later);
  }

  lemma CollectDiverges(classify: Classifier, p: P, v: Verdict, b: seq<Cell>, steps: seq<Step>, later: seq<Cell>)
    requires Shaped(classify, p) && p.phase == RequestPayload && p.route == p.body == []
    requires v == classify(p.seen, p.header) && |p.unread| == v.arg1 + v.arg2
    requires var gone := p.(phase := InHeader, header := [], unread := [], fd := [], spent := p.spent + |p.fd|);
             Diverges(classify, gone, b, steps, later)
    ensures Diverges(classify, p, b, [Collect] + ([Dispatch] + steps), later)
  {
    var r := p.(route := p.unread[..v.arg1], body := p.unread[v.arg1..], unread := []);
    CollectAll(classify, p, v);
    EmitAhead(classify, r, b);
    DivergesAct(classify, r, Dispatch, b, steps, later);
    SameInput(classify, p, r, b);
    Idle(Ahead(classify, r, b));
    DivergesAct(classify, p, Collect, b, [Dispatch] + steps, later);
  }

  lemma CollectAll(classify: Classifier, p: P, v: Verdict)
    requires Shaped(classify, p) && p.phase == RequestPayload && p.route == p.body == []
    requires v == classify(p.seen, p.header) && |p.unread| == v.arg1 + v.arg2
    ensures var q := p.(route := p.unread[..v.arg1], body := p.unread[v.arg1..], unread := []);
            Collected(classify, p) == q && Input(q) == Input(p) && Shaped(classify, q)
  {
    CollectInput(classify, p);
    assert p.unread[v.arg1..|p.unread|] == p.unread[v.arg1..];
  }

  lemma TallyDrop(here: nat, a: seq<Cell>, b: seq<Cell>)
    ensures Tally(0, here, a + b)[|a|..] == Tally(0, here + Count(a), b)
    ensures Tally(0, here, a + b)[|a|] == here + Count(a)
  {
    var rest, want := Tally(0, here, a + b)[|a|..], Tally(0, here + Count(a), b);
    forall k | 0 <= k < |want|
      ensures rest[k] == want[k]
    {
      LaterSplit(a, b, |a| + k);
      LaterBounds(a, |a|);
    }
  }

  lemma FirstCells(a: seq<Cell>, b: seq<Cell>, n: nat)
    requires n <= |a|
    ensures Bytes(a + b)[..n] == Bytes(a)[..n] && Bytes(a + b)[|a|..] == Bytes(b)
  {
    BytesConcat(a, b);
  }

  // A state between frames is in time exactly when the stream to come is.
  lemma CleanInTime(classify: Classifier, p: P, cells: seq<Cell>)
    requires Clean(p)
    ensures InTime(classify, p, cells) ==
            Timely(classify, p.seen, p.spent, Bytes(cells), Tally(0, p.spent + |p.fds|, cells))
  {
    assert Input(p) == [] && Input(p) + Bytes(cells) == Bytes(cells);
  }

  lemma UntimelyHeader(classify: Classifier, seen: byte, spent: nat, here: nat, cells: seq<Cell>)
    requires !Timely(classify, seen, spent, Bytes(cells), Tally(0, here, cells))
    ensures |cells| >= HEADER_SIZE
    ensures var v, a, b := classify(seen, Bytes(cells)[..HEADER_SIZE]), cells[..HEADER_SIZE], cells[HEADER_SIZE..];
            var got := here + Count(a);
            if v.Cancel? then !Timely(classify, v.version, spent, Bytes(b), Tally(0, got, b))
            else v.Fixed? && (spent + (if CarriesFd(v.flags) then 1 else 0) > got ==>
                              spent + (if CarriesFd(v.flags) then 1 else 0) <= here + Count(cells))
  {
    var a, b := cells[..HEADER_SIZE], cells[HEADER_SIZE..];
    assert a + b == cells;
    FirstCells(a, b, HEADER_SIZE);
    TallyDrop(here, a, b);
    TallyAt(0, here, cells, 0);
  }

  lemma UntimelyRest(classify: Classifier, seen: byte, spent: nat, here: nat, cells: seq<Cell>, v: Verdict, used: nat)
    requires !Timely(classify, seen, spent, Bytes(cells), Tally(0, here, cells)) && |cells| >= HEADER_SIZE
    requires v == classify(seen, Bytes(cells)[..HEADER_SIZE]) && v.Fixed?
    requires used == (if CarriesFd(v.flags) then 1 else 0)
    requires spent + used <= here + Count(cells[..HEADER_SIZE])
    ensures var end := HEADER_SIZE + v.arg1 + v.arg2;
            && v.lengths.Ok? && end <= |cells|
            && !Timely(classify, v.version, spent + used, Bytes(cells[end..]),
                       Tally(0, here + Count(cells[..end]), cells[end..]))
  {
    CutTally(here, cells, HEADER_SIZE);
    UntimelyLong(classify, seen, spent, Bytes(cells), Tally(0, here, cells), v, used);
    UntimelyCut(classify, seen, spent, here, cells, v, used);
  }

  lemma UntimelyCut(classify: Classifier, seen: byte, spent: nat, here: nat, cells: seq<Cell>, v: Verdict, used: nat)
    requires !Timely(classify, seen, spent, Bytes(cells), Tally(0, here, cells)) && |cells| >= HEADER_SIZE
    requires v == classify(seen, Bytes(cells)[..HEADER_SIZE]) && v.Fixed?
    requires used == (if CarriesFd(v.flags) then 1 else 0)
    requires spent + used <= Tally(0, here, cells)[HEADER_SIZE] && HEADER_SIZE + v.arg1 + v.arg2 <= |cells|
    ensures var end := HEADER_SIZE + v.arg1 + v.arg2;
            !Timely(classify, v.version, spent + used, Bytes(cells[end..]),
                    Tally(0, here + Count(cells[..end]), cells[end..]))
  {
    var end := HEADER_SIZE + v.arg1 + v.arg2;
    CutTally(here, cells, end);
    UntimelyTail(classify, seen, spent, Bytes(cells), Tally(0, here, cells), v, used,
                 Bytes(cells[end..]), Tally(0, here + Count(cells[..end]), cells[end..]));
  }

  lemma CutTally(here: nat, cells: seq<Cell>, n: nat)
    requires n <= |cells|
    ensures Tally(0, here, cells)[n] == here + Count(cells[..n])
    ensures Tally(0, here, cells)[n..] == Tally(0, here + Count(cells[..n]), cells[n..])
    ensures Bytes(cells)[n..] == Bytes(cells[n..])
  {
    assert cells[..n] + cells[n..] == cells;
    TallyDrop(here, cells[..n], cells[n..]);
    BytesConcat(cells[..n], cells[n..]);
  }

  lemma UntimelyLong(classify: Classifier, seen: byte, spent: nat, bytes: seq<byte>, arrived: seq<int>, v: Verdict,
                     used: nat)
    requires |bytes| >= HEADER_SIZE && |arrived| == |bytes| + 1 && !Timely(classify, seen, spent, bytes, arrived)
    requires v == classify(seen, bytes[..HEADER_SIZE]) && v.Fixed? && used == (if CarriesFd(v.flags) then 1 else 0)
    requires spent + used <= arrived[HEADER_SIZE]
    ensures v.lengths.Ok? && HEADER_SIZE + v.arg1 + v.arg2 <= |bytes|
  {
  }

  lemma UntimelyTail(classify: Classifier, seen: byte, spent: nat, bytes: seq<byte>, arrived: seq<int>, v: Verdict,
                     used: nat, rest: seq<byte>, after: seq<int>)
    requires |bytes| >= HEADER_SIZE && |arrived| == |bytes| + 1 && !Timely(classify, seen, spent, bytes, arrived)
    requires v == classify(seen, bytes[..HEADER_SIZE]) && v.Fixed? && used == (if CarriesFd(v.flags) then 1 else 0)
    requires spent + used <= arrived[HEADER_SIZE] && HEADER_SIZE + v.arg1 + v.arg2 <= |bytes|
    requires rest == bytes[HEADER_SIZE + v.arg1 + v.arg2..] && after == arrived[HEADER_SIZE + v.arg1 + v.arg2..]
    ensures !Timely(classify, v.version, spent + used, rest, after)
  {
  }

  // An untimely stream, received frame by frame, breaks at the first frame whose descriptor is late.
  lemma {:induction false} SomeRunDiverges(classify: Classifier, p: P,
                                           cells: seq<Cell>) returns (steps: seq<Step>, later: seq<Cell>)
    requires Steady(classify) && Clean(p)
    requires !Timely(classify, p.seen, p.spent, Bytes(cells), Tally(0, p.spent + |p.fds|, cells))
    ensures Diverges(classify, p, cells, steps, later)
    decreases |cells|
  {
    UntimelyHeader(classify, p.seen, p.spent, p.spent + |p.fds|, cells);
    var v := classify(p.seen, Bytes(cells)[..HEADER_SIZE]);
    var a, b := cells[..HEADER_SIZE], cells[HEADER_SIZE..];
    assert a + b == cells;
    FirstCells(a, b, HEADER_SIZE);
    assert Bytes(a)[..HEADER_SIZE] == Bytes(a);
    if v.Cancel? {
      steps, later := SomeRunDiverges(classify, p.(seen := v.version, fds := p.fds + Fds(a)), b);
      CancelDiverges(classify, p, a, b, steps, later);
      steps := [Receive(a)] + ([FillHeader] + ([JudgeHeader] + steps));
    } else {
      var used := if CarriesFd(v.flags) then 1 else 0;
      if used > |p.fds| + Count(a) {
        CountSplit(cells, HEADER_SIZE);
        LateDiverges(classify, p, a, b);
        steps, later := [Receive(a)] + ([FillHeader] + [JudgeHeader]), b;
      } else {
        steps, later := RestDiverges(classify, p, cells, v, used);
      }
    }
  }

  lemma RestUntimely(classify: Classifier, p: P, cells: seq<Cell>, v: Verdict, used: nat)
    requires |cells| >= HEADER_SIZE
    requires !Timely(classify, p.seen, p.spent, Bytes(cells), Tally(0, p.spent + |p.fds|, cells))
    requires v == classify(p.seen, Bytes(cells)[..HEADER_SIZE]) && v.Fixed?
    requires used == (if CarriesFd(v.flags) then 1 else 0)
    requires used <= |p.fds| + Count(cells[..HEADER_SIZE])
    ensures var end := HEADER_SIZE + v.arg1 + v.arg2;
            v.lengths.Ok? && end <= |cells| && used <= |p.fds| + Count(cells[..end])
            && !Timely(classify, v.version, p.spent + used, Bytes(cells[end..]),
                       Tally(0, p.spent + |p.fds| + Count(cells[..end]), cells[end..]))
  {
    var end := HEADER_SIZE + v.arg1 + v.arg2;
    UntimelyRest(classify, p.seen, p.spent, p.spent + |p.fds|, cells, v, used);
    CountSplit(cells[..end], HEADER_SIZE);
    assert cells[..end][..HEADER_SIZE] == cells[..HEADER_SIZE];
  }

  lemma {:induction false} RestDiverges(classify: Classifier, p: P, cells: seq<Cell>, v: Verdict,
                                        used: nat) returns (steps: seq<Step>, later: seq<Cell>)
    requires Steady(classify) && Clean(p) && |cells| >= HEADER_SIZE
    requires !Timely(classify, p.seen, p.spent, Bytes(cells), Tally(0, p.spent + |p.fds|, cells))
    requires v == classify(p.seen, Bytes(cells)[..HEADER_SIZE]) && v.Fixed?
    requires used == (if CarriesFd(v.flags) then 1 else 0)
    requires used <= |p.fds| + Count(cells[..HEADER_SIZE])
    ensures Diverges(classify, p, cells, steps, later)
    decreases |cells|, 0
  {
    RestUntimely(classify, p, cells, v, used);
    var end := HEADER_SIZE + v.arg1 + v.arg2;
    var a, b := cells[..end], cells[end..];
    assert a + b == cells;
    FirstCells(a, b, HEADER_SIZE);
    steps, later := SomeRunDiverges(classify, FrameGone(p, a, v, used), b);
    FixedDiverges(classify, p, a, b, v, used, steps, later);
    steps := [Receive(a)] + ([FillHeader] + ([JudgeHeader] + ([Admit] + ([Collect] + ([Dispatch] + steps)))));
  }

  // Every way of receiving a stream agrees with the one-pass parse exactly when no descriptor comes late.
  lemma SplitsAgreeIffTimely(classify: Classifier, cells: seq<Cell>)
    requires Steady(classify)
    ensures StreamTimely(classify, cells) <==>
            forall steps, later :: Received(steps) + later == cells ==> Agrees(classify, steps, later, cells)
  {
    StartReads(classify, cells);
    if StreamTimely(classify, cells) {
      forall steps, later | Received(steps) + later == cells
        ensures Agrees(classify, steps, later, cells)
      {
        EveryRunAgrees(classify, steps, later);
      }
    } else {
      CleanInTime(classify, Start(), cells);
      var steps, later := SomeRunDiverges(classify, Start(), cells);
      assert !Agrees(classify, steps, later, cells);
    }
  }

  // ---- consequences ----------------------------------------------------------------------------

  // The parse loop can do nothing more with what it has.
  ghost predicate Quiet(classify: Classifier, p: P) {
    var v := classify(p.seen, p.header);
    match p.phase
    case Dead(_) => true
    case Given => true
    case InHeader => p.unread == [] && |p.header| < HEADER_SIZE
    case RequestPayload => p.unread == [] && v.Fixed? && |p.route| + |p.body| < v.arg1 + v.arg2
    case StreamRoute => p.unread == [] && v.Stream? && |p.route| < v.arg1
    case _ => false
  }

  function StopOf(p: P): Stop {
    match p.phase
    case Dead(e) => Broken(e)
    case Given => HandedOver(p.unread)
    case _ => Waiting(Input(p))
  }

  lemma QuietAhead(classify: Classifier, p: P)
    requires Shaped(classify, p) && Quiet(classify, p)
    ensures Ahead(classify, p, []) == Whole([], StopOf(p))
  {
    assert Input(p) + [] == Input(p) && p.unread + [] == p.unread;
    if p.phase == InHeader {
      assert Input(p) == p.header;
    } else if p.phase == RequestPayload || p.phase == StreamRoute {
      HeaderInFront(p, []);
      assert p.fd + p.fds + [] == p.fd + p.fds;
    }
  }

  // Once everything received has been parsed, the events and the stop are those of the one-pass parse.
  // Two runs over one stream that both come to rest therefore emit the same events and stop in the same way.
  lemma QuietRunIsParse(classify: Classifier, steps: seq<Step>)
    requires Steady(classify) && StreamTimely(classify, Received(steps))
    requires Quiet(classify, Run(classify, Start(), steps).0)
    ensures var (p, log) := Run(classify, Start(), steps);
            Parse(classify, 0, Fds(Received(steps)), Bytes(Received(steps))) == Whole(log, StopOf(p))
  {
    var (p, log) := Run(classify, Start(), steps);
    assert Received(steps) + [] == Received(steps);
    StartReads(classify, Received(steps));
    RunKeeps(classify, Start(), steps, []);
    QuietAhead(classify, p);
    assert log + [] == log;
  }

  lemma RunsAgree(classify: Classifier, a: seq<Step>, b: seq<Step>)
    requires Steady(classify) && Received(a) == Received(b) && StreamTimely(classify, Received(a))
    requires Quiet(classify, Run(classify, Start(), a).0) && Quiet(classify, Run(classify, Start(), b).0)
    ensures var (p, log) := Run(classify, Start(), a);
            var (q, other) := Run(classify, Start(), b);
            log == other && StopOf(p) == StopOf(q)
  {
    QuietRunIsParse(classify, a);
    QuietRunIsParse(classify, b);
  }

  // One frame as a peer sends it: the descriptor, if any, rides on the first byte.
  datatype Sent = Sent(bytes: seq<byte>, fds: seq<int>)

  function Plain(bytes: seq<byte>): seq<Cell> {
    seq(|bytes|, i requires 0 <= i < |bytes| => Cell(bytes[i], []))
  }

  function SentCells(s: Sent): seq<Cell> {
    if s.bytes == [] then [] else [Cell(s.bytes[0], s.fds)] + Plain(s.bytes[1..])
  }

  function OnWire(frames: seq<Sent>): seq<Cell> {
    if frames == [] then [] else SentCells(frames[0]) + OnWire(frames[1..])
  }

  // Whole frames, each with the descriptor it announces.
  ghost predicate WellSent(classify: Classifier, seen: byte, frames: seq<Sent>)
    decreases |frames|
  {
    frames != [] ==>
      var s := frames[0];
      |s.bytes| >= HEADER_SIZE &&
      match classify(seen, s.bytes[..HEADER_SIZE])
      case Reject(_) => true
      case Stream(_, _, _) => true
      case Cancel(version, _) => |s.bytes| == HEADER_SIZE && WellSent(classify, version, frames[1..])
      case Fixed(version, _, flags, arg1, arg2, _) =>
        && |s.bytes| == HEADER_SIZE + arg1 + arg2 && (CarriesFd(flags) ==> s.fds != [])
        && WellSent(classify, version, frames[1..])
  }

  lemma {:induction false} PlainHasNone(bytes: seq<byte>)
    ensures Bytes(Plain(bytes)) == bytes && Fds(Plain(bytes)) == []
    decreases |bytes|
  {
    if bytes == [] {
    } else {
      PlainHasNone(bytes[1..]);
      assert Plain(bytes)[1..] == Plain(bytes[1..]);
    }
  }

  lemma SentShape(s: Sent, n: nat)
    requires 0 < n <= |s.bytes|
    ensures Bytes(SentCells(s)) == s.bytes && |SentCells(s)| == |s.bytes|
    ensures Fds(SentCells(s)) == s.fds && Fds(SentCells(s)[..n]) == s.fds
  {
    var rest := s.bytes[1..];
    PlainHasNone(rest);
    PlainHasNone(rest[..n - 1]);
    FdsConcat([Cell(s.bytes[0], s.fds)], Plain(rest));
    FdsConcat([Cell(s.bytes[0], s.fds)], Plain(rest[..n - 1]));
    BytesConcat([Cell(s.bytes[0], s.fds)], Plain(rest));
    assert SentCells(s)[..n] == [Cell(s.bytes[0], s.fds)] + Plain(rest[..n - 1]);
    assert Fds([Cell(s.bytes[0], s.fds)]) == s.fds + [] == s.fds;
  }

  lemma TimelyFront(classify: Classifier, seen: byte, spent: nat, bytes: seq<byte>, arrived: seq<int>,
                    v: Verdict, used: nat, len: nat, rest: seq<byte>, after: seq<int>)
    requires HEADER_SIZE <= len <= |bytes| && |arrived| == |bytes| + 1 && v == classify(seen, bytes[..HEADER_SIZE])
    requires bytes[len..] == rest && arrived[len..] == after && spent + used <= arrived[HEADER_SIZE]
    requires v.Cancel? ==> len == HEADER_SIZE && used == 0 && Timely(classify, v.version, spent, rest, after)
    requires v.Fixed? ==> len == HEADER_SIZE + v.arg1 + v.arg2 && used == (if CarriesFd(v.flags) then 1 else 0)
    requires v.Fixed? ==> Timely(classify, v.version, spent + used, rest, after)
    ensures Timely(classify, seen, spent, bytes, arrived)
  {
  }

  lemma SentFront(here: nat, s: Sent, rest: seq<Cell>)
    requires |s.bytes| >= HEADER_SIZE
    ensures var bytes, arrived := Bytes(SentCells(s) + rest), Tally(0, here, SentCells(s) + rest);
            && |bytes| >= |s.bytes| && bytes[..HEADER_SIZE] == s.bytes[..HEADER_SIZE]
            && bytes[|s.bytes|..] == Bytes(rest)
            && arrived[HEADER_SIZE] == here + |s.fds| && arrived[|s.bytes|..] == Tally(0, here + |s.fds|, rest)
  {
    var cells := SentCells(s);
    SentShape(s, HEADER_SIZE);
    FirstCells(cells, rest, HEADER_SIZE);
    TallyDrop(here, cells, rest);
    assert cells[..HEADER_SIZE] + (cells[HEADER_SIZE..] + rest) == cells + rest;
    TallyDrop(here, cells[..HEADER_SIZE], cells[HEADER_SIZE..] + rest);
  }

  lemma SentInTime(classify: Classifier, seen: byte, spent: nat, here: nat, s: Sent, rest: seq<Cell>, v: Verdict,
                   used: nat)
    requires spent <= here && |s.bytes| >= HEADER_SIZE && v == classify(seen, s.bytes[..HEADER_SIZE])
    requires used == (if v.Fixed? && CarriesFd(v.flags) then 1 else 0) && (v.Fixed? ==> used <= |s.fds|)
    requires v.Cancel? ==> |s.bytes| == HEADER_SIZE
    requires v.Fixed? ==> |s.bytes| == HEADER_SIZE + v.arg1 + v.arg2
    requires v.Cancel? || v.Fixed? ==>
               Timely(classify, v.version, spent + used, Bytes(rest), Tally(0, here + |s.fds|, rest))
    ensures Timely(classify, seen, spent, Bytes(SentCells(s) + rest), Tally(0, here, SentCells(s) + rest))
  {
    SentFront(here, s, rest);
    TimelyFront(classify, seen, spent, Bytes(SentCells(s) + rest), Tally(0, here, SentCells(s) + rest),
                v, used, |s.bytes|, Bytes(rest), Tally(0, here + |s.fds|, rest));
  }

  // What a peer that attaches each descriptor to the first byte of its frame sends is always in time.
  lemma {:induction false} WellSentIsTimely(classify: Classifier, seen: byte, spent: nat, here: nat, frames: seq<Sent>)
    requires WellSent(classify, seen, frames) && spent <= here
    ensures Timely(classify, seen, spent, Bytes(OnWire(frames)), Tally(0, here, OnWire(frames)))
    decreases |frames|
  {
    if frames == [] {
    } else {
      var s := frames[0];
      var v := classify(seen, s.bytes[..HEADER_SIZE]);
      var used := if v.Fixed? && CarriesFd(v.flags) then 1 else 0;
      if v.Cancel? || v.Fixed? {
        WellSentIsTimely(classify, v.version, spent + used, here + |s.fds|, frames[1..]);
      }
      SentInTime(classify, seen, spent, here, s, OnWire(frames[1..]), v, used);
    }
  }

  // ---- what has arrived so far ---------------------------------------------------------------------

  // Timeliness does not depend on how much of a stream has arrived.
  lemma {:induction false} PrefixIsTimely(classify: Classifier, seen: byte, spent: nat, bytes: seq<byte>,
                                          arrived: seq<int>, n: nat)
    requires n <= |bytes| && |arrived| == |bytes| + 1 && arrived[n] <= arrived[|bytes|]
    requires Timely(classify, seen, spent, bytes, arrived)
    ensures Timely(classify, seen, spent, bytes[..n], arrived[..n + 1])
    decreases |bytes|, 2
  {
    if n < HEADER_SIZE {
    } else {
      assert bytes[..n][..HEADER_SIZE] == bytes[..HEADER_SIZE];
      var v := classify(seen, bytes[..HEADER_SIZE]);
      if v.Cancel? {
        PrefixTail(classify, v.version, spent, bytes, arrived, n, HEADER_SIZE);
      } else if v.Fixed? {
        PrefixFixed(classify, seen, spent, bytes, arrived, n, v);
      }
    }
  }

  lemma {:induction false} PrefixFixed(classify: Classifier, seen: byte, spent: nat, bytes: seq<byte>,
                                       arrived: seq<int>, n: nat, v: Verdict)
    requires HEADER_SIZE <= n <= |bytes| && |arrived| == |bytes| + 1 && arrived[n] <= arrived[|bytes|]
    requires Timely(classify, seen, spent, bytes, arrived)
    requires v == classify(seen, bytes[..HEADER_SIZE]) == classify(seen, bytes[..n][..HEADER_SIZE]) && v.Fixed?
    ensures Timely(classify, seen, spent, bytes[..n], arrived[..n + 1])
    decreases |bytes|, 1
  {
    var used, end := if CarriesFd(v.flags) then 1 else 0, HEADER_SIZE + v.arg1 + v.arg2;
    TimelyFixed(classify, seen, spent, bytes, arrived);
    if spent + used <= arrived[HEADER_SIZE] && v.lengths.Ok? && end <= n {
      PrefixTail(classify, v.version, spent + used, bytes, arrived, n, end);
    }
  }

  lemma {:induction false} PrefixTail(classify: Classifier, seen: byte, spent: nat, bytes: seq<byte>,
                                      arrived: seq<int>, n: nat, cut: nat)
    requires 0 < cut <= n <= |bytes| && |arrived| == |bytes| + 1 && arrived[n] <= arrived[|bytes|]
    requires Timely(classify, seen, spent, bytes[cut..], arrived[cut..])
    ensures Timely(classify, seen, spent, bytes[..n][cut..], arrived[..n + 1][cut..])
    decreases |bytes|, 0
  {
    PrefixIsTimely(classify, seen, spent, bytes[cut..], arrived[cut..], n - cut);
    assert bytes[cut..][..n - cut] == bytes[..n][cut..];
    assert arrived[cut..][..n - cut + 1] == arrived[..n + 1][cut..];
  }

  // A part of a timely stream that has arrived is timely itself.
  lemma PartIsTimely(classify: Classifier, cells: seq<Cell>, n: nat)
    requires StreamTimely(classify, cells) && n <= |cells|
    ensures StreamTimely(classify, cells[..n])
  {
    var arrived := Arrived(cells);
    CountSplit(cells, n);
    assert cells[..|cells|] == cells;
    PrefixIsTimely(classify, 0, 0, Bytes(cells), arrived, n);
    assert Bytes(cells[..n]) == Bytes(cells)[..n];
    forall k | 0 <= k <= n
      ensures Arrived(cells[..n])[k] == arrived[k]
    {
      assert cells[..n][..k] == cells[..k];
    }
    assert Arrived(cells[..n]) == arrived[..n + 1];
  }

  /** However much of it has arrived, the last frame in part or not, what a peer sends that attaches each descriptor to
      the first byte of its frame is in time. */
  lemma ArrivingIsTimely(classify: Classifier, frames: seq<Sent>, n: nat)
    requires WellSent(classify, 0, frames) && n <= |OnWire(frames)|
    ensures StreamTimely(classify, OnWire(frames)[..n])
  {
    WellSentIsTimely(classify, 0, 0, 0, frames);
    ArrivedIsTally(OnWire(frames));
    PartIsTimely(classify, OnWire(frames), n);
  }

  // So is any stream, well formed or not, that carries no descriptors at all.
  lemma NoDescriptorsIsTimely(classify: Classifier, cells: seq<Cell>)
    requires forall i | 0 <= i < |cells| :: cells[i].fds == []
    ensures StreamTimely(classify, cells)
  {
    forall k | 0 <= k <= |cells|
      ensures Arrived(cells)[k] == 0
    {
      NoneArrive(cells[..k]);
    }
    SteadyIsTimely(classify, 0, 0, Bytes(cells), Arrived(cells));
  }

  lemma {:induction false} NoneArrive(cells: seq<Cell>)
    requires forall i | 0 <= i < |cells| :: cells[i].fds == []
    ensures Fds(cells) == []
  {
    if cells == [] {
    } else {
      NoneArrive(cells[1..]);
    }
  }

  lemma {:induction false} SteadyIsTimely(classify: Classifier, seen: byte, spent: nat, bytes: seq<byte>,
                                          arrived: seq<int>)
    requires |arrived| == |bytes| + 1 && forall k | 0 <= k < |arrived| :: arrived[k] == 0
    ensures Timely(classify, seen, spent, bytes, arrived)
    decreases |bytes|
  {
    if |bytes| < HEADER_SIZE {
    } else {
      var v := classify(seen, bytes[..HEADER_SIZE]);
      if v.Cancel? {
        SteadyIsTimely(classify, v.version, spent, bytes[HEADER_SIZE..], arrived[HEADER_SIZE..]);
      } else if v.Fixed? && HEADER_SIZE + v.arg1 + v.arg2 <= |bytes| {
        var used, end := if CarriesFd(v.flags) then 1 else 0, HEADER_SIZE + v.arg1 + v.arg2;
        SteadyIsTimely(classify, v.version, spent + used, bytes[end..], arrived[end..]);
      }
    }
  }

  lemma LateIsUntimely(classify: Classifier, a: seq<Cell>, b: seq<Cell>)
    requires |a| == HEADER_SIZE && Fds(a) == [] && Fds(b) != []
    requires var v := classify(0, Bytes(a)); v.Fixed? && CarriesFd(v.flags)
    ensures !StreamTimely(classify, a + b)
  {
    FirstCells(a, b, HEADER_SIZE);
    FdsConcat(a, b);
    assert Bytes(a)[..HEADER_SIZE] == Bytes(a);
    assert (a + b)[..HEADER_SIZE] == a && (a + b)[..|a + b|] == a + b;
  }

  // A request whose descriptor comes with the byte after its header is not in time.
  lemma LateDescriptorExists()
    ensures var h := Header(Request, 0, 1, 0, 1, VERSION);
            !StreamTimely(ServerClassifier(1), Plain(HeaderBytes(h)) + [Cell(97, [7])])
  {
    var h := Header(Request, 0, 1, 0, 1, VERSION);
    DecodeOfEncode(h);
    assert Allowed(h) && |HeaderBytes(h)| == HEADER_SIZE;
    assert Classify(1, 0, HeaderBytes(h)).Fixed?;
    PlainHasNone(HeaderBytes(h));
    LateIsUntimely(ServerClassifier(1), Plain(HeaderBytes(h)), [Cell(97, [7])]);
  }
}
