/** The reactor's read path for one connection: bounded receives, then the in-place parse loop. */
module Reactor {
  import opened Basics
  import opened Codec
  import Transport
  import opened Parser

  const READ_SCRATCH: nat := 64 * 1024
  const READ_BATCH: nat := 256 * 1024

  datatype Outcome = Parsed | Paused | Closed

  // What the parse loop does after one round.
  datatype Next = Again | Done(outcome: Outcome)

  // ---- runs that grow one step at a time -----------------------------------------------------

  ghost predicate Trace(classify: Classifier, p: P, steps: seq<Step>, q: P, events: seq<Event>) {
    Run(classify, p, steps) == (q, events)
  }

  lemma {:induction false} TraceStep(classify: Classifier, p: P, steps: seq<Step>, q: P, events: seq<Event>, step: Step)
    requires Trace(classify, p, steps, q, events)
    ensures Trace(classify, p, steps + [step], Apply(classify, q, step).0, events + Apply(classify, q, step).1)
    decreases |steps|
  {
    if steps == [] {
      assert [] + [step] == [step];
      assert [step][1..] == [];
      assert Apply(classify, q, step).1 + [] == [] + Apply(classify, q, step).1;
    } else {
      var (r, first) := Apply(classify, p, steps[0]);
      var (_, more) := Run(classify, r, steps[1..]);
      TraceStep(classify, r, steps[1..], q, more, step);
      assert (steps + [step])[1..] == steps[1..] + [step] && (steps + [step])[0] == steps[0];
      assert first + more + Apply(classify, q, step).1 == first + (more + Apply(classify, q, step).1);
    }
  }

  lemma {:induction false} ReceivedStep(steps: seq<Step>, step: Step)
    ensures Received(steps + [step]) == Received(steps) + (if step.Receive? then step.cells else [])
    decreases |steps|
  {
    if steps == [] {
      assert [] + [step] == [step];
      assert Received([step]) == (if step.Receive? then step.cells else []) + [];
    } else {
      ReceivedStep(steps[1..], step);
      assert (steps + [step])[1..] == steps[1..] + [step] && (steps + [step])[0] == steps[0];
    }
  }

  // In strict mode no payload byte is held before its frame's whole declared size has been reserved.
  ghost predicate Bounded(classify: Classifier, p: P, reserved: nat) {
    var v := classify(p.seen, p.header);
    match p.phase
    case InHeader => |p.header| + |p.unread| <= HEADER_SIZE
    case RequestPayload => v.Fixed? && reserved == v.arg1 + v.arg2 && |p.route| + |p.body| + |p.unread| <= reserved
    case StreamRoute => v.Stream? && reserved == v.arg1 && |p.route| + |p.unread| <= reserved
    case _ => p.unread == []
  }

  ghost predicate Sound(classify: Classifier, strict: bool, p: P, reserved: nat) {
    Shaped(classify, p) && (strict ==> Bounded(classify, p, reserved))
  }

  lemma FillSound(classify: Classifier, strict: bool, p: P, reserved: nat)
    requires Sound(classify, strict, p, reserved) && p.phase == InHeader
    ensures Sound(classify, strict, Apply(classify, p, FillHeader).0, reserved)
  {
    FillInput(classify, p);
  }

  lemma JudgeSound(classify: Classifier, strict: bool, p: P, reserved: nat)
    requires Steady(classify) && Sound(classify, strict, p, reserved) && p.phase == InHeader
    requires |p.header| == HEADER_SIZE
    ensures Sound(classify, strict, Judged(classify, p).0, reserved)
  {
    var v := classify(p.seen, p.header);
    assert !v.Reject? ==> classify(v.version, p.header) == v;
  }

  lemma AdmitSound(classify: Classifier, strict: bool, p: P, reserved: nat, granted: nat)
    requires Sound(classify, strict, p, reserved) && (p.phase == RequestBudget || p.phase == StreamBudget)
    requires var v := classify(p.seen, p.header); granted == if v.Fixed? then v.arg1 + v.arg2 else v.arg1
    ensures Sound(classify, strict, Apply(classify, p, Admit).0, granted)
  {
  }

  lemma CollectSound(classify: Classifier, strict: bool, p: P, reserved: nat)
    requires Sound(classify, strict, p, reserved)
    ensures Sound(classify, strict, Collected(classify, p), reserved)
  {
    CollectInput(classify, p);
  }

  lemma EmitSound(classify: Classifier, strict: bool, p: P, reserved: nat, left: nat)
    requires Sound(classify, strict, p, reserved) && Emitted(classify, p).1 != []
    ensures Sound(classify, strict, Emitted(classify, p).0, left)
  {
  }

  // How many more bytes the frame in progress can take.
  function Room(classify: Classifier, p: P): int {
    var v := classify(p.seen, p.header);
    if p.phase == InHeader then HEADER_SIZE - |p.header| - |p.unread|
    else if p.phase == RequestPayload && v.Fixed? then v.arg1 + v.arg2 - |p.route| - |p.body| - |p.unread|
    else if p.phase == StreamRoute && v.Stream? then v.arg1 - |p.route| - |p.unread|
    else 0
  }

  lemma ReceiveSound(classify: Classifier, strict: bool, p: P, cells: seq<Cell>, reserved: nat)
    requires Sound(classify, strict, p, reserved) && (strict ==> |cells| <= Room(classify, p)) && !p.phase.Dead?
    ensures Sound(classify, strict, Apply(classify, p, Receive(cells)).0, reserved)
  {
  }

  lemma RequestEmitted(classify: Classifier, p: P, v: Verdict)
    requires p.phase == RequestPayload && v == classify(p.seen, p.header) && v.Fixed?
    requires |p.route| + |p.body| == v.arg1 + v.arg2
    ensures Emitted(classify, p) ==
            (P(InHeader, [], [], [], [], p.seen, p.fds, p.unread, p.spent + |p.fd|),
             [Dispatched(v.id, v.flags, p.route, p.body, p.fd)])
  {
  }

  function Moved(p: P, part: nat, take: nat): P
    requires part <= take <= |p.unread|
  {
    p.(route := p.route + p.unread[..part], body := p.body + p.unread[part..take], unread := p.unread[take..])
  }

  lemma PayloadCollected(classify: Classifier, p: P, v: Verdict, take: nat, part: nat)
    requires p.phase == RequestPayload && v == classify(p.seen, p.header) && v.Fixed?
    requires |p.route| <= v.arg1 && |p.route| + |p.body| <= v.arg1 + v.arg2
    requires take == Min(|p.unread|, v.arg1 + v.arg2 - |p.route| - |p.body|) && part == Min(take, v.arg1 - |p.route|)
    ensures Collected(classify, p) == Moved(p, part, take)
    ensures |Moved(p, part, take).route| + |Moved(p, part, take).body| == |p.route| + |p.body| + take
  {
  }

  // An incomplete payload has taken all the input there was.
  lemma ShortIsQuiet(classify: Classifier, p: P)
    requires Shaped(classify, p) && p.phase == RequestPayload
    ensures var v, q := classify(p.seen, p.header), Collected(classify, p);
            && |q.unread| <= |p.unread|
            && (|q.route| + |q.body| != v.arg1 + v.arg2 ==> Quiet(classify, q))
  {
    var v := classify(p.seen, p.header);
    var take := Min(|p.unread|, v.arg1 + v.arg2 - |p.route| - |p.body|);
    PayloadCollected(classify, p, v, take, Min(take, v.arg1 - |p.route|));
  }

  lemma RouteCollected(classify: Classifier, p: P, v: Verdict, take: nat)
    requires p.phase == StreamRoute && v == classify(p.seen, p.header) && v.Stream? && |p.route| <= v.arg1
    requires take == Min(|p.unread|, v.arg1 - |p.route|)
    ensures Collected(classify, p) == Moved(p, take, take)
  {
    assert p.body + p.unread[take..take] == p.body;
  }

  lemma Dropped(pending: seq<byte>, offset: nat, take: nat)
    requires offset + take <= |pending|
    ensures pending[offset + take..] == pending[offset..][take..]
  {
  }

  // The events emitted, with what is left to read, are the one-pass parse of everything received.
  ghost predicate Explained(classify: Classifier, received: seq<Cell>, log: seq<Event>, left: Whole) {
    Before(log, left) == Parse(classify, 0, Fds(received), Bytes(received))
  }

  class ConnectionParser {
    const classify: Classifier
    const strict: bool

    var phase: Phase
    var header: seq<byte>
    var headerReceived: nat
    var verdict: Verdict
    var payloadReceived: nat
    var route: seq<byte>
    var body: seq<byte>
    var fd: seq<int>
    var wireVersion: byte
    var fds: seq<int>
    var pending: seq<byte>
    var offset: nat
    var reserved: nat
    var log: seq<Event>
    ghost var spent: nat
    ghost var trace: seq<Step>

    constructor (maxMessage: nat, strict: bool)
      ensures Steady(classify) && Valid() && Traced() && trace == [] && log == [] && phase == InHeader
      ensures headerReceived == 0
    {
      ServerIsSteady(maxMessage);
      this.classify, this.strict := ServerClassifier(maxMessage), strict;
      phase, header, headerReceived, verdict := InHeader, seq(HEADER_SIZE, _ => 0), 0, Reject(BadStreamHeader);
      payloadReceived, route, body, fd, wireVersion, fds := 0, [], [], [], 0, [];
      pending, offset, reserved, log := [], 0, 0, [];
      spent, trace := 0, [];
    }

    ghost predicate Valid()
      reads this
    {
      && offset <= |pending| && |header| == HEADER_SIZE && headerReceived <= HEADER_SIZE
      && Sound(classify, strict, View(), reserved)
      && (phase == RequestBudget || phase == RequestPayload || phase == StreamBudget || phase == StreamRoute ==>
            verdict == classify(wireVersion, header))
      && (phase == RequestPayload ==> payloadReceived == |route| + |body|)
    }

    // Once a frame has left, its header bytes mean nothing.
    ghost function HeaderInUse(): seq<byte>
      requires |header| == HEADER_SIZE && headerReceived <= HEADER_SIZE
      reads this
    {
      if phase == InHeader then header[..headerReceived] else if phase == Given then [] else header
    }

    ghost function View(): P
      requires offset <= |pending| && |header| == HEADER_SIZE && headerReceived <= HEADER_SIZE
      reads this
    {
      P(phase, HeaderInUse(), route, body, fd, wireVersion, fds, pending[offset..], spent)
    }

    // A strict reactor gives the memory of consumed input back.
    method ReleaseConsumed()
      requires Valid()
      modifies this`pending, this`offset
      ensures Valid() && View() == old(View())
    {
      if strict && offset == |pending| {
        assert pending[offset..] == [];
        pending, offset := [], 0;
        assert pending[offset..] == [];
      }
    }

    method TakeHeader()
      requires Valid() && phase == InHeader && headerReceived < HEADER_SIZE
      modifies this`header, this`headerReceived, this`offset
      ensures Valid() && View() == Apply(classify, old(View()), FillHeader).0
      ensures |pending| - offset ==
              if headerReceived < HEADER_SIZE then 0
              else old(|pending| - offset) - (HEADER_SIZE - old(headerReceived))
    {
      ghost var before := View();
      var input := pending[offset..];
      var take := Min(|input|, HEADER_SIZE - headerReceived);
      Dropped(pending, offset, take);
      header := header[..headerReceived] + input[..take] + header[headerReceived + take..];
      headerReceived, offset := headerReceived + take, offset + take;
      assert header[..headerReceived] == before.header + before.unread[..take];
      FillSound(classify, strict, before, reserved);
    }

    // Acts on a complete header.
    method Judge()
      requires Steady(classify) && Valid() && phase == InHeader && headerReceived == HEADER_SIZE
      modifies this`phase, this`headerReceived, this`verdict, this`fd, this`wireVersion, this`fds, this`log
      ensures Valid() && View() == Judged(classify, old(View())).0 && log == old(log) + Judged(classify, old(View())).1
      ensures phase == InHeader ==> headerReceived == 0
    {
      ghost var before := View();
      assert before.header == header;
      headerReceived, verdict := 0, classify(wireVersion, header);
      if verdict.Fixed? {
        assert log + [] == log;
        JudgeRequest(before);
      } else {
        JudgeOther(before);
      }
    }

    // A refused header, a cancellation or a stream.
    method JudgeOther(ghost before: P)
      requires Steady(classify) && |header| == HEADER_SIZE && headerReceived == 0 && offset <= |pending|
      requires before == View().(header := header) && before.phase == InHeader
      requires Sound(classify, strict, before, reserved)
      requires verdict == classify(wireVersion, header) && !verdict.Fixed?
      modifies this`phase, this`wireVersion, this`log
      ensures Valid() && View() == Judged(classify, before).0 && log == old(log) + Judged(classify, before).1
    {
      JudgeSound(classify, strict, before, reserved);
      assert log + [] == log;
      match verdict {
        case Reject(e) => phase := Dead(e);
        case Cancel(version, id) => wireVersion, log := version, log + [Cancelled(id)];
        case Stream(version, id, arg1) => phase, wireVersion := StreamBudget, version;
      }
      assert View() == Judged(classify, before).0;
    }

    // Takes the descriptor a request announces, then checks its lengths.
    method JudgeRequest(ghost before: P)
      requires Steady(classify) && |header| == HEADER_SIZE && headerReceived == 0 && offset <= |pending|
      requires before == View().(header := header) && before.phase == InHeader
      requires Sound(classify, strict, before, reserved)
      requires verdict == classify(wireVersion, header) && verdict.Fixed?
      modifies this`phase, this`fd, this`wireVersion, this`fds
      ensures Valid() && View() == Judged(classify, before).0 && phase != InHeader
    {
      JudgeSound(classify, strict, before, reserved);
      var used := if CarriesFd(verdict.flags) then 1 else 0;
      if used > |fds| {
        phase := Dead(MissingDescriptor);
      } else if verdict.lengths.Err? {
        phase := Dead(BadLengths(verdict.lengths.error));
      } else {
        fd, fds, phase, wireVersion := fds[..used], fds[used..], RequestBudget, verdict.version;
      }
      assert View() == Judged(classify, before).0;
    }

    // Starts the payload of an announced frame, unless the byte budget refuses it.
    method Begin(admitted: bool) returns (ok: bool)
      requires Valid() && (phase == RequestBudget || phase == StreamBudget)
      modifies this`phase, this`route, this`body, this`reserved, this`payloadReceived
      ensures Valid() && ok == (!strict || admitted)
      ensures View() == if ok then Apply(classify, old(View()), Admit).0 else old(View())
    {
      ghost var before, was := View(), reserved;
      if strict {
        if !admitted {
          return false;
        }
        reserved := if verdict.Fixed? then verdict.arg1 + verdict.arg2 else verdict.arg1;
      }
      route := [];
      if phase == RequestBudget {
        body, payloadReceived, phase := [], 0, RequestPayload;
      } else {
        phase := StreamRoute;
      }
      assert View() == Apply(classify, before, Admit).0;
      if strict {
        AdmitSound(classify, strict, before, was, reserved);
      }
      return true;
    }

    method TakePayload()
      requires Valid() && phase == RequestPayload
      modifies this`route, this`body, this`offset, this`payloadReceived
      ensures Valid() && View() == Collected(classify, old(View()))
    {
      ghost var before := View();
      CollectSound(classify, strict, before, reserved);
      var take := Min(|pending| - offset, verdict.arg1 + verdict.arg2 - payloadReceived);
      var routePart := Min(take, verdict.arg1 - |route|);
      PayloadCollected(classify, before, verdict, take, routePart);
      MoveInput(routePart, take);
      payloadReceived := payloadReceived + take;
    }

    method TakeRoute()
      requires Valid() && phase == StreamRoute
      modifies this`route, this`body, this`offset
      ensures Valid() && View() == Collected(classify, old(View()))
    {
      ghost var before := View();
      CollectSound(classify, strict, before, reserved);
      var take := Min(|pending| - offset, verdict.arg1 - |route|);
      RouteCollected(classify, before, verdict, take);
      MoveInput(take, take);
    }

    // Moves the next `take` bytes of input into the frame, `part` of them to the route.
    method MoveInput(part: nat, take: nat)
      requires |header| == HEADER_SIZE && headerReceived <= HEADER_SIZE && part <= take && offset + take <= |pending|
      modifies this`route, this`body, this`offset
      ensures offset <= |pending| && View() == Moved(old(View()), part, take)
    {
      Dropped(pending, offset, take);
      var input := pending[offset..];
      route, body, offset := route + input[..part], body + input[part..take], offset + take;
    }

    // Hands a complete request to dispatch; its reservation goes with it.
    method DispatchRequest()
      requires Valid() && phase == RequestPayload && payloadReceived == verdict.arg1 + verdict.arg2
      modifies this`phase, this`headerReceived, this`route, this`body, this`fd, this`spent, this`reserved, this`log
      ensures Valid() && View() == Emitted(classify, old(View())).0
      ensures log == old(log) + Emitted(classify, old(View())).1
      ensures phase == InHeader && headerReceived == 0
    {
      ghost var before := View();
      EmitSound(classify, strict, before, reserved, 0);
      RequestEmitted(classify, before, verdict);
      log := log + [Dispatched(verdict.id, verdict.flags, route, body, fd)];
      ClearFrame();
    }

    // Back to an empty header.
    method ClearFrame()
      requires offset <= |pending| && |header| == HEADER_SIZE
      modifies this`phase, this`headerReceived, this`route, this`body, this`fd, this`spent, this`reserved
      ensures phase == InHeader && headerReceived == 0 && reserved == 0
      ensures View() == P(InHeader, [], [], [], [], wireVersion, fds, pending[offset..], old(spent) + |old(fd)|)
    {
      spent := spent + |fd|;
      phase, headerReceived, route, body, fd, reserved := InHeader, 0, [], [], [], 0;
    }

    // Leases the connection, with what is pending, to a stream worker.
    method DispatchStream()
      requires Valid() && phase == StreamRoute && |route| == verdict.arg1
      modifies this`phase, this`route, this`reserved, this`log
      ensures Valid() && View() == Emitted(classify, old(View())).0
      ensures log == old(log) + Emitted(classify, old(View())).1
      ensures phase == Given
    {
      EmitSound(classify, strict, View(), reserved, 0);
      log := log + [Leased(verdict.id, route)];
      phase, route, reserved := Given, [], 0;
    }

    // The state and the events emitted so far are those of a run of the parser from the start of the connection.
    ghost predicate Traced()
      requires Valid()
      reads this
    {
      Trace(classify, Start(), trace, View(), log)
    }

    ghost function Left(): nat
      requires Valid()
      reads this
    {
      |View().unread|
    }

    method FillStep()
      requires Valid() && Traced() && phase == InHeader && headerReceived < HEADER_SIZE
      modifies this`header, this`headerReceived, this`offset, this`trace
      ensures Valid() && Traced() && Received(trace) == old(Received(trace))
      ensures headerReceived == HEADER_SIZE ==> Left() < old(Left())
      ensures headerReceived < HEADER_SIZE ==> Quiet(classify, View())
    {
      TraceStep(classify, Start(), trace, View(), log, FillHeader);
      ReceivedStep(trace, FillHeader);
      TakeHeader();
      trace := trace + [FillHeader];
      assert log + [] == log;
    }

    method JudgeStep()
      requires Steady(classify) && Valid() && Traced() && phase == InHeader && headerReceived == HEADER_SIZE
      modifies this`phase, this`headerReceived, this`verdict, this`fd, this`wireVersion, this`fds, this`log, this`trace
      ensures Valid() && Traced() && Received(trace) == old(Received(trace))
      ensures phase == InHeader || phase.Dead? || phase == RequestBudget || phase == StreamBudget
      ensures phase == InHeader ==> headerReceived == 0
      ensures Left() == old(Left())
    {
      TraceStep(classify, Start(), trace, View(), log, JudgeHeader);
      ReceivedStep(trace, JudgeHeader);
      Judge();
      trace := trace + [JudgeHeader];
    }

    method AdmitStep(admitted: bool) returns (ok: bool)
      requires Valid() && Traced() && (phase == RequestBudget || phase == StreamBudget)
      modifies this`phase, this`route, this`body, this`reserved, this`payloadReceived, this`trace
      ensures Valid() && Traced() && Received(trace) == old(Received(trace))
      ensures ok ==> phase == RequestPayload || phase == StreamRoute
      ensures !ok ==> phase == old(phase)
      ensures Left() == old(Left())
    {
      TraceStep(classify, Start(), trace, View(), log, Admit);
      ReceivedStep(trace, Admit);
      ok := Begin(admitted);
      if ok {
        trace := trace + [Admit];
        assert log + [] == log;
      }
    }

    method PayloadStep()
      requires Valid() && Traced() && phase == RequestPayload
      modifies this`route, this`body, this`offset, this`payloadReceived, this`trace
      ensures Valid() && Traced() && Received(trace) == old(Received(trace)) && Left() <= old(Left())
      ensures payloadReceived != verdict.arg1 + verdict.arg2 ==> Quiet(classify, View())
    {
      TraceStep(classify, Start(), trace, View(), log, Collect);
      ReceivedStep(trace, Collect);
      ShortIsQuiet(classify, View());
      TakePayload();
      trace := trace + [Collect];
      assert log + [] == log;
    }

    method RouteStep()
      requires Valid() && Traced() && phase == StreamRoute
      modifies this`route, this`body, this`offset, this`trace
      ensures Valid() && Traced() && Received(trace) == old(Received(trace))
      ensures |route| != verdict.arg1 ==> Quiet(classify, View())
    {
      TraceStep(classify, Start(), trace, View(), log, Collect);
      ReceivedStep(trace, Collect);
      TakeRoute();
      trace := trace + [Collect];
      assert log + [] == log;
    }

    method DispatchStep()
      requires Valid() && Traced()
      requires || (phase == RequestPayload && payloadReceived == verdict.arg1 + verdict.arg2)
               || (phase == StreamRoute && |route| == verdict.arg1)
      modifies this`phase, this`headerReceived, this`route, this`body, this`fd, this`spent, this`reserved
      modifies this`log, this`trace
      ensures Valid() && Traced() && Received(trace) == old(Received(trace))
      ensures if old(phase) == RequestPayload then phase == InHeader && headerReceived == 0 else phase == Given
    {
      TraceStep(classify, Start(), trace, View(), log, Dispatch);
      ReceivedStep(trace, Dispatch);
      if phase == RequestPayload {
        DispatchRequest();
      } else {
        DispatchStream();
      }
      trace := trace + [Dispatch];
    }

    // Copies header bytes; a complete header is judged and its frame begun.
    method HeaderRound(admitted: bool) returns (next: Next)
      requires Steady(classify) && Valid() && Traced() && phase == InHeader && headerReceived < HEADER_SIZE
      modifies this
      ensures Valid() && Traced() && Received(trace) == old(Received(trace))
      ensures next != Done(Closed) && (next == Done(Parsed) ==> Quiet(classify, View()))
      ensures next == Again ==> Left() < old(Left())
      ensures next == Again ==> phase == InHeader || phase == RequestPayload || phase == StreamRoute
      ensures phase == InHeader ==> headerReceived < HEADER_SIZE
    {
      FillStep();
      ReleaseConsumed();
      if headerReceived != HEADER_SIZE {
        return Done(Parsed);
      }
      next := HeaderComplete(admitted);
    }

    method HeaderComplete(admitted: bool) returns (next: Next)
      requires Steady(classify) && Valid() && Traced() && phase == InHeader && headerReceived == HEADER_SIZE
      modifies this
      ensures Valid() && Traced() && Received(trace) == old(Received(trace)) && Left() == old(Left())
      ensures next != Done(Closed) && (next == Done(Parsed) ==> Quiet(classify, View()))
      ensures next == Again ==> phase == InHeader || phase == RequestPayload || phase == StreamRoute
      ensures phase == InHeader ==> headerReceived < HEADER_SIZE
    {
      JudgeStep();
      if phase == InHeader {
        return Again;
      }
      if phase.Dead? {
        return Done(Parsed);
      }
      var ok := AdmitStep(admitted);
      return if ok then Again else Done(Paused);
    }

    // Fills the payload; a complete request is dispatched.
    method PayloadRound(paused: bool) returns (next: Next)
      requires Valid() && Traced() && phase == RequestPayload
      modifies this
      ensures Valid() && Traced() && Received(trace) == old(Received(trace))
      ensures next != Done(Closed) && (next == Done(Parsed) ==> Quiet(classify, View()))
      ensures next == Again ==> Left() <= old(Left()) && phase == InHeader
      ensures phase == InHeader ==> headerReceived == 0
    {
      PayloadStep();
      ReleaseConsumed();
      if payloadReceived == verdict.arg1 + verdict.arg2 {
        DispatchStep();
        return if paused then Done(Paused) else Again;
      }
      return Done(Parsed);
    }

    // Fills the route of a stream; a complete one leaves with the connection.
    method RouteRound()
      requires Valid() && Traced() && phase == StreamRoute
      modifies this
      ensures Valid() && Traced() && Received(trace) == old(Received(trace)) && Quiet(classify, View())
    {
      RouteStep();
      ReleaseConsumed();
      if |route| == verdict.arg1 {
        DispatchStep();
      }
    }

    // The size of the next receive: in strict mode no more than the frame in progress still needs.
    method RequestSize(readAhead: nat) returns (size: nat)
      requires Valid() && (phase == InHeader || phase == RequestPayload || phase == StreamRoute)
      requires readAhead <= READ_BATCH
      ensures size <= READ_SCRATCH && size <= READ_BATCH - readAhead
      ensures strict ==> size <= Room(classify, View())
      ensures !strict && readAhead < READ_BATCH ==> size > 0
    {
      size := Min(READ_SCRATCH, READ_BATCH - readAhead);
      if strict {
        var available := |pending| - offset;
        var need :=
          if phase == InHeader then HEADER_SIZE - headerReceived
          else if phase == RequestPayload then verdict.arg1 + verdict.arg2 - payloadReceived
          else verdict.arg1 - |route|;
        size := Min(size, if need > available then need - available else 0);
      }
    }

    // Appends received bytes to the pending input and their descriptors to the descriptor queue.
    method Append(cells: seq<Cell>)
      requires Valid() && !phase.Dead? && (strict ==> |cells| <= Room(classify, View()))
      modifies this`pending, this`offset, this`fds
      ensures Valid() && View() == Apply(classify, old(View()), Receive(cells)).0
    {
      ReceiveSound(classify, strict, View(), cells, reserved);
      ghost var unread := pending[offset..];
      if offset != 0 && offset == |pending| {
        pending, offset := [], 0;
        assert pending[offset..] == unread;
      }
      assert (pending + Bytes(cells))[offset..] == unread + Bytes(cells);
      pending, fds := pending + Bytes(cells), fds + Fds(cells);
    }

    method ReceiveStep(cells: seq<Cell>)
      requires Valid() && Traced() && !phase.Dead? && (strict ==> |cells| <= Room(classify, View()))
      modifies this`pending, this`offset, this`fds, this`trace
      ensures Valid() && Traced() && Received(trace) == old(Received(trace)) + cells
    {
      TraceStep(classify, Start(), trace, View(), log, Receive(cells));
      ReceivedStep(trace, Receive(cells));
      Append(cells);
      trace := trace + [Receive(cells)];
      assert log + [] == log;
    }

    // Reads until the socket would block, the batch is full or, in strict mode, something was read.
    method ReceiveInput(socket: seq<Cell>, script: seq<Transport.Answer>) returns (rest: seq<Cell>, open: bool)
      requires Valid() && Traced() && (phase == InHeader || phase == RequestPayload || phase == StreamRoute)
      modifies this`pending, this`offset, this`fds, this`trace
      ensures Valid() && Traced() && Received(trace) + rest == old(Received(trace)) + socket
      ensures strict && !open ==> rest == socket && unchanged(this)
    {
      rest, open := socket, true;
      var readAhead, i := 0, 0;
      while readAhead < READ_BATCH && i < |script|
        invariant Valid() && Traced() && readAhead <= READ_BATCH && i <= |script|
        invariant strict ==> rest == socket && unchanged(this)
        invariant Received(trace) + rest == old(Received(trace)) + socket
        decreases |script| - i
      {
        var size := RequestSize(readAhead);
        if size == 0 {
          break;
        }
        var answer := script[i];
        i := i + 1;
        if answer.Failed? || (answer.Moved? && answer.count == 0) {
          return rest, false;
        }
        if answer.WouldBlock? || (answer.Moved? && rest == []) {
          break;
        }
        if answer.Moved? {
          var n := Min(Min(answer.count, size), |rest|);
          assert Received(trace) + rest[..n] + rest[n..] == Received(trace) + rest;
          ReceiveStep(rest[..n]);
          rest, readAhead := rest[n..], readAhead + n;
          if strict {
            return rest, true;
          }
        }
      }
    }

    // Parses pending input until more is needed, a frame is refused or reads are paused.
    method ParseInput(admit: nat -> bool, pause: nat -> bool) returns (outcome: Outcome)
      requires Steady(classify) && Valid() && Traced()
      requires (phase == InHeader || phase == RequestPayload || phase == StreamRoute)
      requires phase == InHeader ==> headerReceived < HEADER_SIZE
      modifies this
      ensures Valid() && Traced() && Received(trace) == old(Received(trace))
      ensures outcome != Closed && (outcome == Parsed ==> Quiet(classify, View()))
      ensures phase == InHeader ==> headerReceived < HEADER_SIZE
    {
      var round := 1;
      while phase != StreamRoute
        invariant Valid() && Traced() && Received(trace) == old(Received(trace))
        invariant phase == InHeader || phase == RequestPayload || phase == StreamRoute
        invariant phase == InHeader ==> headerReceived < HEADER_SIZE
        decreases Left(), if phase == InHeader then 0 else 1
      {
        var next: Next;
        if phase == InHeader {
          next := HeaderRound(admit(round));
        } else {
          next := PayloadRound(pause(round));
        }
        if next.Done? {
          return next.outcome;
        }
        round := round + 1;
      }
      RouteRound();
      return Parsed;
    }

    // Admission, receives and the parse loop of one readiness event.
    method HandleEvent(socket: seq<Cell>, receives: seq<Transport.Answer>, admit: nat -> bool, pause: nat -> bool)
      returns (rest: seq<Cell>, outcome: Outcome)
      requires Steady(classify) && Valid() && Traced() && !phase.Dead? && phase != Given
      requires phase == InHeader ==> headerReceived < HEADER_SIZE
      modifies this
      ensures Valid() && Traced() && Received(trace) + rest == old(Received(trace)) + socket
      ensures outcome == Parsed ==> Quiet(classify, View())
      ensures outcome == Closed ==> log == old(log)
      ensures outcome == Closed && strict ==> Received(trace) == old(Received(trace))
      ensures outcome == Closed && strict && old(phase) !in {RequestBudget, StreamBudget} ==> unchanged(this)
      ensures phase == InHeader ==> headerReceived < HEADER_SIZE
    {
      rest := socket;
      if phase == RequestBudget || phase == StreamBudget {
        var ok := AdmitStep(admit(0));
        if !ok {
          return rest, Paused;
        }
      }
      rest, outcome := ReceiveAndParse(socket, receives, admit, pause);
    }

    method ReceiveAndParse(socket: seq<Cell>, receives: seq<Transport.Answer>, admit: nat -> bool, pause: nat -> bool)
      returns (rest: seq<Cell>, outcome: Outcome)
      requires Steady(classify) && Valid() && Traced()
      requires phase == InHeader || phase == RequestPayload || phase == StreamRoute
      requires phase == InHeader ==> headerReceived < HEADER_SIZE
      modifies this
      ensures Valid() && Traced() && Received(trace) + rest == old(Received(trace)) + socket
      ensures outcome == Parsed ==> Quiet(classify, View())
      ensures outcome == Closed ==> log == old(log)
      ensures outcome == Closed && strict ==> unchanged(this)
      ensures phase == InHeader ==> headerReceived < HEADER_SIZE
    {
      var open: bool;
      rest, open := ReceiveInput(socket, receives);
      if !open {
        return rest, Closed;
      }
      outcome := ParseInput(admit, pause);
    }

    /** One readiness event. However receives are split, admissions refused and reads paused, the connection stays on a
        run of the parser over exactly the bytes taken from the socket: unless a descriptor came late, the events so far
        followed by the one-pass reading of what waits are the one-pass parse of everything received. If it neither
        paused nor closed, nothing complete waits. A close dispatches nothing that came in the same event; in strict
        mode nothing did. */
    method Consume(socket: seq<Cell>, receives: seq<Transport.Answer>, admit: nat -> bool, pause: nat -> bool)
      returns (rest: seq<Cell>, outcome: Outcome)
      requires Steady(classify) && Valid() && Traced() && !phase.Dead? && phase != Given
      requires phase == InHeader ==> headerReceived < HEADER_SIZE
      modifies this
      ensures Valid() && Traced() && Received(trace) + rest == old(Received(trace)) + socket
      ensures StreamTimely(classify, Received(trace)) ==>
                Explained(classify, Received(trace), log, Ahead(classify, View(), []))
      ensures StreamTimely(classify, Received(trace)) && outcome == Parsed ==>
                Explained(classify, Received(trace), log, Whole([], StopOf(View())))
      ensures outcome == Closed ==> log == old(log)
      ensures outcome == Closed && strict ==> Received(trace) == old(Received(trace))
      ensures outcome == Closed && strict && old(phase) !in {RequestBudget, StreamBudget} ==> unchanged(this)
      ensures phase == InHeader ==> headerReceived < HEADER_SIZE
    {
      rest, outcome := HandleEvent(socket, receives, admit, pause);
      OnTheWay(classify, trace, View(), log);
      if outcome == Parsed {
        QuietAhead(classify, View());
      }
    }
  }

  // What waits is read in one pass.
  lemma OnTheWay(classify: Classifier, trace: seq<Step>, p: P, log: seq<Event>)
    requires Steady(classify) && Trace(classify, Start(), trace, p, log)
    ensures StreamTimely(classify, Received(trace)) ==>
              Explained(classify, Received(trace), log, Ahead(classify, p, []))
  {
    assert Received(trace) + [] == Received(trace);
    if StreamTimely(classify, Received(trace)) {
      EveryRunAgrees(classify, trace, []);
    }
  }

  lemma OneRequest(classify: Classifier, header: seq<byte>, v: Verdict, x: byte)
    requires |header| == HEADER_SIZE && v == classify(0, header) && v.Fixed? && v.lengths.Ok? && !CarriesFd(v.flags)
    requires v.arg1 == 1 && v.arg2 == 0
    ensures var cells := Plain(header + [x]);
            && Run(classify, Start(), [Receive(cells)]).1 == []
            && Parse(classify, 0, Fds(cells), Bytes(cells)).events == [Dispatched(v.id, v.flags, [x], [], [])]
  {
    var bytes := header + [x];
    PlainHasNone(bytes);
    assert [Receive(Plain(bytes))][1..] == [];
    assert bytes[..HEADER_SIZE] == header && bytes[HEADER_SIZE..HEADER_SIZE + 1] == [x];
    assert bytes[HEADER_SIZE + 1..HEADER_SIZE + 1] == [] && bytes[HEADER_SIZE + 1..] == [];
    assert [Dispatched(v.id, v.flags, [x], [], [])] + [] == [Dispatched(v.id, v.flags, [x], [], [])];
  }

  // Without an aggregate budget a whole request that comes in the event that also brings the end of the stream is
  // received and not dispatched.
  lemma EndOfStreamDropsRequest() returns (header: seq<byte>)
    ensures header == HeaderBytes(Header(Request, 1, 1, 0, 0, VERSION))
    ensures var cells := Plain(header + [97]);
            && Run(ServerClassifier(1), Start(), [Receive(cells)]).1 == []
            && Parse(ServerClassifier(1), 0, Fds(cells), Bytes(cells)).events == [Dispatched(1, 0, [97], [], [])]
  {
    var h := Header(Request, 1, 1, 0, 0, VERSION);
    DecodeOfEncode(h);
    header := HeaderBytes(h);
    OneRequest(ServerClassifier(1), header, Fixed(VERSION, 1, 0, 1, 0, Ok(())), 97);
  }
}
