/** A connection's output: fixed responses with one direct nonblocking send, a queued remainder and the reactor's flush,
    and stream responses written straight to the socket. A connection's queue and counter change under its lock, the
    counter all connections share does not; each step is one change of either. */
module Output {
  import opened Basics
  import opened Codec
  import opened Transport

  const MAX_FLUSH_BYTES: nat := 256 * 1024

  // A byte on its way out, with the number of the write it belongs to.
  datatype Mark = Mark(value: byte, origin: nat)

  function Stamp(bytes: seq<byte>, origin: nat): (marks: seq<Mark>)
    ensures |marks| == |bytes|
  {
    seq(|bytes|, i requires 0 <= i < |bytes| => Mark(bytes[i], origin))
  }

  datatype OutFrame = OutFrame(header: seq<byte>, body: seq<byte>, offset: nat, origin: nat)

  function Whole(f: OutFrame): seq<Mark> { Stamp(f.header + f.body, f.origin) }

  predicate Unfinished(f: OutFrame) { f.offset < |f.header| + |f.body| }

  function Remainder(f: OutFrame): seq<Mark>
    requires Unfinished(f)
  {
    Whole(f)[f.offset..]
  }

  // The parts offered to the kernel for what is left of a frame.
  function RemainingParts(f: OutFrame): seq<seq<byte>>
    requires Unfinished(f)
  {
    if f.offset < |f.header| then
      if f.body == [] then [f.header[f.offset..]] else [f.header[f.offset..], f.body]
    else [f.body[f.offset - |f.header|..]]
  }

  /** The offered parts are exactly the unsent bytes, with no empty part. */
  lemma PartsAreRemainder(f: OutFrame)
    requires Unfinished(f)
    ensures Stamp(Flat(RemainingParts(f)), f.origin) == Remainder(f)
    ensures forall i | 0 <= i < |RemainingParts(f)| :: RemainingParts(f)[i] != []
  {
    var parts := RemainingParts(f);
    assert parts[1..] == if |parts| == 2 then [f.body] else [];
    assert Flat([f.body]) == f.body by { assert [f.body][1..] == []; }
    assert Flat(parts) == (f.header + f.body)[f.offset..];
  }

  predicate AllUnfinished(q: seq<OutFrame>) { forall i | 0 <= i < |q| :: Unfinished(q[i]) }

  // All unsent bytes of a queue, in order.
  function Pending(q: seq<OutFrame>): seq<Mark>
    requires AllUnfinished(q)
  {
    if q == [] then [] else Remainder(q[0]) + Pending(q[1..])
  }

  lemma {:induction false} PendingAppend(q: seq<OutFrame>, f: OutFrame)
    requires AllUnfinished(q) && Unfinished(f)
    ensures AllUnfinished(q + [f]) && Pending(q + [f]) == Pending(q) + Remainder(f)
  {
    assert forall i | 0 <= i < |q + [f]| :: (q + [f])[i] == if i < |q| then q[i] else f;
    if q == [] {
      assert (q + [f])[1..] == [];
    } else {
      PendingAppend(q[1..], f);
      assert (q + [f])[1..] == q[1..] + [f];
      Assoc(Remainder(q[0]), Pending(q[1..]), Remainder(f));
    }
  }

  // One nonblocking send: some bytes, none for now, or an error.
  datatype Send = Sent(count: nat) | Again | Broken

  datatype Limits = Limits(perConnection: nat, total: nat)

  // A connection's output: queue and counter, then what an operation in progress under its lock has in hand, then its
  // history. `held` is a frame whose bytes are reserved but which is not queued yet, `debt` what the connection has on
  // the shared counter and not, or no longer, on its own. `shut` once the socket is shut down; `intact` until a write
  // failed or overflowed after part of it was sent; `serial` numbers the writes.
  datatype Out = Out(queue: seq<OutFrame>, queued: int, held: seq<OutFrame>, debt: int,
                     closing: bool, shut: bool, intact: bool, serial: nat, wire: seq<Mark>, admitted: seq<Mark>)

  function NewOut(): Out { Out([], 0, [], 0, false, false, true, 0, [], []) }

  // No operation is in progress under the connection's lock.
  predicate Idle(o: Out) { o.held == [] && o.debt == 0 }

  datatype Verdict = Delivered | Queued | Overflowed | SendFailed

  predicate GlobalRoom(limits: Limits, total: int, bytes: nat) {
    limits.total == 0 || (total <= limits.total && bytes <= limits.total - total)
  }

  predicate Room(limits: Limits, o: Out, total: int, bytes: nat) {
    bytes <= limits.perConnection && o.queued <= limits.perConnection - bytes && GlobalRoom(limits, total, bytes)
  }

  // What is left of a frame is reserved if both caps allow it; otherwise the connection is given up.
  function Reserved(limits: Limits, o: Out, total: int, f: OutFrame): (Out, int, Verdict)
    requires Unfinished(f)
  {
    var left := |f.header| + |f.body| - f.offset;
    if Room(limits, o, total, left) then
      (o.(held := [f], debt := left, admitted := o.admitted + Whole(f)), total + left, Queued)
    else (o.(closing := true, intact := o.intact && f.offset == 0), total, Overflowed)
  }

  // A response: a direct send when nothing is queued, then a reservation for the rest.
  function Write(limits: Limits, o: Out, total: int, header: seq<byte>, body: seq<byte>, answer: Send)
    : (Out, int, Verdict)
    requires header != []
  {
    var direct, whole, p := o.queue == [], Stamp(header + body, o.serial), o.(serial := o.serial + 1);
    if direct && (o.shut || answer.Broken?) then (p.(closing := true), total, SendFailed)
    else
      var sent := if direct && answer.Sent? then Min(answer.count, |whole|) else 0;
      if sent == |whole| then (p.(wire := o.wire + whole, admitted := o.admitted + whole), total, Delivered)
      else Reserved(limits, p.(wire := o.wire + whole[..sent]), total, OutFrame(header, body, sent, o.serial))
  }

  // A reserved frame joins the queue.
  function Pushed(o: Out): Out { o.(queue := o.queue + o.held, queued := o.queued + o.debt, held := [], debt := 0) }

  // What an operation has taken off the connection's counter comes off the shared one.
  function Settled(o: Out, total: int): (Out, int) { (o.(debt := 0), total - o.debt) }

  // A frame of a stream response: a blocking write of all of it, past the queue; `sent` is how far it gets.
  function Stream(o: Out, bytes: seq<byte>, sent: nat): Out {
    var whole, n := Stamp(bytes, o.serial), if o.shut then 0 else Min(sent, |bytes|);
    var p := o.(serial := o.serial + 1, wire := o.wire + whole[..n]);
    if n == |bytes| then p.(admitted := o.admitted + whole) else p.(closing := true, intact := o.intact && n == 0)
  }

  // One round of the flush loop on a nonempty queue.
  function FlushOne(o: Out, answer: Send): Out
    requires o.queue != [] && Unfinished(o.queue[0])
  {
    if o.shut || answer.Broken? || answer == Sent(0) then o.(closing := true)
    else if answer.Again? then o
    else Sending(o, Min(answer.count, |Remainder(o.queue[0])|))
  }

  // The first `sent` bytes of the first frame leave the queue for the wire.
  function Sending(o: Out, sent: nat): Out
    requires o.queue != [] && Unfinished(o.queue[0]) && sent <= |Remainder(o.queue[0])|
  {
    o.(queue := Trimmed(o.queue, sent), queued := o.queued - sent, debt := o.debt + sent,
       wire := o.wire + Remainder(o.queue[0])[..sent])
  }

  // Closing shuts the socket down, and then discards the queue under the lock.
  function Down(o: Out): Out { o.(closing := true, shut := true) }
  function Cleared(o: Out): Out { o.(queue := [], queued := 0, debt := o.debt + o.queued) }

  // ---- the invariant of one connection -----------------------------------------------

  ghost predicate InLine(q: seq<OutFrame>, serial: nat) {
    AllUnfinished(q) && forall i | 0 <= i < |q| :: q[i].origin < serial
  }

  // The counter is the true remainder of the queue, and with what is in hand within its cap.
  ghost predicate Good(limits: Limits, o: Out) {
    && InLine(o.queue, o.serial) && InLine(o.held, o.serial) && |o.held| <= 1 && o.debt >= 0
    && o.queued == |Pending(o.queue)| && o.queued + o.debt <= limits.perConnection
    && (o.held != [] ==> o.debt == |Pending(o.held)|)
  }

  // What is still to be sent, the frame in hand included.
  function Due(o: Out): seq<Mark>
    requires AllUnfinished(o.queue) && AllUnfinished(o.held)
  {
    Pending(o.queue) + Pending(o.held)
  }

  // Up to the first write that was torn, what is on the wire and then in line is what was admitted, in order.
  ghost predicate Ordered(o: Out)
    requires AllUnfinished(o.queue) && AllUnfinished(o.held)
  {
    InSequence(o.intact, o.shut, o.wire, Due(o), o.admitted)
  }

  ghost predicate InSequence(intact: bool, shut: bool, wire: seq<Mark>, due: seq<Mark>, admitted: seq<Mark>) {
    && (intact ==> wire <= admitted)
    && (intact && !shut ==> wire + due == admitted)
  }

  // What every step does to the shared counter: it moves by exactly what the connection has on it.
  ghost predicate Moves(limits: Limits, o: Out, total: int, o': Out, total': int) {
    && total' - total == o'.queued + o'.debt - o.queued - o.debt
    && (limits.total != 0 && total <= limits.total ==> total' <= limits.total)
  }

  lemma WriteKeeps(limits: Limits, o: Out, total: int, header: seq<byte>, body: seq<byte>, answer: Send)
    requires Good(limits, o) && Idle(o) && header != []
    ensures var (o', total', v) := Write(limits, o, total, header, body, answer);
            && Good(limits, o') && Moves(limits, o, total, o', total') && (Ordered(o) ==> Ordered(o'))
            && (v in {Delivered, Queued} <==> o'.admitted == o.admitted + Stamp(header + body, o.serial))
            && (v == Queued <==> o'.held != [])
  {
    var (o', total', v) := Write(limits, o, total, header, body, answer);
    var whole := Stamp(header + body, o.serial);
    assert |o.admitted + whole| > |o.admitted|;
    if v == Delivered {
      assert o.wire + whole + [] == o.wire + [] + whole;
    } else if v == Queued {
      WriteQueued(limits, o, total, header, body, answer);
    } else if v == Overflowed {
      assert whole[..0] == [] && o.wire + [] == o.wire;
    }
  }

  lemma WriteQueued(limits: Limits, o: Out, total: int, header: seq<byte>, body: seq<byte>, answer: Send)
    requires Good(limits, o) && Idle(o) && header != [] && Write(limits, o, total, header, body, answer).2 == Queued
    ensures var (o', total', v) := Write(limits, o, total, header, body, answer);
            Good(limits, o') && Moves(limits, o, total, o', total') && (Ordered(o) ==> Ordered(o'))
  {
    var o' := Write(limits, o, total, header, body, answer).0;
    var f := o'.held[0];
    assert o'.held == [f] && [f][1..] == [] && Pending([f]) == Remainder(f) + [] == Remainder(f);
    assert Pending(o.queue) + [] == Pending(o.queue);
    QueueStep(o.wire, Pending(o.queue), Whole(f), f.offset);
  }

  lemma PushKeeps(limits: Limits, o: Out)
    requires Good(limits, o) && o.held != []
    ensures Good(limits, Pushed(o)) && Idle(Pushed(o)) && (Ordered(o) ==> Ordered(Pushed(o)))
    ensures Due(Pushed(o)) == Due(o)
  {
    var f := o.held[0];
    assert o.held == [f] && [f][1..] == [] && Pending([f]) == Remainder(f) + [] == Remainder(f);
    PendingAppend(o.queue, f);
    assert Due(Pushed(o)) == Pending(o.queue + [f]) + [] == Due(o);
  }

  lemma SettleKeeps(limits: Limits, o: Out, total: int)
    requires Good(limits, o) && o.held == []
    ensures var (o', total') := Settled(o, total);
            && Good(limits, o') && Idle(o') && Moves(limits, o, total, o', total') && (Ordered(o) ==> Ordered(o'))
  {
  }

  // Sending the first `sent` bytes and queueing the rest appends the whole frame.
  lemma QueueStep<T>(wire: seq<T>, pending: seq<T>, whole: seq<T>, sent: nat)
    requires sent <= |whole| && (sent > 0 ==> pending == [])
    ensures wire + whole[..sent] + (pending + whole[sent..]) == wire + pending + whole
  {
    if sent == 0 {
      assert whole[..0] == [] && whole[0..] == whole;
      Assoc(wire, pending, whole);
    } else {
      Assoc(wire, whole[..sent], whole[sent..]);
    }
  }

  // The queue after `sent` bytes of its first frame went out.
  function Trimmed(q: seq<OutFrame>, sent: nat): seq<OutFrame>
    requires q != [] && Unfinished(q[0]) && sent <= |Remainder(q[0])|
  {
    (if sent == |Remainder(q[0])| then [] else [q[0].(offset := q[0].offset + sent)]) + q[1..]
  }

  lemma TrimmedPending(q: seq<OutFrame>, sent: nat)
    requires q != [] && AllUnfinished(q) && sent <= |Remainder(q[0])|
    ensures AllUnfinished(Trimmed(q, sent))
    ensures Pending(Trimmed(q, sent)) == Remainder(q[0])[sent..] + Pending(q[1..])
  {
    var f, tail, t := q[0], q[1..], Trimmed(q, sent);
    if sent == |Remainder(f)| {
      assert t == tail;
      assert Remainder(f)[sent..] + Pending(tail) == Pending(tail);
    } else {
      assert t[1..] == tail;
      assert forall i | 0 < i < |t| :: t[i] == tail[i - 1];
      assert Remainder(t[0]) == Remainder(f)[sent..];
    }
  }

  lemma SendingKeeps(limits: Limits, o: Out, sent: nat)
    requires Good(limits, o) && o.held == [] && !o.shut && o.queue != [] && sent <= |Remainder(o.queue[0])|
    ensures Good(limits, Sending(o, sent)) && (Ordered(o) ==> Ordered(Sending(o, sent)))
    ensures Sending(o, sent).wire + Pending(Sending(o, sent).queue) == o.wire + Pending(o.queue)
  {
    var o' := Sending(o, sent);
    TrimmedPending(o.queue, sent);
    FrontSent(o.wire, Remainder(o.queue[0]), Pending(o.queue[1..]), sent);
    assert Due(o) == Pending(o.queue) && Due(o') == Pending(o'.queue);
  }

  lemma FlushOneKeeps(limits: Limits, o: Out, total: int, answer: Send)
    requires Good(limits, o) && Idle(o) && o.queue != []
    ensures var o' := FlushOne(o, answer);
            && Good(limits, o') && o'.held == [] && Moves(limits, o, total, o', total) && (Ordered(o) ==> Ordered(o'))
            && o'.wire + Pending(o'.queue) == o.wire + Pending(o.queue)
  {
    if !o.shut && answer.Sent? && answer.count > 0 {
      SendingKeeps(limits, o, Min(answer.count, |Remainder(o.queue[0])|));
    }
  }

  lemma FrontSent<T>(wire: seq<T>, rem: seq<T>, tail: seq<T>, sent: nat)
    requires sent <= |rem|
    ensures wire + rem[..sent] + (rem[sent..] + tail) == wire + (rem + tail)
  {
    assert rem == rem[..sent] + rem[sent..];
    Assoc(rem[..sent], rem[sent..], tail);
    Assoc(wire, rem[..sent], rem[sent..] + tail);
  }

  lemma CloseKeeps(limits: Limits, o: Out, total: int)
    requires Good(limits, o)
    ensures Good(limits, Down(o)) && (Ordered(o) ==> Ordered(Down(o)))
    ensures o.shut && Idle(o) ==>
              && Good(limits, Cleared(o)) && Cleared(o).held == [] && Moves(limits, o, total, Cleared(o), total)
              && (Ordered(o) ==> Ordered(Cleared(o)))
  {
  }

  // A whole stream frame that finds bytes of an earlier response still queued or being queued.
  predicate Overtakes(o: Out, bytes: seq<byte>, sent: nat) {
    o.intact && !o.shut && o.queue + o.held != [] && 0 < |bytes| <= sent
  }

  lemma StreamGood(limits: Limits, o: Out, bytes: seq<byte>, sent: nat)
    requires Good(limits, o)
    ensures Good(limits, Stream(o, bytes, sent)) && Due(Stream(o, bytes, sent)) == Due(o)
  {
  }

  /** A stream frame keeps the order exactly when it does not overtake a queued remainder. */
  lemma StreamOrderedIff(limits: Limits, o: Out, bytes: seq<byte>, sent: nat)
    requires Good(limits, o) && Ordered(o)
    ensures Good(limits, Stream(o, bytes, sent)) && (Ordered(Stream(o, bytes, sent)) <==> !Overtakes(o, bytes, sent))
  {
    StreamGood(limits, o, bytes, sent);
    var whole, n := Stamp(bytes, o.serial), if o.shut then 0 else Min(sent, |bytes|);
    assert whole[..|bytes|] == whole && whole[..0] == [] && o.wire + [] == o.wire;
    if n == |bytes| {
      if o.queue + o.held != [] {
        FirstDue(limits, o);
      } else {
        assert Due(o) == [];
      }
      WholeFrame(o.intact, o.shut, o.wire, Due(o), o.admitted, whole);
    }
  }

  lemma WholeFrame(intact: bool, shut: bool, wire: seq<Mark>, due: seq<Mark>, admitted: seq<Mark>, whole: seq<Mark>)
    requires InSequence(intact, shut, wire, due, admitted) && (shut ==> whole == [])
    requires due != [] && whole != [] ==> due[0] != whole[0]
    ensures InSequence(intact, shut, wire + whole, due, admitted + whole) <==>
            !(intact && !shut && due != [] && whole != [])
  {
    if whole == [] {
      assert wire + whole == wire && admitted + whole == admitted;
    } else if due == [] {
      assert wire + [] == wire && wire + whole + [] == wire + whole;
    } else if intact && !shut {
      OvertakenDiffers(wire, due, whole);
    }
  }

  lemma OvertakenDiffers<T>(wire: seq<T>, pending: seq<T>, whole: seq<T>)
    requires pending != [] && whole != [] && pending[0] != whole[0]
    ensures wire + whole + pending != wire + pending + whole
  {
    assert (wire + whole + pending)[|wire|] == whole[0] && (wire + pending + whole)[|wire|] == pending[0];
  }

  // The first byte due belongs to an earlier write.
  lemma FirstDue(limits: Limits, o: Out)
    requires Good(limits, o) && o.queue + o.held != []
    ensures Due(o) != [] && Due(o)[0].origin < o.serial
  {
    var f := if o.queue != [] then o.queue[0] else o.held[0];
    assert Due(o)[0] == Remainder(f)[0];
  }

  // ---- all connections together ---------------------------------------------------------

  datatype Server = Server(limits: Limits, outs: seq<Out>, total: int)

  datatype Step =
    | Accept
    | Respond(i: nat, header: seq<byte>, body: seq<byte>, answer: Send) | Push(i: nat)
    | Drain(i: nat, answer: Send) | Settle(i: nat)
    | StreamWrite(i: nat, bytes: seq<byte>, sent: nat)
    | Shutdown(i: nat) | Clear(i: nat)

  // What a step on connection i makes of it and of the shared counter. While an operation is in progress under the
  // connection's lock, only it goes on; stream writes and shutdown need no such lock.
  function Effect(limits: Limits, o: Out, total: int, step: Step): (Out, int)
    requires AllUnfinished(o.queue)
  {
    match step
    case Accept => (o, total)
    case Respond(_, header, body, answer) =>
      if header == [] || !Idle(o) then (o, total)
      else
        var (p, after, _) := Write(limits, o, total, header, body, answer);
        (p, after)
    case Push(_) => (if o.held == [] then o else Pushed(o), total)
    case Drain(_, answer) => (if o.queue == [] || !Idle(o) then o else FlushOne(o, answer), total)
    case Settle(_) => if o.held == [] then Settled(o, total) else (o, total)
    case StreamWrite(_, bytes, sent) => (Stream(o, bytes, sent), total)
    case Shutdown(_) => (Down(o), total)
    case Clear(_) => (if o.shut && Idle(o) then Cleared(o) else o, total)
  }

  ghost function Apply(s: Server, step: Step): Server {
    if step.Accept? then s.(outs := s.outs + [NewOut()])
    else if step.i >= |s.outs| || !AllUnfinished(s.outs[step.i].queue) then s
    else
      var (o, total) := Effect(s.limits, s.outs[step.i], s.total, step);
      s.(outs := s.outs[step.i := o], total := total)
  }

  ghost function Run(s: Server, steps: seq<Step>): Server
    decreases |steps|
  {
    if steps == [] then s else Run(Apply(s, steps[0]), steps[1..])
  }

  // What a connection has on the shared counter, and on its own.
  function OnTotal(): Out -> int { (o: Out) => o.queued + o.debt }
  function QueuedOf(): Out -> int { (o: Out) => o.queued }

  ghost predicate Inv(s: Server) {
    && (forall i | 0 <= i < |s.outs| :: Good(s.limits, s.outs[i]))
    && s.total == Sum(s.outs, OnTotal())
    && (s.limits.total != 0 ==> s.total <= s.limits.total)
  }

  // Every connection's bytes are in order.
  ghost predicate InOrder(s: Server)
    requires Inv(s)
  {
    forall i | 0 <= i < |s.outs| :: Ordered(s.outs[i])
  }

  // A locked operation or a close keeps counters and order.
  lemma LockedKeeps(limits: Limits, o: Out, total: int, step: Step)
    requires Good(limits, o) && !step.StreamWrite?
    ensures var (o', total') := Effect(limits, o, total, step);
            Good(limits, o') && Moves(limits, o, total, o', total') && (Ordered(o) ==> Ordered(o'))
  {
    match step {
      case Accept =>
      case Respond(_, header, body, answer) =>
        if header != [] && Idle(o) {
          WriteKeeps(limits, o, total, header, body, answer);
        }
      case Push(_) =>
        if o.held != [] {
          PushKeeps(limits, o);
        }
      case Drain(_, answer) =>
        if o.queue != [] && Idle(o) {
          FlushOneKeeps(limits, o, total, answer);
        }
      case Settle(_) =>
        if o.held == [] {
          SettleKeeps(limits, o, total);
        }
      case Shutdown(_) => CloseKeeps(limits, o, total);
      case Clear(_) => CloseKeeps(limits, o, total);
    }
  }

  lemma EffectKeeps(limits: Limits, o: Out, total: int, step: Step)
    requires Good(limits, o)
    ensures var (o', total') := Effect(limits, o, total, step);
            Good(limits, o') && Moves(limits, o, total, o', total')
    ensures Ordered(o) ==> (Ordered(Effect(limits, o, total, step).0) <==>
                            !(step.StreamWrite? && Overtakes(o, step.bytes, step.sent)))
  {
    if !step.StreamWrite? {
      LockedKeeps(limits, o, total, step);
    } else if Ordered(o) {
      StreamOrderedIff(limits, o, step.bytes, step.sent);
    }
  }

  // One connection changes, and the shared counter with it.
  lemma OneChanges(s: Server, i: nat, o: Out, total: int)
    requires Inv(s) && i < |s.outs| && Good(s.limits, o) && Moves(s.limits, s.outs[i], s.total, o, total)
    ensures Inv(Server(s.limits, s.outs[i := o], total))
  {
    SumUpdate(s.outs, i, o, OnTotal());
  }

  lemma StepKeeps(s: Server, step: Step)
    requires Inv(s)
    ensures Inv(Apply(s, step)) && Apply(s, step).limits == s.limits
  {
    if step.Accept? {
      SumAppend(s.outs, NewOut(), OnTotal());
    } else if step.i < |s.outs| {
      var effect := Effect(s.limits, s.outs[step.i], s.total, step);
      EffectKeeps(s.limits, s.outs[step.i], s.total, step);
      OneChanges(s, step.i, effect.0, effect.1);
    }
  }

  // A stream frame is written past the queued remainder of an earlier response.
  ghost predicate Jumps(s: Server, step: Step) {
    step.StreamWrite? && step.i < |s.outs| && Overtakes(s.outs[step.i], step.bytes, step.sent)
  }

  lemma StepInOrderIff(s: Server, step: Step)
    requires Inv(s) && InOrder(s)
    ensures Inv(Apply(s, step)) && (InOrder(Apply(s, step)) <==> !Jumps(s, step))
  {
    StepKeeps(s, step);
    var q := Apply(s, step);
    if step.Accept? {
      assert Ordered(NewOut());
      assert forall i | 0 <= i < |q.outs| :: q.outs[i] == if i < |s.outs| then s.outs[i] else NewOut();
    } else if step.i < |s.outs| {
      EffectKeeps(s.limits, s.outs[step.i], s.total, step);
      assert q.outs[step.i] == Effect(s.limits, s.outs[step.i], s.total, step).0;
      assert forall i | 0 <= i < |q.outs| && i != step.i :: q.outs[i] == s.outs[i];
    }
  }

  // In order at every point of the run.
  ghost predicate AlwaysInOrder(s: Server, steps: seq<Step>)
    decreases |steps|
  {
    Inv(s) && InOrder(s) && (steps != [] ==> AlwaysInOrder(Apply(s, steps[0]), steps[1..]))
  }

  // Every stream frame finds the queue of its connection empty, or its connection already torn or closed.
  ghost predicate NoJumps(s: Server, steps: seq<Step>)
    decreases |steps|
  {
    steps != [] ==> !Jumps(s, steps[0]) && NoJumps(Apply(s, steps[0]), steps[1..])
  }

  lemma {:induction false} InOrderIffNoJumps(s: Server, steps: seq<Step>)
    requires Inv(s) && InOrder(s)
    ensures AlwaysInOrder(s, steps) <==> NoJumps(s, steps)
    decreases |steps|
  {
    if steps == [] {
    } else {
      StepInOrderIff(s, steps[0]);
      if !Jumps(s, steps[0]) {
        InOrderIffNoJumps(Apply(s, steps[0]), steps[1..]);
      }
    }
  }

  lemma {:induction false} RunKeeps(s: Server, steps: seq<Step>)
    requires Inv(s)
    ensures Inv(Run(s, steps)) && Run(s, steps).limits == s.limits
    decreases |steps|
  {
    if steps == [] {
    } else {
      StepKeeps(s, steps[0]);
      RunKeeps(Apply(s, steps[0]), steps[1..]);
    }
  }

  /** On every run, with streams and closes and whatever the interleaving, each connection's counter is its true
      remainder, the shared counter is the sum of what the connections have queued or in hand, and both caps hold; with
      nothing in hand it is the sum of all remainders. */
  lemma CountersExact(limits: Limits, steps: seq<Step>)
    ensures var s := Run(Server(limits, [], 0), steps);
            && s.total == Sum(s.outs, OnTotal()) && (limits.total != 0 ==> s.total <= limits.total)
            && (forall i | 0 <= i < |s.outs| ::
                  var o := s.outs[i];
                  && AllUnfinished(o.queue) && o.queued == |Pending(o.queue)|
                  && 0 <= o.debt <= limits.perConnection - o.queued)
            && ((forall i | 0 <= i < |s.outs| :: Idle(s.outs[i])) ==> s.total == Sum(s.outs, QueuedOf()))
  {
    RunKeeps(Server(limits, [], 0), steps);
    var s := Run(Server(limits, [], 0), steps);
    assert forall i | 0 <= i < |s.outs| :: Good(limits, s.outs[i]);
    if forall i | 0 <= i < |s.outs| :: Idle(s.outs[i]) {
      assert forall i | 0 <= i < |s.outs| :: OnTotal()(s.outs[i]) == QueuedOf()(s.outs[i]);
      SumBound(s.outs, OnTotal(), QueuedOf());
      SumBound(s.outs, QueuedOf(), OnTotal());
    }
  }

  /** On a run, up to each connection's first torn write, the bytes on its wire followed by its queued remainders are
      at every point the admitted output in order, if and only if no stream frame is written while a remainder is
      queued or being queued. */
  lemma OutputRefinement(limits: Limits, steps: seq<Step>)
    ensures AlwaysInOrder(Server(limits, [], 0), steps) <==> NoJumps(Server(limits, [], 0), steps)
  {
    InOrderIffNoJumps(Server(limits, [], 0), steps);
  }

  // Without stream responses there is nothing to overtake a remainder.
  lemma {:induction false} ResponsesNeverJump(s: Server, steps: seq<Step>)
    requires forall k | 0 <= k < |steps| :: !steps[k].StreamWrite?
    ensures NoJumps(s, steps)
    decreases |steps|
  {
    if steps == [] {
    } else {
      assert !steps[0].StreamWrite?;
      ResponsesNeverJump(Apply(s, steps[0]), steps[1..]);
    }
  }

  // A response of which one byte went out, and the first frame of a stream response before the rest of it.
  lemma StreamOvertakesRemainder(room: nat) returns (steps: seq<Step>)
    requires room > HEADER_SIZE
    ensures !AlwaysInOrder(Server(Limits(room, 0), [], 0), steps)
    ensures var response := HeaderBytes(Header(Response, 1, 200, 0, 0, CANCELLABLE_VERSION));
            var status := HeaderBytes(Header(StreamResponse, 2, 200, 0, 0, CANCELLABLE_VERSION));
            var stream := StreamWrite(0, status, HEADER_SIZE);
            steps == [Accept] + ([Respond(0, response, [], Sent(1))] + ([Push(0)] + [stream]))
  {
    var response := HeaderBytes(Header(Response, 1, 200, 0, 0, CANCELLABLE_VERSION));
    var status := HeaderBytes(Header(StreamResponse, 2, 200, 0, 0, CANCELLABLE_VERSION));
    var start := Server(Limits(room, 0), [], 0);
    var a := Apply(start, Accept);
    var b := Apply(a, Respond(0, response, [], Sent(1)));
    var c := Apply(b, Push(0));
    assert a.outs == [NewOut()];
    assert b.outs[0].held == [OutFrame(response, [], 1, 0)] && c.outs[0].queue == [] + b.outs[0].held;
    var last := [StreamWrite(0, status, HEADER_SIZE)];
    assert Jumps(c, last[0]);
    JumpsLater(b, Push(0), last);
    JumpsLater(a, Respond(0, response, [], Sent(1)), [Push(0)] + last);
    steps := [Respond(0, response, [], Sent(1))] + ([Push(0)] + last);
    JumpsLater(start, Accept, steps);
    steps := [Accept] + steps;
    OutputRefinement(Limits(room, 0), steps);
  }

  lemma JumpsLater(s: Server, step: Step, rest: seq<Step>)
    requires !NoJumps(Apply(s, step), rest)
    ensures !NoJumps(s, [step] + rest)
  {
    assert ([step] + rest)[1..] == rest;
  }

  // ---- the connection itself ---------------------------------------------------------------

  /** The server-wide count of queued output bytes. */
  class OutputTotal {
    var bytes: int

    /** The compare-exchange loop: each of `rivals` is a store by another thread that makes one attempt fail. The
        addition happens at once on the value then present, exactly if it fits. */
    method Reserve(limits: Limits, count: nat, rivals: seq<int>) returns (ok: bool, ghost seen: int)
      modifies this
      ensures seen == old(bytes) || seen in rivals
      ensures ok == GlobalRoom(limits, seen, count) && bytes == seen + (if ok then count else 0)
      ensures rivals == [] ==> seen == old(bytes)
    {
      if limits.total == 0 {
        seen := bytes;
        bytes := bytes + count;
        return true, seen;
      }
      var i := 0;
      seen := bytes;
      while bytes <= limits.total && count <= limits.total - bytes
        invariant i <= |rivals| && seen == bytes
        invariant (seen == old(bytes) || seen in rivals) && (i == 0 ==> seen == old(bytes))
        decreases |rivals| - i
      {
        if i == |rivals| {
          bytes := bytes + count;
          return true, seen;
        }
        bytes, i := rivals[i], i + 1;
        seen := bytes;
      }
      ok := false;
    }
  }

  class ConnectionOutput {
    var queue: seq<OutFrame>
    var queued: int
    var closing: bool
    var shut: bool
    var serial: nat
    ghost var intact: bool
    ghost var wire: seq<Mark>
    ghost var admitted: seq<Mark>

    ghost function View(): Out
      reads this
    {
      Out(queue, queued, [], 0, closing, shut, intact, serial, wire, admitted)
    }

    constructor ()
      ensures View() == NewOut()
    {
      queue, queued, closing, shut, serial := [], 0, false, false, 0;
      intact, wire, admitted := true, [], [];
    }

    // One nonblocking send of what is left of a frame; the kernel takes at most what is offered.
    method SendOnce(frame: OutFrame, answer: Send) returns (result: Send)
      requires Unfinished(frame)
      modifies this`wire
      ensures result ==
              if shut || answer.Broken? then Broken
              else if answer.Again? then Again
              else Sent(Min(answer.count, |Remainder(frame)|))
      ensures result.Sent? ==> wire == old(wire) + Remainder(frame)[..result.count]
      ensures !result.Sent? || result.count == 0 ==> wire == old(wire)
    {
      var parts := RemainingParts(frame);
      PartsAreRemainder(frame);
      if shut || answer.Broken? {
        return Broken;
      }
      if answer.Again? {
        return Again;
      }
      result := Sent(Min(answer.count, |Flat(parts)|));
      wire := wire + Stamp(Flat(parts), frame.origin)[..result.count];
    }

    /** Writes one response; `seen` is the shared counter at the moment the rest of it is reserved. */
    method Respond(total: OutputTotal, limits: Limits, header: seq<byte>, body: seq<byte>, answer: Send,
                   rivals: seq<int>)
      returns (verdict: Verdict, ghost seen: int)
      requires header != []
      modifies this, total
      ensures seen == old(total.bytes) || seen in rivals
      ensures var (o, after, v) := Write(limits, old(View()), seen, header, body, answer);
              (View(), total.bytes, verdict) == (if v == Queued then Pushed(o) else o, after, v)
    {
      var frame := OutFrame(header, body, 0, serial);
      serial, seen := serial + 1, total.bytes;
      if queue == [] {
        var result := SendOnce(frame, answer);
        if result.Broken? {
          closing := true;
          return SendFailed, seen;
        }
        if result.Sent? && result.count > 0 {
          frame := frame.(offset := result.count);
          if frame.offset == |header| + |body| {
            assert Whole(frame)[..frame.offset] == Whole(frame);
            admitted := admitted + Whole(frame);
            return Delivered, seen;
          }
        }
      }
      assert frame.offset == 0 ==> wire + Whole(frame)[..0] == wire;
      verdict, seen := Enqueue(frame, total, limits, rivals);
    }

    // Queues what is left of a frame if both caps allow it.
    method Enqueue(frame: OutFrame, total: OutputTotal, limits: Limits, rivals: seq<int>)
      returns (verdict: Verdict, ghost seen: int)
      requires Unfinished(frame)
      modifies this, total
      ensures seen == old(total.bytes) || seen in rivals
      ensures var (o, after, v) := Reserved(limits, old(View()), seen, frame);
              (View(), total.bytes, verdict) == (if v == Queued then Pushed(o) else o, after, v)
    {
      var left, reserved := |frame.header| + |frame.body| - frame.offset, false;
      seen := total.bytes;
      if left <= limits.perConnection && queued <= limits.perConnection - left {
        reserved, seen := total.Reserve(limits, left, rivals);
      }
      if !reserved {
        closing, intact := true, intact && frame.offset == 0;
        return Overflowed, seen;
      }
      queue, queued := queue + [frame], queued + left;
      admitted := admitted + Whole(frame);
      verdict := Queued;
    }

    /** A stream worker writes one frame straight to the socket; the queue is not looked at. */
    method WriteStream(bytes: seq<byte>, sent: nat) returns (ok: bool)
      modifies this
      ensures View() == Stream(old(View()), bytes, sent)
      ensures ok <==> admitted == old(admitted) + Stamp(bytes, old(serial))
    {
      ghost var whole := Stamp(bytes, serial);
      var n := if shut then 0 else Min(sent, |bytes|);
      serial, ok := serial + 1, n == |bytes|;
      wire := wire + whole[..n];
      if ok {
        admitted := admitted + whole;
      } else {
        assert |admitted + whole| > |admitted|;
        closing, intact := true, intact && n == 0;
      }
    }

    /** Drains a bounded amount without blocking: bytes leave the queue for the wire in order, and both counters
        follow. It stops with the queue empty, the byte budget spent, the socket full, or the connection failed. */
    method Flush(total: OutputTotal, ghost limits: Limits, script: seq<Send>) returns (alive: bool, flushed: nat)
      requires Good(limits, View())
      modifies this, total
      ensures Good(limits, View()) && Moves(limits, old(View()), old(total.bytes), View(), total.bytes)
      ensures wire + Pending(queue) == old(wire) + Pending(old(queue))
      ensures admitted == old(admitted) && intact == old(intact)
      ensures flushed == |wire| - |old(wire)| && old(wire) <= wire
      ensures !alive ==> closing
      ensures alive ==> queue == [] || flushed >= MAX_FLUSH_BYTES || Again in script || |script| <= flushed
    {
      flushed := 0;
      ghost var all := wire + Pending(queue);
      var clock := 0;
      while queue != [] && flushed < MAX_FLUSH_BYTES
        invariant clock <= |script| && clock <= flushed
        invariant Good(limits, View()) && Moves(limits, old(View()), old(total.bytes), View(), total.bytes)
        invariant wire + Pending(queue) == all && admitted == old(admitted) && intact == old(intact)
        invariant flushed == |wire| - |old(wire)| && old(wire) <= wire
        decreases |script| - clock
      {
        if clock == |script| {
          break;
        }
        FlushOneKeeps(limits, View(), total.bytes, script[clock]);
        SettleKeeps(limits, FlushOne(View(), script[clock]), total.bytes);
        var done, again, sent := FlushFront(total, script[clock]);
        if done {
          return false, flushed;
        }
        if again {
          break;
        }
        flushed, clock := flushed + sent, clock + 1;
      }
      alive := true;
    }

    // One round: send from the front frame and retire it when finished.
    method FlushFront(total: OutputTotal, answer: Send) returns (failed: bool, again: bool, sent: nat)
      requires queue != [] && Unfinished(queue[0])
      modifies this, total
      ensures (View(), total.bytes) == Settled(FlushOne(old(View()), answer), old(total.bytes))
      ensures old(wire) <= wire && |wire| == |old(wire)| + sent
      ensures failed ==> closing
      ensures again ==> answer == Again
      ensures failed || again <==> sent == 0
    {
      var frame := queue[0];
      assert Remainder(frame)[..0] == [] && wire + [] == wire;
      var result := SendOnce(frame, answer);
      if result.Sent? && result.count > 0 {
        frame := frame.(offset := frame.offset + result.count);
        queued, total.bytes := queued - result.count, total.bytes - result.count;
        queue := (if frame.offset == |frame.header| + |frame.body| then [] else [frame]) + queue[1..];
        return false, false, result.count;
      }
      if result.Again? {
        return false, true, 0;
      }
      closing := true;
      failed, again, sent := true, false, 0;
    }

    /** Closing returns exactly the queued bytes to the shared counter. */
    method CloseOutput(total: OutputTotal)
      modifies this, total
      ensures (View(), total.bytes) == Settled(Cleared(Down(old(View()))), old(total.bytes))
    {
      closing, shut := true, true;
      var returned := queued;
      queued, queue := 0, [];
      if returned != 0 {
        total.bytes := total.bytes - returned;
      }
    }
  }
}
