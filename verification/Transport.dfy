/** Exact socket I/O: the gather-write loops and the read-ahead reader.
    The kernel is a script of answers, one per system call; every legal answer is allowed. */
module Transport {
  import opened Basics
  import opened Codec

  // A positive count is cut down to what was offered; a count of zero is a broken pipe.
  datatype Answer = Moved(count: nat) | WouldBlock | Interrupted | Failed

  // Calls enough to move n bytes: each of them moves something.
  ghost predicate Supplied(script: seq<Answer>, n: nat) {
    |script| >= n && forall i | 0 <= i < |script| :: script[i].Moved? && script[i].count > 0
  }

  function Flat(parts: seq<seq<byte>>): seq<byte> {
    if parts == [] then [] else parts[0] + Flat(parts[1..])
  }

  lemma FlatStep(parts: seq<seq<byte>>, first: nat)
    requires first < |parts|
    ensures Flat(parts[first..]) == parts[first] + Flat(parts[first + 1..])
  {
    assert parts[first..][1..] == parts[first + 1..];
  }

  /** Drops `count` sent bytes from the parts at and after `first`, trimming the part where they end. */
  method Advance(parts: array<seq<byte>>, first: nat, count: nat) returns (next: nat)
    requires first <= parts.Length && count <= |Flat(parts[first..])|
    modifies parts
    ensures first <= next <= parts.Length
    ensures Flat(parts[next..]) == old(Flat(parts[first..]))[count..]
  {
    ghost var was := parts[..];
    assert was[first..] == parts[first..];
    var consumed: nat := count;
    next := first;
    while next < parts.Length && consumed >= |parts[next]|
      invariant first <= next <= parts.Length
      invariant parts[..] == was
      invariant consumed <= |Flat(was[next..])|
      invariant Flat(was[next..])[consumed..] == Flat(was[first..])[count..]
    {
      FlatStep(was, next);
      consumed := consumed - |parts[next]|;
      next := next + 1;
    }
    assert parts[next..] == was[next..];
    if consumed != 0 && next < parts.Length {
      FlatStep(was, next);
      parts[next] := parts[next][consumed..];
      FlatStep(parts[..], next);
      assert parts[..][next + 1..] == was[next + 1..];
      assert parts[..][next..] == parts[next..];
    }
  }

  /** Sends all parts. Whatever the kernel answers, the wire carries a prefix of the concatenated parts,
      all of it exactly when the call returns normally. */
  method WriteIovecsExact(parts: array<seq<byte>>, script: seq<Answer>) returns (wire: seq<byte>, ok: bool)
    modifies parts
    ensures wire <= old(Flat(parts[..]))
    ensures ok <==> wire == old(Flat(parts[..]))
  {
    var attachments: seq<nat>;
    wire, attachments, ok := WriteGathered(parts, false, script);
  }

  /** The same with a descriptor to pass: it travels with the first bytes sent and with no others. */
  method WriteIovecsExactWithFd(parts: array<seq<byte>>, script: seq<Answer>)
    returns (wire: seq<byte>, attachments: seq<nat>, ok: bool)
    modifies parts
    ensures wire <= old(Flat(parts[..]))
    ensures ok <==> wire == old(Flat(parts[..]))
    ensures attachments == if wire == [] then [] else [0]
  {
    wire, attachments, ok := WriteGathered(parts, true, script);
  }

  method SkipEmpty(parts: array<seq<byte>>, first: nat) returns (next: nat)
    requires first <= parts.Length
    ensures first <= next <= parts.Length && Flat(parts[next..]) == Flat(parts[first..])
    ensures next < parts.Length ==> parts[next] != []
  {
    next := first;
    while next < parts.Length && parts[next] == []
      invariant first <= next <= parts.Length && Flat(parts[next..]) == Flat(parts[first..])
    {
      FlatStep(parts[..], next);
      assert parts[..][next..] == parts[next..] && parts[..][next + 1..] == parts[next + 1..];
      next := next + 1;
    }
  }

  // One successful send: some bytes from the front, and no others, leave the parts.
  method SendOnce(parts: array<seq<byte>>, first: nat, count: nat) returns (next: nat, data: seq<byte>)
    requires first < parts.Length && parts[first] != [] && count > 0
    modifies parts
    ensures first <= next <= parts.Length && 0 < |data| <= count
    ensures data + Flat(parts[next..]) == old(Flat(parts[first..]))
  {
    FlatStep(parts[..], first);
    assert parts[..][first..] == parts[first..];
    var flat := Flat(parts[first..]);
    var sent := Min(count, |flat|);
    data := flat[..sent];
    next := Advance(parts, first, sent);
  }

  // With a part left the wire is a proper prefix.
  lemma PartLeft(wire: seq<byte>, parts: seq<seq<byte>>, first: nat)
    requires first < |parts| && parts[first] != []
    ensures wire <= wire + Flat(parts[first..]) && wire != wire + Flat(parts[first..])
  {
    FlatStep(parts, first);
    assert |wire + Flat(parts[first..])| > |wire|;
  }

  /** The loop both writers run; `attachments` lists the wire offsets at which the descriptor was attached. */
  method WriteGathered(parts: array<seq<byte>>, passing: bool, script: seq<Answer>)
    returns (wire: seq<byte>, attachments: seq<nat>, ok: bool)
    modifies parts
    ensures wire <= old(Flat(parts[..]))
    ensures ok <==> wire == old(Flat(parts[..]))
    ensures attachments == if passing && wire != [] then [0] else []
  {
    ghost var all := Flat(parts[..]);
    var first, clock, attached := 0, 0, !passing;
    wire, attachments := [], [];
    assert parts[0..] == parts[..];
    while first < parts.Length
      invariant first <= parts.Length && clock <= |script|
      invariant wire + Flat(parts[first..]) == all
      invariant attached <==> !passing || wire != []
      invariant attachments == if passing && wire != [] then [0] else []
      decreases |script| - clock, parts.Length - first
    {
      first := SkipEmpty(parts, first);
      if first == parts.Length {
        break;
      }
      if clock == |script| {
        PartLeft(wire, parts[..], first);
        return wire, attachments, false;  // the deadline passes first
      }
      match script[clock] {
      case Moved(count) =>
        if count == 0 {
          PartLeft(wire, parts[..], first);
          return wire, attachments, false;
        }
        if !attached {
          attachments := attachments + [|wire|];
          attached := true;
        }
        var data: seq<byte>;
        first, data := SendOnce(parts, first, count);
        Assoc(wire, data, Flat(parts[first..]));
        wire := wire + data;
      case WouldBlock =>
      case Interrupted =>
      case Failed =>
        PartLeft(wire, parts[..], first);
        return wire, attachments, false;
      }
      clock := clock + 1;
    }
    assert parts[first..] == [];
    ok := true;
  }

  const READ_AHEAD_CAPACITY: nat := 4096

  /** The client's read-ahead buffer in front of a socket. `socket` holds the bytes the peer has sent
      and will send that have not been received yet. */
  class BufferedReader {
    const buffer: array<byte>
    var start: nat
    var size: nat
    var socket: seq<byte>

    ghost predicate Valid() reads this {
      buffer.Length == READ_AHEAD_CAPACITY && start + size <= buffer.Length
    }

    // All bytes a caller has not been given yet.
    ghost function Unread(): seq<byte>
      requires Valid()
      reads this, buffer
    {
      buffer[start..start + size] + socket
    }

    constructor (socket: seq<byte>)
      ensures Valid() && fresh(buffer) && Unread() == socket
    {
      buffer := new byte[READ_AHEAD_CAPACITY](_ => 0);
      start, size, this.socket := 0, 0, socket;
    }

    // One receive() call: at least one byte unless it fails.
    method Receive(capacity: nat, script: seq<Answer>) returns (data: seq<byte>, rest: seq<Answer>, ok: bool)
      requires capacity > 0
      modifies this`socket
      ensures data + socket == old(socket)
      ensures ok ==> 0 < |data| <= capacity && |rest| < |script|
      ensures !ok ==> data == []
      ensures Supplied(script, |old(socket)|) && old(socket) != [] ==> ok && Supplied(rest, |socket|)
    {
      data, rest, ok := [], script, false;
      while rest != []
        invariant socket == old(socket) && |rest| <= |script|
        invariant Supplied(script, |socket|) && socket != [] ==> rest == script
      {
        var answer := rest[0];
        rest := rest[1..];
        if answer.Failed? || (answer.Moved? && answer.count == 0) {
          return;
        }
        if answer.Moved? && socket != [] {
          var n := Min(Min(answer.count, capacity), |socket|);
          data, socket, ok := socket[..n], socket[n..], true;
          return;
        }
      }
    }

    // Serves up to `want` bytes from the buffer.
    method TakeBuffered(want: nat) returns (data: seq<byte>)
      requires Valid() && size > 0 && want > 0
      modifies this`start, this`size
      ensures Valid() && size < old(size) && 0 < |data| <= want
      ensures data + Unread() == old(Unread())
    {
      var take := Min(want, size);
      data := buffer[start..start + take];
      assert buffer[start..start + size] == data + buffer[start + take..start + size];
      start, size := start + take, size - take;
    }

    // Refills the empty buffer with one receive.
    method Refill(script: seq<Answer>) returns (rest: seq<Answer>, ok: bool)
      requires Valid() && size == 0
      modifies this`start, this`size, this`socket, buffer
      ensures Valid() && Unread() == old(Unread())
      ensures ok ==> |rest| < |script|
      ensures Supplied(script, |old(socket)|) && old(socket) != [] ==> ok && Supplied(rest, |socket|)
    {
      var chunk: seq<byte>;
      chunk, rest, ok := Receive(buffer.Length, script);
      start, size := 0, |chunk|;
      forall i | 0 <= i < |chunk| {
        buffer[i] := chunk[i];
      }
      assert buffer[0..size] == chunk;
    }

    /** Delivers exactly the next `count` unread bytes, whatever mix of buffered and direct receives it takes;
        a failing call delivers only a prefix of them and loses nothing else. */
    method Read(count: nat, script: seq<Answer>) returns (data: seq<byte>, rest: seq<Answer>, ok: bool)
      requires Valid()
      modifies this`start, this`size, this`socket, buffer
      ensures Valid()
      ensures data + Unread() == old(Unread())
      ensures ok <==> |data| == count
      ensures |data| <= count
      ensures Supplied(script, |old(socket)|) && count <= |old(Unread())| ==> ok && Supplied(rest, |socket|)
    {
      data, rest := [], script;
      while |data| < count
        invariant Valid() && |data| <= count
        invariant data + Unread() == old(Unread())
        invariant Supplied(script, |old(socket)|) && count <= |old(Unread())| ==> Supplied(rest, |socket|)
        decreases |rest|, size
      {
        if size != 0 {
          var served := TakeBuffered(count - |data|);
          Assoc(data, served, Unread());
          data := data + served;
        } else if count - |data| >= buffer.Length {
          assert buffer[start..start + size] == [];
          data, rest, ok := ReadDirect(data, count, rest);
          assert Unread() == socket;
          return;
        } else {
          rest, ok := Refill(rest);
          if !ok {
            return;
          }
        }
      }
      ok := true;
    }

    // Fills the rest of a large read without going through the buffer.
    method ReadDirect(prefix: seq<byte>, count: nat, script: seq<Answer>)
      returns (data: seq<byte>, rest: seq<Answer>, ok: bool)
      requires Valid() && size == 0 && |prefix| < count
      modifies this`socket
      ensures prefix <= data && data + socket == prefix + old(socket)
      ensures ok <==> |data| == count
      ensures |data| <= count
      ensures Supplied(script, |old(socket)|) && count <= |prefix| + |old(socket)| ==> ok && Supplied(rest, |socket|)
    {
      data, rest := prefix, script;
      while |data| < count
        invariant prefix <= data && |data| <= count
        invariant Supplied(script, |old(socket)|) && count <= |prefix| + |old(socket)| ==> Supplied(rest, |socket|)
        invariant data + socket == prefix + old(socket)
        decreases |rest|
      {
        var chunk, more, received := Receive(count - |data|, rest);
        if !received {
          return data, more, false;
        }
        data, rest := data + chunk, more;
      }
      ok := true;
    }
  }

  datatype ReadError = IoFailure | BadFrame

  datatype Frame = Frame(header: Header, route: seq<byte>, body: seq<byte>)

  /** Reads one fixed-request frame through the buffer. */
  method ReadRequestFrame(reader: BufferedReader, script: seq<Answer>) returns (r: Result<Frame, ReadError>)
    requires reader.Valid()
    modifies reader, reader.buffer
    ensures reader.Valid()
    ensures r.Ok? ==>
              && r.value.header.kind == Request && Allowed(r.value.header)
              && HeaderBytes(r.value.header) + r.value.route + r.value.body + reader.Unread() == old(reader.Unread())
              && |r.value.route| == r.value.header.arg1 && |r.value.body| == r.value.header.arg2
    ensures r == Err(BadFrame) ==>
              var unread := old(reader.Unread());
              && |unread| >= HEADER_SIZE
              && (Decode(unread[..HEADER_SIZE]).Ok? ==> Decode(unread[..HEADER_SIZE]).value.kind != Request)
  {
    var head, s1, ok := reader.Read(HEADER_SIZE, script);
    if !ok { return Err(IoFailure); }
    assert head == old(reader.Unread())[..HEADER_SIZE];
    var decoded := Decode(head);
    if decoded.Err? || decoded.value.kind != Request { return Err(BadFrame); }
    EncodeOfDecode(head);
    assert HeaderBytes(decoded.value) == head;
    var route, s2, routeOk := reader.Read(decoded.value.arg1, s1);
    if !routeOk { return Err(IoFailure); }
    var body, s3, bodyOk := reader.Read(decoded.value.arg2, s2);
    if !bodyOk { return Err(IoFailure); }
    Assoc(head, route, body + reader.Unread());
    Assoc(head + route, body, reader.Unread());
    r := Ok(Frame(decoded.value, route, body));
  }

  lemma PrefixSplit(a: seq<byte>, b: seq<byte>, c: seq<byte>, d: seq<byte>)
    requires |a| == |c| && a + b == c + d
    ensures a == c && b == d
  {
    assert a == (a + b)[..|a|] == (c + d)[..|c|] == c;
    assert b == (a + b)[|a|..] == (c + d)[|c|..] == d;
  }

  /** A frame's fields are determined by its bytes, whatever follows it on the wire. */
  lemma FrameUnique(f: Frame, g: Frame, rest: seq<byte>, after: seq<byte>)
    requires Allowed(f.header) && |f.route| == f.header.arg1 && |f.body| == f.header.arg2
    requires Allowed(g.header) && |g.route| == g.header.arg1 && |g.body| == g.header.arg2
    requires HeaderBytes(f.header) + f.route + f.body + rest == HeaderBytes(g.header) + g.route + g.body + after
    ensures f == g && rest == after
  {
    var x, y := HeaderBytes(f.header), HeaderBytes(g.header);
    assert x + f.route + f.body + rest == x + (f.route + (f.body + rest));
    assert y + g.route + g.body + after == y + (g.route + (g.body + after));
    PrefixSplit(x, f.route + (f.body + rest), y, g.route + (g.body + after));
    DecodeOfEncode(f.header);
    DecodeOfEncode(g.header);
    PrefixSplit(f.route, f.body + rest, g.route, g.body + after);
    PrefixSplit(f.body, rest, g.body, after);
  }

  lemma FlatOfThree(parts: seq<seq<byte>>)
    requires |parts| == 3
    ensures Flat(parts) == parts[0] + parts[1] + parts[2]
  {
    assert parts[1..][1..] == [parts[2]];
    assert Flat([parts[2]]) == parts[2];
  }

  /** The whole trip: gathered, sent under any partial sends, received under any receives, decoded. */
  method RequestRoundTrip(id: u32, flags: u16, version: byte, route: seq<byte>, body: seq<byte>, after: seq<byte>,
                          sends: seq<Answer>, receives: seq<Answer>)
    returns (r: Result<Frame, ReadError>, sent: bool, attachments: seq<nat>)
    requires |route| < 0x1_0000_0000 && |body| < 0x1_0000_0000
    requires Allowed(Header(Request, id, |route|, |body|, flags, version))
    ensures sent ==> r != Err(BadFrame)
    ensures sent && r.Ok? ==> r.value == Frame(Header(Request, id, |route|, |body|, flags, version), route, body)
    ensures sent ==> attachments == if CarriesFd(flags) then [0] else []
  {
    var h := Header(Request, id, |route|, |body|, flags, version);
    var header := EncodeHeader(h);
    var parts := new seq<byte>[] [header[..], route, body];
    FlatOfThree(parts[..]);
    var wire: seq<byte>;
    if CarriesFd(flags) {
      wire, attachments, sent := WriteIovecsExactWithFd(parts, sends);
    } else {
      wire, sent := WriteIovecsExact(parts, sends);
      attachments := [];
    }
    var reader := new BufferedReader(wire + after);
    DecodeOfEncode(h);
    assert sent ==> (wire + after)[..HEADER_SIZE] == HeaderBytes(h);
    r := ReadRequestFrame(reader, receives);
    if sent && r.Ok? {
      FrameUnique(r.value, Frame(h, route, body), reader.Unread(), after);
    }
  }
}
