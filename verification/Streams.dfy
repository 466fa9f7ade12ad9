/** Chunked streams: the chunk writers, the incremental server-side reader and the client's response reader. */
module Streams {
  import opened Basics
  import opened Codec
  import opened Transport

  const SIZE_MAX: nat := 0xFFFF_FFFF_FFFF_FFFF

  // One direction of a stream: its frame types, its request id and the receiver's size limit (0 for none).
  datatype Kind = Kind(chunk: WireType, end: WireType, id: u32, maxSize: nat) {
    predicate Fits(total: nat) { total <= SIZE_MAX && (maxSize != 0 ==> total <= maxSize) }

    ghost predicate Proper() {
      chunk in {StreamRequestChunk, StreamResponseChunk} && end in {StreamRequestEnd, StreamResponseEnd}
    }
  }

  datatype StreamError = BadHeader | BadEnd | BadChunk | TooLarge

  // What the frame header at the front of a stream announces, given the bytes accepted so far.
  datatype Announced = End | Chunk(size: nat) | Refused(error: StreamError)

  // A header decoder; announcing is parametric in it.
  type Decoder = seq<byte> -> Result<Header, DecodeError>

  function WireDecoder(): Decoder {
    (header: seq<byte>) => if |header| == HEADER_SIZE then Decode(header) else Err(BadMagic)
  }

  function Announce(k: Kind, total: nat, header: seq<byte>): Announced { Announces(k, total, WireDecoder()(header)) }

  function Announces(k: Kind, total: nat, decoded: Result<Header, DecodeError>): Announced {
    if decoded.Err? then Refused(BadHeader)
    else
      var h := decoded.value;
      if h.kind == k.end then
        if h.id != k.id || h.arg1 != 0 || h.arg2 != 0 then Refused(BadEnd) else End
      else if h.kind != k.chunk || h.id != k.id || h.arg1 == 0 || h.arg2 != 0 then Refused(BadChunk)
      else if !k.Fits(total + h.arg1) then Refused(TooLarge)
      else Chunk(h.arg1)
  }

  // How a receiver judges a header; reading is parametric in it.
  type Judge = (nat, seq<byte>) -> Announced

  function JudgeOf(k: Kind): Judge { JudgeBy(WireDecoder(), k) }

  function JudgeBy(decode: Decoder, k: Kind): Judge {
    (total: nat, header: seq<byte>) => Announces(k, total, decode(header))
  }

  datatype Finish = Ended(rest: seq<byte>) | Short | Broken(error: StreamError)
  datatype Meaning = Meaning(payload: seq<byte>, finish: Finish)

  /** Reference reading of a whole byte string: the payload it carries and how it finishes. */
  ghost function Denote(judge: Judge, total: nat, remaining: nat, bytes: seq<byte>): Meaning
    decreases |bytes|, remaining
  {
    if remaining > 0 then
      if |bytes| < remaining then Meaning(bytes, Short)
      else Prepend(bytes[..remaining], Denote(judge, total, 0, bytes[remaining..]))
    else if |bytes| < HEADER_SIZE then Meaning([], Short)
    else match judge(total, bytes[..HEADER_SIZE])
      case End => Meaning([], Ended(bytes[HEADER_SIZE..]))
      case Chunk(size) => Denote(judge, total + size, size, bytes[HEADER_SIZE..])
      case Refused(e) => Meaning([], Broken(e))
  }

  ghost function Prepend(data: seq<byte>, m: Meaning): Meaning { Meaning(data + m.payload, m.finish) }

  lemma PrependTwice(a: seq<byte>, b: seq<byte>, m: Meaning)
    ensures Prepend(a, Prepend(b, m)) == Prepend(a + b, m)
  {
  }

  lemma PrependNothing(data: seq<byte>, finish: Finish)
    ensures Prepend(data, Meaning([], finish)) == Meaning(data, finish)
  {
  }

  /** Reading part of a frame leaves the meaning of the rest. */
  lemma {:induction false} DenotePart(judge: Judge, total: nat, remaining: nat, bytes: seq<byte>, n: nat)
    requires n <= remaining && n <= |bytes|
    ensures Denote(judge, total, remaining, bytes) ==
            Prepend(bytes[..n], Denote(judge, total, remaining - n, bytes[n..]))
  {
    if n == remaining {
      assert n == 0 ==> bytes[0..] == bytes;
    } else if |bytes| < remaining {
      assert bytes == bytes[..n] + bytes[n..];
    } else {
      assert bytes[..remaining] == bytes[..n] + bytes[n..][..remaining - n];
      assert bytes[remaining..] == bytes[n..][remaining - n..];
    }
  }

  // ---- writing -----------------------------------------------------------

  function ChunkFrame(k: Kind, version: byte, data: seq<byte>): seq<byte>
    requires |data| < 0x1_0000_0000
  {
    HeaderBytes(Header(k.chunk, k.id, |data|, 0, 0, version)) + data
  }

  function EndFrame(k: Kind, version: byte): seq<byte> {
    HeaderBytes(Header(k.end, k.id, 0, 0, 0, version))
  }

  function ChunkFrames(k: Kind, version: byte, chunks: seq<seq<byte>>): seq<byte>
    requires forall i | 0 <= i < |chunks| :: |chunks[i]| < 0x1_0000_0000
  {
    if chunks == [] then [] else ChunkFrame(k, version, chunks[0]) + ChunkFrames(k, version, chunks[1..])
  }

  lemma {:induction false} ChunkFramesAppend(k: Kind, version: byte, chunks: seq<seq<byte>>, c: seq<byte>)
    requires (forall i | 0 <= i < |chunks| :: |chunks[i]| < 0x1_0000_0000) && |c| < 0x1_0000_0000
    ensures ChunkFrames(k, version, chunks + [c]) == ChunkFrames(k, version, chunks) + ChunkFrame(k, version, c)
  {
    if chunks == [] {
      assert [c][1..] == [];
    } else {
      ChunkFramesAppend(k, version, chunks[1..], c);
      assert (chunks + [c])[1..] == chunks[1..] + [c];
      Assoc(ChunkFrame(k, version, chunks[0]), ChunkFrames(k, version, chunks[1..]), ChunkFrame(k, version, c));
    }
  }

  lemma {:induction false} FlatAppend(chunks: seq<seq<byte>>, c: seq<byte>)
    ensures Flat(chunks + [c]) == Flat(chunks) + c
  {
    if chunks == [] {
      assert [c][1..] == [];
    } else {
      FlatAppend(chunks[1..], c);
      assert (chunks + [c])[1..] == chunks[1..] + [c];
    }
  }

  datatype WriteOutcome = Written | ReaderOverrun | ExceedsLimit

  // What the application's body reader hands over before its first empty answer.
  function Offered(answers: seq<seq<byte>>): seq<seq<byte>> {
    if answers == [] || answers[0] == [] then [] else [answers[0]] + Offered(answers[1..])
  }

  lemma OfferedStep(answers: seq<seq<byte>>, written: seq<seq<byte>>)
    requires |written| < |answers| && answers[|written|] != []
    requires written + Offered(answers[|written|..]) == Offered(answers)
    ensures var i := |written|;
            && Offered(answers)[i..] != [] && Offered(answers)[i] == answers[i]
            && written + [answers[i]] + Offered(answers[i + 1..]) == Offered(answers)
  {
    var i := |written|;
    assert answers[i..][1..] == answers[i + 1..];
    Inserted(written, answers[i], Offered(answers[i + 1..]), Offered(answers));
  }

  lemma Inserted(front: seq<seq<byte>>, x: seq<byte>, rest: seq<seq<byte>>, all: seq<seq<byte>>)
    requires front + ([x] + rest) == all
    ensures all[|front|..] != [] && all[|front|] == x && front + [x] + rest == all
  {
  }

  // Why writing stopped after the chunks `written`.
  ghost predicate StoppedBy(k: Kind, chunkSize: nat, answers: seq<seq<byte>>, written: seq<seq<byte>>,
                            outcome: WriteOutcome) {
    var offered := Offered(answers);
    && written <= offered
    && match outcome
       case Written => written == offered
       case ReaderOverrun => |written| < |offered| && |offered[|written|]| > chunkSize
       case ExceedsLimit => |written| < |offered| && !k.Fits(|Flat(written)| + |offered[|written|]|)
  }

  // The writing loop so far: the chunks written, their frames on the wire and their total size.
  ghost predicate Writing(k: Kind, version: byte, chunkSize: nat, answers: seq<seq<byte>>, written: seq<seq<byte>>,
                          wire: seq<byte>, total: nat)
    requires chunkSize < 0x1_0000_0000
  {
    && |written| <= |answers| && written + Offered(answers[|written|..]) == Offered(answers)
    && (forall i | 0 <= i < |written| :: 0 < |written[i]| <= chunkSize)
    && total == |Flat(written)| && k.Fits(total) && wire == ChunkFrames(k, version, written)
  }

  lemma WriteMore(k: Kind, version: byte, chunkSize: nat, answers: seq<seq<byte>>, written: seq<seq<byte>>,
                  wire: seq<byte>, total: nat)
    requires chunkSize < 0x1_0000_0000 && Writing(k, version, chunkSize, answers, written, wire, total)
    requires |written| < |answers| && 0 < |answers[|written|]| <= chunkSize && k.Fits(total + |answers[|written|]|)
    ensures var data := answers[|written|];
            Writing(k, version, chunkSize, answers,
                    written + [data], wire + ChunkFrame(k, version, data), total + |data|)
  {
    var data := answers[|written|];
    OfferedStep(answers, written);
    FlatAppend(written, data);
    ChunkFramesAppend(k, version, written, data);
  }

  /** Writes a stream body; `answers` are what successive calls of the body reader return. */
  method WriteBody(k: Kind, version: byte, chunkSize: nat, answers: seq<seq<byte>>)
    returns (wire: seq<byte>, outcome: WriteOutcome, written: seq<seq<byte>>)
    requires 0 < chunkSize < 0x1_0000_0000
    ensures forall i | 0 <= i < |written| :: 0 < |written[i]| <= chunkSize
    ensures k.Fits(|Flat(written)|)
    ensures wire == ChunkFrames(k, version, written) + (if outcome == Written then EndFrame(k, version) else [])
    ensures StoppedBy(k, chunkSize, answers, written, outcome)
  {
    wire, written := [], [];
    var total: nat := 0;
    assert answers[0..] == answers;
    while |written| < |answers| && answers[|written|] != []
      invariant Writing(k, version, chunkSize, answers, written, wire, total)
      decreases |answers| - |written|
    {
      var data := answers[|written|];
      if |data| > chunkSize {
        OfferedStep(answers, written);
        return wire, ReaderOverrun, written;
      }
      if |data| > SIZE_MAX - total || (k.maxSize != 0 && |data| > k.maxSize - total) {
        OfferedStep(answers, written);
        return wire, ExceedsLimit, written;
      }
      WriteMore(k, version, chunkSize, answers, written, wire, total);
      total := total + |data|;
      wire, written := wire + ChunkFrame(k, version, data), written + [data];
    }
    assert Offered(answers[|written|..]) == [];
    wire, outcome := wire + EndFrame(k, version), Written;
  }

  // ---- round trip ----------------------------------------------------------

  // The receiver accepts the sender's frames: the end frame, and each chunk that fits.
  ghost predicate Understands(judge: Judge, k: Kind, version: byte) {
    && (forall total: nat :: judge(total, EndFrame(k, version)) == End)
    && (forall total: nat, n: u32 | n > 0 :: judge(total, HeaderBytes(Header(k.chunk, k.id, n, 0, 0, version)))
                                             == if k.Fits(total + n) then Chunk(n) else Refused(TooLarge))
  }

  ghost predicate Inverts(decode: Decoder) { forall h | Allowed(h) :: decode(HeaderBytes(h)) == Ok(h) }

  lemma WireDecoderInverts()
    ensures Inverts(WireDecoder())
  {
    forall h | Allowed(h) ensures WireDecoder()(HeaderBytes(h)) == Ok(h) {
      DecodeOfEncode(h);
    }
  }

  lemma UnderstandsBy(decode: Decoder, k: Kind, version: byte)
    requires Inverts(decode) && k.Proper() && (version == VERSION || version == CANCELLABLE_VERSION)
    ensures Understands(JudgeBy(decode, k), k, version)
  {
    forall total: nat ensures Announces(k, total, decode(EndFrame(k, version))) == End {
      assert Allowed(Header(k.end, k.id, 0, 0, 0, version));
    }
    forall total: nat, n: u32 | n > 0
      ensures Announces(k, total, decode(HeaderBytes(Header(k.chunk, k.id, n, 0, 0, version))))
              == if k.Fits(total + n) then Chunk(n) else Refused(TooLarge)
    {
      assert Allowed(Header(k.chunk, k.id, n, 0, 0, version));
    }
  }

  lemma KindUnderstands(k: Kind, version: byte)
    requires k.Proper() && (version == VERSION || version == CANCELLABLE_VERSION)
    ensures Understands(JudgeOf(k), k, version)
  {
    WireDecoderInverts();
    UnderstandsBy(WireDecoder(), k, version);
  }

  lemma EndAhead(judge: Judge, k: Kind, version: byte, total: nat, rest: seq<byte>)
    requires Understands(judge, k, version)
    ensures Denote(judge, total, 0, EndFrame(k, version) + rest) == Meaning([], Ended(rest))
  {
    var wire := EndFrame(k, version) + rest;
    assert wire[..HEADER_SIZE] == EndFrame(k, version) && wire[HEADER_SIZE..] == rest;
  }

  lemma ChunkAhead(judge: Judge, k: Kind, version: byte, total: nat, c: seq<byte>, tail: seq<byte>)
    requires Understands(judge, k, version) && 0 < |c| < 0x1_0000_0000
    ensures Denote(judge, total, 0, ChunkFrame(k, version, c) + tail)
            == if k.Fits(total + |c|) then Prepend(c, Denote(judge, total + |c|, 0, tail))
               else Meaning([], Broken(TooLarge))
  {
    var h := HeaderBytes(Header(k.chunk, k.id, |c|, 0, 0, version));
    var wire := ChunkFrame(k, version, c) + tail;
    Assoc(h, c, tail);
    assert wire[..HEADER_SIZE] == h && wire[HEADER_SIZE..] == c + tail;
    assert (c + tail)[..|c|] == c && (c + tail)[|c|..] == tail;
  }

  lemma {:induction false} ChunksAhead(judge: Judge, k: Kind, version: byte, chunks: seq<seq<byte>>, total: nat,
                                       tail: seq<byte>)
    requires Understands(judge, k, version)
    requires forall i | 0 <= i < |chunks| :: 0 < |chunks[i]| < 0x1_0000_0000
    ensures var m := Denote(judge, total, 0, ChunkFrames(k, version, chunks) + tail);
            && (k.Fits(total + |Flat(chunks)|) ==>
                  m == Prepend(Flat(chunks), Denote(judge, total + |Flat(chunks)|, 0, tail)))
            && (k.Fits(total) && !k.Fits(total + |Flat(chunks)|) ==> m.finish == Broken(TooLarge))
    decreases |chunks|
  {
    if chunks == [] {
      assert ChunkFrames(k, version, chunks) + tail == tail;
    } else {
      var c, others := chunks[0], ChunkFrames(k, version, chunks[1..]);
      Assoc(ChunkFrame(k, version, c), others, tail);
      ChunkAhead(judge, k, version, total, c, others + tail);
      ChunksAhead(judge, k, version, chunks[1..], total + |c|, tail);
      PrependTwice(c, Flat(chunks[1..]), Denote(judge, total + |Flat(chunks)|, 0, tail));
    }
  }

  lemma RoundTripUnder(judge: Judge, k: Kind, version: byte, chunks: seq<seq<byte>>, rest: seq<byte>)
    requires Understands(judge, k, version)
    requires forall i | 0 <= i < |chunks| :: 0 < |chunks[i]| < 0x1_0000_0000
    ensures var m := Denote(judge, 0, 0, ChunkFrames(k, version, chunks) + (EndFrame(k, version) + rest));
            && (k.Fits(|Flat(chunks)|) ==> m == Meaning(Flat(chunks), Ended(rest)))
            && (!k.Fits(|Flat(chunks)|) ==> m.finish == Broken(TooLarge))
  {
    ChunksAhead(judge, k, version, chunks, 0, EndFrame(k, version) + rest);
    EndAhead(judge, k, version, |Flat(chunks)|, rest);
  }

  /** Every chunked body reads back as its bytes, stopping at the first byte after the end frame,
      exactly when it fits the receiver's limit; otherwise the receiver refuses it as too large. */
  lemma StreamRoundTrip(k: Kind, version: byte, chunks: seq<seq<byte>>, rest: seq<byte>)
    requires k.Proper() && (version == VERSION || version == CANCELLABLE_VERSION)
    requires forall i | 0 <= i < |chunks| :: 0 < |chunks[i]| < 0x1_0000_0000
    ensures var m := Denote(JudgeOf(k), 0, 0, ChunkFrames(k, version, chunks) + (EndFrame(k, version) + rest));
            && (k.Fits(|Flat(chunks)|) ==> m == Meaning(Flat(chunks), Ended(rest)))
            && (!k.Fits(|Flat(chunks)|) ==> m.finish == Broken(TooLarge))
  {
    KindUnderstands(k, version);
    RoundTripUnder(JudgeOf(k), k, version, chunks, rest);
  }

  // ---- reading on the server ------------------------------------------------

  /** The bytes of a leased connection: those the reactor had buffered, then the socket. */
  class StreamByteSource {
    const buffered: seq<byte>
    var offset: nat
    var socket: seq<byte>

    constructor (buffered: seq<byte>, offset: nat, socket: seq<byte>)
      requires offset <= |buffered|
      ensures Valid() && Unread() == buffered[offset..] + socket
    {
      this.buffered, this.offset, this.socket := buffered, offset, socket;
    }

    ghost predicate Valid() reads this { offset <= |buffered| }

    ghost function Unread(): seq<byte>
      requires Valid()
      reads this
    {
      buffered[offset..] + socket
    }

    /** Reads exactly `size` bytes, or fails after losing nothing but what it returns. */
    method Read(size: nat, script: seq<Answer>) returns (data: seq<byte>, rest: seq<Answer>, ok: bool)
      requires Valid()
      modifies this
      ensures Valid()
      ensures data + Unread() == old(Unread())
      ensures |data| <= size && (ok <==> |data| == size)
      ensures Supplied(script, |old(Unread())|) && size <= |old(Unread())| ==> ok && Supplied(rest, |Unread()|)
    {
      data, rest := [], script;
      if offset < |buffered| {
        var take := Min(size, |buffered| - offset);
        data := buffered[offset..offset + take];
        assert buffered[offset..] == data + buffered[offset + take..];
        Assoc(data, buffered[offset + take..], socket);
        offset := offset + take;
      }
      ghost var all := old(Unread());
      while |data| < size
        invariant |data| <= size && offset <= |buffered|
        invariant |data| < size ==> offset == |buffered|
        invariant data + (buffered[offset..] + socket) == all
        invariant Supplied(script, |all|) && size <= |all| ==> Supplied(rest, |all| - |data|)
        decreases |rest|
      {
        if rest == [] {
          return data, rest, false;
        }
        var answer := rest[0];
        rest := rest[1..];
        if answer.Failed? || (answer.Moved? && answer.count == 0) {
          return data, rest, false;
        }
        if answer.Moved? && socket != [] {
          var n := Min(Min(answer.count, size - |data|), |socket|);
          ReceiveSome(data, socket, n);
          assert buffered[offset..] + socket == socket;
          data, socket := data + socket[..n], socket[n..];
          assert buffered[offset..] + socket == socket;
        }
      }
      ok := true;
    }
  }

  lemma ReceiveSome(data: seq<byte>, socket: seq<byte>, n: nat)
    requires n <= |socket|
    ensures data + socket == data + socket[..n] + socket[n..]
  {
    assert socket == socket[..n] + socket[n..];
  }

  datatype ReadOutcome = Data(bytes: seq<byte>) | StreamFault(error: StreamError) | IoFault

  /** The incremental reader a stream handler pulls its request body from. */
  class IncomingStream {
    const source: StreamByteSource
    const kind: Kind
    var totalSize: nat
    var frameRemaining: nat
    var ended: bool
    ghost var delivered: nat

    constructor (source: StreamByteSource, kind: Kind)
      requires source.Valid()
      ensures Valid() && this.source == source && this.kind == kind && !ended && delivered == 0
      ensures totalSize == 0 && frameRemaining == 0
    {
      this.source, this.kind := source, kind;
      totalSize, frameRemaining, ended, delivered := 0, 0, false, 0;
    }

    // The bytes handed out never pass a nonzero limit, whatever the peer sends.
    ghost predicate Valid() reads this, source {
      && source.Valid()
      && delivered + frameRemaining == totalSize
      && kind.Fits(totalSize)
      && (ended ==> frameRemaining == 0)
    }

    ghost function Ahead(): Meaning
      requires Valid()
      reads this, source
    {
      if ended then Meaning([], Ended(source.Unread()))
      else Denote(JudgeOf(kind), totalSize, frameRemaining, source.Unread())
    }

    // Reads the next frame header between frames; `r` is set when the pull is over.
    method NextFrame(script: seq<Answer>) returns (r: ReadOutcome, rest: seq<Answer>)
      requires Valid() && !ended && frameRemaining == 0
      modifies this, source
      ensures Valid() && delivered == old(delivered)
      ensures r.Data? ==> r.bytes == [] && Ahead() == old(Ahead()) && (ended || frameRemaining > 0)
      ensures r.StreamFault? ==> old(Ahead()) == Meaning([], Broken(r.error))
      ensures Supplied(script, |old(source.Unread())|) && !old(Ahead()).finish.Short? ==>
                !r.IoFault? && Supplied(rest, |source.Unread()|)
    {
      ghost var unread := source.Unread();
      var header, more, ok := source.Read(HEADER_SIZE, script);
      if !ok {
        return IoFault, more;
      }
      Front(header, source.Unread(), unread);
      match Announce(kind, totalSize, header) {
        case End =>
          ended := true;
        case Refused(e) =>
          return StreamFault(e), more;
        case Chunk(size) =>
          totalSize, frameRemaining := totalSize + size, size;
      }
      r, rest := Data([]), more;
    }

    /** One pull: what it returns is exactly the front of the reference payload. */
    method Read(capacity: nat, script: seq<Answer>) returns (r: ReadOutcome, rest: seq<Answer>)
      requires Valid()
      modifies this, source
      ensures Valid()
      ensures r.Data? ==> Prepend(r.bytes, Ahead()) == old(Ahead()) && |r.bytes| <= capacity
      ensures delivered == old(delivered) + if r.Data? then |r.bytes| else 0
      ensures r.Data? && r.bytes == [] && capacity > 0 ==> ended
      ensures r.StreamFault? ==> old(Ahead()) == Meaning([], Broken(r.error))
      ensures Supplied(script, |old(source.Unread())|) && !old(Ahead()).finish.Short? ==>
                !r.IoFault? && Supplied(rest, |source.Unread()|)
    {
      rest := script;
      if !ended && frameRemaining == 0 {
        r, rest := NextFrame(rest);
        if !r.Data? {
          return;
        }
      }
      if ended {
        return Data([]), rest;
      }
      r, rest := ReadFrame(capacity, rest);
    }

    // Reads from the chunk in progress.
    method ReadFrame(capacity: nat, script: seq<Answer>) returns (r: ReadOutcome, rest: seq<Answer>)
      requires Valid() && !ended && frameRemaining > 0
      modifies this, source
      ensures Valid() && !ended && !r.StreamFault?
      ensures r.Data? ==> Prepend(r.bytes, Ahead()) == old(Ahead())
      ensures r.Data? ==> |r.bytes| == Min(capacity, old(frameRemaining))
      ensures delivered == old(delivered) + if r.Data? then |r.bytes| else 0
      ensures Supplied(script, |old(source.Unread())|) && !old(Ahead()).finish.Short? ==>
                !r.IoFault? && Supplied(rest, |source.Unread()|)
    {
      ghost var unread := source.Unread();
      var size := Min(capacity, frameRemaining);
      var data, more, ok := source.Read(size, script);
      if !ok {
        return IoFault, more;
      }
      Front(data, source.Unread(), unread);
      DenotePart(JudgeOf(kind), totalSize, frameRemaining, unread, size);
      frameRemaining, delivered := frameRemaining - size, delivered + size;
      r, rest := Data(data), more;
    }
  }

  lemma Front(data: seq<byte>, rest: seq<byte>, all: seq<byte>)
    requires data + rest == all
    ensures data == all[..|data|] && rest == all[|data|..]
  {
  }

  /** A handler's session with its body: pulls of any nonzero sizes, then the drain that follows every handler. Together
      they return the reference payload, and the source is left at the first byte after the end frame, or they stop at
      the fault where the reference reading breaks. With calls enough only a body cut short fails otherwise. */
  method ReadThenDrain(stream: IncomingStream, capacities: seq<nat>, drainSize: nat, script: seq<Answer>)
    returns (got: seq<byte>, drained: seq<byte>, r: Result<(), ReadOutcome>)
    requires stream.Valid() && drainSize > 0 && forall i | 0 <= i < |capacities| :: capacities[i] > 0
    modifies stream, stream.source
    ensures stream.Valid()
    ensures r.Ok? ==> Meaning(got + drained, Ended(stream.source.Unread())) == old(stream.Ahead())
    ensures r.Err? && r.error.StreamFault? ==> Meaning(got + drained, Broken(r.error.error)) == old(stream.Ahead())
    ensures Supplied(script, |old(stream.source.Unread())|) && !old(stream.Ahead()).finish.Short? && r.Err? ==>
              r.error.StreamFault?
    ensures stream.delivered <= old(stream.delivered) + |got| + |drained|
  {
    got, drained := [], [];
    ghost var all := stream.Ahead();
    ghost var supplied := Supplied(script, |stream.source.Unread()|) && !all.finish.Short?;
    var rest, answer := script, Data([]);
    for i := 0 to |capacities|
      invariant stream.Valid() && Prepend(got, stream.Ahead()) == all
      invariant stream.delivered == old(stream.delivered) + |got|
      invariant supplied ==> Supplied(rest, |stream.source.Unread()|)
    {
      answer, rest := stream.Read(capacities[i], rest);
      if !answer.Data? {
        PrependNothing(got, all.finish);
        assert got + [] == got;
        return got, drained, Err(answer);
      }
      PrependTwice(got, answer.bytes, stream.Ahead());
      got := got + answer.bytes;
    }
    ghost var left := all.payload[|got|..];
    assert all.payload == got + left;
    while true
      invariant stream.Valid() && Prepend(drained, stream.Ahead()) == Meaning(left, all.finish)
      invariant stream.delivered == old(stream.delivered) + |got| + |drained|
      invariant supplied ==> Supplied(rest, |stream.source.Unread()|)
      decreases |left| - |drained|
    {
      answer, rest := stream.Read(drainSize, rest);
      if !answer.Data? {
        PrependNothing(drained, all.finish);
        return got, drained, Err(answer);
      }
      PrependTwice(drained, answer.bytes, stream.Ahead());
      drained := drained + answer.bytes;
      if answer.bytes == [] {
        break;
      }
    }
    r := Ok(());
  }

  // What follows an announcing header.
  ghost function After(judge: Judge, total: nat, next: Announced, rest: seq<byte>): Meaning {
    match next
    case End => Meaning([], Ended(rest))
    case Chunk(size) => Denote(judge, total + size, size, rest)
    case Refused(e) => Meaning([], Broken(e))
  }

  lemma HeaderAhead(judge: Judge, total: nat, header: seq<byte>, rest: seq<byte>, all: seq<byte>)
    requires |header| == HEADER_SIZE && header + rest == all
    ensures Denote(judge, total, 0, all) == After(judge, total, judge(total, header), rest)
  {
    Front(header, rest, all);
  }

  // Delivers one announced chunk in pieces no larger than the client's buffer.
  method DeliverChunk(reader: BufferedReader, size: nat, bufferSize: nat, script: seq<Answer>)
    returns (body: seq<byte>, rest: seq<Answer>, ok: bool)
    requires reader.Valid() && bufferSize > 0
    modifies reader, reader.buffer
    ensures reader.Valid() && |body| <= size && |reader.Unread()| <= |old(reader.Unread())|
    ensures ok ==> |body| == size && body + reader.Unread() == old(reader.Unread())
    ensures Supplied(script, |old(reader.socket)|) && size <= |old(reader.Unread())| ==>
              ok && Supplied(rest, |reader.socket|)
  {
    body, rest := [], script;
    ghost var all := reader.Unread();
    assert [] + all == all;
    while |body| < size
      invariant reader.Valid() && |body| <= size && body + reader.Unread() == all
      invariant Supplied(script, |old(reader.socket)|) && size <= |all| ==> Supplied(rest, |reader.socket|)
    {
      var data, more, whole := reader.Read(Min(size - |body|, bufferSize), rest);
      if !whole {
        return body, more, false;
      }
      Assoc(body, data, reader.Unread());
      body, rest := body + data, more;
    }
    ok := true;
  }

  lemma ChunkDelivered(judge: Judge, total: nat, body: seq<byte>, rest: seq<byte>, all: seq<byte>)
    requires body + rest == all
    ensures Denote(judge, total, |body|, all) == Prepend(body, Denote(judge, total, 0, rest))
  {
    Front(body, rest, all);
    DenotePart(judge, total, |body|, all, |body|);
  }

  datatype Progress = More | Done | Stopped(fault: ReadOutcome)

  // A round takes `data` off what is ahead, finds the end, or stops where the reference reading breaks.
  ghost predicate Rounded(judge: Judge, total: nat, before: seq<byte>, data: seq<byte>, progress: Progress,
                          after: seq<byte>) {
    var ahead := Denote(judge, total, 0, before);
    match progress
    case More => ahead == Prepend(data, Denote(judge, total + |data|, 0, after))
    case Done => data == [] && ahead == Meaning([], Ended(after))
    case Stopped(fault) => fault.StreamFault? ==> data == [] && ahead == Meaning([], Broken(fault.error))
  }

  ghost predicate Respects(judge: Judge, k: Kind) {
    forall total: nat, h: seq<byte> :: var a := judge(total, h); a.Chunk? ==> k.Fits(total + a.size)
  }

  lemma RespectsBy(decode: Decoder, k: Kind)
    ensures Respects(JudgeBy(decode, k), k)
  {
    forall total: nat, h: seq<byte>
      ensures var a := Announces(k, total, decode(h)); a.Chunk? ==> k.Fits(total + a.size)
    {
    }
  }

  // The next frame header, or none if it cannot be read.
  method NextHeader(reader: BufferedReader, judge: Judge, ghost k: Kind, total: nat, script: seq<Answer>)
    returns (next: seq<Announced>, rest: seq<Answer>)
    requires reader.Valid() && Respects(judge, k)
    modifies reader, reader.buffer
    ensures reader.Valid() && |next| <= 1 && (next != [] && next[0].Chunk? ==> k.Fits(total + next[0].size))
    ensures next != [] ==>
              && |reader.Unread()| < |old(reader.Unread())|
              && Denote(judge, total, 0, old(reader.Unread())) == After(judge, total, next[0], reader.Unread())
    ensures Supplied(script, |old(reader.socket)|) && !Denote(judge, total, 0, old(reader.Unread())).finish.Short? ==>
              next != [] && Supplied(rest, |reader.socket|)
  {
    ghost var unread := reader.Unread();
    var header, more, ok := reader.Read(HEADER_SIZE, script);
    if !ok {
      return [], more;
    }
    HeaderAhead(judge, total, header, reader.Unread(), unread);
    assert |unread| == |header| + |reader.Unread()|;
    next, rest := [judge(total, header)], more;
  }

  // One round of the response loop: a header, then the chunk it announces.
  method NextChunk(reader: BufferedReader, judge: Judge, ghost k: Kind, total: nat, bufferSize: nat,
                   script: seq<Answer>)
    returns (data: seq<byte>, progress: Progress, rest: seq<Answer>)
    requires reader.Valid() && bufferSize > 0 && Respects(judge, k) && k.Fits(total)
    modifies reader, reader.buffer
    ensures reader.Valid() && k.Fits(total + |data|)
    ensures progress.More? ==> |reader.Unread()| < |old(reader.Unread())|
    ensures Rounded(judge, total, old(reader.Unread()), data, progress, reader.Unread())
    ensures Supplied(script, |old(reader.socket)|) && !Denote(judge, total, 0, old(reader.Unread())).finish.Short? ==>
              && (progress.Stopped? ==> progress.fault.StreamFault?)
              && (progress.More? ==> Supplied(rest, |reader.socket|))
  {
    ghost var unread := reader.Unread();
    var next, more := NextHeader(reader, judge, k, total, script);
    if next == [] {
      return [], Stopped(IoFault), more;
    }
    match next[0] {
      case End => return [], Done, more;
      case Refused(e) => return [], Stopped(StreamFault(e)), more;
      case Chunk(size) =>
        ghost var ahead := reader.Unread();
        var whole: bool;
        data, rest, whole := DeliverChunk(reader, size, bufferSize, more);
        progress := if whole then More else Stopped(IoFault);
        if whole {
          ChunkDelivered(judge, total + size, data, reader.Unread(), ahead);
        }
    }
  }

  // The response loop so far: `body` and the meaning of what is unread make up `all`.
  ghost predicate Reads(judge: Judge, body: seq<byte>, unread: seq<byte>, all: Meaning) {
    Prepend(body, Denote(judge, |body|, 0, unread)) == all
  }

  lemma ReadsOn(judge: Judge, body: seq<byte>, data: seq<byte>, unread: seq<byte>, after: seq<byte>, all: Meaning)
    requires Reads(judge, body, unread, all)
    requires Denote(judge, |body|, 0, unread) == Prepend(data, Denote(judge, |body| + |data|, 0, after))
    ensures Reads(judge, body + data, after, all)
  {
    PrependTwice(body, data, Denote(judge, |body| + |data|, 0, after));
  }

  lemma ReadsEnd(judge: Judge, body: seq<byte>, unread: seq<byte>, finish: Finish, all: Meaning)
    requires Reads(judge, body, unread, all) && Denote(judge, |body|, 0, unread) == Meaning([], finish)
    ensures all == Meaning(body, finish)
  {
    PrependNothing(body, finish);
  }

  // The response loop for any judge that respects the size limit.
  method ReadChunks(reader: BufferedReader, judge: Judge, ghost k: Kind, bufferSize: nat, script: seq<Answer>)
    returns (body: seq<byte>, r: Result<(), ReadOutcome>)
    requires reader.Valid() && bufferSize > 0 && Respects(judge, k)
    modifies reader, reader.buffer
    ensures reader.Valid() && k.Fits(|body|)
    ensures r.Ok? ==> Denote(judge, 0, 0, old(reader.Unread())) == Meaning(body, Ended(reader.Unread()))
    ensures r.Err? && r.error.StreamFault? ==>
              Denote(judge, 0, 0, old(reader.Unread())) == Meaning(body, Broken(r.error.error))
    ensures Supplied(script, |old(reader.socket)|) && !Denote(judge, 0, 0, old(reader.Unread())).finish.Short? ==>
              r.Ok? || r.error.StreamFault?
  {
    ghost var all := Denote(judge, 0, 0, reader.Unread());
    body := [];
    var rest := script;
    while true
      invariant reader.Valid() && k.Fits(|body|)
      invariant Reads(judge, body, reader.Unread(), all)
      invariant Supplied(script, |old(reader.socket)|) && !all.finish.Short? ==> Supplied(rest, |reader.socket|)
      decreases |reader.Unread()|
    {
      ghost var unread := reader.Unread();
      var data, progress, more := NextChunk(reader, judge, k, |body|, bufferSize, rest);
      if progress.Done? {
        ReadsEnd(judge, body, unread, Ended(reader.Unread()), all);
        return body, Ok(());
      }
      if progress.Stopped? {
        if progress.fault.StreamFault? {
          ReadsEnd(judge, body, unread, Broken(progress.fault.error), all);
        }
        return body + data, Err(progress.fault);
      }
      ReadsOn(judge, body, data, unread, reader.Unread(), all);
      body, rest := body + data, more;
    }
  }

  /** The client's response reader delivers the reference payload and stops right after the end frame. */
  method ReadResponseBody(reader: BufferedReader, k: Kind, bufferSize: nat, script: seq<Answer>)
    returns (body: seq<byte>, r: Result<(), ReadOutcome>)
    requires reader.Valid() && bufferSize > 0
    modifies reader, reader.buffer
    ensures reader.Valid() && k.Fits(|body|)
    ensures r.Ok? ==> Denote(JudgeOf(k), 0, 0, old(reader.Unread())) == Meaning(body, Ended(reader.Unread()))
    ensures r.Err? && r.error.StreamFault? ==>
              Denote(JudgeOf(k), 0, 0, old(reader.Unread())) == Meaning(body, Broken(r.error.error))
    ensures Supplied(script, |old(reader.socket)|) && !Denote(JudgeOf(k), 0, 0, old(reader.Unread())).finish.Short? ==>
              r.Ok? || r.error.StreamFault?
  {
    RespectsBy(WireDecoder(), k);
    body, r := ReadChunks(reader, JudgeOf(k), k, bufferSize, script);
  }

  // ---- both ends ------------------------------------------------------------

  // The frames do not depend on anybody's size limit.
  lemma {:induction false} SameFrames(k: Kind, limit: nat, version: byte, chunks: seq<seq<byte>>)
    requires forall i | 0 <= i < |chunks| :: |chunks[i]| < 0x1_0000_0000
    ensures ChunkFrames(k.(maxSize := limit), version, chunks) == ChunkFrames(k, version, chunks)
    decreases |chunks|
  {
    if chunks == [] {
    } else {
      SameFrames(k, limit, version, chunks[1..]);
    }
  }

  // What a receiver with its own limit makes of a body written whole, and of what follows it.
  lemma WrittenReads(k: Kind, limit: nat, version: byte, chunks: seq<seq<byte>>, wire: seq<byte>, next: seq<byte>)
    requires k.Proper() && (version == VERSION || version == CANCELLABLE_VERSION)
    requires forall i | 0 <= i < |chunks| :: 0 < |chunks[i]| < 0x1_0000_0000
    requires wire == ChunkFrames(k, version, chunks) + EndFrame(k, version)
    ensures var m := Denote(JudgeOf(k.(maxSize := limit)), 0, 0, wire + next);
            if k.(maxSize := limit).Fits(|Flat(chunks)|) then m == Meaning(Flat(chunks), Ended(next))
            else m.finish == Broken(TooLarge)
  {
    SameFrames(k, limit, version, chunks);
    Assoc(ChunkFrames(k, version, chunks), EndFrame(k, version), next);
    StreamRoundTrip(k.(maxSize := limit), version, chunks, next);
  }

  /** The way up: a client writes any body, of which the reactor has read ahead up to any point; the handler pulls with
      any capacities and the rest is drained. On success the handler and the drain got exactly the body and `next`, what
      the client sent after it, is untouched. The server complains about the body only if it is over its limit, and with
      calls enough a body within its limit arrives. */
  method UploadRoundTrip(k: Kind, limit: nat, version: byte, chunkSize: nat, answers: seq<seq<byte>>, next: seq<byte>,
                         cut: nat, capacities: seq<nat>, drainSize: nat, script: seq<Answer>)
    returns (wire: seq<byte>, outcome: WriteOutcome, got: seq<byte>, drained: seq<byte>, left: seq<byte>,
             r: Result<(), ReadOutcome>)
    requires k.Proper() && (version == VERSION || version == CANCELLABLE_VERSION) && 0 < chunkSize < 0x1_0000_0000
    requires drainSize > 0 && forall i | 0 <= i < |capacities| :: capacities[i] > 0
    ensures outcome == Written ==>
              && (forall i | 0 <= i < |Offered(answers)| :: |Offered(answers)[i]| <= chunkSize)
              && wire == ChunkFrames(k, version, Offered(answers)) + EndFrame(k, version)
    ensures outcome == Written && r.Ok? ==> got + drained == Flat(Offered(answers)) && left == next
    ensures outcome == Written && (r.Ok? || r.error.StreamFault?) ==>
              (r.Ok? <==> k.(maxSize := limit).Fits(|Flat(Offered(answers))|)) && (r.Err? ==> r.error.error == TooLarge)
    ensures outcome == Written && Supplied(script, |wire| + |next|) ==> r.Ok? || r.error.StreamFault?
  {
    var written;
    wire, outcome, written := WriteBody(k, version, chunkSize, answers);
    var sent := wire + next;
    var ahead := Min(cut, |sent|);
    var source := new StreamByteSource(sent[..ahead], 0, sent[ahead..]);
    assert source.Unread() == sent;
    var stream := new IncomingStream(source, k.(maxSize := limit));
    got, drained, r := ReadThenDrain(stream, capacities, drainSize, script);
    left := source.buffered[source.offset..] + source.socket;
    if outcome == Written {
      WrittenReads(k, limit, version, written, wire, next);
    }
  }

  /** The way down: a handler writes any body and the client reads it with a buffer of any size. On success the client
      has exactly the body and has taken nothing of `next`. It complains about the body only if it is over its limit,
      and with calls enough a body within its limit arrives. */
  method DownloadRoundTrip(k: Kind, limit: nat, version: byte, chunkSize: nat, answers: seq<seq<byte>>, next: seq<byte>,
                           bufferSize: nat, script: seq<Answer>)
    returns (wire: seq<byte>, outcome: WriteOutcome, body: seq<byte>, r: Result<(), ReadOutcome>, ghost left: seq<byte>)
    requires k.Proper() && (version == VERSION || version == CANCELLABLE_VERSION) && 0 < chunkSize < 0x1_0000_0000
    requires bufferSize > 0
    ensures outcome == Written ==>
              && (forall i | 0 <= i < |Offered(answers)| :: |Offered(answers)[i]| <= chunkSize)
              && wire == ChunkFrames(k, version, Offered(answers)) + EndFrame(k, version)
    ensures outcome == Written && r.Ok? ==> body == Flat(Offered(answers)) && left == next
    ensures outcome == Written && (r.Ok? || r.error.StreamFault?) ==>
              (r.Ok? <==> k.(maxSize := limit).Fits(|Flat(Offered(answers))|)) && (r.Err? ==> r.error.error == TooLarge)
    ensures outcome == Written && Supplied(script, |wire| + |next|) ==> r.Ok? || r.error.StreamFault?
  {
    var written;
    wire, outcome, written := WriteBody(k, version, chunkSize, answers);
    var reader := new BufferedReader(wire + next);
    body, r := ReadResponseBody(reader, k.(maxSize := limit), bufferSize, script);
    left := reader.Unread();
    if outcome == Written {
      WrittenReads(k, limit, version, written, wire, next);
    }
  }
}
