/** Request-byte accounting, one step per atomic operation or locked section. */
module Budget {
  import opened Basics

  // ---- state ------------------------------------------------------------------------------------

  // The validated limits; a zero totalLimit turns the aggregate budget off.
  datatype Options = Options(maxMessage: nat, connLimit: nat, requestLimit: nat, totalLimit: nat)

  predicate Validated(o: Options) {
    && o.maxMessage > 0 && o.connLimit >= o.maxMessage && o.requestLimit > 0
    && (o.totalLimit == 0 || o.totalLimit >= o.maxMessage)
  }

  predicate Strict(o: Options) { o.totalLimit != 0 }

  const SIZE_SPACE: nat := 0x1_0000_0000_0000_0000

  // What an unsigned counter shows: a count taken below zero wraps around.
  function Shown(count: int): nat { if count < 0 then count % SIZE_SPACE else count }

  datatype Phase = Header | Announced(size: nat) | Payload(size: nat, received: nat)

  // `bytes` and `requests` are the connection's in-flight counters, `reserved` what its parser holds. `lost` and
  // `lostRequests` are history: what the counters carry for jobs dropped unpaid, less what was released twice.
  datatype Conn = Conn(open: bool, paused: bool, bytes: int, requests: int, reserved: nat, phase: Phase,
                       lost: int, lostRequests: nat)

  function Fresh(): Conn { Conn(true, false, 0, 0, 0, Header, 0, 0) }

  // A job being charged, in a queue or being executed, or what it owes on the way out.
  datatype Place = TakesConn | TakesTotal | Queued | Running | OwesConn | OwesCount | OwesTotal | OwesScan

  // `inline` marks a request a continuation worker read itself and is still serving.
  datatype Token = Token(conn: nat, bytes: nat, counted: bool, inline: bool, place: Place)

  // What the reactor thread is in the middle of. It looks at a connection's closing flag and read pause only on its way
  // from Away to Consuming.
  datatype Reactor =
    | Away
    | Consuming(conn: nat)
    | Half(conn: nat, size: nat)
    | RollingBack(conn: nat, size: nat)
    | Handing(conn: nat, stream: bool, total: nat, size: nat)
    | Deciding(conn: nat)
    | Pausing(conn: nat)

  datatype State = State(conns: seq<Conn>, tokens: seq<Token>, reactor: Reactor, total: int)

  function Init(): State { State([], [], Away, 0) }

  predicate BelowResume(o: Options, k: Conn, total: int) {
    && (!Strict(o) || Shown(total) <= o.totalLimit / 2)
    && Shown(k.requests) <= o.requestLimit / 2 && Shown(k.bytes) <= o.connLimit / 2
  }

  predicate AbovePause(o: Options, k: Conn, total: int) {
    || (Strict(o) && Shown(total) >= o.totalLimit)
    || Shown(k.requests) >= o.requestLimit || Shown(k.bytes) >= o.connLimit
  }

  // A connection a release looks at reads again if it is paused, open and below its watermarks.
  function Woken(o: Options, k: Conn, total: int): Conn {
    if k.paused && k.open && BelowResume(o, k, total) then k.(paused := false) else k
  }

  // The scan after a release: all connections under an aggregate budget, else only the released one.
  function Resumed(o: Options, conns: seq<Conn>, total: int, released: nat): seq<Conn> {
    seq(|conns|, c requires 0 <= c < |conns| =>
      if Strict(o) || c == released then Woken(o, conns[c], total) else conns[c])
  }

  // ---- steps ------------------------------------------------------------------------------------

  // What happens to a connection: it is accepted, the reactor turns to it, its parser moves along, a worker reads from
  // it, a thread gives it up or closes it.
  datatype Reading =
    | Connect
    | Enter(conn: nat)
    | Announce(conn: nat, size: nat)
    | Begin(conn: nat)
    | ReserveConn(conn: nat)
    | Collect(conn: nat, count: nat)
    | Dispatch(conn: nat, stream: bool)
    | Continue(conn: nat, size: nat)
    | Break(conn: nat)
    | Close(conn: nat)

  // How the reactor goes on after a job was refused: it checks the watermarks, parses on, or leaves by an exception.
  datatype After = Checks | ParsesOn | Throws

  // How the reactor thread goes on with what it is in the middle of.
  datatype Acting = ReserveTotal | RollBack | Admit | Refuse(fromJob: bool, after: After) | Decide | Pause | Return

  datatype Working =
    | ChargeConn(token: nat) | ChargeTotal(token: nat)
    | Start(token: nat) | HandOn(token: nat) | Supersede(token: nat) | Finish(token: nat)
    | Forget(token: nat)

  // The parts of a release, in order.
  datatype Paying = SubConn(token: nat) | SubCount(token: nat) | SubTotal(token: nat) | Scan(token: nat)

  datatype Step = Reads(reading: Reading) | Acts(acting: Acting) | Works(working: Working) | Pays(paying: Paying)

  // The reactor is parsing this connection's input.
  predicate Parsing(s: State, c: nat) { c < |s.conns| && s.reactor == Consuming(c) }

  predicate At(s: State, i: nat, place: Place) {
    i < |s.tokens| && s.tokens[i].place == place && s.tokens[i].conn < |s.conns|
  }

  function SetConn(s: State, c: nat, k: Conn): State
    requires c < |s.conns|
  {
    s.(conns := s.conns[c := k])
  }

  function Put(s: State, i: nat, place: Place): State
    requires i < |s.tokens|
  {
    s.(tokens := s.tokens[i := s.tokens[i].(place := place)])
  }

  // One atomic step; a step that is not enabled does nothing.
  function Read(o: Options, s: State, step: Reading): State {
    match step
    case Connect => s.(conns := s.conns + [Fresh()])
    case Enter(c) =>
      if s.reactor == Away && c < |s.conns| && s.conns[c].open && !s.conns[c].paused
      then s.(reactor := Consuming(c)) else s
    case Announce(c, n) =>
      if Parsing(s, c) && s.conns[c].phase == Header && 0 < n <= o.maxMessage
      then SetConn(s, c, s.conns[c].(phase := Announced(n))) else s
    case Begin(c) =>
      if !Strict(o) && Parsing(s, c) && s.conns[c].phase.Announced?
      then SetConn(s, c, s.conns[c].(phase := Payload(s.conns[c].phase.size, 0))) else s
    case ReserveConn(c) => if Strict(o) && Parsing(s, c) && s.conns[c].phase.Announced? then Reserving(o, s, c) else s
    case Collect(c, n) =>
      if Parsing(s, c) && s.conns[c].phase.Payload? && n <= s.conns[c].phase.size - s.conns[c].phase.received
      then SetConn(s, c, Collected(s.conns[c], n)) else s
    case Dispatch(c, stream) => if Complete(s, c) then Dispatched(o, s, c, stream) else s
    case Continue(c, n) =>
      if !Strict(o) && c < |s.conns| && 0 < n <= o.maxMessage then Continued(s, c, n) else s
    case Break(c) => if c < |s.conns| then SetConn(s, c, s.conns[c].(open := false)) else s
    case Close(c) => if c < |s.conns| then Closed(s, c) else s
  }

  // A worker has read a request itself and counted it.
  function Continued(s: State, c: nat, n: nat): State
    requires c < |s.conns|
  {
    SetConn(s, c, s.conns[c].(requests := s.conns[c].requests + 1))
    .(tokens := s.tokens + [Token(c, n, true, true, TakesConn)])
  }

  function Collected(k: Conn, n: nat): Conn
    requires k.phase.Payload?
  {
    k.(phase := Payload(k.phase.size, k.phase.received + n))
  }

  // The first half of a reservation, on the connection's own counter.
  function Reserving(o: Options, s: State, c: nat): State
    requires c < |s.conns| && s.conns[c].phase.Announced?
  {
    var n := s.conns[c].phase.size;
    if Shown(s.conns[c].bytes) + n <= o.connLimit then HalfReserved(s, c, n) else s.(reactor := Pausing(c))
  }

  function HalfReserved(s: State, c: nat, n: nat): State
    requires c < |s.conns|
  {
    SetConn(s, c, s.conns[c].(bytes := s.conns[c].bytes + n)).(reactor := Half(c, n))
  }

  // The parser has a whole frame.
  predicate Complete(s: State, c: nat) {
    Parsing(s, c) && s.conns[c].phase.Payload? && s.conns[c].phase.received == s.conns[c].phase.size
  }

  // What is left of a connection whose frame has left the parser.
  function Handed(o: Options, k: Conn): Conn
    requires k.phase.Payload?
  {
    k.(reserved := 0, lost := k.lost + k.reserved - (if Strict(o) then k.phase.size else 0), phase := Header)
  }

  // The frame leaves the parser. Under an aggregate budget its job is taken to hold the whole declared size, whatever
  // the parser still has reserved.
  function Dispatched(o: Options, s: State, c: nat, stream: bool): State
    requires Complete(s, c)
  {
    var k := s.conns[c];
    SetConn(s, c, Handed(o, k)).(reactor := Handing(c, stream, k.phase.size, k.phase.received))
  }

  // Any thread may close a connection, whatever the reactor is doing; what its parser has reserved is released.
  function Closed(s: State, c: nat): State
    requires c < |s.conns|
  {
    var k := s.conns[c];
    s.(conns := s.conns[c := k.(open := false, reserved := 0)],
       tokens := if k.reserved == 0 then s.tokens else s.tokens + [Token(c, k.reserved, false, false, OwesConn)])
  }

  // The reactor thread's next operation.
  function Act(o: Options, s: State, step: Acting): State {
    match step
    case ReserveTotal =>
      if s.reactor.Half? && s.reactor.conn < |s.conns| then
        var c, n := s.reactor.conn, s.reactor.size;
        if Shown(s.total) + n <= o.totalLimit
        then SetConn(s, c, s.conns[c].(reserved := n, phase := Payload(n, 0)))
             .(reactor := Consuming(c), total := s.total + n)
        else s.(reactor := RollingBack(c, n))
      else s
    case RollBack =>
      if s.reactor.RollingBack? && s.reactor.conn < |s.conns|
      then RolledBack(s, s.reactor.conn, s.reactor.size) else s
    case Admit =>
      if s.reactor.Handing? && s.reactor.conn < |s.conns| then
        if s.reactor.stream
        then AdmittedStream(o, s, s.reactor.conn, s.reactor.size) else Admitted(o, s, s.reactor.conn, s.reactor.size)
      else s
    case Refuse(fromJob, after) => if s.reactor.Handing? then Refused(o, s, fromJob, after) else s
    case Decide =>
      if s.reactor.Deciding? && s.reactor.conn < |s.conns| then
        var c := s.reactor.conn;
        s.(reactor := if AbovePause(o, s.conns[c], s.total) then Pausing(c) else Consuming(c))
      else s
    case Pause =>
      if s.reactor.Pausing? && s.reactor.conn < |s.conns|
      then SetConn(s, s.reactor.conn, s.conns[s.reactor.conn].(paused := true)).(reactor := Away) else s
    case Return => if s.reactor.Consuming? then s.(reactor := Away) else s
  }

  // The failed half of a reservation is taken back.
  function RolledBack(s: State, c: nat, n: nat): State
    requires c < |s.conns|
  {
    SetConn(s, c, s.conns[c].(bytes := s.conns[c].bytes - n)).(reactor := Pausing(c))
  }

  // A fixed request is queued; without an aggregate budget it is charged only now.
  function Admitted(o: Options, s: State, c: nat, n: nat): State
    requires c < |s.conns|
  {
    var charge := if Strict(o) then 0 else n;
    var k := s.conns[c].(bytes := s.conns[c].bytes + charge, requests := s.conns[c].requests + 1);
    State(s.conns[c := k], s.tokens + [Token(c, n, true, false, Queued)], Deciding(c), s.total + charge)
  }

  // A stream is queued; without an aggregate budget it is not charged at all.
  function AdmittedStream(o: Options, s: State, c: nat, n: nat): State {
    State(s.conns, s.tokens + [Token(c, if Strict(o) then n else 0, false, false, Queued)], Away, s.total)
  }

  // A job the queue does not take; under an aggregate budget its bytes are released.
  function Refused(o: Options, s: State, fromJob: bool, after: After): State
    requires s.reactor.Handing?
  {
    var r := s.reactor;
    var owed := Token(r.conn, if fromJob then r.size else r.total, false, false, OwesConn);
    s.(tokens := if Strict(o) then s.tokens + [owed] else s.tokens,
       reactor := match after case Checks => Deciding(r.conn) case ParsesOn => Consuming(r.conn) case Throws => Away)
  }

  // A worker charges a request it read itself, takes, passes on or ends a job, or drops it on an exception.
  function Work(o: Options, s: State, step: Working): State {
    var i := step.token;
    match step
    case ChargeConn(_) =>
      if At(s, i, TakesConn)
      then OnToken(s, i, TakesTotal, Counted(s.conns[s.tokens[i].conn], s.tokens[i].bytes, 0)) else s
    case ChargeTotal(_) =>
      if At(s, i, TakesTotal) then Put(s, i, Running).(total := s.total + s.tokens[i].bytes) else s
    case Start(_) => if At(s, i, Queued) then Put(s, i, Running) else s
    case HandOn(_) =>
      if At(s, i, Running) && s.tokens[i].inline
      then s.(tokens := s.tokens[i := s.tokens[i].(place := Queued, inline := false)]) else s
    case Supersede(_) => if At(s, i, Queued) && s.tokens[i].counted then Put(s, i, OwesConn) else s
    case Finish(_) =>
      if !At(s, i, Running) then s
      else if s.tokens[i].bytes == 0 then s.(tokens := Without(s.tokens, i))
      else Put(s, i, OwesConn)
    case Forget(_) => if At(s, i, Running) && s.tokens[i].inline then Forgotten(s, i) else s
  }

  // A connection's counters grow by so much.
  function Counted(k: Conn, bytes: int, requests: int): Conn {
    k.(bytes := k.bytes + bytes, requests := k.requests + requests)
  }

  // A token changes place, and its connection with it.
  function OnToken(s: State, i: nat, place: Place, k: Conn): State
    requires i < |s.tokens| && s.tokens[i].conn < |s.conns|
  {
    SetConn(Put(s, i, place), s.tokens[i].conn, k)
  }

  // A continuation worker leaves by an exception: its connection is given up, and what the request was charged stays on
  // the counters.
  function Forgotten(s: State, i: nat): State
    requires i < |s.tokens| && s.tokens[i].conn < |s.conns|
  {
    var t := s.tokens[i];
    s.(tokens := Without(s.tokens, i), conns := s.conns[t.conn := Lost(s.conns[t.conn], t.bytes)])
  }

  function Lost(k: Conn, bytes: nat): Conn {
    k.(open := false, lost := k.lost + bytes, lostRequests := k.lostRequests + 1)
  }

  // One part of a release.
  function Pay(o: Options, s: State, step: Paying): State {
    var i := step.token;
    match step
    case SubConn(_) =>
      if At(s, i, OwesConn) then
        var t := s.tokens[i];
        OnToken(s, i, if t.counted then OwesCount else OwesTotal, Counted(s.conns[t.conn], 0 - t.bytes, 0))
      else s
    case SubCount(_) =>
      if At(s, i, OwesCount) then OnToken(s, i, OwesTotal, Counted(s.conns[s.tokens[i].conn], 0, -1)) else s
    case SubTotal(_) => if At(s, i, OwesTotal) then OffTotal(s, i) else s
    case Scan(_) => if At(s, i, OwesScan) then Scanned(o, s, i) else s
  }

  function OffTotal(s: State, i: nat): State
    requires i < |s.tokens|
  {
    Put(s, i, OwesScan).(total := s.total - s.tokens[i].bytes)
  }

  function Scanned(o: Options, s: State, i: nat): State
    requires i < |s.tokens|
  {
    s.(tokens := Without(s.tokens, i), conns := Resumed(o, s.conns, s.total, s.tokens[i].conn))
  }

  function Apply(o: Options, s: State, step: Step): State {
    match step
    case Reads(r) => Read(o, s, r)
    case Acts(a) => Act(o, s, a)
    case Works(w) => Work(o, s, w)
    case Pays(p) => Pay(o, s, p)
  }

  function Run(o: Options, s: State, steps: seq<Step>): State
    decreases |steps|
  {
    if steps == [] then s else Run(o, Apply(o, s, steps[0]), steps[1..])
  }

  // ---- the ledger -------------------------------------------------------------------------------

  // What a token contributes to its connection's byte counter, to its request counter and to the total.
  function ConnPart(t: Token, c: nat): int {
    if t.conn == c && (t.place == TakesTotal || t.place == Queued || t.place == Running || t.place == OwesConn)
    then t.bytes
    else 0
  }

  function CountPart(t: Token, c: nat): int {
    if t.conn == c && t.counted && t.place != OwesTotal && t.place != OwesScan then 1 else 0
  }

  function TotalPart(t: Token): int {
    if t.place == TakesConn || t.place == TakesTotal || t.place == OwesScan then 0 else t.bytes
  }

  function OnConn(c: nat): Token -> int { (t: Token) => ConnPart(t, c) }
  function OnCount(c: nat): Token -> int { (t: Token) => CountPart(t, c) }
  function OnTotal(): Token -> int { (t: Token) => TotalPart(t) }

  function ConnSum(tokens: seq<Token>, c: nat): int { Sum(tokens, OnConn(c)) }
  function CountSum(tokens: seq<Token>, c: nat): int { Sum(tokens, OnCount(c)) }
  function TotalSum(tokens: seq<Token>): int { Sum(tokens, OnTotal()) }

  // What a connection's parser has reserved, with what its counters have lost.
  function OnBooks(): Conn -> int { (k: Conn) => k.reserved + k.lost }

  // What the reactor thread holds of connection c, and of the total.
  function HeldConn(o: Options, r: Reactor, c: nat): int {
    if (r.Half? || r.RollingBack?) && r.conn == c then r.size
    else if r.Handing? && Strict(o) && r.conn == c then r.total
    else 0
  }

  function HeldTotal(o: Options, r: Reactor): int { if r.Handing? && Strict(o) then r.total else 0 }

  ghost predicate BytesMatch(o: Options, conns: seq<Conn>, tokens: seq<Token>, r: Reactor) {
    forall c: nat | c < |conns| ::
      conns[c].bytes == conns[c].reserved + conns[c].lost + ConnSum(tokens, c) + HeldConn(o, r, c)
  }

  ghost predicate CountMatch(conns: seq<Conn>, tokens: seq<Token>) {
    forall c: nat | c < |conns| :: conns[c].requests == conns[c].lostRequests + CountSum(tokens, c)
  }

  ghost predicate TotalMatch(o: Options, conns: seq<Conn>, tokens: seq<Token>, r: Reactor, total: int) {
    total == Sum(conns, OnBooks()) + TotalSum(tokens) + HeldTotal(o, r)
  }

  ghost predicate Within(o: Options, conns: seq<Conn>, total: int) {
    Strict(o) ==> total <= o.totalLimit && forall c: nat | c < |conns| :: conns[c].bytes <= o.connLimit
  }

  // A parser that holds payload has reserved all of it, unless a close took the reservation.
  ghost predicate PhaseOk(o: Options, k: Conn) {
    match k.phase
    case Header => k.reserved == 0
    case Announced(n) => k.reserved == 0 && 0 < n <= o.maxMessage
    case Payload(n, got) =>
      0 < n <= o.maxMessage && got <= n && (k.reserved == (if Strict(o) then n else 0) || (k.reserved == 0 && !k.open))
  }

  // Under an aggregate budget bytes are only ever released twice, without one only ever dropped unpaid; either way the
  // connection has been given up.
  ghost predicate LossOk(o: Options, k: Conn) {
    && (if Strict(o) then k.lost <= 0 && k.lostRequests == 0 else k.lostRequests <= k.lost)
    && (k.lost != 0 ==> !k.open)
  }

  ghost predicate ConnOk(o: Options, k: Conn) { PhaseOk(o, k) && LossOk(o, k) }

  ghost predicate TokenOk(o: Options, t: Token, n: nat) {
    && t.conn < n && (t.counted ==> t.bytes > 0) && (t.place == OwesCount ==> t.counted)
    && (t.place != Queued && t.place != Running ==> t.bytes > 0)
    && (t.inline ==> !Strict(o) && t.counted) && (t.place == TakesConn || t.place == TakesTotal ==> t.inline)
  }

  ghost predicate ReactorOk(o: Options, conns: seq<Conn>, r: Reactor) {
    match r
    case Away => true
    case Consuming(c) => c < |conns|
    case Half(c, n) => Strict(o) && c < |conns| && conns[c].phase == Announced(n)
    case RollingBack(c, n) => Strict(o) && c < |conns| && conns[c].phase == Announced(n)
    case Handing(c, _, total, size) => c < |conns| && total == size > 0
    case Deciding(c) => c < |conns|
    case Pausing(c) => c < |conns|
  }

  ghost predicate Shape(o: Options, conns: seq<Conn>, tokens: seq<Token>, r: Reactor) {
    && (forall c: nat | c < |conns| :: ConnOk(o, conns[c]))
    && (forall i: nat | i < |tokens| :: TokenOk(o, tokens[i], |conns|))
    && ReactorOk(o, conns, r)
  }

  ghost predicate Inv(o: Options, s: State) {
    && Shape(o, s.conns, s.tokens, s.reactor) && BytesMatch(o, s.conns, s.tokens, s.reactor)
    && CountMatch(s.conns, s.tokens) && TotalMatch(o, s.conns, s.tokens, s.reactor, s.total)
    && Within(o, s.conns, s.total)
  }

  // ---- effect of a step on the sums -------------------------------------------------------------

  lemma TokenChanges(tokens: seq<Token>, i: nat, t: Token)
    requires i < |tokens|
    ensures forall c: nat :: ConnSum(tokens[i := t], c) == ConnSum(tokens, c) - ConnPart(tokens[i], c) + ConnPart(t, c)
    ensures forall c: nat ::
              CountSum(tokens[i := t], c) == CountSum(tokens, c) - CountPart(tokens[i], c) + CountPart(t, c)
    ensures TotalSum(tokens[i := t]) == TotalSum(tokens) - TotalPart(tokens[i]) + TotalPart(t)
  {
    forall c: nat
      ensures ConnSum(tokens[i := t], c) == ConnSum(tokens, c) - ConnPart(tokens[i], c) + ConnPart(t, c)
    {
      SumUpdate(tokens, i, t, OnConn(c));
    }
    forall c: nat
      ensures CountSum(tokens[i := t], c) == CountSum(tokens, c) - CountPart(tokens[i], c) + CountPart(t, c)
    {
      SumUpdate(tokens, i, t, OnCount(c));
    }
    SumUpdate(tokens, i, t, OnTotal());
  }

  lemma TokenAdded(tokens: seq<Token>, t: Token)
    ensures forall c: nat :: ConnSum(tokens + [t], c) == ConnSum(tokens, c) + ConnPart(t, c)
    ensures forall c: nat :: CountSum(tokens + [t], c) == CountSum(tokens, c) + CountPart(t, c)
    ensures TotalSum(tokens + [t]) == TotalSum(tokens) + TotalPart(t)
  {
    forall c: nat
      ensures ConnSum(tokens + [t], c) == ConnSum(tokens, c) + ConnPart(t, c)
    {
      SumAppend(tokens, t, OnConn(c));
    }
    forall c: nat
      ensures CountSum(tokens + [t], c) == CountSum(tokens, c) + CountPart(t, c)
    {
      SumAppend(tokens, t, OnCount(c));
    }
    SumAppend(tokens, t, OnTotal());
  }

  lemma TokenGone(tokens: seq<Token>, i: nat)
    requires i < |tokens|
    ensures forall c: nat :: ConnSum(Without(tokens, i), c) == ConnSum(tokens, c) - ConnPart(tokens[i], c)
    ensures forall c: nat :: CountSum(Without(tokens, i), c) == CountSum(tokens, c) - CountPart(tokens[i], c)
    ensures TotalSum(Without(tokens, i)) == TotalSum(tokens) - TotalPart(tokens[i])
  {
    forall c: nat
      ensures ConnSum(Without(tokens, i), c) == ConnSum(tokens, c) - ConnPart(tokens[i], c)
    {
      SumWithout(tokens, i, OnConn(c));
    }
    forall c: nat
      ensures CountSum(Without(tokens, i), c) == CountSum(tokens, c) - CountPart(tokens[i], c)
    {
      SumWithout(tokens, i, OnCount(c));
    }
    SumWithout(tokens, i, OnTotal());
  }

  // ---- parser and reactor steps -----------------------------------------------------------------

  lemma {:induction false} NoneOn(tokens: seq<Token>, c: nat)
    requires forall i: nat | i < |tokens| :: tokens[i].conn != c
    ensures ConnSum(tokens, c) == 0 && CountSum(tokens, c) == 0
  {
    if tokens == [] {
    } else {
      assert tokens[0].conn != c;
      forall i: nat | i < |tokens[1..]|
        ensures tokens[1..][i].conn != c
      {
        assert tokens[1..][i] == tokens[i + 1];
      }
      NoneOn(tokens[1..], c);
    }
  }

  lemma ConnectKeeps(o: Options, s: State)
    requires Inv(o, s)
    ensures Inv(o, Read(o, s, Connect))
  {
    SumAppend(s.conns, Fresh(), OnBooks());
    NoneOn(s.tokens, |s.conns|);
    var q := Read(o, s, Connect);
    assert q.conns[|s.conns|] == Fresh();
    assert forall c: nat | c < |s.conns| :: q.conns[c] == s.conns[c];
  }

  // A step that only moves a parser along, pauses a connection or gives it up.
  lemma FlagsKeep(o: Options, s: State, c: nat, k: Conn)
    requires Inv(o, s) && c < |s.conns| && k == s.conns[c].(phase := k.phase, open := k.open, paused := k.paused)
    requires ConnOk(o, k) && (k.phase == s.conns[c].phase || s.reactor == Consuming(c))
    ensures Inv(o, SetConn(s, c, k))
  {
    SumUpdate(s.conns, c, k, OnBooks());
  }

  // The reactor turns to something else with empty hands.
  lemma TurnKeeps(o: Options, s: State, r: Reactor)
    requires Inv(o, s) && ReactorOk(o, s.conns, r)
    requires s.reactor.Away? || s.reactor.Consuming? || s.reactor.Deciding? || s.reactor.Pausing?
    requires r.Away? || r.Consuming? || r.Pausing?
    ensures Inv(o, s.(reactor := r))
  {
  }

  lemma ReserveTotalKeeps(o: Options, s: State, c: nat, n: nat)
    requires Inv(o, s) && s.reactor == Half(c, n) && s.total + n <= o.totalLimit
    ensures Inv(o, SetConn(s, c, s.conns[c].(reserved := n, phase := Payload(n, 0)))
                   .(reactor := Consuming(c), total := s.total + n))
  {
    assert ConnOk(o, s.conns[c]);
    SumUpdate(s.conns, c, s.conns[c].(reserved := n, phase := Payload(n, 0)), OnBooks());
  }

  // Connection c and the tokens change together; everyone else's sums stay as they are.
  ghost predicate Moves(o: Options, s: State, c: nat, k: Conn, tokens: seq<Token>, r: Reactor, total: int)
    requires c < |s.conns|
  {
    && k.bytes - k.reserved - k.lost - ConnSum(tokens, c) - HeldConn(o, r, c) ==
       s.conns[c].bytes - s.conns[c].reserved - s.conns[c].lost - ConnSum(s.tokens, c) - HeldConn(o, s.reactor, c)
    && k.requests - k.lostRequests - CountSum(tokens, c) ==
       s.conns[c].requests - s.conns[c].lostRequests - CountSum(s.tokens, c)
    && total - k.reserved - k.lost - TotalSum(tokens) - HeldTotal(o, r) ==
       s.total - s.conns[c].reserved - s.conns[c].lost - TotalSum(s.tokens) - HeldTotal(o, s.reactor)
    && forall d: nat | d != c ::
         && ConnSum(tokens, d) + HeldConn(o, r, d) == ConnSum(s.tokens, d) + HeldConn(o, s.reactor, d)
         && CountSum(tokens, d) == CountSum(s.tokens, d)
  }

  ghost predicate Fits(o: Options, s: State, c: nat, k: Conn, tokens: seq<Token>, r: Reactor, total: int)
    requires c < |s.conns|
  {
    && ConnOk(o, k) && ReactorOk(o, s.conns[c := k], r)
    && (Strict(o) ==> total <= o.totalLimit && k.bytes <= o.connLimit)
    && forall i: nat | i < |tokens| :: TokenOk(o, tokens[i], |s.conns|)
  }

  lemma Rebalanced(o: Options, s: State, c: nat, k: Conn, tokens: seq<Token>, r: Reactor, total: int)
    requires Inv(o, s) && c < |s.conns| && Moves(o, s, c, k, tokens, r, total) && Fits(o, s, c, k, tokens, r, total)
    ensures Inv(o, State(s.conns[c := k], tokens, r, total))
  {
    var conns := s.conns[c := k];
    assert BytesMatch(o, conns, tokens, r) by { BytesRebalanced(o, s, c, k, tokens, r, total); }
    assert CountMatch(conns, tokens) by { CountRebalanced(o, s, c, k, tokens, r, total); }
    SumUpdate(s.conns, c, k, OnBooks());
  }

  lemma BytesRebalanced(o: Options, s: State, c: nat, k: Conn, tokens: seq<Token>, r: Reactor, total: int)
    requires BytesMatch(o, s.conns, s.tokens, s.reactor) && c < |s.conns| && Moves(o, s, c, k, tokens, r, total)
    ensures BytesMatch(o, s.conns[c := k], tokens, r)
  {
  }

  lemma CountRebalanced(o: Options, s: State, c: nat, k: Conn, tokens: seq<Token>, r: Reactor, total: int)
    requires CountMatch(s.conns, s.tokens) && c < |s.conns| && Moves(o, s, c, k, tokens, r, total)
    ensures CountMatch(s.conns[c := k], tokens)
  {
  }

  lemma HalfMoves(o: Options, s: State, c: nat, n: nat)
    requires c < |s.conns| && s.reactor == Consuming(c)
    ensures Moves(o, s, c, HalfReserved(s, c, n).conns[c], s.tokens, Half(c, n), s.total)
  {
  }

  lemma ReserveConnKeeps(o: Options, s: State, c: nat, n: nat)
    requires Inv(o, s) && Strict(o) && s.reactor == Consuming(c) && c < |s.conns| && s.conns[c].phase == Announced(n)
    requires s.conns[c].bytes + n <= o.connLimit
    ensures Inv(o, HalfReserved(s, c, n))
  {
    assert ConnOk(o, s.conns[c]);
    HalfMoves(o, s, c, n);
    Rebalanced(o, s, c, HalfReserved(s, c, n).conns[c], s.tokens, Half(c, n), s.total);
  }

  lemma RollBackMoves(o: Options, s: State, c: nat, n: nat)
    requires c < |s.conns| && s.reactor == RollingBack(c, n)
    ensures Moves(o, s, c, RolledBack(s, c, n).conns[c], s.tokens, Pausing(c), s.total)
  {
  }

  lemma RollBackKeeps(o: Options, s: State, c: nat, n: nat)
    requires Inv(o, s) && s.reactor == RollingBack(c, n)
    ensures Inv(o, RolledBack(s, c, n))
  {
    assert ConnOk(o, s.conns[c]);
    RollBackMoves(o, s, c, n);
    Rebalanced(o, s, c, RolledBack(s, c, n).conns[c], s.tokens, Pausing(c), s.total);
  }

  lemma DispatchMoves(o: Options, s: State, c: nat, stream: bool)
    requires Complete(s, c)
    ensures Moves(o, s, c, Handed(o, s.conns[c]), s.tokens, Dispatched(o, s, c, stream).reactor, s.total)
  {
  }

  lemma DispatchKeeps(o: Options, s: State, c: nat, stream: bool)
    requires Inv(o, s) && Complete(s, c)
    ensures Inv(o, Dispatched(o, s, c, stream))
  {
    assert ConnOk(o, s.conns[c]);
    DispatchMoves(o, s, c, stream);
    Rebalanced(o, s, c, Handed(o, s.conns[c]), s.tokens, Dispatched(o, s, c, stream).reactor, s.total);
  }

  // A new token of connection c, paid for out of c's counters, its reservation or the reactor's hands.
  lemma AddKeeps(o: Options, s: State, c: nat, k: Conn, t: Token, r: Reactor, total: int)
    requires Inv(o, s) && c < |s.conns| && t.conn == c && TokenOk(o, t, |s.conns|) && ConnOk(o, k)
    requires ReactorOk(o, s.conns[c := k], r) && (Strict(o) ==> total <= o.totalLimit && k.bytes <= o.connLimit)
    requires forall d: nat | d != c :: HeldConn(o, r, d) == HeldConn(o, s.reactor, d)
    requires k.bytes - k.reserved - k.lost - HeldConn(o, r, c) - ConnPart(t, c) ==
             s.conns[c].bytes - s.conns[c].reserved - s.conns[c].lost - HeldConn(o, s.reactor, c)
    requires k.requests - k.lostRequests == s.conns[c].requests - s.conns[c].lostRequests + CountPart(t, c)
    requires total - k.reserved - k.lost - HeldTotal(o, r) - TotalPart(t) ==
             s.total - s.conns[c].reserved - s.conns[c].lost - HeldTotal(o, s.reactor)
    ensures Inv(o, State(s.conns[c := k], s.tokens + [t], r, total))
  {
    TokenAdded(s.tokens, t);
    Rebalanced(o, s, c, k, s.tokens + [t], r, total);
  }

  lemma AdmitMoves(o: Options, s: State, c: nat, n: nat)
    requires c < |s.conns| && s.reactor == Handing(c, false, n, n)
    ensures var q := Admitted(o, s, c, n); Moves(o, s, c, q.conns[c], q.tokens, q.reactor, q.total)
  {
    TokenAdded(s.tokens, Token(c, n, true, false, Queued));
  }

  lemma AdmitKeeps(o: Options, s: State, c: nat, n: nat)
    requires Inv(o, s) && s.reactor == Handing(c, false, n, n)
    ensures Inv(o, Admitted(o, s, c, n))
  {
    var q := Admitted(o, s, c, n);
    assert ConnOk(o, s.conns[c]) && ConnOk(o, q.conns[c]);
    AdmitMoves(o, s, c, n);
    Rebalanced(o, s, c, q.conns[c], q.tokens, q.reactor, q.total);
  }

  lemma AdmitStreamKeeps(o: Options, s: State, c: nat, n: nat)
    requires Inv(o, s) && s.reactor == Handing(c, true, n, n)
    ensures Inv(o, AdmittedStream(o, s, c, n))
  {
    assert ConnOk(o, s.conns[c]) && s.conns[c := s.conns[c]] == s.conns;
    AddKeeps(o, s, c, s.conns[c], Token(c, if Strict(o) then n else 0, false, false, Queued), Away, s.total);
  }

  lemma RefuseKeeps(o: Options, s: State, fromJob: bool, after: After)
    requires Inv(o, s) && s.reactor.Handing?
    ensures Inv(o, Refused(o, s, fromJob, after))
  {
    var c, q := s.reactor.conn, Refused(o, s, fromJob, after);
    if Strict(o) {
      assert ConnOk(o, s.conns[c]) && s.conns[c := s.conns[c]] == s.conns;
      AddKeeps(o, s, c, s.conns[c], Token(c, s.reactor.total, false, false, OwesConn), q.reactor, s.total);
    }
  }

  lemma ContinueMoves(o: Options, s: State, c: nat, n: nat)
    requires c < |s.conns|
    ensures var q := Continued(s, c, n); Moves(o, s, c, q.conns[c], q.tokens, s.reactor, s.total)
  {
    TokenAdded(s.tokens, Token(c, n, true, true, TakesConn));
  }

  lemma ContinueKeeps(o: Options, s: State, c: nat, n: nat)
    requires Inv(o, s) && !Strict(o) && c < |s.conns| && 0 < n
    ensures Inv(o, Continued(s, c, n))
  {
    var q := Continued(s, c, n);
    assert ConnOk(o, s.conns[c]) && ConnOk(o, q.conns[c]);
    HandsUntouched(o, s, c, q.conns[c]);
    ContinueMoves(o, s, c, n);
    Rebalanced(o, s, c, q.conns[c], q.tokens, s.reactor, s.total);
  }

  lemma HandsUntouched(o: Options, s: State, c: nat, k: Conn)
    requires Inv(o, s) && c < |s.conns| && k.phase == s.conns[c].phase
    ensures ReactorOk(o, s.conns[c := k], s.reactor)
  {
  }

  // Closing hands the parser's reservation to one release, whatever the reactor is doing.
  lemma CloseKeeps(o: Options, s: State, c: nat)
    requires Inv(o, s) && c < |s.conns|
    ensures Inv(o, Closed(s, c))
  {
    var k := s.conns[c].(open := false, reserved := 0);
    assert ConnOk(o, s.conns[c]) && ConnOk(o, k);
    HandsUntouched(o, s, c, k);
    if s.conns[c].reserved == 0 {
      SumUpdate(s.conns, c, k, OnBooks());
    } else {
      AddKeeps(o, s, c, k, Token(c, s.conns[c].reserved, false, false, OwesConn), s.reactor, s.total);
    }
  }

  // ---- jobs and releases ------------------------------------------------------------------------

  // A token changes place; its connection pays the difference.
  lemma MoveKeeps(o: Options, s: State, i: nat, place: Place, bytes: int, requests: int)
    requires Inv(o, s) && i < |s.tokens| && TokenOk(o, s.tokens[i].(place := place), |s.conns|)
    requires var t := s.tokens[i];
             && bytes == ConnPart(t.(place := place), t.conn) - ConnPart(t, t.conn)
             && requests == CountPart(t.(place := place), t.conn) - CountPart(t, t.conn)
             && TotalPart(t.(place := place)) == TotalPart(t) && (Strict(o) ==> bytes <= 0)
    ensures Inv(o, OnToken(s, i, place, Counted(s.conns[s.tokens[i].conn], bytes, requests)))
  {
    var t := s.tokens[i];
    var k := Counted(s.conns[t.conn], bytes, requests);
    TokenChanges(s.tokens, i, t.(place := place));
    HandsUntouched(o, s, t.conn, k);
    assert ConnOk(o, s.conns[t.conn]);
    Rebalanced(o, s, t.conn, k, s.tokens[i := t.(place := place)], s.reactor, s.total);
  }

  lemma StillKeeps(o: Options, s: State, i: nat, t: Token, total: int)
    requires Inv(o, s) && i < |s.tokens| && TokenOk(o, t, |s.conns|)
    requires forall c: nat :: ConnPart(t, c) == ConnPart(s.tokens[i], c) && CountPart(t, c) == CountPart(s.tokens[i], c)
    requires total - s.total == TotalPart(t) - TotalPart(s.tokens[i]) && (Strict(o) ==> total <= s.total)
    ensures Inv(o, s.(tokens := s.tokens[i := t], total := total))
  {
    TokenChanges(s.tokens, i, t);
  }

  lemma DropKeeps(o: Options, s: State, i: nat)
    requires Inv(o, s) && i < |s.tokens| && (s.tokens[i].bytes == 0 || s.tokens[i].place == OwesScan)
    ensures Inv(o, s.(tokens := Without(s.tokens, i)))
  {
    assert TokenOk(o, s.tokens[i], |s.conns|);
    TokenGone(s.tokens, i);
  }

  lemma ForgetKeeps(o: Options, s: State, i: nat)
    requires Inv(o, s) && At(s, i, Running) && s.tokens[i].inline
    ensures Inv(o, Forgotten(s, i))
  {
    var c, k := s.tokens[i].conn, Lost(s.conns[s.tokens[i].conn], s.tokens[i].bytes);
    assert TokenOk(o, s.tokens[i], |s.conns|) && ConnOk(o, s.conns[c]);
    TokenGone(s.tokens, i);
    HandsUntouched(o, s, c, k);
    Rebalanced(o, s, c, k, Without(s.tokens, i), s.reactor, s.total);
  }

  lemma {:induction false} SameBooks(a: seq<Conn>, b: seq<Conn>)
    requires |a| == |b| && forall c: nat | c < |a| :: a[c].reserved + a[c].lost == b[c].reserved + b[c].lost
    ensures Sum(a, OnBooks()) == Sum(b, OnBooks())
  {
    if a == [] {
    } else {
      assert a[0].reserved + a[0].lost == b[0].reserved + b[0].lost;
      forall c: nat | c < |a[1..]|
        ensures a[1..][c].reserved + a[1..][c].lost == b[1..][c].reserved + b[1..][c].lost
      {
        assert a[1..][c] == a[c + 1] && b[1..][c] == b[c + 1];
      }
      SameBooks(a[1..], b[1..]);
    }
  }

  lemma ResumeKeeps(o: Options, s: State, c: nat)
    requires Inv(o, s)
    ensures Inv(o, s.(conns := Resumed(o, s.conns, s.total, c)))
  {
    var conns := Resumed(o, s.conns, s.total, c);
    assert forall d: nat | d < |conns| :: conns[d].(paused := s.conns[d].paused) == s.conns[d];
    SameBooks(s.conns, conns);
  }

  // ---- every step -------------------------------------------------------------------------------

  lemma AnnounceKeeps(o: Options, s: State, c: nat, n: nat)
    requires Inv(o, s)
    ensures Inv(o, Read(o, s, Announce(c, n)))
  {
    if Parsing(s, c) && s.conns[c].phase == Header && 0 < n <= o.maxMessage {
      assert ConnOk(o, s.conns[c]);
      FlagsKeep(o, s, c, s.conns[c].(phase := Announced(n)));
    }
  }

  lemma BeginKeeps(o: Options, s: State, c: nat)
    requires Inv(o, s)
    ensures Inv(o, Read(o, s, Begin(c)))
  {
    if !Strict(o) && Parsing(s, c) && s.conns[c].phase.Announced? {
      assert ConnOk(o, s.conns[c]);
      FlagsKeep(o, s, c, s.conns[c].(phase := Payload(s.conns[c].phase.size, 0)));
    }
  }

  lemma CollectKeeps(o: Options, s: State, c: nat, n: nat)
    requires Inv(o, s) && Parsing(s, c) && s.conns[c].phase.Payload?
    requires n <= s.conns[c].phase.size - s.conns[c].phase.received
    ensures Inv(o, SetConn(s, c, Collected(s.conns[c], n)))
  {
    assert ConnOk(o, s.conns[c]);
    FlagsKeep(o, s, c, Collected(s.conns[c], n));
  }

  lemma ReservingKeeps(o: Options, s: State, c: nat)
    requires Inv(o, s) && Strict(o) && Parsing(s, c) && s.conns[c].phase.Announced?
    ensures Inv(o, Reserving(o, s, c))
  {
    if Shown(s.conns[c].bytes) + s.conns[c].phase.size <= o.connLimit {
      ReserveConnKeeps(o, s, c, s.conns[c].phase.size);
    } else {
      TurnKeeps(o, s, Pausing(c));
    }
  }

  lemma GiveUpKeeps(o: Options, s: State, c: nat)
    requires Inv(o, s) && c < |s.conns|
    ensures Inv(o, SetConn(s, c, s.conns[c].(open := false)))
  {
    assert ConnOk(o, s.conns[c]);
    FlagsKeep(o, s, c, s.conns[c].(open := false));
  }

  lemma EnterKeeps(o: Options, s: State, c: nat)
    requires Inv(o, s)
    ensures Inv(o, Read(o, s, Enter(c)))
  {
    if s.reactor == Away && c < |s.conns| && s.conns[c].open && !s.conns[c].paused {
      TurnKeeps(o, s, Consuming(c));
    }
  }

  lemma ReadKeeps(o: Options, s: State, step: Reading)
    requires Inv(o, s)
    ensures Inv(o, Read(o, s, step))
  {
    match step {
      case Connect => ConnectKeeps(o, s);
      case Enter(c) => EnterKeeps(o, s, c);
      case Announce(c, n) => AnnounceKeeps(o, s, c, n);
      case Begin(c) => BeginKeeps(o, s, c);
      case ReserveConn(c) =>
        if Strict(o) && Parsing(s, c) && s.conns[c].phase.Announced? {
          ReservingKeeps(o, s, c);
        }
      case Collect(c, n) =>
        if Parsing(s, c) && s.conns[c].phase.Payload? && n <= s.conns[c].phase.size - s.conns[c].phase.received {
          CollectKeeps(o, s, c, n);
        }
      case Dispatch(c, stream) =>
        if Complete(s, c) {
          DispatchKeeps(o, s, c, stream);
        }
      case Continue(c, n) =>
        if !Strict(o) && c < |s.conns| && 0 < n <= o.maxMessage {
          ContinueKeeps(o, s, c, n);
        }
      case Break(c) =>
        if c < |s.conns| {
          GiveUpKeeps(o, s, c);
        }
      case Close(c) =>
        if c < |s.conns| {
          CloseKeeps(o, s, c);
        }
    }
  }

  lemma PauseKeeps(o: Options, s: State)
    requires Inv(o, s)
    ensures Inv(o, Act(o, s, Pause))
  {
    if s.reactor.Pausing? {
      var c := s.reactor.conn;
      assert ConnOk(o, s.conns[c]);
      TurnKeeps(o, s, Away);
      FlagsKeep(o, s.(reactor := Away), c, s.conns[c].(paused := true));
    }
  }

  lemma ActKeeps(o: Options, s: State, step: Acting)
    requires Inv(o, s)
    ensures Inv(o, Act(o, s, step))
  {
    match step {
      case ReserveTotal =>
        if s.reactor.Half? && Shown(s.total) + s.reactor.size <= o.totalLimit {
          ReserveTotalKeeps(o, s, s.reactor.conn, s.reactor.size);
        }
      case RollBack =>
        if s.reactor.RollingBack? {
          RollBackKeeps(o, s, s.reactor.conn, s.reactor.size);
        }
      case Admit =>
        if s.reactor.Handing? && s.reactor.stream {
          AdmitStreamKeeps(o, s, s.reactor.conn, s.reactor.size);
        } else if s.reactor.Handing? {
          AdmitKeeps(o, s, s.reactor.conn, s.reactor.size);
        }
      case Refuse(fromJob, after) =>
        if s.reactor.Handing? {
          RefuseKeeps(o, s, fromJob, after);
        }
      case Decide =>
        if s.reactor.Deciding? {
          TurnKeeps(o, s, Act(o, s, Decide).reactor);
        }
      case Pause => PauseKeeps(o, s);
      case Return =>
        if s.reactor.Consuming? {
          TurnKeeps(o, s, Away);
        }
    }
  }

  lemma ChargeConnKeeps(o: Options, s: State, i: nat)
    requires Inv(o, s) && At(s, i, TakesConn)
    ensures Inv(o, OnToken(s, i, TakesTotal, Counted(s.conns[s.tokens[i].conn], s.tokens[i].bytes, 0)))
  {
    assert TokenOk(o, s.tokens[i], |s.conns|);
    MoveKeeps(o, s, i, TakesTotal, s.tokens[i].bytes, 0);
  }

  lemma ChargeTotalKeeps(o: Options, s: State, i: nat)
    requires Inv(o, s)
    ensures Inv(o, Work(o, s, ChargeTotal(i)))
  {
    if At(s, i, TakesTotal) {
      assert TokenOk(o, s.tokens[i], |s.conns|);
      StillKeeps(o, s, i, s.tokens[i].(place := Running), s.total + s.tokens[i].bytes);
    }
  }

  lemma FinishKeeps(o: Options, s: State, i: nat)
    requires Inv(o, s)
    ensures Inv(o, Work(o, s, Finish(i)))
  {
    if At(s, i, Running) {
      assert TokenOk(o, s.tokens[i], |s.conns|);
      if s.tokens[i].bytes == 0 {
        DropKeeps(o, s, i);
      } else {
        StillKeeps(o, s, i, s.tokens[i].(place := OwesConn), s.total);
      }
    }
  }

  lemma WorkKeeps(o: Options, s: State, step: Working)
    requires Inv(o, s)
    ensures Inv(o, Work(o, s, step))
  {
    var i := step.token;
    if i < |s.tokens| {
      assert TokenOk(o, s.tokens[i], |s.conns|);
    }
    match step {
      case ChargeConn(_) =>
        if At(s, i, TakesConn) {
          ChargeConnKeeps(o, s, i);
        }
      case ChargeTotal(_) => ChargeTotalKeeps(o, s, i);
      case Start(_) =>
        if At(s, i, Queued) {
          StillKeeps(o, s, i, s.tokens[i].(place := Running), s.total);
        }
      case HandOn(_) =>
        if At(s, i, Running) && s.tokens[i].inline {
          StillKeeps(o, s, i, s.tokens[i].(place := Queued, inline := false), s.total);
        }
      case Supersede(_) =>
        if At(s, i, Queued) && s.tokens[i].counted {
          StillKeeps(o, s, i, s.tokens[i].(place := OwesConn), s.total);
        }
      case Finish(_) => FinishKeeps(o, s, i);
      case Forget(_) =>
        if At(s, i, Running) && s.tokens[i].inline {
          ForgetKeeps(o, s, i);
        }
    }
  }

  lemma ScanKeeps(o: Options, s: State, i: nat)
    requires Inv(o, s) && At(s, i, OwesScan)
    ensures Inv(o, Scanned(o, s, i))
  {
    DropKeeps(o, s, i);
    ResumeKeeps(o, s.(tokens := Without(s.tokens, i)), s.tokens[i].conn);
  }

  lemma SubConnKeeps(o: Options, s: State, i: nat)
    requires Inv(o, s) && At(s, i, OwesConn)
    ensures var t := s.tokens[i];
            Inv(o, OnToken(s, i, if t.counted then OwesCount else OwesTotal, Counted(s.conns[t.conn], 0 - t.bytes, 0)))
  {
    assert TokenOk(o, s.tokens[i], |s.conns|);
    MoveKeeps(o, s, i, if s.tokens[i].counted then OwesCount else OwesTotal, 0 - s.tokens[i].bytes, 0);
  }

  lemma SubCountKeeps(o: Options, s: State, i: nat)
    requires Inv(o, s) && At(s, i, OwesCount)
    ensures Inv(o, OnToken(s, i, OwesTotal, Counted(s.conns[s.tokens[i].conn], 0, -1)))
  {
    assert TokenOk(o, s.tokens[i], |s.conns|);
    MoveKeeps(o, s, i, OwesTotal, 0, -1);
  }

  lemma SubTotalKeeps(o: Options, s: State, i: nat)
    requires Inv(o, s) && At(s, i, OwesTotal)
    ensures Inv(o, OffTotal(s, i))
  {
    assert TokenOk(o, s.tokens[i], |s.conns|);
    StillKeeps(o, s, i, s.tokens[i].(place := OwesScan), s.total - s.tokens[i].bytes);
  }

  lemma PayOnConnKeeps(o: Options, s: State, i: nat)
    requires Inv(o, s)
    ensures Inv(o, Pay(o, s, SubConn(i)))
  {
    if At(s, i, OwesConn) {
      SubConnKeeps(o, s, i);
    }
  }

  lemma PayOnCountKeeps(o: Options, s: State, i: nat)
    requires Inv(o, s)
    ensures Inv(o, Pay(o, s, SubCount(i)))
  {
    if At(s, i, OwesCount) {
      SubCountKeeps(o, s, i);
    }
  }

  lemma PayOnTotalKeeps(o: Options, s: State, i: nat)
    requires Inv(o, s)
    ensures Inv(o, Pay(o, s, SubTotal(i)))
  {
    if At(s, i, OwesTotal) {
      SubTotalKeeps(o, s, i);
    }
  }

  lemma PayKeeps(o: Options, s: State, step: Paying)
    requires Inv(o, s)
    ensures Inv(o, Pay(o, s, step))
  {
    match step {
      case SubConn(i) => PayOnConnKeeps(o, s, i);
      case SubCount(i) => PayOnCountKeeps(o, s, i);
      case SubTotal(i) => PayOnTotalKeeps(o, s, i);
      case Scan(i) =>
        if At(s, i, OwesScan) {
          ScanKeeps(o, s, i);
        }
    }
  }

  lemma StepKeeps(o: Options, s: State, step: Step)
    requires Inv(o, s)
    ensures Inv(o, Apply(o, s, step))
  {
    match step {
      case Reads(r) => ReadKeeps(o, s, r);
      case Acts(a) => ActKeeps(o, s, a);
      case Works(w) => WorkKeeps(o, s, w);
      case Pays(p) => PayKeeps(o, s, p);
    }
  }

  lemma {:induction false} RunKeeps(o: Options, s: State, steps: seq<Step>)
    requires Inv(o, s)
    ensures Inv(o, Run(o, s, steps))
    decreases |steps|
  {
    if steps == [] {
    } else {
      StepKeeps(o, s, steps[0]);
      RunKeeps(o, Apply(o, s, steps[0]), steps[1..]);
    }
  }

  // ---- conservation -----------------------------------------------------------------------------

  function Reserved(): Conn -> int { (k: Conn) => k.reserved }

  // The counters are exactly what parsers, jobs, releases in progress and the reactor hold.
  ghost predicate Balanced(o: Options, s: State) {
    && s.total == Sum(s.conns, Reserved()) + TotalSum(s.tokens) + HeldTotal(o, s.reactor)
    && forall c: nat | c < |s.conns| ::
         && s.conns[c].bytes == s.conns[c].reserved + ConnSum(s.tokens, c) + HeldConn(o, s.reactor, c)
         && s.conns[c].requests == CountSum(s.tokens, c)
  }

  ghost predicate Lossless(s: State) {
    forall c: nat | c < |s.conns| :: s.conns[c].lost == 0 && s.conns[c].lostRequests == 0
  }

  lemma {:induction false} NothingLost(conns: seq<Conn>)
    requires forall c: nat | c < |conns| :: conns[c].lost == 0
    ensures Sum(conns, OnBooks()) == Sum(conns, Reserved())
  {
    if conns == [] {
    } else {
      assert conns[0].lost == 0;
      forall c: nat | c < |conns[1..]|
        ensures conns[1..][c].lost == 0
      {
        assert conns[1..][c] == conns[c + 1];
      }
      NothingLost(conns[1..]);
    }
  }

  lemma BalancedIffLossless(o: Options, s: State)
    requires Inv(o, s)
    ensures Balanced(o, s) <==> Lossless(s)
  {
    if Lossless(s) {
      NothingLost(s.conns);
    }
    if Balanced(o, s) {
      forall c: nat | c < |s.conns|
        ensures s.conns[c].lost == 0 && s.conns[c].lostRequests == 0
      {
      }
    }
  }

  // A frame is dispatched whose reservation a close has taken meanwhile, or a job is dropped unpaid.
  predicate Offends(o: Options, s: State, step: Step) {
    match step
    case Reads(Dispatch(c, _)) => Strict(o) && Complete(s, c) && s.conns[c].reserved != s.conns[c].phase.size
    case Works(Forget(i)) => At(s, i, Running) && s.tokens[i].inline
    case _ => false
  }

  // No step of the run offends.
  predicate Clean(o: Options, s: State, steps: seq<Step>)
    decreases |steps|
  {
    steps != [] ==> !Offends(o, s, steps[0]) && Clean(o, Apply(o, s, steps[0]), steps[1..])
  }

  ghost predicate SameLoss(s: State, q: State) {
    && |s.conns| <= |q.conns|
    && (forall c: nat | c < |s.conns| ::
          q.conns[c].lost == s.conns[c].lost && q.conns[c].lostRequests == s.conns[c].lostRequests)
    && (forall c: nat | |s.conns| <= c < |q.conns| :: q.conns[c].lost == 0 && q.conns[c].lostRequests == 0)
  }

  lemma ReadLoss(o: Options, s: State, step: Reading)
    requires Inv(o, s) && !Offends(o, s, Reads(step))
    ensures SameLoss(s, Read(o, s, step))
  {
    if step.Dispatch? && Complete(s, step.conn) {
      assert ConnOk(o, s.conns[step.conn]);
    }
  }

  lemma ActLoss(o: Options, s: State, step: Acting)
    ensures SameLoss(s, Act(o, s, step))
  {
  }

  lemma WorkLoss(o: Options, s: State, step: Working)
    requires !Offends(o, s, Works(step))
    ensures SameLoss(s, Work(o, s, step))
  {
  }

  lemma PayLoss(o: Options, s: State, step: Paying)
    ensures SameLoss(s, Pay(o, s, step))
  {
  }

  lemma StepLoss(o: Options, s: State, step: Step)
    requires Inv(o, s) && !Offends(o, s, step)
    ensures SameLoss(s, Apply(o, s, step))
  {
    match step {
      case Reads(r) => ReadLoss(o, s, r);
      case Acts(a) => ActLoss(o, s, a);
      case Works(w) => WorkLoss(o, s, w);
      case Pays(p) => PayLoss(o, s, p);
    }
  }

  // An offence is a loss, and no loss is ever made good.
  lemma OffenceLoses(o: Options, s: State, step: Step)
    requires Inv(o, s) && Offends(o, s, step)
    ensures !Lossless(Apply(o, s, step))
  {
    var q := Apply(o, s, step);
    if step.Reads? {
      var c := step.reading.conn;
      assert ConnOk(o, s.conns[c]);
      assert q.conns[c].lost < 0;
    } else {
      var t := s.tokens[step.working.token];
      assert TokenOk(o, t, |s.conns|) && ConnOk(o, s.conns[t.conn]);
      assert q.conns[t.conn].lost > 0;
    }
  }

  lemma LossStays(o: Options, s: State, step: Step)
    requires Inv(o, s) && !Lossless(s)
    ensures !Lossless(Apply(o, s, step))
  {
    if Offends(o, s, step) {
      OffenceLoses(o, s, step);
    } else {
      StepLoss(o, s, step);
      var c: nat :| c < |s.conns| && (s.conns[c].lost != 0 || s.conns[c].lostRequests != 0);
      assert Apply(o, s, step).conns[c].lost == s.conns[c].lost;
    }
  }

  lemma {:induction false} LossStaysOnRun(o: Options, s: State, steps: seq<Step>)
    requires Inv(o, s) && !Lossless(s)
    ensures !Lossless(Run(o, s, steps))
    decreases |steps|
  {
    if steps == [] {
    } else {
      StepKeeps(o, s, steps[0]);
      LossStays(o, s, steps[0]);
      LossStaysOnRun(o, Apply(o, s, steps[0]), steps[1..]);
    }
  }

  lemma {:induction false} LosslessIffClean(o: Options, s: State, steps: seq<Step>)
    requires Inv(o, s) && Lossless(s)
    ensures Lossless(Run(o, s, steps)) <==> Clean(o, s, steps)
    decreases |steps|
  {
    if steps == [] {
    } else {
      var q := Apply(o, s, steps[0]);
      StepKeeps(o, s, steps[0]);
      if Offends(o, s, steps[0]) {
        OffenceLoses(o, s, steps[0]);
        LossStaysOnRun(o, q, steps[1..]);
      } else {
        StepLoss(o, s, steps[0]);
        LosslessIffClean(o, q, steps[1..]);
      }
    }
  }

  lemma StartsLossless(o: Options)
    ensures Inv(o, Init()) && Lossless(Init())
  {
  }

  lemma LossIsUnclean(o: Options, steps: seq<Step>)
    requires !Lossless(Run(o, Init(), steps))
    ensures !Clean(o, Init(), steps)
  {
    StartsLossless(o);
    LosslessIffClean(o, Init(), steps);
  }

  // ---- the promises -----------------------------------------------------------------------------

  lemma NonNegative(o: Options, s: State, c: nat)
    requires Inv(o, s) && (Strict(o) ==> Lossless(s))
    ensures 0 <= s.total && 0 <= TotalSum(s.tokens) && 0 <= Sum(s.conns, OnBooks())
    ensures c < |s.conns| ==> 0 <= s.conns[c].bytes && 0 <= s.conns[c].requests && 0 <= ConnSum(s.tokens, c)
  {
    SumNonNegative(s.tokens, OnTotal());
    forall d | 0 <= d < |s.conns|
      ensures OnBooks()(s.conns[d]) >= 0
    {
      assert ConnOk(o, s.conns[d]);
    }
    SumNonNegative(s.conns, OnBooks());
    SumNonNegative(s.tokens, OnConn(c));
    SumNonNegative(s.tokens, OnCount(c));
  }

  /** On every run, the counters are exactly what parsers, queued and executing jobs, releases in progress and the
      reactor hold if and only if no frame was dispatched after a close had taken its reservation and no job was dropped
      unpaid. They are then never negative; and on every run they stay within both limits of an aggregate budget. */
  lemma BudgetConserved(o: Options, steps: seq<Step>)
    ensures var s := Run(o, Init(), steps);
            && (Balanced(o, s) <==> Clean(o, Init(), steps))
            && (Strict(o) ==> s.total <= o.totalLimit)
            && (Clean(o, Init(), steps) ==> s.total >= 0)
            && forall c: nat | c < |s.conns| ::
                 && (Strict(o) ==> s.conns[c].bytes <= o.connLimit)
                 && (Clean(o, Init(), steps) ==> s.conns[c].bytes >= 0 && s.conns[c].requests >= 0)
  {
    var s := Run(o, Init(), steps);
    StartsLossless(o);
    RunKeeps(o, Init(), steps);
    LosslessIffClean(o, Init(), steps);
    BalancedIffLossless(o, s);
    if Clean(o, Init(), steps) {
      NonNegative(o, s, 0);
      forall c: nat | c < |s.conns|
        ensures s.conns[c].bytes >= 0 && s.conns[c].requests >= 0
      {
        NonNegative(o, s, c);
      }
    }
  }

  // A parser holds payload only within what it reserved, unless its connection was closed under it.
  lemma PayloadWithinReservation(o: Options, steps: seq<Step>, c: nat)
    requires Strict(o) && c < |Run(o, Init(), steps).conns| && Run(o, Init(), steps).conns[c].phase.Payload?
    ensures var k := Run(o, Init(), steps).conns[c]; k.phase.received <= k.reserved || !k.open
  {
    StartsLossless(o);
    RunKeeps(o, Init(), steps);
    assert ConnOk(o, Run(o, Init(), steps).conns[c]);
  }

  // Nothing is held any more.
  predicate Drained(s: State) {
    s.tokens == [] && !s.reactor.Half? && !s.reactor.RollingBack? && !s.reactor.Handing?
    && forall c: nat | c < |s.conns| :: s.conns[c].reserved == 0
  }

  /** With nothing held, every counter is back at zero, so that each reservation was released exactly once, if and only
      if the run was clean. */
  lemma DrainedIsZeroIff(o: Options, steps: seq<Step>)
    requires Drained(Run(o, Init(), steps))
    ensures var s := Run(o, Init(), steps);
            Clean(o, Init(), steps) <==>
            s.total == 0 && forall c: nat | c < |s.conns| :: s.conns[c].bytes == 0 && s.conns[c].requests == 0
  {
    BudgetConserved(o, steps);
    NothingReserved(Run(o, Init(), steps).conns);
  }

  lemma {:induction false} NothingReserved(conns: seq<Conn>)
    requires forall c: nat | c < |conns| :: conns[c].reserved == 0
    ensures Sum(conns, Reserved()) == 0
  {
    if conns == [] {
    } else {
      assert conns[0].reserved == 0;
      forall c: nat | c < |conns[1..]|
        ensures conns[1..][c].reserved == 0
      {
        assert conns[1..][c] == conns[c + 1];
      }
      NothingReserved(conns[1..]);
    }
  }

  // The reactor is at work on connection c.
  predicate Engaged(r: Reactor, c: nat) { r != Away && r.conn == c }

  // No thread closes a connection while the reactor is at work on it.
  predicate Patient(o: Options, s: State, steps: seq<Step>)
    decreases |steps|
  {
    steps != [] ==>
      && (steps[0].Reads? && steps[0].reading.Close? ==> !Engaged(s.reactor, steps[0].reading.conn))
      && Patient(o, Apply(o, s, steps[0]), steps[1..])
  }

  // What the reactor is parsing is reserved.
  ghost predicate Secured(o: Options, s: State) {
    s.reactor != Away && s.reactor.conn < |s.conns| && s.conns[s.reactor.conn].phase.Payload? ==>
      s.conns[s.reactor.conn].reserved == s.conns[s.reactor.conn].phase.size
  }

  lemma SecuredRead(o: Options, s: State, step: Reading)
    requires Strict(o) && Secured(o, s) && (step.Close? ==> !Engaged(s.reactor, step.conn))
    requires step.Enter? && step.conn < |s.conns| ==> ConnOk(o, s.conns[step.conn])
    ensures Secured(o, Read(o, s, step)) && !Offends(o, s, Reads(step))
  {
  }

  lemma SecuredAct(o: Options, s: State, step: Acting)
    requires Strict(o) && Secured(o, s)
    ensures Secured(o, Act(o, s, step)) && !Offends(o, s, Acts(step))
  {
  }

  lemma SecuredPay(o: Options, s: State, step: Paying)
    requires Strict(o) && Secured(o, s)
    ensures Secured(o, Pay(o, s, step)) && !Offends(o, s, Pays(step))
  {
  }

  lemma SecuredWork(o: Options, s: State, step: Working)
    requires Strict(o) && Secured(o, s) && (step.token < |s.tokens| ==> TokenOk(o, s.tokens[step.token], |s.conns|))
    ensures Secured(o, Work(o, s, step)) && !Offends(o, s, Works(step))
  {
  }

  lemma SecuredStep(o: Options, s: State, step: Step)
    requires Strict(o) && Inv(o, s) && Secured(o, s)
    requires step.Reads? && step.reading.Close? ==> !Engaged(s.reactor, step.reading.conn)
    ensures Secured(o, Apply(o, s, step)) && !Offends(o, s, step)
  {
    match step {
      case Reads(r) => SecuredRead(o, s, r);
      case Acts(a) => SecuredAct(o, s, a);
      case Works(w) => SecuredWork(o, s, w);
      case Pays(p) => SecuredPay(o, s, p);
    }
  }

  /** Under an aggregate budget, if closing waits until the reactor has left the connection, every run is clean. */
  lemma {:induction false} PatientIsClean(o: Options, s: State, steps: seq<Step>)
    requires Strict(o) && Inv(o, s) && Secured(o, s) && Patient(o, s, steps)
    ensures Clean(o, s, steps)
    decreases |steps|
  {
    if steps == [] {
    } else {
      StepKeeps(o, s, steps[0]);
      SecuredStep(o, s, steps[0]);
      PatientIsClean(o, Apply(o, s, steps[0]), steps[1..]);
    }
  }

  // Without one, a run is clean when no continuation worker leaves by an exception.
  lemma {:induction false} PaidIsClean(o: Options, s: State, steps: seq<Step>)
    requires !Strict(o) && forall k | 0 <= k < |steps| :: !(steps[k].Works? && steps[k].working.Forget?)
    ensures Clean(o, s, steps)
    decreases |steps|
  {
    if steps == [] {
    } else {
      assert !(steps[0].Works? && steps[0].working.Forget?);
      PaidIsClean(o, Apply(o, s, steps[0]), steps[1..]);
    }
  }

  // With nothing in flight, a reservation a parser retries is granted.
  lemma LoneReservationSucceeds(o: Options, s: State, c: nat, n: nat)
    requires Inv(o, s) && Lossless(s) && Validated(o) && Strict(o)
    requires Drained(s) && Parsing(s, c) && s.conns[c].phase == Announced(n)
    ensures var q := Run(o, s, [Reads(ReserveConn(c)), Acts(ReserveTotal)]);
            && q.reactor == Consuming(c) && c < |q.conns| && q.conns[c].phase == Payload(n, 0)
            && q.conns[c].reserved == n && q.total == n == q.conns[c].bytes
  {
    NothingReserved(s.conns);
    NothingLost(s.conns);
    assert ConnOk(o, s.conns[c]);
    var q := Read(o, s, ReserveConn(c));
    assert q.reactor == Half(c, n) && q.total == 0;
    assert [Reads(ReserveConn(c)), Acts(ReserveTotal)][1..] == [Acts(ReserveTotal)];
    assert Run(o, q, [Acts(ReserveTotal)]) == Act(o, q, ReserveTotal);
  }

  // ---- where it fails ---------------------------------------------------------------------------

  // A request of one byte on the first connection, and a parser's reservation of one.
  function Job(place: Place): Token { Token(0, 1, true, false, place) }
  function Share(place: Place): Token { Token(0, 1, false, false, place) }

  // A closed connection of which one byte was released twice.
  function Overpaid(): Conn { Fresh().(open := false, bytes := -1, lost := -1) }

  // The reactor has decided to pause a connection and not done so yet.
  predicate Committed(r: Reactor) { r.RollingBack? || r.Pausing? }

  // Decision and pause are one step: nothing comes between them.
  predicate Prompt(o: Options, s: State, steps: seq<Step>)
    decreases |steps|
  {
    steps != [] ==>
      && (s.reactor.RollingBack? ==> steps[0] == Acts(RollBack))
      && (s.reactor.Pausing? ==> steps[0] == Acts(Pause))
      && Prompt(o, Apply(o, s, steps[0]), steps[1..])
  }

  // A run from one state to another, with decision and pause as one step if `prompt` says so.
  predicate Leads(prompt: bool, o: Options, s: State, steps: seq<Step>, end: State) {
    Run(o, s, steps) == end && (prompt ==> Prompt(o, s, steps))
  }

  lemma Prepend(prompt: bool, o: Options, s: State, step: Step, q: State, rest: seq<Step>, end: State)
    returns (steps: seq<Step>)
    requires Apply(o, s, step) == q && Leads(prompt, o, q, rest, end)
    requires prompt && s.reactor.RollingBack? ==> step == Acts(RollBack)
    requires prompt && s.reactor.Pausing? ==> step == Acts(Pause)
    ensures Leads(prompt, o, s, steps, end)
  {
    steps := [step] + rest;
    assert steps[1..] == rest;
  }

  // A connection is accepted and the reactor turns to it, ...
  lemma ConnectionEntered(prompt: bool, o: Options, rest: seq<Step>, end: State) returns (steps: seq<Step>)
    requires Leads(prompt, o, State([Fresh()], [], Consuming(0), 0), rest, end)
    ensures Leads(prompt, o, Init(), steps, end)
  {
    var s1 := State([Fresh()], [], Away, 0);
    var s2 := State([Fresh()], [], Consuming(0), 0);
    steps := Prepend(prompt, o, s1, Reads(Enter(0)), s2, rest, end);
    steps := Prepend(prompt, o, Init(), Reads(Connect), s1, steps, end);
  }

  // ... a request arrives and is parsed, ...
  lemma RequestParsed(prompt: bool, o: Options, rest: seq<Step>, end: State) returns (steps: seq<Step>)
    requires o.maxMessage > 0 && o.connLimit > 0 && o.totalLimit > 0
    requires Leads(prompt, o, State([Fresh().(bytes := 1, reserved := 1, phase := Payload(1, 1))],
                                    [], Consuming(0), 1), rest, end)
    ensures Leads(prompt, o, State([Fresh()], [], Consuming(0), 0), steps, end)
  {
    var s0 := State([Fresh()], [], Consuming(0), 0);
    var s1 := State([Fresh().(phase := Announced(1))], [], Consuming(0), 0);
    var s2 := State([Fresh().(bytes := 1, phase := Announced(1))], [], Half(0, 1), 0);
    var s3 := State([Fresh().(bytes := 1, reserved := 1, phase := Payload(1, 0))], [], Consuming(0), 1);
    var s4 := State([Fresh().(bytes := 1, reserved := 1, phase := Payload(1, 1))], [], Consuming(0), 1);
    steps := rest;
    steps := Prepend(prompt, o, s3, Reads(Collect(0, 1)), s4, steps, end);
    steps := Prepend(prompt, o, s2, Acts(ReserveTotal), s3, steps, end);
    steps := Prepend(prompt, o, s1, Reads(ReserveConn(0)), s2, steps, end);
    steps := Prepend(prompt, o, s0, Reads(Announce(0, 1)), s1, steps, end);
  }

  // ... it is queued, and the reactor looks at its watermarks, ...
  lemma RequestQueued(prompt: bool, o: Options, rest: seq<Step>, end: State) returns (steps: seq<Step>)
    requires o.maxMessage > 0 && o.connLimit > 0 && o.totalLimit > 0
    requires Leads(prompt, o, State([Fresh().(bytes := 1, requests := 1)],
                                    [Job(Queued)], Deciding(0), 1), rest, end)
    ensures Leads(prompt, o, State([Fresh().(bytes := 1, reserved := 1, phase := Payload(1, 1))],
                                   [], Consuming(0), 1), steps, end)
  {
    var s0 := State([Fresh().(bytes := 1, reserved := 1, phase := Payload(1, 1))], [], Consuming(0), 1);
    var s1 := State([Fresh().(bytes := 1)], [], Handing(0, false, 1, 1), 1);
    var s2 := State([Fresh().(bytes := 1, requests := 1)], [Job(Queued)], Deciding(0), 1);
    steps := rest;
    steps := Prepend(prompt, o, s1, Acts(Admit), s2, steps, end);
    steps := Prepend(prompt, o, s0, Reads(Dispatch(0, false)), s1, steps, end);
  }

  // ... its job runs, whatever the reactor does meanwhile, ...
  lemma JobRuns(prompt: bool, o: Options, r: Reactor, rest: seq<Step>, end: State) returns (steps: seq<Step>)
    requires Strict(o) && (prompt ==> !Committed(r))
    requires Leads(prompt, o, State([Fresh().(requests := 1)], [Job(OwesCount)], r, 1), rest, end)
    ensures Leads(prompt, o, State([Fresh().(bytes := 1, requests := 1)], [Job(Queued)], r, 1), steps, end)
  {
    var s0 := State([Fresh().(bytes := 1, requests := 1)], [Job(Queued)], r, 1);
    var s1 := State([Fresh().(bytes := 1, requests := 1)], [Job(Running)], r, 1);
    var s2 := State([Fresh().(bytes := 1, requests := 1)], [Job(OwesConn)], r, 1);
    var s3 := State([Fresh().(requests := 1)], [Job(OwesCount)], r, 1);
    steps := rest;
    steps := Prepend(prompt, o, s2, Pays(SubConn(0)), s3, steps, end);
    steps := Prepend(prompt, o, s1, Works(Finish(0)), s2, steps, end);
    steps := Prepend(prompt, o, s0, Works(Start(0)), s1, steps, end);
  }

  // ... and is released; ...
  lemma JobReleased(prompt: bool, o: Options, r: Reactor, rest: seq<Step>, end: State) returns (steps: seq<Step>)
    requires Strict(o) && (prompt ==> !Committed(r))
    requires Leads(prompt, o, State([Fresh()], [], r, 0), rest, end)
    ensures Leads(prompt, o, State([Fresh().(requests := 1)], [Job(OwesCount)], r, 1), steps, end)
  {
    var s0 := State([Fresh().(requests := 1)], [Job(OwesCount)], r, 1);
    var s1 := State([Fresh()], [Job(OwesTotal)], r, 1);
    var s2 := State([Fresh()], [Job(OwesScan)], r, 0);
    var s3 := State([Fresh()], [], r, 0);
    steps := rest;
    steps := Prepend(prompt, o, s2, Pays(Scan(0)), s3, steps, end);
    steps := Prepend(prompt, o, s1, Pays(SubTotal(0)), s2, steps, end);
    steps := Prepend(prompt, o, s0, Pays(SubCount(0)), s1, steps, end);
  }

  // ... another request begins while the job of the one before waits, reserving its payload, ...
  lemma NextRequestBegins(prompt: bool, o: Options, rest: seq<Step>, end: State) returns (steps: seq<Step>)
    requires o == Options(1, 2, 2, 2)
    requires Leads(prompt, o, State([Fresh().(bytes := 2, requests := 1, reserved := 1, phase := Payload(1, 0))],
                                    [Job(Queued)], Consuming(0), 2), rest, end)
    ensures Leads(prompt, o, State([Fresh().(bytes := 1, requests := 1)], [Job(Queued)], Deciding(0), 1), steps, end)
  {
    var s0 := State([Fresh().(bytes := 1, requests := 1)], [Job(Queued)], Deciding(0), 1);
    var s1 := State([Fresh().(bytes := 1, requests := 1)], [Job(Queued)], Consuming(0), 1);
    var s2 := State([Fresh().(bytes := 1, requests := 1, phase := Announced(1))], [Job(Queued)], Consuming(0), 1);
    var s3 := State([Fresh().(bytes := 2, requests := 1, phase := Announced(1))], [Job(Queued)], Half(0, 1), 1);
    var s4 := State([Fresh().(bytes := 2, requests := 1, reserved := 1, phase := Payload(1, 0))],
                    [Job(Queued)], Consuming(0), 2);
    steps := rest;
    steps := Prepend(prompt, o, s3, Acts(ReserveTotal), s4, steps, end);
    steps := Prepend(prompt, o, s2, Reads(ReserveConn(0)), s3, steps, end);
    steps := Prepend(prompt, o, s1, Reads(Announce(0, 1)), s2, steps, end);
    steps := Prepend(prompt, o, s0, Acts(Decide), s1, steps, end);
  }

  // ... that job's response overflows the queue, where the earlier response still is, so its worker closes the
  // connection; the reactor dispatches the next request all the same, ...
  lemma CloseTakesReservation(prompt: bool, o: Options, rest: seq<Step>, end: State) returns (steps: seq<Step>)
    requires o == Options(1, 2, 2, 2)
    requires Leads(prompt, o, State([Fresh().(open := false, bytes := 2, requests := 2, lost := -1)],
                                    [Job(Running), Share(OwesConn), Job(Queued)], Deciding(0), 2), rest, end)
    ensures Leads(prompt, o, State([Fresh().(bytes := 2, requests := 1, reserved := 1, phase := Payload(1, 0))],
                                   [Job(Queued)], Consuming(0), 2), steps, end)
  {
    var s0 := State([Fresh().(bytes := 2, requests := 1, reserved := 1, phase := Payload(1, 0))],
                    [Job(Queued)], Consuming(0), 2);
    var s1 := State([Fresh().(bytes := 2, requests := 1, reserved := 1, phase := Payload(1, 0))],
                    [Job(Running)], Consuming(0), 2);
    var s2 := State([Fresh().(open := false, bytes := 2, requests := 1, phase := Payload(1, 0))],
                    [Job(Running), Share(OwesConn)], Consuming(0), 2);
    var s3 := State([Fresh().(open := false, bytes := 2, requests := 1, phase := Payload(1, 1))],
                    [Job(Running), Share(OwesConn)], Consuming(0), 2);
    var s4 := State([Fresh().(open := false, bytes := 2, requests := 1, lost := -1)],
                    [Job(Running), Share(OwesConn)], Handing(0, false, 1, 1), 2);
    var s5 := State([Fresh().(open := false, bytes := 2, requests := 2, lost := -1)],
                    [Job(Running), Share(OwesConn), Job(Queued)], Deciding(0), 2);
    steps := rest;
    steps := Prepend(prompt, o, s4, Acts(Admit), s5, steps, end);
    steps := Prepend(prompt, o, s3, Reads(Dispatch(0, false)), s4, steps, end);
    steps := Prepend(prompt, o, s2, Reads(Collect(0, 1)), s3, steps, end);
    steps := Prepend(prompt, o, s1, Reads(Close(0)), s2, steps, end);
    steps := Prepend(prompt, o, s0, Works(Start(0)), s1, steps, end);
  }

  // ... what the close took is released, ...
  lemma TakenBytesReleased(prompt: bool, o: Options, rest: seq<Step>, end: State) returns (steps: seq<Step>)
    requires o == Options(1, 2, 2, 2)
    requires Leads(prompt, o, State([Fresh().(open := false, bytes := 1, requests := 2, lost := -1)],
                                    [Job(Running), Job(Queued)], Deciding(0), 1), rest, end)
    ensures Leads(prompt, o, State([Fresh().(open := false, bytes := 2, requests := 2, lost := -1)],
                                   [Job(Running), Share(OwesConn), Job(Queued)], Deciding(0), 2), steps, end)
  {
    var s0 := State([Fresh().(open := false, bytes := 2, requests := 2, lost := -1)],
                    [Job(Running), Share(OwesConn), Job(Queued)], Deciding(0), 2);
    var s1 := State([Fresh().(open := false, bytes := 1, requests := 2, lost := -1)],
                    [Job(Running), Share(OwesTotal), Job(Queued)], Deciding(0), 2);
    var s2 := State([Fresh().(open := false, bytes := 1, requests := 2, lost := -1)],
                    [Job(Running), Share(OwesScan), Job(Queued)], Deciding(0), 1);
    var s3 := State([Fresh().(open := false, bytes := 1, requests := 2, lost := -1)],
                    [Job(Running), Job(Queued)], Deciding(0), 1);
    steps := rest;
    steps := Prepend(prompt, o, s2, Pays(Scan(1)), s3, steps, end);
    steps := Prepend(prompt, o, s1, Pays(SubTotal(1)), s2, steps, end);
    steps := Prepend(prompt, o, s0, Pays(SubConn(1)), s1, steps, end);
  }

  // ... then the closing worker's job ends, ...
  lemma FirstJobEnds(prompt: bool, o: Options, rest: seq<Step>, end: State) returns (steps: seq<Step>)
    requires o == Options(1, 2, 2, 2)
    requires Leads(prompt, o, State([Fresh().(open := false, requests := 1, lost := -1)],
                                    [Job(OwesTotal), Job(Queued)], Deciding(0), 1), rest, end)
    ensures Leads(prompt, o, State([Fresh().(open := false, bytes := 1, requests := 2, lost := -1)],
                                   [Job(Running), Job(Queued)], Deciding(0), 1), steps, end)
  {
    var s0 := State([Fresh().(open := false, bytes := 1, requests := 2, lost := -1)],
                    [Job(Running), Job(Queued)], Deciding(0), 1);
    var s1 := State([Fresh().(open := false, bytes := 1, requests := 2, lost := -1)],
                    [Job(OwesConn), Job(Queued)], Deciding(0), 1);
    var s2 := State([Fresh().(open := false, requests := 2, lost := -1)],
                    [Job(OwesCount), Job(Queued)], Deciding(0), 1);
    var s3 := State([Fresh().(open := false, requests := 1, lost := -1)],
                    [Job(OwesTotal), Job(Queued)], Deciding(0), 1);
    steps := rest;
    steps := Prepend(prompt, o, s2, Pays(SubCount(0)), s3, steps, end);
    steps := Prepend(prompt, o, s1, Pays(SubConn(0)), s2, steps, end);
    steps := Prepend(prompt, o, s0, Works(Finish(0)), s1, steps, end);
  }

  // ... and its bytes are released, ...
  lemma FirstJobReleased(prompt: bool, o: Options, rest: seq<Step>, end: State) returns (steps: seq<Step>)
    requires o == Options(1, 2, 2, 2)
    requires Leads(prompt, o, State([Fresh().(open := false, requests := 1, lost := -1)],
                                    [Job(Queued)], Deciding(0), 0), rest, end)
    ensures Leads(prompt, o, State([Fresh().(open := false, requests := 1, lost := -1)],
                                   [Job(OwesTotal), Job(Queued)], Deciding(0), 1), steps, end)
  {
    var s0 := State([Fresh().(open := false, requests := 1, lost := -1)],
                    [Job(OwesTotal), Job(Queued)], Deciding(0), 1);
    var s1 := State([Fresh().(open := false, requests := 1, lost := -1)],
                    [Job(OwesScan), Job(Queued)], Deciding(0), 0);
    var s2 := State([Fresh().(open := false, requests := 1, lost := -1)], [Job(Queued)], Deciding(0), 0);
    steps := rest;
    steps := Prepend(prompt, o, s1, Pays(Scan(0)), s2, steps, end);
    steps := Prepend(prompt, o, s0, Pays(SubTotal(0)), s1, steps, end);
  }

  // ... and then those of the other job, ...
  lemma SecondJobRuns(prompt: bool, o: Options, rest: seq<Step>, end: State) returns (steps: seq<Step>)
    requires o == Options(1, 2, 2, 2)
    requires Leads(prompt, o, State([Fresh().(open := false, bytes := -1, requests := 1, lost := -1)],
                                    [Job(OwesCount)], Deciding(0), 0), rest, end)
    ensures Leads(prompt, o, State([Fresh().(open := false, requests := 1, lost := -1)],
                                   [Job(Queued)], Deciding(0), 0), steps, end)
  {
    var s0 := State([Fresh().(open := false, requests := 1, lost := -1)], [Job(Queued)], Deciding(0), 0);
    var s1 := State([Fresh().(open := false, requests := 1, lost := -1)], [Job(Running)], Deciding(0), 0);
    var s2 := State([Fresh().(open := false, requests := 1, lost := -1)], [Job(OwesConn)], Deciding(0), 0);
    var s3 := State([Fresh().(open := false, bytes := -1, requests := 1, lost := -1)],
                    [Job(OwesCount)], Deciding(0), 0);
    steps := rest;
    steps := Prepend(prompt, o, s2, Pays(SubConn(0)), s3, steps, end);
    steps := Prepend(prompt, o, s1, Works(Finish(0)), s2, steps, end);
    steps := Prepend(prompt, o, s0, Works(Start(0)), s1, steps, end);
  }

  // ... which were released already.
  lemma SecondJobReleased(prompt: bool, o: Options, rest: seq<Step>, end: State) returns (steps: seq<Step>)
    requires o == Options(1, 2, 2, 2)
    requires Leads(prompt, o, State([Fresh().(open := false, bytes := -1, lost := -1)],
                                    [], Deciding(0), -1), rest, end)
    ensures Leads(prompt, o, State([Fresh().(open := false, bytes := -1, requests := 1, lost := -1)],
                                   [Job(OwesCount)], Deciding(0), 0), steps, end)
  {
    var s0 := State([Fresh().(open := false, bytes := -1, requests := 1, lost := -1)],
                    [Job(OwesCount)], Deciding(0), 0);
    var s1 := State([Fresh().(open := false, bytes := -1, lost := -1)], [Job(OwesTotal)], Deciding(0), 0);
    var s2 := State([Fresh().(open := false, bytes := -1, lost := -1)], [Job(OwesScan)], Deciding(0), -1);
    var s3 := State([Overpaid()], [], Deciding(0), -1);
    steps := rest;
    steps := Prepend(prompt, o, s2, Pays(Scan(0)), s3, steps, end);
    steps := Prepend(prompt, o, s1, Pays(SubTotal(0)), s2, steps, end);
    steps := Prepend(prompt, o, s0, Pays(SubCount(0)), s1, steps, end);
  }

  lemma BelowZero(prompt: bool, o: Options, rest: seq<Step>, end: State) returns (steps: seq<Step>)
    requires o == Options(1, 2, 2, 2)
    requires Leads(prompt, o, State([Overpaid()], [], Deciding(0), -1), rest, end)
    ensures Leads(prompt, o, Init(), steps, end)
  {
    var k := Fresh().(bytes := 1, requests := 1);
    steps := SecondJobReleased(prompt, o, rest, end);
    steps := SecondJobRuns(prompt, o, steps, end);
    steps := FirstJobReleased(prompt, o, steps, end);
    steps := FirstJobEnds(prompt, o, steps, end);
    steps := TakenBytesReleased(prompt, o, steps, end);
    steps := CloseTakesReservation(prompt, o, steps, end);
    steps := NextRequestBegins(prompt, o, steps, end);
    steps := RequestQueued(prompt, o, steps, end);
    steps := RequestParsed(prompt, o, steps, end);
    steps := JobReleased(prompt, o, Consuming(0), steps, end);
    steps := JobRuns(prompt, o, Consuming(0), steps, end);
    steps := Prepend(prompt, o, State([k], [Job(Queued)], Deciding(0), 1), Acts(Decide),
                     State([k], [Job(Queued)], Consuming(0), 1), steps, end);
    steps := RequestQueued(prompt, o, steps, end);
    steps := RequestParsed(prompt, o, steps, end);
    steps := ConnectionEntered(prompt, o, steps, end);
  }

  /** The closing worker and the reactor release the same bytes: with nothing held any more, the total is below zero. */
  lemma ReservationReleasedTwice() returns (o: Options, steps: seq<Step>)
    ensures Validated(o) && Strict(o) && !Clean(o, Init(), steps)
    ensures Run(o, Init(), steps) == State([Overpaid()], [], Deciding(0), -1)
  {
    o := Options(1, 2, 2, 2);
    var end := State([Overpaid()], [], Deciding(0), -1);
    steps := BelowZero(true, o, [], end);
    assert end.conns[0].lost == -1;
    LossIsUnclean(o, steps);
  }

  // From then on the unsigned total shows nearly its whole range, and no reservation is granted again.
  lemma NothingAdmittedBelowZero(o: Options, s: State)
    requires o.totalLimit < SIZE_SPACE && s.total == -1
    requires s.reactor.Half? && s.reactor.size > 0 && s.reactor.conn < |s.conns|
    ensures Act(o, s, ReserveTotal).reactor.RollingBack? && Act(o, s, ReserveTotal).total == -1
  {
    assert Shown(-1) == SIZE_SPACE - 1;
  }

  // A worker reads a request itself and charges it.
  lemma RequestReadAndCharged(o: Options, rest: seq<Step>, end: State) returns (steps: seq<Step>)
    requires o == Options(1, 1, 1, 0)
    requires var k := Fresh().(requests := 1, bytes := 1);
             Leads(true, o, State([k], [Token(0, 1, true, true, Running)], Away, 1), rest, end)
    ensures Leads(true, o, Init(), steps, end)
  {
    var s1 := State([Fresh()], [], Away, 0);
    var s2 := State([Fresh().(requests := 1)], [Token(0, 1, true, true, TakesConn)], Away, 0);
    var s3 := State([Fresh().(requests := 1, bytes := 1)], [Token(0, 1, true, true, TakesTotal)], Away, 0);
    var s4 := State([Fresh().(requests := 1, bytes := 1)], [Token(0, 1, true, true, Running)], Away, 1);
    steps := rest;
    steps := Prepend(true, o, s3, Works(ChargeTotal(0)), s4, steps, end);
    steps := Prepend(true, o, s2, Works(ChargeConn(0)), s3, steps, end);
    steps := Prepend(true, o, s1, Reads(Continue(0, 1)), s2, steps, end);
    steps := Prepend(true, o, Init(), Reads(Connect), s1, steps, end);
  }

  /** A continuation worker that leaves by an exception leaves its request on the counters for good. */
  lemma JobDroppedUnpaid() returns (o: Options, steps: seq<Step>)
    ensures Validated(o) && !Strict(o) && !Clean(o, Init(), steps)
    ensures var k := Fresh().(open := false, bytes := 1, requests := 1, lost := 1, lostRequests := 1);
            Run(o, Init(), steps) == State([k], [], Away, 1)
  {
    o, steps := Options(1, 1, 1, 0), [];
    var s := State([Fresh().(requests := 1, bytes := 1)], [Token(0, 1, true, true, Running)], Away, 1);
    var end := State([Fresh().(open := false, bytes := 1, requests := 1, lost := 1, lostRequests := 1)], [], Away, 1);
    steps := Prepend(true, o, s, Works(Forget(0)), end, steps, end);
    steps := RequestReadAndCharged(o, steps, end);
    assert end.conns[0].lost == 1;
    LossIsUnclean(o, steps);
  }
}
