/** The persistent session: a sharded table of calls in flight and one reader that can fail at any time.
    Each step is one locked section or one atomic operation of a caller or of the reader. */
module Session {

  const ID_SPACE: nat := 0x1_0000_0000
  type Id = n: nat | n < ID_SPACE

  datatype Frame = Frame(id: Id, body: seq<int>)

  // Where a caller stands. From InFlight until it concludes, its slot is in the table.
  datatype Stage =
    | Probing | Trying | InFlight
    | SendFailed                 // its write failed and it has marked the session broken
    | Expired | Settled          // it stopped waiting: at its deadline, or because its slot was done
    | Breaking                   // it timed out, left the table, and has yet to mark the session broken
    | Refused | Failed | TimedOut | Completed

  datatype Call = Call(stage: Stage, id: Id, done: bool, failed: bool, fills: seq<Frame>) {
    predicate Listed() { stage in {InFlight, SendFailed, Expired, Settled} }
  }

  datatype Reader = Reading | Caught | Scanning(next: nat) | Gone

  datatype Counters = Counters(started: nat, completed: nat, timedOut: nat, failed: nat)

  // A shard: its table, and its counters.
  datatype Shard = Shard(table: map<Id, nat>, counters: Counters)

  datatype State = State(shards: seq<Shard>, calls: seq<Call>, broken: bool, nextId: Id, reader: Reader)

  function Initial(shards: nat): State {
    State(seq(shards, i => Shard(map[], Counters(0, 0, 0, 0))), [], false, 1, Reading)
  }

  datatype Step =
    | Enter                      // a new call checks the broken flag
    | Probe(c: nat) | Insert(c: nat)
    | FailSend(c: nat) | EraseFailed(c: nat) | FailCancel(c: nat)
    | StopWaiting(c: nat) | Conclude(c: nat) | Break(c: nat)
    | Receive(frame: Frame) | ReaderThrows | MarkBroken | Scan

  // The shard an id belongs to.
  function Home(id: Id, shards: nat): (k: nat)
    requires shards > 0
    ensures k < shards
  {
    id % shards
  }

  function SetCall(s: State, c: nat, call: Call): State
    requires c < |s.calls|
  {
    s.(calls := s.calls[c := call])
  }

  function SetShard(s: State, k: nat, shard: Shard): State
    requires k < |s.shards|
  {
    s.(shards := s.shards[k := shard])
  }

  function Count(counters: Counters, stage: Stage): Counters {
    match stage
    case Expired => counters.(timedOut := counters.timedOut + 1)
    case Settled => counters.(completed := counters.completed + 1)
    case _ => counters.(failed := counters.failed + 1)
  }

  // The erasure that ends a call, with its outcome counted in the same locked section.
  function Leave(s: State, c: nat, outcome: Stage, next: Stage): State
    requires |s.shards| > 0 && c < |s.calls|
  {
    var call := s.calls[c];
    var k := Home(call.id, |s.shards|);
    var shard := s.shards[k];
    SetCall(SetShard(s, k, Shard(shard.table - {call.id}, Count(shard.counters, outcome))), c, call.(stage := next))
  }

  function ApplyInsert(s: State, c: nat): State
    requires |s.shards| > 0 && c < |s.calls|
  {
    var call := s.calls[c];
    var k := Home(call.id, |s.shards|);
    var shard := s.shards[k];
    if s.broken then SetCall(s, c, call.(stage := Refused))
    else if call.id in shard.table then SetCall(s, c, call.(stage := Probing))
    else
      var counters := shard.counters.(started := shard.counters.started + 1);
      SetCall(SetShard(s, k, Shard(shard.table[call.id := c], counters)), c, call.(stage := InFlight))
  }

  // A response frame fills the slot of its id; an unknown or already answered id is a protocol error.
  function ApplyReceive(s: State, frame: Frame): State
    requires |s.shards| > 0
  {
    var table := s.shards[Home(frame.id, |s.shards|)].table;
    if frame.id !in table || table[frame.id] >= |s.calls| || s.calls[table[frame.id]].done then s.(reader := Caught)
    else
      var call := s.calls[table[frame.id]];
      SetCall(s, table[frame.id], call.(done := true, fills := call.fills + [frame]))
  }

  // The failing reader visits one shard: every slot in it that is not done yet gets the error.
  function Errored(table: map<Id, nat>, c: nat, call: Call): Call {
    if call.id in table && table[call.id] == c && !call.done then call.(done := true, failed := true) else call
  }

  function ApplyScan(s: State, k: nat): State
    requires k < |s.shards|
  {
    s.(calls := seq(|s.calls|, c requires 0 <= c < |s.calls| => Errored(s.shards[k].table, c, s.calls[c])),
       reader := Scanning(k + 1))
  }

  function Apply(s: State, step: Step): State
    requires |s.shards| > 0
  {
    match step
    case Enter => s.(calls := s.calls + [Call(if s.broken then Refused else Probing, 0, false, false, [])])
    case Probe(c) =>
      if c >= |s.calls| || s.calls[c].stage != Probing then s
      else SetCall(s, c, s.calls[c].(id := s.nextId, stage := if s.nextId == 0 then Probing else Trying))
           .(nextId := (s.nextId + 1) % ID_SPACE)
    case Insert(c) => if c < |s.calls| && s.calls[c].stage == Trying then ApplyInsert(s, c) else s
    case FailSend(c) =>
      if c < |s.calls| && s.calls[c].stage == InFlight
      then SetCall(s, c, s.calls[c].(stage := SendFailed)).(broken := true) else s
    case EraseFailed(c) =>
      if c < |s.calls| && s.calls[c].stage == SendFailed then Leave(s, c, SendFailed, Failed) else s
    case FailCancel(c) => if c < |s.calls| && s.calls[c].stage == InFlight then s.(broken := true) else s
    case StopWaiting(c) =>
      if c < |s.calls| && s.calls[c].stage == InFlight
      then SetCall(s, c, s.calls[c].(stage := if s.calls[c].done then Settled else Expired)) else s
    case Conclude(c) =>
      if c >= |s.calls| then s
      else if s.calls[c].stage == Expired then Leave(s, c, Expired, Breaking)
      else if s.calls[c].stage != Settled then s
      else if s.calls[c].failed then Leave(s, c, SendFailed, Failed)
      else Leave(s, c, Settled, Completed)
    case Break(c) =>
      if c < |s.calls| && s.calls[c].stage == Breaking
      then SetCall(s, c, s.calls[c].(stage := TimedOut)).(broken := true) else s
    case Receive(frame) => if s.reader == Reading then ApplyReceive(s, frame) else s
    case ReaderThrows => if s.reader == Reading then s.(reader := Caught) else s
    case MarkBroken => if s.reader == Caught then s.(broken := true, reader := Scanning(0)) else s
    case Scan =>
      if !s.reader.Scanning? then s
      else if s.reader.next < |s.shards| then ApplyScan(s, s.reader.next)
      else s.(reader := Gone)
  }

  function Run(s: State, steps: seq<Step>): (t: State)
    requires |s.shards| > 0
    ensures |t.shards| == |s.shards|
    decreases |steps|
  {
    if steps == [] then s else Run(Apply(s, steps[0]), steps[1..])
  }

  // ---- invariant ------------------------------------------------------------------

  // A table entry is a listed call under its own nonzero id in its own shard.
  ghost predicate Entry(s: State, k: nat, id: Id)
    requires k < |s.shards| && id in s.shards[k].table
  {
    var c := s.shards[k].table[id];
    id != 0 && Home(id, |s.shards|) == k && c < |s.calls| && s.calls[c].id == id && s.calls[c].Listed()
  }

  ghost predicate Found(s: State, c: nat)
    requires c < |s.calls| && |s.shards| > 0
  {
    var table := s.shards[Home(s.calls[c].id, |s.shards|)].table;
    s.calls[c].id in table && table[s.calls[c].id] == c
  }

  // The tables list exactly the calls in flight.
  ghost predicate Tables(s: State)
    requires |s.shards| > 0
  {
    && (forall k: nat, id: Id | k < |s.shards| && id in s.shards[k].table :: Entry(s, k, id))
    && (forall c: nat | c < |s.calls| && s.calls[c].Listed() :: Found(s, c))
  }

  // A slot is filled at most once, and only by the frame carrying its id; before it is listed it is empty.
  ghost predicate Answered(call: Call) {
    && (!call.done ==> call.fills == [] && !call.failed)
    && (call.failed ==> call.fills == [])
    && (call.done && !call.failed ==> |call.fills| == 1 && call.fills[0].id == call.id)
    && (call.stage in {Probing, Trying, Refused} ==> !call.done)
    && (call.stage == Trying ==> call.id != 0)
    && (call.stage in {Settled, Completed} ==> call.done)
    && (call.stage == Completed ==> !call.failed)
  }

  ghost predicate Slots(s: State) { forall c | 0 <= c < |s.calls| :: Answered(s.calls[c]) }

  function Scanned(s: State): nat {
    match s.reader case Scanning(k) => k case Gone => |s.shards| case _ => 0
  }

  // Behind the failing reader every listed slot is done, and nothing new can be listed.
  ghost predicate Swept(s: State)
    requires |s.shards| > 0
  {
    && (s.reader.Scanning? || s.reader.Gone? ==> s.broken)
    && Scanned(s) <= |s.shards|
    && (forall c | 0 <= c < |s.calls| && s.calls[c].Listed() ::
          Home(s.calls[c].id, |s.shards|) < Scanned(s) ==> s.calls[c].done)
  }

  ghost predicate Balanced(shard: Shard) {
    var c := shard.counters;
    c.started == c.completed + c.timedOut + c.failed + |shard.table|
  }

  ghost predicate Balances(s: State) { forall k | 0 <= k < |s.shards| :: Balanced(s.shards[k]) }

  ghost predicate Inv(s: State) { |s.shards| > 0 && Tables(s) && Slots(s) && Swept(s) && Balances(s) }

  // ---- preservation -----------------------------------------------------------------

  // A call changes without entering or leaving the table.
  lemma CallKeeps(s: State, c: nat, call: Call)
    requires Inv(s) && c < |s.calls| && Answered(call)
    requires call.Listed() == s.calls[c].Listed()
    requires call.Listed() ==> call.id == s.calls[c].id && (s.calls[c].done ==> call.done)
    ensures Inv(SetCall(s, c, call))
  {
    var t := SetCall(s, c, call);
    forall k: nat, id: Id | k < |t.shards| && id in t.shards[k].table ensures Entry(t, k, id) {
      assert Entry(s, k, id);
    }
    forall e: nat | e < |t.calls| && t.calls[e].Listed() ensures Found(t, e) {
      assert Found(s, e);
    }
  }

  lemma FlagKeeps(s: State, t: State)
    requires Inv(s) && t.shards == s.shards && t.calls == s.calls
    requires s.broken ==> t.broken
    requires || t.reader == s.reader
             || (Scanned(s) == 0 && (t.reader == Caught || (t.reader == Scanning(0) && t.broken)))
             || (s.reader == Scanning(|s.shards|) && t.reader == Gone)
    ensures Inv(t)
  {
    forall k: nat, id: Id | k < |t.shards| && id in t.shards[k].table ensures Entry(t, k, id) {
      assert Entry(s, k, id);
    }
    forall e: nat | e < |t.calls| && t.calls[e].Listed() ensures Found(t, e) {
      assert Found(s, e);
    }
  }

  // Changing shard k's table by one id leaves the other ids' entries alone.
  lemma ListKeeps(s: State, c: nat)
    requires Inv(s) && c < |s.calls| && s.calls[c].stage == Trying && !s.broken
    requires s.calls[c].id !in s.shards[Home(s.calls[c].id, |s.shards|)].table
    ensures Inv(ApplyInsert(s, c))
  {
    var t, id := ApplyInsert(s, c), s.calls[c].id;
    var home := Home(id, |s.shards|);
    forall k: nat, i: Id | k < |t.shards| && i in t.shards[k].table ensures Entry(t, k, i) {
      if k == home && i == id {
        assert Answered(s.calls[c]);
      } else {
        assert Entry(s, k, i);
        assert s.shards[k].table[i] != c;
      }
    }
    forall e: nat | e < |t.calls| && t.calls[e].Listed() ensures Found(t, e) {
      if e != c {
        assert Found(s, e);
      }
    }
    assert Answered(s.calls[c]) && Answered(t.calls[c]);
    assert Balanced(s.shards[home]) && Balanced(t.shards[home]);
  }

  lemma LeaveTables(s: State, c: nat, outcome: Stage, next: Stage)
    requires Inv(s) && c < |s.calls| && s.calls[c].Listed()
    requires next in {Failed, Breaking, Completed}
    ensures Tables(Leave(s, c, outcome, next))
  {
    var t := Leave(s, c, outcome, next);
    assert Found(s, c);
    forall k: nat, i: Id | k < |t.shards| && i in t.shards[k].table ensures Entry(t, k, i) {
      assert Entry(s, k, i);
      assert s.shards[k].table[i] != c;
    }
    forall e: nat | e < |t.calls| && t.calls[e].Listed() ensures Found(t, e) {
      assert Found(s, e);
    }
  }

  // The calls besides c are as they were.
  lemma LeaveSlots(s: State, c: nat, outcome: Stage, next: Stage)
    requires Inv(s) && c < |s.calls| && next in {Failed, Breaking, Completed}
    requires Answered(s.calls[c].(stage := next))
    ensures Slots(Leave(s, c, outcome, next)) && Swept(Leave(s, c, outcome, next))
  {
    var t := Leave(s, c, outcome, next);
    assert forall e | 0 <= e < |t.calls| && e != c :: t.calls[e] == s.calls[e];
    assert t.calls[c] == s.calls[c].(stage := next) && !t.calls[c].Listed();
  }

  lemma LeaveBalances(s: State, c: nat, outcome: Stage, next: Stage)
    requires Inv(s) && c < |s.calls| && s.calls[c].Listed()
    ensures Balances(Leave(s, c, outcome, next))
  {
    var t, id := Leave(s, c, outcome, next), s.calls[c].id;
    var home := Home(id, |s.shards|);
    assert Found(s, c) && Balanced(s.shards[home]);
    RemoveOne(s.shards[home].table, id);
    assert Balanced(t.shards[home]);
  }

  lemma LeaveKeeps(s: State, c: nat, outcome: Stage, next: Stage)
    requires Inv(s) && c < |s.calls| && s.calls[c].Listed()
    requires next in {Failed, Breaking, Completed} && (next == Completed ==> s.calls[c].done && !s.calls[c].failed)
    ensures Inv(Leave(s, c, outcome, next))
  {
    assert Answered(s.calls[c]) && Answered(s.calls[c].(stage := next));
    LeaveTables(s, c, outcome, next);
    LeaveSlots(s, c, outcome, next);
    LeaveBalances(s, c, outcome, next);
  }

  lemma RemoveOne(m: map<Id, nat>, id: Id)
    requires id in m
    ensures |m - {id}| == |m| - 1
  {
    assert (m - {id}).Keys == m.Keys - {id};
  }

  lemma ReceiveKeeps(s: State, frame: Frame)
    requires Inv(s) && s.reader == Reading
    ensures Inv(ApplyReceive(s, frame))
  {
    var home := Home(frame.id, |s.shards|);
    var table := s.shards[home].table;
    if frame.id !in table || s.calls[table[frame.id]].done {
      FlagKeeps(s, s.(reader := Caught));
    } else {
      assert Entry(s, home, frame.id);
      var call := s.calls[table[frame.id]];
      assert Answered(call);
      CallKeeps(s, table[frame.id], call.(done := true, fills := call.fills + [frame]));
    }
  }

  lemma ScanTables(s: State, k: nat)
    requires Inv(s) && k < |s.shards|
    ensures Tables(ApplyScan(s, k))
  {
    var t := ApplyScan(s, k);
    forall j: nat, id: Id | j < |t.shards| && id in t.shards[j].table ensures Entry(t, j, id) {
      assert Entry(s, j, id);
    }
    forall e: nat | e < |t.calls| && t.calls[e].Listed() ensures Found(t, e) {
      assert s.calls[e].Listed() && Found(s, e);
    }
  }

  lemma ScanSlots(s: State, k: nat)
    requires Inv(s) && k < |s.shards|
    ensures Slots(ApplyScan(s, k))
  {
    forall c: nat | c < |s.calls| ensures Answered(Errored(s.shards[k].table, c, s.calls[c])) {
      assert Answered(s.calls[c]);
      if s.calls[c].id in s.shards[k].table && s.shards[k].table[s.calls[c].id] == c {
        assert Entry(s, k, s.calls[c].id);
      }
    }
  }

  lemma ScanSwept(s: State, k: nat)
    requires Inv(s) && s.reader == Scanning(k) && k < |s.shards|
    ensures Swept(ApplyScan(s, k))
  {
    var t := ApplyScan(s, k);
    forall c: nat | c < |t.calls| && t.calls[c].Listed() && Home(t.calls[c].id, |t.shards|) < k + 1
      ensures t.calls[c].done
    {
      assert t.calls[c] == Errored(s.shards[k].table, c, s.calls[c]);
      if Home(s.calls[c].id, |s.shards|) == k {
        assert Found(s, c);
      }
    }
  }

  lemma ScanKeeps(s: State)
    requires Inv(s) && s.reader.Scanning? && s.reader.next < |s.shards|
    ensures Inv(ApplyScan(s, s.reader.next))
  {
    ScanTables(s, s.reader.next);
    ScanSlots(s, s.reader.next);
    ScanSwept(s, s.reader.next);
  }

  lemma EnterKeeps(s: State)
    requires Inv(s)
    ensures Inv(Apply(s, Enter))
  {
    var t := Apply(s, Enter);
    forall k: nat, id: Id | k < |t.shards| && id in t.shards[k].table ensures Entry(t, k, id) {
      assert Entry(s, k, id);
    }
    forall e: nat | e < |t.calls| && t.calls[e].Listed() ensures Found(t, e) {
      assert Found(s, e);
    }
  }

  lemma ProbeKeeps(s: State, c: nat)
    requires Inv(s) && c < |s.calls| && s.calls[c].stage == Probing
    ensures Inv(Apply(s, Probe(c)))
  {
    var call := s.calls[c].(id := s.nextId, stage := if s.nextId == 0 then Probing else Trying);
    assert Answered(s.calls[c]) && Answered(call);
    CallKeeps(s, c, call);
    FlagKeeps(SetCall(s, c, call), Apply(s, Probe(c)));
  }

  lemma InsertKeeps(s: State, c: nat)
    requires Inv(s) && c < |s.calls| && s.calls[c].stage == Trying
    ensures Inv(ApplyInsert(s, c))
  {
    var call := s.calls[c];
    assert Answered(call);
    if !s.broken && call.id !in s.shards[Home(call.id, |s.shards|)].table {
      ListKeeps(s, c);
    } else {
      CallKeeps(s, c, call.(stage := if s.broken then Refused else Probing));
    }
  }

  // A call changes its stage and marks the session broken.
  lemma BreakKeeps(s: State, c: nat, next: Stage)
    requires Inv(s) && c < |s.calls|
    requires (s.calls[c].stage == InFlight && next == SendFailed) || (s.calls[c].stage == Breaking && next == TimedOut)
    ensures Inv(SetCall(s, c, s.calls[c].(stage := next)).(broken := true))
  {
    var call := s.calls[c].(stage := next);
    assert Answered(s.calls[c]) && Answered(call);
    CallKeeps(s, c, call);
    FlagKeeps(SetCall(s, c, call), SetCall(s, c, call).(broken := true));
  }

  lemma StopWaitingKeeps(s: State, c: nat)
    requires Inv(s) && c < |s.calls| && s.calls[c].stage == InFlight
    ensures Inv(Apply(s, StopWaiting(c)))
  {
    assert Answered(s.calls[c]);
    CallKeeps(s, c, s.calls[c].(stage := if s.calls[c].done then Settled else Expired));
  }

  lemma ConcludeKeeps(s: State, c: nat)
    requires Inv(s) && c < |s.calls|
    ensures Inv(Apply(s, Conclude(c)))
  {
    assert Answered(s.calls[c]);
    if s.calls[c].stage == Expired {
      LeaveKeeps(s, c, Expired, Breaking);
    } else if s.calls[c].stage == Settled && s.calls[c].failed {
      LeaveKeeps(s, c, SendFailed, Failed);
    } else if s.calls[c].stage == Settled {
      LeaveKeeps(s, c, Settled, Completed);
    }
  }

  lemma CallStepKeeps(s: State, step: Step)
    requires Inv(s) && !step.Enter? && !step.Receive? && !step.ReaderThrows? && !step.MarkBroken? && !step.Scan?
    ensures Inv(Apply(s, step))
  {
    if step.c < |s.calls| {
      var stage := s.calls[step.c].stage;
      match step {
        case Probe(c) =>
          if stage == Probing {
            ProbeKeeps(s, c);
          }
        case Insert(c) =>
          if stage == Trying {
            InsertKeeps(s, c);
          }
        case FailSend(c) =>
          if stage == InFlight {
            BreakKeeps(s, c, SendFailed);
          }
        case EraseFailed(c) =>
          if stage == SendFailed {
            LeaveKeeps(s, c, SendFailed, Failed);
          }
        case FailCancel(c) => FlagKeeps(s, Apply(s, step));
        case StopWaiting(c) =>
          if stage == InFlight {
            StopWaitingKeeps(s, c);
          }
        case Conclude(c) => ConcludeKeeps(s, c);
        case Break(c) =>
          if stage == Breaking {
            BreakKeeps(s, c, TimedOut);
          }
      }
    }
  }

  lemma ReaderStepKeeps(s: State, step: Step)
    requires Inv(s) && (step.Receive? || step.ReaderThrows? || step.MarkBroken? || step.Scan?)
    ensures Inv(Apply(s, step))
  {
    if step.Receive? {
      if s.reader == Reading {
        ReceiveKeeps(s, step.frame);
      }
    } else if step.Scan? && s.reader.Scanning? && s.reader.next < |s.shards| {
      ScanKeeps(s);
    } else {
      FlagKeeps(s, Apply(s, step));
    }
  }

  lemma StepKeeps(s: State, step: Step)
    requires Inv(s)
    ensures Inv(Apply(s, step))
  {
    if step.Enter? {
      EnterKeeps(s);
    } else if step.Receive? || step.ReaderThrows? || step.MarkBroken? || step.Scan? {
      ReaderStepKeeps(s, step);
    } else {
      CallStepKeeps(s, step);
    }
  }

  lemma {:induction false} RunKeeps(s: State, steps: seq<Step>)
    requires Inv(s)
    ensures Inv(Run(s, steps))
    decreases |steps|
  {
    if steps == [] {
    } else {
      StepKeeps(s, steps[0]);
      RunKeeps(Apply(s, steps[0]), steps[1..]);
    }
  }

  // ---- the promises -------------------------------------------------------------------

  /** No stranded caller: once the failing reader has scanned every shard, every call still in any table is done,
      however callers and the scan were interleaved, and no later call can join. */
  lemma NoStrandedCaller(shards: nat, steps: seq<Step>)
    requires shards > 0 && Run(Initial(shards), steps).reader == Gone
    ensures var s := Run(Initial(shards), steps);
            && (forall c | 0 <= c < |s.calls| && s.calls[c].Listed() :: s.calls[c].done)
            && s.broken
  {
    RunKeeps(Initial(shards), steps);
  }

  /** Correlation: calls in flight have distinct nonzero ids; each slot is filled at most once, and a completed call
      returns exactly the frame that carried its id. */
  lemma Correlation(shards: nat, steps: seq<Step>)
    requires shards > 0
    ensures var s := Run(Initial(shards), steps);
            && (forall c | 0 <= c < |s.calls| && s.calls[c].Listed() :: s.calls[c].id != 0)
            && (forall c, d | 0 <= c < d < |s.calls| && s.calls[c].Listed() && s.calls[d].Listed() ::
                  s.calls[c].id != s.calls[d].id)
            && (forall c | 0 <= c < |s.calls| :: |s.calls[c].fills| <= 1)
            && (forall c | 0 <= c < |s.calls| && s.calls[c].stage == Completed ::
                  exists body :: s.calls[c].fills == [Frame(s.calls[c].id, body)])
  {
    RunKeeps(Initial(shards), steps);
    var s := Run(Initial(shards), steps);
    forall c: nat | c < |s.calls| && s.calls[c].Listed() ensures s.calls[c].id != 0 {
      assert Found(s, c) && Entry(s, Home(s.calls[c].id, |s.shards|), s.calls[c].id);
    }
    forall c: nat, d: nat | c < d < |s.calls| && s.calls[c].Listed() && s.calls[d].Listed()
      ensures s.calls[c].id != s.calls[d].id
    {
      assert Found(s, c) && Found(s, d);
    }
    forall c: nat | c < |s.calls| && s.calls[c].stage == Completed
      ensures exists body :: s.calls[c].fills == [Frame(s.calls[c].id, body)]
    {
      assert Answered(s.calls[c]);
      assert s.calls[c].fills == [Frame(s.calls[c].id, s.calls[c].fills[0].body)];
    }
    assert forall c | 0 <= c < |s.calls| :: Answered(s.calls[c]);
  }

  /** Accounting: in every shard, calls started are those completed, timed out or failed plus those in flight. */
  lemma Accounting(shards: nat, steps: seq<Step>, k: nat)
    requires k < shards
    ensures var s := Run(Initial(shards), steps);
            var c := s.shards[k].counters;
            c.started == c.completed + c.timedOut + c.failed + |s.shards[k].table|
  {
    RunKeeps(Initial(shards), steps);
    assert Balanced(Run(Initial(shards), steps).shards[k]);
  }

  // ---- id allocation and the shard tables -------------------------------------------------

  // How far `x` lies after `start` in the wrapped id space.
  function Ahead(x: Id, start: Id): nat { if x >= start then x - start else x + ID_SPACE - start }

  function Put(table: map<Id, nat>, id: Id, slot: nat): map<Id, nat> { table[id := slot] }

  ghost function Taken(tables: seq<map<Id, nat>>): set<Id> {
    set k, id | 0 <= k < |tables| && id in tables[k] :: id
  }

  /** The allocation loop run without interference: despite the wrap at 2^32 and the forbidden id 0, it ends within
      two probes more than there are calls in flight, with a fresh nonzero id entered in its home shard only. */
  method Allocate(tables: seq<map<Id, nat>>, nextId: Id, slot: nat)
    returns (id: Id, next: Id, after: seq<map<Id, nat>>, probes: nat)
    requires |tables| > 0 && |Taken(tables)| + 1 < ID_SPACE
    requires forall k, i | 0 <= k < |tables| && i in tables[k] :: Home(i, |tables|) == k
    ensures id != 0 && id !in Taken(tables)
    ensures 1 <= probes <= |Taken(tables)| + 2
    ensures next == (nextId + probes) % ID_SPACE && (id + 1) % ID_SPACE == next
    ensures after == tables[Home(id, |tables|) := Put(tables[Home(id, |tables|)], id, slot)]
  {
    ghost var tried: set<Id>, taken := {}, Taken(tables);
    next, probes := nextId, 0;
    while true
      invariant probes == |tried| <= |taken| + 1 && tried <= taken + {0}
      invariant Ahead(next, nextId) == probes
      invariant forall x <- tried :: Ahead(x, nextId) < probes
      decreases |taken| + 1 - probes
    {
      id := next;
      next := Successor(next);
      probes := probes + 1;
      Advanced(id, nextId, probes);
      var k := Home(id, |tables|);
      if id != 0 && id !in tables[k] {
        after := tables[k := Put(tables[k], id, slot)];
        return;
      }
      assert id != 0 ==> id in taken;
      tried := tried + {id};
      Bounded(tried, taken);
    }
  }

  function Successor(id: Id): Id { if id + 1 == ID_SPACE then 0 else id + 1 }

  lemma Advanced(id: Id, start: Id, probes: nat)
    requires 1 <= probes <= ID_SPACE && Ahead(id, start) == probes - 1
    ensures Successor(id) == (start + probes) % ID_SPACE == (id + 1) % ID_SPACE
    ensures probes < ID_SPACE ==> Ahead(Successor(id), start) == probes
  {
  }

  lemma Bounded(tried: set<Id>, taken: set<Id>)
    requires tried <= taken + {0}
    ensures |tried| <= |taken| + 1
  {
    assert taken + {0} == tried + ((taken + {0}) - tried);
    assert |taken + {0}| <= |taken| + 1;
  }

  // A table node; a cached node keeps a stale key and no slot.
  datatype Node = Node(key: Id, slot: int)
  const NO_SLOT: int := -1

  /** One shard's table with its cache of recycled nodes. */
  class InflightShard {
    const cached: nat
    var inflight: map<Id, int>
    var free: seq<Node>

    ghost predicate Valid() reads this { |free| <= cached && forall n <- free :: n.slot == NO_SLOT }

    constructor (cached: nat)
      ensures Valid() && inflight == map[]
    {
      this.cached, inflight, free := cached, map[], [];
    }

    /** Lists a fresh id; recycling a cached node leaves no trace of its former key or slot. */
    method Insert(id: Id, slot: int) returns (ok: bool)
      requires Valid()
      modifies this
      ensures Valid()
      ensures id !in old(inflight) ==> ok && inflight == old(inflight)[id := slot]
      ensures id in old(inflight) ==> inflight == old(inflight)
      ensures |free| == if old(free) == [] then 0 else |old(free)| - 1
    {
      if free == [] {
        if id !in inflight {
          inflight := inflight[id := slot];
        }
        return true;
      }
      var node := free[|free| - 1];
      free := free[..|free| - 1];
      node := node.(key := id);
      node := node.(slot := slot);
      if node.key in inflight {
        return false;  // reported as a logic error; the node is dropped
      }
      inflight := inflight[node.key := node.slot];
      ok := true;
    }

    /** Unlists an id and keeps its node, emptied, while there is room in the cache. */
    method Erase(id: Id)
      requires Valid()
      modifies this
      ensures Valid() && inflight == old(inflight) - {id}
      ensures |free| == if id in old(inflight) && |old(free)| < cached then |old(free)| + 1 else |old(free)|
    {
      if id in inflight {
        var node := Node(id, inflight[id]);
        inflight := inflight - {id};
        if |free| < cached {
          free := free + [node.(slot := NO_SLOT)];
        }
      }
    }
  }
}
