/** The single-producer single-consumer ring in shared memory with conditional wakeup.
    Each step is one atomic access of one of the two processes; any interleaving is a run. */
module Ring {

  // The producer is outside, holds a free slot, has published, or owes the consumer a signal.
  datatype Producer = Outside | Writing | Published | Signalling

  // The consumer is about to look, has given up spinning, has announced its sleep, retracts the announcement,
  // blocks on the event counter, has been woken, or holds a slot.
  datatype Consumer = Looking | Announcing | Rechecking | Retracting | Blocked | Woken | Holding

  // `published` and `delivered` are the history; the rest is the shared memory and the two program counters.
  datatype State<T> = State(
    conditional: bool, slots: seq<T>, written: nat, read: nat, sleeping: bool, event: nat,
    producer: Producer, consumer: Consumer, published: seq<T>, delivered: seq<T>)

  function Initial<T>(slots: seq<T>, conditional: bool): State<T> {
    State(conditional, slots, 0, 0, false, 0, Outside, Looking, [], [])
  }

  datatype Step<T> =
    | Acquire                                                            // producer
    | Store(item: T) | Publish | Exchange | Signal
    | Look(giveUp: bool) | Announce | Recheck | Retract | Wake | Clear | Release  // consumer

  // A step that is not enabled leaves the state alone.
  function Apply<T>(s: State<T>, step: Step<T>): State<T>
    requires |s.slots| > 0
  {
    var n := |s.slots|;
    match step
    case Acquire => if s.producer == Outside && s.written - s.read < n then s.(producer := Writing) else s
    case Store(item) => if s.producer == Writing then s.(slots := s.slots[s.written % n := item]) else s
    case Publish =>
      if s.producer == Writing then
        s.(written := s.written + 1, published := s.published + [s.slots[s.written % n]], producer := Published)
      else s
    case Exchange =>
      if s.producer != Published then s
      else if !s.conditional then s.(producer := Signalling)
      else s.(producer := if s.sleeping then Signalling else Outside, sleeping := false)
    case Signal => if s.producer == Signalling then s.(event := s.event + 1, producer := Outside) else s
    case Look(giveUp) =>
      if s.consumer != Looking then s
      else if s.read < s.written then s.(consumer := Holding)
      else if !s.conditional then s.(consumer := Blocked)
      else if giveUp then s.(consumer := Announcing)
      else s
    case Announce => if s.consumer == Announcing then s.(sleeping := true, consumer := Rechecking) else s
    case Recheck =>
      if s.consumer == Rechecking then s.(consumer := if s.read < s.written then Retracting else Blocked) else s
    case Retract => if s.consumer == Retracting then s.(sleeping := false, consumer := Looking) else s
    case Wake => if s.consumer == Blocked && s.event > 0 then s.(event := 0, consumer := Woken) else s
    case Clear => if s.consumer == Woken then s.(sleeping := false, consumer := Looking) else s
    case Release =>
      if s.consumer == Holding then
        s.(read := s.read + 1, delivered := s.delivered + [s.slots[s.read % n]], consumer := Looking)
      else s
  }

  function Run<T>(s: State<T>, steps: seq<Step<T>>): (t: State<T>)
    requires |s.slots| > 0
    ensures |t.slots| == |s.slots|
    decreases |steps|
  {
    if steps == [] then s else Run(Apply(s, steps[0]), steps[1..])
  }

  // ---- invariant -----------------------------------------------------------------

  ghost predicate Safe<T>(s: State<T>) {
    var n := |s.slots|;
    && n > 0
    && s.read <= s.written <= s.read + n
    && (s.producer == Writing ==> s.written < s.read + n)
    && (s.consumer == Holding ==> s.read < s.written)
    && |s.published| == s.written
    && (forall i | s.read <= i < s.written :: s.slots[i % n] == s.published[i])
    && s.delivered == s.published[..s.read]
  }

  // The wakeup argument: a cleared announcement is matched by a signal sent or owed, and a standing
  // announcement can only coexist with an unread item until the producer's exchange sees it.
  ghost predicate Awake<T>(s: State<T>) {
    && (s.conditional && s.consumer in {Rechecking, Blocked} && !s.sleeping ==> s.event > 0 || s.producer == Signalling)
    && (s.conditional && s.consumer == Blocked && s.sleeping && s.read < s.written ==> s.producer == Published)
    && (!s.conditional && s.consumer == Blocked && s.read < s.written ==>
          s.event > 0 || s.producer in {Published, Signalling})
    && (!s.conditional ==> s.consumer !in {Announcing, Rechecking, Retracting})
  }

  lemma NotAMultiple(x: nat, n: nat, q: int)
    requires 0 < x < n
    ensures x != n * q
  {
    if q <= 0 {
      assert n * q <= 0;
    } else {
      assert n * q >= n;
    }
  }

  lemma SlotsDiffer(i: nat, k: nat, n: nat)
    requires i < k < i + n
    ensures i % n != k % n
  {
    NotAMultiple(k - i, n, k / n - i / n);
    assert i == n * (i / n) + i % n && k == n * (k / n) + k % n;
    assert n * (k / n) - n * (i / n) == n * (k / n - i / n);
  }

  lemma StoreKeeps<T>(s: State<T>, item: T)
    requires Safe(s) && s.producer == Writing
    ensures Safe(Apply(s, Store(item)))
  {
    var n := |s.slots|;
    forall i | s.read <= i < s.written ensures i % n != s.written % n {
      SlotsDiffer(i, s.written, n);
    }
  }

  lemma PublishKeeps<T>(s: State<T>)
    requires Safe(s) && s.producer == Writing
    ensures Safe(Apply(s, Publish))
  {
  }

  lemma ReleaseKeeps<T>(s: State<T>)
    requires Safe(s) && s.consumer == Holding
    ensures Safe(Apply(s, Release))
  {
    assert s.slots[s.read % |s.slots|] == s.published[s.read];
    assert s.published[..s.read + 1] == s.published[..s.read] + [s.published[s.read]];
  }

  // The other steps leave the ring and its history alone.
  lemma AsideKeeps<T>(s: State<T>, step: Step<T>)
    requires Safe(s) && !step.Store? && !step.Publish? && !step.Release?
    ensures Safe(Apply(s, step))
  {
    match step
    case Acquire =>
    case Exchange =>
    case Signal =>
    case Look(_) =>
    case Announce =>
    case Recheck =>
    case Retract =>
    case Wake =>
    case Clear =>
  }

  predicate ByProducer<T>(step: Step<T>) {
    step.Acquire? || step.Store? || step.Publish? || step.Exchange? || step.Signal?
  }

  lemma ProducerStaysAwake<T>(s: State<T>, step: Step<T>)
    requires |s.slots| > 0 && Awake(s) && ByProducer(step)
    ensures Awake(Apply(s, step))
  {
    match step
    case Acquire =>
    case Store(_) =>
    case Publish =>
    case Exchange =>
    case Signal =>
  }

  lemma ConsumerStaysAwake<T>(s: State<T>, step: Step<T>)
    requires |s.slots| > 0 && Awake(s) && !ByProducer(step)
    ensures Awake(Apply(s, step))
  {
    match step
    case Look(_) =>
    case Announce =>
    case Recheck =>
    case Retract =>
    case Wake =>
    case Clear =>
    case Release =>
  }

  lemma StepIsSafe<T>(s: State<T>, step: Step<T>)
    requires Safe(s)
    ensures Safe(Apply(s, step))
  {
    if step.Store? {
      if s.producer == Writing {
        StoreKeeps(s, step.item);
      }
    } else if step.Publish? {
      if s.producer == Writing {
        PublishKeeps(s);
      }
    } else if step.Release? {
      if s.consumer == Holding {
        ReleaseKeeps(s);
      }
    } else {
      AsideKeeps(s, step);
    }
  }

  lemma StepKeeps<T>(s: State<T>, step: Step<T>)
    requires Safe(s) && Awake(s)
    ensures Safe(Apply(s, step)) && Awake(Apply(s, step))
  {
    StepIsSafe(s, step);
    if ByProducer(step) {
      ProducerStaysAwake(s, step);
    } else {
      ConsumerStaysAwake(s, step);
    }
  }

  lemma {:induction false} RunKeeps<T>(s: State<T>, steps: seq<Step<T>>)
    requires Safe(s) && Awake(s)
    ensures Safe(Run(s, steps)) && Awake(Run(s, steps))
    decreases |steps|
  {
    if steps == [] {
    } else {
      StepKeeps(s, steps[0]);
      RunKeeps(Apply(s, steps[0]), steps[1..]);
    }
  }

  // ---- the promises ----------------------------------------------------------------

  /** Ring safety, for every slot count and every interleaving: the producer never writes the slot the consumer
      holds nor any unread slot, and items are delivered once each, in publish order. */
  lemma RingSafety<T>(slots: seq<T>, conditional: bool, steps: seq<Step<T>>)
    requires |slots| > 0
    ensures var s := Run(Initial(slots, conditional), steps);
            && s.read <= s.written == |s.published| <= s.read + |slots|
            && s.delivered == s.published[..s.read]
            && (s.consumer == Holding ==> s.read < s.written && s.slots[s.read % |slots|] == s.published[s.read])
            && (s.producer == Writing ==> forall i | s.read <= i < s.written :: i % |slots| != s.written % |slots|)
  {
    RunKeeps(Initial(slots, conditional), steps);
    var s := Run(Initial(slots, conditional), steps);
    if s.producer == Writing {
      forall i | s.read <= i < s.written ensures i % |slots| != s.written % |slots| {
        SlotsDiffer(i, s.written, |slots|);
      }
    }
  }

  /** No lost wakeup: a consumer blocked on an empty event counter while an item is unread means the producer is
      still between publishing that item and signalling it. */
  lemma NoLostWakeup<T>(slots: seq<T>, conditional: bool, steps: seq<Step<T>>)
    requires |slots| > 0
    ensures var s := Run(Initial(slots, conditional), steps);
            && (s.consumer == Blocked && s.event == 0 && s.read < s.written ==> s.producer in {Published, Signalling})
            && (s.consumer == Blocked && s.event == 0 && s.producer in {Outside, Writing} ==> s.read == s.written)
  {
    RunKeeps(Initial(slots, conditional), steps);
  }

  // Where the producer's obligation takes the consumer: at most an exchange and a signal wake it.
  function Obligation<T>(s: State<T>): seq<Step<T>> {
    if s.producer == Published then [Exchange, Signal] else if s.producer == Signalling then [Signal] else []
  }

  /** From any reachable state with an unread item, the producer finishing its current publish is enough for a
      blocked consumer to wake and reach the item; it never has to wait for another publish. */
  lemma BlockedReachesItem<T>(slots: seq<T>, conditional: bool, steps: seq<Step<T>>)
    requires |slots| > 0
    requires var s := Run(Initial(slots, conditional), steps); s.consumer == Blocked && s.read < s.written
    ensures var s := Run(Initial(slots, conditional), steps);
            var t := Run(s, Obligation(s) + [Wake, Clear, Look(true)]);
            t.consumer == Holding && t.read == s.read
  {
    RunKeeps(Initial(slots, conditional), steps);
    var s := Run(Initial(slots, conditional), steps);
    var tail: seq<Step<T>> := [Wake, Clear, Look(true)];
    var u := Run(s, Obligation(s));
    RunSplit(s, Obligation(s), tail);
    Awoken(s);
    Final(u);
  }

  lemma Awoken<T>(s: State<T>)
    requires Safe(s) && Awake(s) && s.consumer == Blocked && s.read < s.written
    ensures var u := Run(s, Obligation(s));
            u.consumer == Blocked && u.event > 0 && u.read == s.read && u.written == s.written && u.slots == s.slots
  {
    var e: Step<T>, g: Step<T> := Exchange, Signal;
    if s.producer == Published {
      var s1 := Apply(s, e);
      assert [e, g][1..] == [g] && [g][1..] == [];
      assert Run(s, [e, g]) == Run(s1, [g]) == Run(Apply(s1, g), []);
    } else if s.producer == Signalling {
      assert [g][1..] == [];
      assert Run(s, [g]) == Run(Apply(s, g), []);
    }
  }

  lemma Final<T>(u: State<T>)
    requires |u.slots| > 0 && u.consumer == Blocked && u.event > 0 && u.read < u.written
    ensures var t := Run(u, [Wake, Clear, Look(true)]); t.consumer == Holding && t.read == u.read
  {
    var a: Step<T>, b: Step<T>, c: Step<T> := Wake, Clear, Look(true);
    assert [a, b, c][1..] == [b, c] && [b, c][1..] == [c] && [c][1..] == [];
    var u1 := Apply(u, a);
    var u2 := Apply(u1, b);
    assert Run(u, [a, b, c]) == Run(u1, [b, c]) == Run(u2, [c]) == Run(Apply(u2, c), []);
  }

  lemma {:induction false} RunSplit<T>(s: State<T>, a: seq<Step<T>>, b: seq<Step<T>>)
    requires |s.slots| > 0
    ensures Run(s, a + b) == Run(Run(s, a), b)
    decreases |a|
  {
    if a == [] {
      assert a + b == b;
    } else {
      assert (a + b)[1..] == a[1..] + b;
      RunSplit(Apply(s, a[0]), a[1..], b);
    }
  }
}
