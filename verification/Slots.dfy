/** The slots that bound concurrent streams: taken by the reactor, given back by the stream workers. */
module Slots {

  // `active` is the shared counter. The reactor may hold a slot it has just taken; queued and running streams each hold
  // one. `lost` is history: slots whose stream was never queued.
  datatype State = State(active: int, holding: bool, queued: nat, running: nat, stopping: bool, lost: nat)

  function Init(): State { State(0, false, 0, 0, false, 0) }

  // Enqueue(fits) hands the taken slot to the queue, which refuses it once the workers are stopping and fails if it
  // cannot grow.
  datatype Step = Take | Enqueue(fits: bool) | Start | Release | Stop

  function Apply(limit: nat, s: State, step: Step): State {
    match step
    case Take => if !s.holding && s.active < limit then s.(active := s.active + 1, holding := true) else s
    case Enqueue(fits) =>
      if !s.holding then s
      else if fits && !s.stopping then s.(holding := false, queued := s.queued + 1)
      else s.(holding := false, lost := s.lost + 1)
    case Start => if s.queued > 0 then s.(queued := s.queued - 1, running := s.running + 1) else s
    case Release => if s.running > 0 then s.(running := s.running - 1, active := s.active - 1) else s
    case Stop => s.(stopping := true)
  }

  function Run(limit: nat, s: State, steps: seq<Step>): State
    decreases |steps|
  {
    if steps == [] then s else Run(limit, Apply(limit, s, steps[0]), steps[1..])
  }

  // The streams that hold a slot.
  function Held(s: State): nat { s.queued + s.running + if s.holding then 1 else 0 }

  ghost predicate Inv(limit: nat, s: State) { s.active == Held(s) + s.lost <= limit }

  // A slot was taken and its stream is not queued.
  predicate Drops(s: State, step: Step) { step.Enqueue? && s.holding && (!step.fits || s.stopping) }

  predicate NoDrops(limit: nat, s: State, steps: seq<Step>)
    decreases |steps|
  {
    steps != [] ==> !Drops(s, steps[0]) && NoDrops(limit, Apply(limit, s, steps[0]), steps[1..])
  }

  lemma {:induction false} RunKeeps(limit: nat, s: State, steps: seq<Step>)
    requires Inv(limit, s)
    ensures Inv(limit, Run(limit, s, steps)) && Run(limit, s, steps).lost >= s.lost
    ensures Run(limit, s, steps).lost == s.lost <==> NoDrops(limit, s, steps)
    decreases |steps|
  {
    if steps == [] {
    } else {
      RunKeeps(limit, Apply(limit, s, steps[0]), steps[1..]);
    }
  }

  /** On every run there are never more streams than slots; the counter is exactly the streams queued, running or being
      queued if and only if no stream was dropped between taking its slot and the queue. */
  lemma SlotsExactIff(limit: nat, steps: seq<Step>)
    ensures var s := Run(limit, Init(), steps);
            && 0 <= Held(s) <= s.active <= limit
            && (s.active == Held(s) <==> NoDrops(limit, Init(), steps))
  {
    RunKeeps(limit, Init(), steps);
  }

  /** With no stream about, the next one gets a slot if and only if fewer were dropped than there are slots. */
  lemma IdleAdmitsIff(limit: nat, steps: seq<Step>)
    requires Held(Run(limit, Init(), steps)) == 0
    ensures var s := Run(limit, Init(), steps);
            (Apply(limit, s, Take).holding <==> s.lost < limit) && (NoDrops(limit, Init(), steps) ==> s.lost == 0)
  {
    RunKeeps(limit, Init(), steps);
  }

  // A slot that is lost stays lost: from then on there is room for one stream less.
  lemma LostForGood(limit: nat, s: State, steps: seq<Step>)
    requires Inv(limit, s)
    ensures Held(Run(limit, s, steps)) + s.lost <= limit
  {
    RunKeeps(limit, s, steps);
  }

  // A stream that the queue cannot take is enough.
  lemma DroppedStream(limit: nat) returns (steps: seq<Step>)
    requires limit > 0
    ensures Run(limit, Init(), steps) == State(1, false, 0, 0, false, 1) && !NoDrops(limit, Init(), steps)
  {
    var last := [Enqueue(false)];
    var s := State(1, true, 0, 0, false, 0);
    assert last[1..] == [] && Drops(s, last[0]);
    assert Run(limit, s, last) == Apply(limit, s, last[0]);
    steps := [Take] + last;
    assert steps[1..] == last && Apply(limit, Init(), steps[0]) == s;
  }

  /** The shared counter. */
  class StreamSlots {
    var active: nat

    constructor ()
      ensures active == 0
    {
      active := 0;
    }

    /** The compare-exchange loop: each of `rivals` is a store by another thread that makes one attempt fail. A slot is
        taken at once on the value then present, exactly if there is one. */
    method TryAcquire(limit: nat, rivals: seq<nat>) returns (ok: bool, ghost seen: nat)
      modifies this
      ensures seen == old(active) || seen in rivals
      ensures ok == (seen < limit) && active == (if ok then seen + 1 else seen)
      ensures rivals == [] ==> seen == old(active)
    {
      var i, observed := 0, active;
      while observed < limit
        invariant i <= |rivals| && active == observed
        invariant (observed == old(active) || observed in rivals) && (i == 0 ==> observed == old(active))
        decreases |rivals| - i
      {
        if i == |rivals| {
          active := observed + 1;
          return true, observed;
        }
        active, i := rivals[i], i + 1;
        observed := active;
      }
      ok, seen := false, observed;
    }
  }
}
