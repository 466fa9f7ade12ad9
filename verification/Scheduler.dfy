/** The serialized-domain executor: one shared queue, many named domains, lazily grown workers.
    Every step below is one critical section of the executor's mutex. */
module Scheduler {
  import opened Basics
  import opened Filters

  // A domain or route name; the default domain is the empty name.
  datatype Name = Name(text: string)

  datatype Policy = Fifo | RejectIfBusy | LatestWins

  // `fromClient` is false for a maintenance task, which has no connection.
  datatype Job = Job(id: nat, domain: Name, policy: Policy, route: Name, fromClient: bool)

  datatype Activity = Activity(active: bool, queued: int)

  datatype Admission = Accepted | Busy | Stopping | Threw

  // What can go wrong during one admission: a stop noticed before or after the workers were grown,
  // or an exception once `created` further threads exist.
  datatype Mishap = None | StopSeen(grown: bool) | Failure(created: nat)

  // Live state, followed by the history it is judged against.
  datatype State = State(
    cap: nat, queue: seq<Job>, activity: Activities, activeCount: int, busyCount: int,
    live: nat, running: bool, stopping: bool, executing: seq<Job>,
    admitted: seq<Job>, started: seq<Job>, finished: seq<Job>, superseded: seq<Job>)

  function Initial(cap: nat): State {
    State(cap, [], map[], 0, 0, 0, true, false, [], [], [], [], [])
  }

  type Activities = map<Name, Activity>

  // A domain without an entry is idle.
  function At(m: Activities, d: Name): Activity {
    if d in m then m[d] else Activity(false, 0)
  }

  predicate DomainBusy(m: Activities, d: Name) { At(m, d).active || At(m, d).queued != 0 }

  predicate Runnable(m: Activities, j: Job) { !At(m, j.domain).active }

  // `other` is thrown out when `job` is admitted under the latest-wins policy.
  predicate Replaces(job: Job, other: Job) {
    other.domain == job.domain && other.fromClient && other.route == job.route
  }

  function Replaced(job: Job): Job -> bool { (other: Job) => job.policy == LatestWins && Replaces(job, other) }
  function Kept(job: Job): Job -> bool { (other: Job) => !(job.policy == LatestWins && Replaces(job, other)) }
  function InDomain(d: Name): Job -> bool { (j: Job) => j.domain == d }
  function NotIn(dead: seq<Job>): Job -> bool { (j: Job) => j !in dead }

  // ---- the steps ------------------------------------------------------------

  function DesiredWorkers(s: State, d: Name): int {
    var demand := s.busyCount + if DomainBusy(s.activity, d) then 0 else 1;
    Max(s.live, Min(demand, s.cap))
  }

  function Touch(s: State, d: Name): State { s.(activity := s.activity[d := At(s.activity, d)]) }

  function Grow(s: State, d: Name, created: nat): State {
    s.(live := Max(s.live, Min(s.live + created, DesiredWorkers(s, d))))
  }

  function Push(s: State, job: Job): State {
    var a, d := At(s.activity, job.domain), job.domain;
    s.(queue := Filter(s.queue, Kept(job)) + [job],
       activity := s.activity[d := a.(queued := a.queued + 1 - |Filter(s.queue, Replaced(job))|)],
       busyCount := s.busyCount + if !a.active && a.queued == 0 then 1 else 0,
       admitted := s.admitted + [job],
       superseded := s.superseded + Filter(s.queue, Replaced(job)))
  }

  // Admission of one job, with its outcome.
  function Enqueue(s: State, job: Job, mishap: Mishap): (State, Admission) {
    if s.stopping || !s.running then (s, Stopping)
    else
      var t := Touch(s, job.domain);
      var needed := DesiredWorkers(t, job.domain) - t.live;
      match mishap
      case StopSeen(grown) =>
        ((if grown then Grow(t, job.domain, needed) else t).(running := false), Stopping)
      case Failure(created) =>
        var g := Grow(t, job.domain, created);
        if created >= needed && job.policy == RejectIfBusy && DomainBusy(g.activity, job.domain)
        then (g, Busy) else (g, Threw)
      case None =>
        var g := Grow(t, job.domain, needed);
        if job.policy == RejectIfBusy && DomainBusy(g.activity, job.domain) then (g, Busy)
        else (Push(g, job), Accepted)
  }

  function FirstRunnable(m: Activities, queue: seq<Job>, from: nat): (i: nat)
    requires from <= |queue|
    ensures from <= i <= |queue|
    ensures i < |queue| ==> Runnable(m, queue[i])
    ensures forall k | from <= k < i :: !Runnable(m, queue[k])
    decreases |queue| - from
  {
    if from == |queue| || Runnable(m, queue[from]) then from else FirstRunnable(m, queue, from + 1)
  }

  // The state after taking queue entry `i`.
  function Taken(s: State, i: nat): State
    requires i < |s.queue|
  {
    var job := s.queue[i];
    s.(queue := s.queue[..i] + s.queue[i + 1..],
       activity := s.activity[job.domain := Activity(true, At(s.activity, job.domain).queued - 1)],
       activeCount := s.activeCount + 1,
       executing := s.executing + [job], started := s.started + [job])
  }

  // An idle worker takes the first job whose domain is idle.
  function Start(s: State): State {
    var i := FirstRunnable(s.activity, s.queue, 0);
    if |s.executing| >= s.live || i == |s.queue| then s else Taken(s, i)
  }

  // A worker finishes its job and frees the domain.
  function Finish(s: State, i: nat): State {
    if i >= |s.executing| then s
    else
      var job := s.executing[i];
      var a := At(s.activity, job.domain);
      s.(activity := s.activity[job.domain := a.(active := false)],
         activeCount := s.activeCount - if a.active then 1 else 0,
         busyCount := s.busyCount - if a.active && a.queued == 0 then 1 else 0,
         executing := s.executing[..i] + s.executing[i + 1..],
         finished := s.finished + [job])
  }

  // After the stop flag, an idle worker that finds nothing runnable returns.
  function Exit(s: State): State {
    if s.stopping && |s.executing| < s.live && FirstRunnable(s.activity, s.queue, 0) == |s.queue|
    then s.(live := s.live - 1) else s
  }

  datatype Step =
    | Submit(domain: Name, policy: Policy, route: Name, fromClient: bool, mishap: Mishap)
    | Begin | End(i: nat) | StopServer | StopWorkers | Leave

  function NewJob(s: State, step: Step): Job
    requires step.Submit?
  {
    Job(|s.admitted|, step.domain, step.policy, step.route, step.fromClient)
  }

  function Apply(s: State, step: Step): State {
    match step
    case Submit(_, _, _, _, mishap) => Enqueue(s, NewJob(s, step), mishap).0
    case Begin => Start(s)
    case End(i) => Finish(s, i)
    case StopServer => s.(running := false)
    case StopWorkers => s.(stopping := true)
    case Leave => Exit(s)
  }

  function Run(s: State, steps: seq<Step>): State
    decreases |steps|
  {
    if steps == [] then s else Run(Apply(s, steps[0]), steps[1..])
  }

  // ---- what every reachable state satisfies -----------------------------------

  function ActiveSet(m: Activities): set<Name> { set d | d in m && m[d].active }
  function BusySet(m: Activities): set<Name> { set d | d in m && DomainBusy(m, d) }
  function Domains(jobs: seq<Job>): set<Name> { set j | j in jobs :: j.domain }

  /** Incremental bookkeeping equals recomputation, and no domain runs two jobs. */
  ghost predicate Counted(m: Activities, queue: seq<Job>) {
    forall d :: At(m, d).queued == |Filter(queue, InDomain(d))|
  }

  ghost predicate OneEach(m: Activities, executing: seq<Job>) {
    ActiveSet(m) == Domains(executing) && |Domains(executing)| == |executing|
  }

  ghost predicate Tallied(m: Activities, activeCount: int, busyCount: int) {
    activeCount == |ActiveSet(m)| && busyCount == |BusySet(m)|
  }

  ghost predicate Bookkeeping(s: State) {
    Counted(s.activity, s.queue) && OneEach(s.activity, s.executing) && Tallied(s.activity, s.activeCount, s.busyCount)
  }

  /** Worker supply: enough for the busy domains before the stop, and never zero while work is queued. */
  ghost predicate Supply(s: State) {
    && |s.executing| <= s.live <= s.cap
    && (!s.stopping ==> s.live >= Min(s.busyCount, s.cap))
    && (s.queue != [] ==> s.live >= 1)
  }

  /** Every admitted job has exactly one fate; maintenance tasks are never superseded. */
  ghost predicate Accounted(admitted: seq<Job>, queue: seq<Job>, executing: seq<Job>, started: seq<Job>,
                            finished: seq<Job>, superseded: seq<Job>) {
    && (forall i | 0 <= i < |admitted| :: admitted[i].id == i)
    && multiset(admitted) == multiset(queue) + multiset(executing) + multiset(finished) + multiset(superseded)
    && multiset(started) == multiset(executing) + multiset(finished)
    && (forall j <- superseded :: j.fromClient)
  }

  ghost predicate Fates(s: State) {
    Accounted(s.admitted, s.queue, s.executing, s.started, s.finished, s.superseded)
  }

  /** Per domain, started then queued jobs are the admitted ones in order, with only the superseded missing. */
  ghost predicate InOrder(started: seq<Job>, queue: seq<Job>, admitted: seq<Job>, superseded: seq<Job>) {
    forall d :: Filter(started, InDomain(d)) + Filter(queue, InDomain(d))
                == Filter(Filter(admitted, NotIn(superseded)), InDomain(d))
  }

  ghost predicate Ordered(s: State) { InOrder(s.started, s.queue, s.admitted, s.superseded) }

  ghost predicate Inv(s: State) { s.cap >= 1 && Bookkeeping(s) && Supply(s) && Fates(s) && Ordered(s) }

  // ---- preservation ------------------------------------------------------------

  function One(b: bool): int { if b then 1 else 0 }

  // How one domain's entry moves the two sets.
  lemma SetsAfter(m: Activities, d: Name, a: Activity)
    ensures ActiveSet(m[d := a]) == if a.active then ActiveSet(m) + {d} else ActiveSet(m) - {d}
    ensures BusySet(m[d := a]) == if a.active || a.queued != 0 then BusySet(m) + {d} else BusySet(m) - {d}
    ensures d in ActiveSet(m) <==> At(m, d).active
    ensures d in BusySet(m) <==> DomainBusy(m, d)
    ensures ActiveSet(m) <= BusySet(m)
  {
  }

  lemma SizesAfter(m: Activities, d: Name, a: Activity)
    ensures |ActiveSet(m[d := a])| == |ActiveSet(m)| + One(a.active) - One(At(m, d).active)
    ensures |BusySet(m[d := a])| == |BusySet(m)| + One(a.active || a.queued != 0) - One(DomainBusy(m, d))
  {
    SetsAfter(m, d, a);
  }

  lemma TouchKeeps(s: State, d: Name)
    requires Inv(s)
    ensures Inv(Touch(s, d))
  {
    var m, n := s.activity, Touch(s, d).activity;
    SizesAfter(m, d, At(m, d));
    assert ActiveSet(n) == ActiveSet(m) by { SetsAfter(m, d, At(m, d)); }
    assert Counted(n, s.queue) by { assert forall e :: At(n, e) == At(m, e); }
  }

  lemma GrowKeeps(s: State, d: Name, created: nat)
    requires Inv(s) && !s.stopping
    ensures Inv(Grow(s, d, created))
    ensures Grow(s, d, DesiredWorkers(s, d) - s.live).live >=
            Min(s.busyCount + (if DomainBusy(s.activity, d) then 0 else 1), s.cap)
  {
  }

  // The queue entries of domain `d` after `job` is pushed.
  lemma DomainAfterPush(queue: seq<Job>, job: Job, d: Name)
    ensures |Filter(Filter(queue, Kept(job)) + [job], InDomain(d))|
            == |Filter(queue, InDomain(d))| + if d == job.domain then 1 - |Filter(queue, Replaced(job))| else 0
  {
    var mine, gone := Filter(queue, InDomain(d)), Filter(queue, Replaced(job));
    FilterLast(Filter(queue, Kept(job)), job, InDomain(d));
    FilterSwap(queue, Kept(job), InDomain(d));
    if d == job.domain {
      FilterSplit(mine, Kept(job), Replaced(job));
      FilterSwap(queue, Replaced(job), InDomain(d));
      forall x | x in gone ensures InDomain(d)(x) {
        FilterMember(queue, Replaced(job), x);
      }
      FilterAll(gone, InDomain(d));
    } else {
      forall x | x in mine ensures Kept(job)(x) {
        FilterMember(queue, InDomain(d), x);
      }
      FilterAll(mine, Kept(job));
    }
  }

  lemma PushCounted(s: State, job: Job)
    requires Counted(s.activity, s.queue)
    ensures Counted(Push(s, job).activity, Push(s, job).queue)
    ensures At(Push(s, job).activity, job.domain).queued > 0
  {
    var t := Push(s, job);
    forall e ensures At(t.activity, e).queued == |Filter(t.queue, InDomain(e))| {
      DomainAfterPush(s.queue, job, e);
    }
    FilterLast(Filter(s.queue, Kept(job)), job, InDomain(job.domain));
  }

  lemma PushTallied(s: State, job: Job)
    requires Tallied(s.activity, s.activeCount, s.busyCount) && At(Push(s, job).activity, job.domain).queued > 0
    ensures Tallied(Push(s, job).activity, Push(s, job).activeCount, Push(s, job).busyCount)
  {
    SizesAfter(s.activity, job.domain, At(Push(s, job).activity, job.domain));
  }

  lemma PushOneEach(s: State, job: Job)
    requires OneEach(s.activity, s.executing)
    ensures OneEach(Push(s, job).activity, Push(s, job).executing)
  {
    SetsAfter(s.activity, job.domain, At(Push(s, job).activity, job.domain));
  }

  lemma SomeBusy(s: State, d: Name)
    requires Tallied(s.activity, s.activeCount, s.busyCount) && DomainBusy(s.activity, d)
    ensures s.busyCount >= 1
  {
    SetsAfter(s.activity, d, At(s.activity, d));
  }

  lemma PushBookkeeping(s: State, job: Job)
    requires Bookkeeping(s)
    ensures Bookkeeping(Push(s, job))
    ensures Push(s, job).busyCount == s.busyCount + (if DomainBusy(s.activity, job.domain) then 0 else 1)
    ensures Push(s, job).busyCount >= 1
  {
    PushCounted(s, job);
    PushTallied(s, job);
    PushOneEach(s, job);
    SomeBusy(Push(s, job), job.domain);
  }

  lemma PushFates(s: State, job: Job)
    requires Fates(s) && job.id == |s.admitted|
    ensures Fates(Push(s, job))
  {
    var t, gone := Push(s, job), Filter(s.queue, Replaced(job));
    FilterSplit(s.queue, Kept(job), Replaced(job));
    assert multiset(t.queue) == multiset(Filter(s.queue, Kept(job))) + multiset{job};
    assert multiset(t.superseded) == multiset(s.superseded) + multiset(gone);
    assert multiset(t.admitted) == multiset(s.admitted) + multiset{job};
    forall j | j in gone ensures j.fromClient {
      FilterMember(s.queue, Replaced(job), j);
    }
    assert forall i | 0 <= i < |t.admitted| :: t.admitted[i].id == i;
  }

  lemma AdmittedOnce(s: State, j: Job)
    requires Fates(s)
    ensures multiset(s.admitted)[j] <= 1
  {
    AtMostOnce(s.admitted, j);
  }

  lemma {:induction false} AtMostOnce(jobs: seq<Job>, j: Job)
    requires forall i | 0 <= i < |jobs| :: jobs[i].id == i
    ensures multiset(jobs)[j] <= 1
    ensures j in jobs ==> j.id < |jobs|
  {
    if jobs == [] {
    } else {
      var front := jobs[..|jobs| - 1];
      AtMostOnce(front, j);
      assert jobs == front + [jobs[|jobs| - 1]];
    }
  }

  // A job of the queue has neither started nor been superseded.
  lemma QueuedIsFresh(s: State, j: Job)
    requires Fates(s) && j in s.queue
    ensures j !in s.started && j !in s.superseded
  {
    AdmittedOnce(s, j);
    assert multiset(s.queue)[j] >= 1;
    assert multiset(s.superseded)[j] == 0 && multiset(s.started)[j] == 0;
  }

  lemma PushOrdered(s: State, job: Job)
    requires Fates(s) && Ordered(s) && job.id == |s.admitted|
    ensures Ordered(Push(s, job))
  {
    var t := Push(s, job);
    var gone := Filter(s.queue, Replaced(job));
    forall d ensures Filter(t.started, InDomain(d)) + Filter(t.queue, InDomain(d))
                     == Filter(Filter(t.admitted, NotIn(t.superseded)), InDomain(d))
    {
      var begun, waiting := Filter(s.started, InDomain(d)), Filter(s.queue, InDomain(d));
      var stay := NotIn(gone);
      assert Filter(begun, stay) == begun by {
        forall x | x in begun ensures stay(x) {
          FilterMember(s.started, InDomain(d), x);
          FilterMember(s.queue, Replaced(job), x);
          if x in gone { QueuedIsFresh(s, x); }
        }
        FilterAll(begun, stay);
      }
      assert Filter(waiting, stay) == Filter(Filter(s.queue, Kept(job)), InDomain(d)) by {
        forall x | x in s.queue ensures stay(x) == Kept(job)(x) {
          FilterMember(s.queue, Replaced(job), x);
        }
        FilterAgree(s.queue, stay, Kept(job));
        FilterSwap(s.queue, stay, InDomain(d));
      }
      FilterConcat(begun, waiting, stay);
      SurvivorsAfterPush(s, job, d);
      FilterLast(Filter(s.queue, Kept(job)), job, InDomain(d));
    }
  }

  // The admitted survivors after a push: the old ones minus those just replaced, then the new job.
  lemma SurvivorsAfterPush(s: State, job: Job, d: Name)
    requires Fates(s) && job.id == |s.admitted|
    ensures var gone := Filter(s.queue, Replaced(job));
            Filter(Filter(s.admitted + [job], NotIn(s.superseded + gone)), InDomain(d))
            == Filter(Filter(Filter(s.admitted, NotIn(s.superseded)), InDomain(d)), NotIn(gone))
               + (if job.domain == d then [job] else [])
  {
    var gone := Filter(s.queue, Replaced(job));
    var dead := s.superseded + gone;
    assert job !in dead by {
      AtMostOnce(s.admitted, job);
      FilterMember(s.queue, Replaced(job), job);
      assert multiset(s.admitted)[job] == 0;
      assert multiset(s.superseded)[job] == 0 && multiset(s.queue)[job] == 0;
    }
    FilterLast(s.admitted, job, NotIn(dead));
    FilterLast(Filter(s.admitted, NotIn(dead)), job, InDomain(d));
    FilterTwice(s.admitted, s.superseded, gone);
    FilterSwap(Filter(s.admitted, NotIn(s.superseded)), NotIn(gone), InDomain(d));
  }

  lemma {:induction false} FilterTwice(jobs: seq<Job>, dead: seq<Job>, gone: seq<Job>)
    ensures Filter(jobs, NotIn(dead + gone)) == Filter(Filter(jobs, NotIn(dead)), NotIn(gone))
  {
    if jobs == [] {
    } else {
      FilterTwice(jobs[1..], dead, gone);
      FilterConcat(if NotIn(dead)(jobs[0]) then [jobs[0]] else [], Filter(jobs[1..], NotIn(dead)), NotIn(gone));
    }
  }

  lemma PushKeeps(s: State, job: Job)
    requires Inv(s) && job.id == |s.admitted|
    requires s.live >= Min(s.busyCount + (if DomainBusy(s.activity, job.domain) then 0 else 1), s.cap)
    ensures Inv(Push(s, job))
  {
    PushBookkeeping(s, job);
    PushFates(s, job);
    PushOrdered(s, job);
    assert Supply(Push(s, job));
  }

  lemma TakenCounted(s: State, i: nat)
    requires i < |s.queue| && Counted(s.activity, s.queue)
    ensures Counted(Taken(s, i).activity, Taken(s, i).queue)
    ensures DomainBusy(s.activity, s.queue[i].domain)
  {
    var t := Taken(s, i);
    forall e ensures At(t.activity, e).queued == |Filter(t.queue, InDomain(e))| {
      FilterRemove(s.queue, i, InDomain(e));
    }
    FilterRemove(s.queue, i, InDomain(s.queue[i].domain));
  }

  lemma TakenOneEach(s: State, i: nat)
    requires OneEach(s.activity, s.executing) && i < |s.queue| && Runnable(s.activity, s.queue[i])
    ensures OneEach(Taken(s, i).activity, Taken(s, i).executing)
  {
    var t, d := Taken(s, i), s.queue[i].domain;
    SetsAfter(s.activity, d, At(t.activity, d));
    assert Domains(t.executing) == Domains(s.executing) + {d};
  }

  lemma TakenTallied(s: State, i: nat)
    requires Tallied(s.activity, s.activeCount, s.busyCount) && i < |s.queue| && Runnable(s.activity, s.queue[i])
    requires DomainBusy(s.activity, s.queue[i].domain)
    ensures Tallied(Taken(s, i).activity, Taken(s, i).activeCount, Taken(s, i).busyCount)
  {
    SizesAfter(s.activity, s.queue[i].domain, At(Taken(s, i).activity, s.queue[i].domain));
  }

  lemma TakenBookkeeping(s: State, i: nat)
    requires Bookkeeping(s) && i < |s.queue| && Runnable(s.activity, s.queue[i])
    ensures Bookkeeping(Taken(s, i))
  {
    TakenCounted(s, i);
    TakenOneEach(s, i);
    TakenTallied(s, i);
  }

  lemma TakenOrdered(s: State, i: nat)
    requires Ordered(s) && i < |s.queue| && Runnable(s.activity, s.queue[i])
    requires forall k | 0 <= k < i :: !Runnable(s.activity, s.queue[k])
    ensures Ordered(Taken(s, i))
  {
    var t, job := Taken(s, i), s.queue[i];
    forall d ensures Filter(t.started, InDomain(d)) + Filter(t.queue, InDomain(d))
                     == Filter(s.started, InDomain(d)) + Filter(s.queue, InDomain(d))
    {
      FilterRemove(s.queue, i, InDomain(d));
      FilterLast(s.started, job, InDomain(d));
      if d == job.domain {
        FilterNone(s.queue[..i], InDomain(d));
      }
    }
  }

  lemma TakenFates(s: State, i: nat)
    requires Fates(s) && i < |s.queue|
    ensures Fates(Taken(s, i))
  {
    var t := Taken(s, i);
    RemoveMultiset(s.queue, i);
    assert multiset(t.queue) + multiset(t.executing) == multiset(s.queue) + multiset(s.executing);
    assert multiset(t.started) == multiset(s.started) + multiset{s.queue[i]};
  }

  lemma TakenSupply(s: State, i: nat)
    requires Supply(s) && i < |s.queue| && |s.executing| < s.live
    ensures Supply(Taken(s, i))
  {
  }

  lemma TakenKeeps(s: State, i: nat)
    requires Inv(s) && i < |s.queue| && |s.executing| < s.live && Runnable(s.activity, s.queue[i])
    requires forall k | 0 <= k < i :: !Runnable(s.activity, s.queue[k])
    ensures Inv(Taken(s, i))
  {
    TakenBookkeeping(s, i);
    TakenSupply(s, i);
    TakenOrdered(s, i);
    TakenFates(s, i);
  }

  lemma StartKeeps(s: State)
    requires Inv(s)
    ensures Inv(Start(s))
  {
    var i := FirstRunnable(s.activity, s.queue, 0);
    if |s.executing| < s.live && i < |s.queue| {
      TakenKeeps(s, i);
    }
  }

  lemma FinishBookkeeping(s: State, i: nat)
    requires Bookkeeping(s) && i < |s.executing|
    ensures Bookkeeping(Finish(s, i)) && Finish(s, i).busyCount <= s.busyCount
  {
    var t, d := Finish(s, i), s.executing[i].domain;
    var m, n := s.activity, t.activity;
    WithoutOne(s.executing, i);
    SizesAfter(m, d, At(n, d));
    assert OneEach(n, t.executing) && At(m, d).active by { SetsAfter(m, d, At(n, d)); }
    assert Counted(n, s.queue) by { assert forall e :: At(n, e).queued == At(m, e).queued; }
  }

  // Removing one of several jobs with distinct domains removes exactly its domain.
  lemma WithoutOne(jobs: seq<Job>, i: nat)
    requires i < |jobs| && |Domains(jobs)| == |jobs|
    ensures var rest := jobs[..i] + jobs[i + 1..];
            && Domains(rest) == Domains(jobs) - {jobs[i].domain} && |Domains(rest)| == |rest|
            && jobs[i].domain in Domains(jobs)
  {
    var rest := jobs[..i] + jobs[i + 1..];
    assert jobs == jobs[..i] + [jobs[i]] + jobs[i + 1..];
    assert Domains(jobs) == Domains(rest) + {jobs[i].domain};
    DomainsBound(rest);
    assert |Domains(rest) + {jobs[i].domain}| <= |Domains(rest)| + 1;
  }

  lemma {:induction false} DomainsBound(jobs: seq<Job>)
    ensures |Domains(jobs)| <= |jobs|
  {
    if jobs == [] {
      assert Domains(jobs) == {};
    } else {
      DomainsBound(jobs[1..]);
      assert Domains(jobs) == {jobs[0].domain} + Domains(jobs[1..]);
    }
  }

  lemma FinishKeeps(s: State, i: nat)
    requires Inv(s)
    ensures Inv(Finish(s, i))
  {
    if i < |s.executing| {
      FinishBookkeeping(s, i);
      RemoveMultiset(s.executing, i);
    }
  }

  lemma ExitKeeps(s: State)
    requires Inv(s)
    ensures Inv(Exit(s))
  {
    if Exit(s) != s && s.queue != [] {
      assert !Runnable(s.activity, s.queue[0]);
      assert s.queue[0].domain in ActiveSet(s.activity);
    }
  }

  lemma HaltKeeps(s: State)
    requires Inv(s)
    ensures Inv(s.(running := false))
  {
  }

  lemma EnqueueKeeps(s: State, job: Job, mishap: Mishap)
    requires Inv(s) && job.id == |s.admitted|
    ensures Inv(Enqueue(s, job, mishap).0)
  {
    if !s.stopping && s.running {
      TouchKeeps(s, job.domain);
      var t := Touch(s, job.domain);
      var needed := DesiredWorkers(t, job.domain) - t.live;
      GrowKeeps(t, job.domain, needed);
      var g := Grow(t, job.domain, needed);
      match mishap {
        case None =>
          if job.policy != RejectIfBusy || !DomainBusy(g.activity, job.domain) {
            PushKeeps(g, job);
          }
        case StopSeen(grown) => HaltKeeps(if grown then g else t);
        case Failure(created) => GrowKeeps(t, job.domain, created);
      }
    }
  }

  lemma StepKeeps(s: State, step: Step)
    requires Inv(s)
    ensures Inv(Apply(s, step))
  {
    match step
    case Submit(_, _, _, _, mishap) => EnqueueKeeps(s, NewJob(s, step), mishap);
    case Begin => StartKeeps(s);
    case End(i) => FinishKeeps(s, i);
    case StopServer =>
    case StopWorkers =>
    case Leave => ExitKeeps(s);
  }

  /** Every state of every run satisfies the whole invariant. */
  lemma {:induction false} RunKeeps(s: State, steps: seq<Step>)
    requires Inv(s)
    ensures Inv(Run(s, steps))
    decreases |steps|
  {
    if steps == [] {
    } else {
      StepKeeps(s, steps[0]);
      RunKeeps(Apply(s, steps[0]), steps[1..]);
    }
  }

  lemma EveryRun(cap: nat, steps: seq<Step>)
    requires cap >= 1
    ensures Inv(Run(Initial(cap), steps))
  {
    var s := Initial(cap);
    assert ActiveSet(s.activity) == {} && BusySet(s.activity) == {} && Domains(s.executing) == {};
    RunKeeps(s, steps);
  }

  // ---- consequences --------------------------------------------------------------

  /** The incremental counters equal recomputation: each domain's count is the number of its queue entries, the active
      and busy counts are the numbers of active and busy domains, and before the stop there are workers for the busy
      ones. */
  lemma BookkeepingExact(cap: nat, steps: seq<Step>)
    requires cap >= 1
    ensures var s := Run(Initial(cap), steps);
            && (forall d :: At(s.activity, d).queued == |Filter(s.queue, InDomain(d))|)
            && s.activeCount == |ActiveSet(s.activity)| && ActiveSet(s.activity) == Domains(s.executing)
            && s.busyCount == |BusySet(s.activity)|
            && (!s.stopping ==> s.live >= Min(s.busyCount, cap))
  {
    EveryRun(cap, steps);
    RunCap(Initial(cap), steps);
  }

  /** Work conservation: whenever a queued job's domain is idle and fewer than `cap` domains are active,
      some worker is not executing, so the job can start at once. */
  lemma WorkConserving(cap: nat, steps: seq<Step>, i: nat)
    requires cap >= 1
    requires var s := Run(Initial(cap), steps);
             !s.stopping && i < |s.queue| && Runnable(s.activity, s.queue[i]) && s.activeCount < cap
    ensures var s := Run(Initial(cap), steps);
            |s.executing| < s.live && |Start(s).executing| == |s.executing| + 1
  {
    EveryRun(cap, steps);
    RunCap(Initial(cap), steps);
    var s := Run(Initial(cap), steps);
    IdleWorker(s, i);
  }

  lemma IdleWorker(s: State, i: nat)
    requires Inv(s) && !s.stopping && i < |s.queue| && Runnable(s.activity, s.queue[i]) && s.activeCount < s.cap
    ensures |s.executing| < s.live && |Start(s).executing| == |s.executing| + 1
  {
    TakenCounted(s, i);
    MoreBusyThanActive(s.activity, s.queue[i].domain);
    assert FirstRunnable(s.activity, s.queue, 0) <= i;
  }

  lemma MoreBusyThanActive(m: Activities, d: Name)
    requires DomainBusy(m, d) && !At(m, d).active
    ensures |ActiveSet(m)| < |BusySet(m)|
  {
    SetsAfter(m, d, At(m, d));
    SubsetSize(ActiveSet(m) + {d}, BusySet(m));
  }

  /** Active domains never exceed the configured cap, and each runs exactly one job. */
  lemma ActiveWithinCap(cap: nat, steps: seq<Step>)
    requires cap >= 1
    ensures var s := Run(Initial(cap), steps);
            && s.activeCount == |s.executing| <= cap
            && forall i, j | 0 <= i < j < |s.executing| :: s.executing[i].domain != s.executing[j].domain
  {
    EveryRun(cap, steps);
    RunCap(Initial(cap), steps);
    var s := Run(Initial(cap), steps);
    forall i, j | 0 <= i < j < |s.executing| ensures s.executing[i].domain != s.executing[j].domain {
      DistinctDomains(s.executing, i, j);
    }
  }

  /** Every admitted job is in exactly one of queue, execution, finished and superseded, and in it exactly once. */
  lemma OneFate(cap: nat, steps: seq<Step>, j: Job)
    requires cap >= 1 && j in Run(Initial(cap), steps).admitted
    ensures var s := Run(Initial(cap), steps);
            multiset(s.queue)[j] + multiset(s.executing)[j] + multiset(s.finished)[j] + multiset(s.superseded)[j] == 1
  {
    EveryRun(cap, steps);
    AdmittedOnce(Run(Initial(cap), steps), j);
  }

  predicate Increasing(jobs: seq<Job>) { forall i, k | 0 <= i < k < |jobs| :: jobs[i].id < jobs[k].id }

  lemma {:induction false} FilterIncreasing(jobs: seq<Job>, p: Job -> bool)
    requires Increasing(jobs)
    ensures Increasing(Filter(jobs, p))
  {
    if jobs == [] {
    } else {
      FilterIncreasing(jobs[1..], p);
      var rest := Filter(jobs[1..], p);
      forall i | 0 <= i < |rest| ensures jobs[0].id < rest[i].id {
        FilterMember(jobs[1..], p, rest[i]);
      }
    }
  }

  /** Jobs of a domain start in admission order, all of them before any that still waits, and only superseded ones are
      missing. */
  lemma StartsInAdmissionOrder(cap: nat, steps: seq<Step>, d: Name)
    requires cap >= 1
    ensures var s := Run(Initial(cap), steps);
            var mine := Filter(s.started, InDomain(d)) + Filter(s.queue, InDomain(d));
            Increasing(mine) && mine == Filter(Filter(s.admitted, NotIn(s.superseded)), InDomain(d))
  {
    EveryRun(cap, steps);
    var s := Run(Initial(cap), steps);
    FilterIncreasing(s.admitted, NotIn(s.superseded));
    FilterIncreasing(Filter(s.admitted, NotIn(s.superseded)), InDomain(d));
  }

  /** Stopping drains: once every worker has returned, no admitted job is left behind. */
  lemma DrainedOnStop(cap: nat, steps: seq<Step>)
    requires cap >= 1 && Run(Initial(cap), steps).live == 0
    ensures var s := Run(Initial(cap), steps);
            s.queue == [] && multiset(s.admitted) == multiset(s.finished) + multiset(s.superseded)
  {
    EveryRun(cap, steps);
  }

  lemma DistinctDomains(jobs: seq<Job>, i: nat, j: nat)
    requires i < j < |jobs| && |Domains(jobs)| == |jobs|
    ensures jobs[i].domain != jobs[j].domain
  {
    WithoutOne(jobs, j);
    var rest := jobs[..j] + jobs[j + 1..];
    assert rest[i] == jobs[i] && rest[i].domain in Domains(rest);
  }

  lemma {:induction false} RunCap(s: State, steps: seq<Step>)
    ensures Run(s, steps).cap == s.cap
    decreases |steps|
  {
    if steps == [] {
    } else {
      RunCap(Apply(s, steps[0]), steps[1..]);
    }
  }

  lemma SubsetSize(a: set<Name>, b: set<Name>)
    requires a <= b
    ensures |a| <= |b|
  {
    assert b == a + (b - a);
  }

  // ---- the executor itself ---------------------------------------------------------

  /** The executor's fields, updated in place under its mutex; `live` counts its worker threads. */
  class SerializedExecutor {
    const cap: nat
    var queue: seq<Job>
    var activity: Activities
    var activeCount: int
    var busyCount: int
    var live: nat
    var running: bool
    var stopping: bool
    ghost var executing: seq<Job>
    ghost var admitted: seq<Job>
    ghost var started: seq<Job>
    ghost var finished: seq<Job>
    ghost var superseded: seq<Job>

    ghost function View(): State reads this {
      State(cap, queue, activity, activeCount, busyCount, live, running, stopping, executing,
            admitted, started, finished, superseded)
    }

    constructor (cap: nat)
      ensures View() == Initial(cap)
    {
      this.cap := cap;
      queue, activity, activeCount, busyCount, live, running, stopping := [], map[], 0, 0, 0, true, false;
      executing, admitted, started, finished, superseded := [], [], [], [], [];
    }

    // Starts threads until `desired` exist or thread creation throws.
    method EnsureWorkers(desired: int, limit: nat) returns (ok: bool)
      modifies this`live
      ensures live == Max(old(live), Min(old(live) + limit, desired))
      ensures ok <==> live >= desired
    {
      var created := 0;
      while live < desired && created < limit
        invariant created <= limit && live == old(live) + created && (created > 0 ==> live <= desired)
        decreases limit - created
      {
        live, created := live + 1, created + 1;
      }
      ok := live >= desired;
    }

    // Erases, in place, every older queue entry the newest one replaces.
    method EraseReplaced(job: Job) returns (removed: seq<Job>)
      requires queue != [] && queue[|queue| - 1] == job && job.policy == LatestWins
      modifies this`queue
      ensures var older := old(queue)[..|old(queue)| - 1];
              && queue == Filter(older, Kept(job)) + [job]
              && removed == Filter(older, Replaced(job))
    {
      ghost var older, seen: nat := queue[..|queue| - 1], 0;
      var index := 0;
      removed := [];
      while index + 1 < |queue|
        invariant Erased(job, older, seen, queue, index, removed)
        decreases |queue| - index
      {
        EraseStep(job, older, seen, queue, index, removed);
        if Replaces(job, queue[index]) {
          removed := removed + [queue[index]];
          queue := queue[..index] + queue[index + 1..];
        } else {
          index := index + 1;
        }
        seen := seen + 1;
      }
      assert older[..seen] == older;
    }

    // The insertion itself: append, let the newcomer replace older entries, and count.
    method Insert(job: Job) returns (removed: seq<Job>)
      modifies `queue, `busyCount, `activity, `admitted, `superseded
      ensures View() == Push(old(View()), job)
      ensures removed == Filter(old(queue), Replaced(job))
    {
      removed := Replace(job);
      var a := At(activity, job.domain);
      if !a.active && a.queued == 0 {
        busyCount := busyCount + 1;
      }
      activity := activity[job.domain := a.(queued := a.queued + 1 - |removed|)];
      admitted, superseded := admitted + [job], superseded + removed;
    }

    method Replace(job: Job) returns (removed: seq<Job>)
      modifies this`queue
      ensures queue == Filter(old(queue), Kept(job)) + [job] && removed == Filter(old(queue), Replaced(job))
    {
      ghost var before := queue;
      queue := queue + [job];
      if job.policy == LatestWins {
        assert queue[..|queue| - 1] == before;
        removed := EraseReplaced(job);
      } else {
        removed := [];
        KeepAll(before, job);
      }
    }

    /** Admission under the mutex; returns the jobs the newcomer replaced. */
    method Admit(job: Job, mishap: Mishap) returns (outcome: Admission, removed: seq<Job>)
      modifies this
      ensures (View(), outcome) == Enqueue(old(View()), job, mishap)
      ensures removed == if outcome == Accepted then Filter(old(queue), Replaced(job)) else []
    {
      removed := [];
      if stopping || !running {
        return Stopping, removed;
      }
      activity := activity[job.domain := At(activity, job.domain)];
      var demand := busyCount + if DomainBusy(activity, job.domain) then 0 else 1;
      var desired := Max(live, Min(demand, cap));
      if mishap.StopSeen? && !mishap.grown {
        running := false;
        return Stopping, removed;
      }
      var ready := EnsureWorkers(desired, if mishap.Failure? then mishap.created else desired - live);
      if mishap.StopSeen? {
        running := false;
        return Stopping, removed;
      }
      if !ready {
        return Threw, removed;
      }
      if job.policy == RejectIfBusy && DomainBusy(activity, job.domain) {
        return Busy, removed;
      }
      if mishap.Failure? {
        return Threw, removed;  // an allocation before the insertion fails
      }
      removed := Insert(job);
      outcome := Accepted;
    }

    /** An idle worker takes the first job whose domain is idle, if there is one. */
    method TakeJob() returns (taken: seq<Job>)
      requires |executing| < live
      modifies `queue, `activity, `activeCount, `executing, `started
      ensures View() == Start(old(View()))
      ensures executing == old(executing) + taken && |taken| <= 1
    {
      var next := 0;
      while next < |queue| && At(activity, queue[next].domain).active
        invariant next <= |queue|
        invariant FirstRunnable(activity, queue, next) == FirstRunnable(activity, queue, 0)
      {
        next := next + 1;
      }
      if next == |queue| {
        return [];
      }
      var job := queue[next];
      activity := activity[job.domain := Activity(true, At(activity, job.domain).queued - 1)];
      activeCount := activeCount + 1;
      queue := queue[..next] + queue[next + 1..];
      executing, started := executing + [job], started + [job];
      taken := [job];
    }

    /** A worker that ran `executing[i]` frees its domain. */
    method Release(job: Job, ghost i: nat)
      requires i < |executing| && executing[i] == job
      modifies `activity, `activeCount, `busyCount, `executing, `finished
      ensures View() == Finish(old(View()), i)
    {
      var a := At(activity, job.domain);
      if a.active {
        activeCount := activeCount - 1;
        if a.queued == 0 {
          busyCount := busyCount - 1;
        }
      }
      activity := activity[job.domain := a.(active := false)];
      executing, finished := executing[..i] + executing[i + 1..], finished + [job];
    }
  }

  lemma KeepAll(jobs: seq<Job>, job: Job)
    requires job.policy != LatestWins
    ensures Filter(jobs, Kept(job)) == jobs && Filter(jobs, Replaced(job)) == []
  {
    FilterAll(jobs, Kept(job));
    FilterNone(jobs, Replaced(job));
  }

  // The erasing loop after `seen` of the older entries: the kept ones, the rest, the newcomer.
  ghost predicate Erased(job: Job, older: seq<Job>, seen: nat, queue: seq<Job>, index: nat, removed: seq<Job>) {
    && seen <= |older| && index == |Filter(older[..seen], Kept(job))|
    && queue == Filter(older[..seen], Kept(job)) + older[seen..] + [job]
    && removed == Filter(older[..seen], Replaced(job))
  }

  lemma EraseStep(job: Job, older: seq<Job>, seen: nat, queue: seq<Job>, index: nat, removed: seq<Job>)
    requires Erased(job, older, seen, queue, index, removed) && index + 1 < |queue| && job.policy == LatestWins
    ensures Replaces(job, queue[index]) ==>
              Erased(job, older, seen + 1, queue[..index] + queue[index + 1..], index, removed + [queue[index]])
    ensures !Replaces(job, queue[index]) ==> Erased(job, older, seen + 1, queue, index + 1, removed)
  {
    AtFront(Filter(older[..seen], Kept(job)), older, seen, job);
    Next(older, seen, Kept(job));
    Next(older, seen, Replaced(job));
  }

  lemma AtFront(kept: seq<Job>, older: seq<Job>, seen: nat, job: Job)
    requires seen <= |older| && |kept| + 1 < |kept + older[seen..] + [job]|
    ensures seen < |older|
    ensures var q, i := kept + older[seen..] + [job], |kept|;
            && q[i] == older[seen]
            && q[..i] + q[i + 1..] == kept + older[seen + 1..] + [job]
            && q == kept + [older[seen]] + older[seen + 1..] + [job]
  {
    assert older[seen..] == [older[seen]] + older[seen + 1..];
  }

  lemma Next(older: seq<Job>, seen: nat, keep: Job -> bool)
    requires seen < |older|
    ensures Filter(older[..seen + 1], keep) ==
            Filter(older[..seen], keep) + if keep(older[seen]) then [older[seen]] else []
  {
    assert older[..seen + 1] == older[..seen] + [older[seen]];
    FilterLast(older[..seen], older[seen], keep);
  }
}
