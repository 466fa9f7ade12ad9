/** The counters behind the request budget, updated in place: compare-exchange reservation, and the scan after a
    release. */
module FlowControl {
  import opened Basics
  import opened Budget

  // The value an atomic shows after other threads stored these values, one after another.
  function Latest(value: nat, rivals: seq<nat>): nat {
    if rivals == [] then value else rivals[|rivals| - 1]
  }

  // An unsigned atomic.
  class Counter {
    var value: nat

    constructor ()
      ensures value == 0
    {
      value := 0;
    }

    /** A compare-exchange loop: each of `rivals` is a store by another thread that makes one attempt fail. Whatever
        they store, the addition happens at once on the value then present, and exactly if it fits the limit. */
    method TryAdd(limit: nat, n: nat, rivals: seq<nat>) returns (ok: bool, ghost met: nat)
      modifies this
      ensures met <= |rivals|
      ensures var seen := Latest(old(value), rivals[..met]);
              && ok == (seen + n <= limit)
              && value == (if ok then seen + n else seen)
      ensures ok ==> met == |rivals|
    {
      met := 0;
      var observed, i := value, 0;
      while observed + n <= limit
        invariant met == i <= |rivals| && value == observed == Latest(old(value), rivals[..i])
        decreases |rivals| - i
      {
        if i == |rivals| {
          value := observed + n;
          return true, met;
        }
        value := rivals[i];
        observed := value;
        i, met := i + 1, met + 1;
        assert rivals[..i][|rivals[..i]| - 1] == rivals[i - 1];
      }
      return false, met;
    }
  }

  /** Reserves on the connection, then on the total. Either both counters grow by the request and stay within their
      limits, or the connection's share is taken off again from whatever `meanwhile`, the stores of other threads since,
      left on its counter, and the total is untouched. */
  method TryReserve(conn: Counter, total: Counter, connLimit: nat, totalLimit: nat, n: nat,
                    connRivals: seq<nat>, totalRivals: seq<nat>, meanwhile: seq<nat>)
    returns (ok: bool, ghost a: nat, ghost b: nat)
    requires conn != total
    modifies conn, total
    ensures a <= |connRivals| && b <= |totalRivals|
    ensures n > 0 ==>
              var onConn := Latest(old(conn.value), connRivals[..a]);
              var onTotal := Latest(old(total.value), totalRivals[..b]);
              && ok == (onConn + n <= connLimit && onTotal + n <= totalLimit)
              && total.value == (if ok then onTotal + n else onTotal)
              && conn.value == (if onConn + n > connLimit then onConn
                                else if ok then Latest(onConn + n, meanwhile)
                                else Shown(Latest(onConn + n, meanwhile) - n))
              && (!ok && meanwhile == [] ==> conn.value == onConn)
    ensures n == 0 ==> ok && conn.value == old(conn.value) && total.value == old(total.value)
  {
    a, b := 0, 0;
    if n == 0 {
      return true, a, b;
    }
    ok, a := conn.TryAdd(connLimit, n, connRivals);
    if !ok {
      return false, a, b;
    }
    conn.value := Latest(conn.value, meanwhile);
    ok, b := total.TryAdd(totalLimit, n, totalRivals);
    if !ok {
      conn.value := Shown(conn.value - n);
    }
  }

  // The connections among the first n that a scan resumes, in scan order.
  function Resumes(before: seq<Conn>, after: seq<Conn>, n: nat): seq<nat>
    requires n <= |before| && n <= |after|
  {
    if n == 0 then []
    else Resumes(before, after, n - 1) + (if before[n - 1].paused && !after[n - 1].paused then [n - 1] else [])
  }

  class Connections {
    const options: Options
    var conns: seq<Conn>
    var resumed: seq<nat>

    constructor (options: Options)
      ensures this.options == options && conns == [] && resumed == []
    {
      this.options, conns, resumed := options, [], [];
    }

    // Lets one connection read again if it is paused, open and below its watermarks.
    method QueueIfReady(c: nat, total: int)
      requires c < |conns|
      modifies this
      ensures conns == old(conns)[c := Woken(options, old(conns[c]), total)]
      ensures resumed == old(resumed) + (if old(conns[c].paused) && !conns[c].paused then [c] else [])
    {
      var k := conns[c];
      if !k.paused || !k.open || !BelowResume(options, k, total) {
        return;
      }
      conns := conns[c := k.(paused := false)];
      resumed := resumed + [c];
    }

    method ScanAll(total: int)
      requires Strict(options)
      modifies this
      ensures conns == Resumed(options, old(conns), total, 0)
      ensures resumed == old(resumed) + Resumes(old(conns), conns, |conns|)
    {
      ghost var before, want := conns, Resumed(options, conns, total, 0);
      var c := 0;
      while c < |conns|
        invariant c <= |conns| == |before|
        invariant forall d: nat | d < c :: conns[d] == want[d]
        invariant forall d: nat | c <= d < |conns| :: conns[d] == before[d]
        invariant resumed == old(resumed) + Resumes(before, want, c)
      {
        QueueIfReady(c, total);
        c := c + 1;
      }
      assert conns == want;
    }

    /** The scan after a release: with an aggregate budget every paused connection is looked at, else only the released
        one. Exactly those below their watermarks resume, and each is queued for the reactor once. */
    method ResumePaused(released: nat, total: int)
      modifies this
      ensures conns == Resumed(options, old(conns), total, released)
      ensures resumed == old(resumed) + Resumes(old(conns), conns, |conns|)
    {
      if Strict(options) {
        ScanAll(total);
        assert Resumed(options, old(conns), total, 0) == Resumed(options, old(conns), total, released);
      } else {
        ghost var before := conns;
        if released < |conns| {
          QueueIfReady(released, total);
        }
        assert conns == Resumed(options, before, total, released);
        OneResumes(before, conns, released, |conns|);
      }
    }
  }

  lemma {:induction false} OneResumes(before: seq<Conn>, after: seq<Conn>, c: nat, n: nat)
    requires n <= |before| == |after| && forall d: nat | d < |before| && d != c :: before[d] == after[d]
    ensures Resumes(before, after, n) == if c < n && before[c].paused && !after[c].paused then [c] else []
  {
    if n == 0 {
    } else {
      OneResumes(before, after, c, n - 1);
    }
  }
}
