/** The route registry: copy-on-write registration, prefixes kept sorted by length, first-match lookup. */
module Routes {

  datatype Option<+T> = None | Some(value: T)

  datatype Entry<H> = Entry(prefix: string, handler: H)

  // One published snapshot. Handlers are abstract values.
  datatype Registry<H> = Registry(exact: map<string, H>, prefixes: seq<Entry<H>>)

  datatype Outcome = Registered | RouteExists | EmptyRoute | RouteTooLong

  datatype Op<H> = Exact(route: string, handler: H) | Prefix(route: string, handler: H)

  // The library sort: any order of the same entries with no longer prefix after a shorter one.
  type Sorter<!H> = seq<Entry<H>> -> seq<Entry<H>>

  predicate ByLength<H>(s: seq<Entry<H>>) { forall i, j | 0 <= i < j < |s| :: |s[i].prefix| >= |s[j].prefix| }

  ghost predicate Sorts<H(!new)>(sort: Sorter<H>) {
    forall s: seq<Entry<H>> :: multiset(sort(s)) == multiset(s) && ByLength(sort(s))
  }

  predicate Knows<H>(prefixes: seq<Entry<H>>, p: string) { exists i | 0 <= i < |prefixes| :: prefixes[i].prefix == p }

  function Register<H(!new)>(maxMessage: nat, sort: Sorter<H>, r: Registry<H>, op: Op<H>): (Registry<H>, Outcome) {
    if op.route == "" then (r, EmptyRoute)
    else if |op.route| > maxMessage then (r, RouteTooLong)
    else match op
      case Exact(route, handler) =>
        if route in r.exact then (r, RouteExists) else (r.(exact := r.exact[route := handler]), Registered)
      case Prefix(route, handler) =>
        if Knows(r.prefixes, route) then (r, RouteExists)
        else (r.(prefixes := sort(r.prefixes + [Entry(route, handler)])), Registered)
  }

  // Registrations in order; every one may be sorted differently.
  function Build<H(!new)>(maxMessage: nat, sorts: seq<Sorter<H>>, ops: seq<Op<H>>): Registry<H>
    requires |sorts| == |ops|
    decreases |ops|
  {
    if ops == [] then Registry(map[], [])
    else
      var n := |ops| - 1;
      Register(maxMessage, sorts[n], Build(maxMessage, sorts[..n], ops[..n]), ops[n]).0
  }

  // Lookup as the server does it: the exact table, then the first prefix that fits.
  function FirstFit<H>(prefixes: seq<Entry<H>>, route: string): Option<H> {
    if prefixes == [] then None
    else if prefixes[0].prefix <= route then Some(prefixes[0].handler)
    else FirstFit(prefixes[1..], route)
  }

  function Find<H>(r: Registry<H>, route: string): Option<H> {
    if route in r.exact then Some(r.exact[route]) else FirstFit(r.prefixes, route)
  }

  // ---- specification --------------------------------------------------------------------

  // Exact match wins; otherwise the one longest registered prefix of the route, if any.
  ghost predicate Answers<H>(exact: map<string, H>, prefixes: map<string, H>, route: string, answer: Option<H>) {
    if route in exact then answer == Some(exact[route])
    else match answer
      case None => forall p | p in prefixes :: !(p <= route)
      case Some(h) => exists p | p in prefixes && p <= route && prefixes[p] == h ::
                        forall q | q in prefixes && q <= route && q != p :: |q| < |p|
  }

  /** The specification leaves no choice. */
  lemma AnswerUnique<H>(exact: map<string, H>, prefixes: map<string, H>, route: string, a: Option<H>, b: Option<H>)
    requires Answers(exact, prefixes, route, a) && Answers(exact, prefixes, route, b)
    ensures a == b
  {
  }

  // What has been registered, first registration first.
  function Exacts<H>(maxMessage: nat, ops: seq<Op<H>>): map<string, H> {
    if ops == [] then map[]
    else
      var m, op := Exacts(maxMessage, ops[..|ops| - 1]), ops[|ops| - 1];
      if op.Exact? && 0 < |op.route| <= maxMessage && op.route !in m then m[op.route := op.handler] else m
  }

  function Prefixes<H>(maxMessage: nat, ops: seq<Op<H>>): map<string, H> {
    if ops == [] then map[]
    else
      var m, op := Prefixes(maxMessage, ops[..|ops| - 1]), ops[|ops| - 1];
      if op.Prefix? && 0 < |op.route| <= maxMessage && op.route !in m then m[op.route := op.handler] else m
  }

  ghost predicate Represents<H>(s: seq<Entry<H>>, m: map<string, H>) {
    && ByLength(s)
    && (forall e <- s :: e.prefix in m && m[e.prefix] == e.handler)
    && (forall p | p in m :: Entry(p, m[p]) in s)
  }

  lemma MemberOfSorted<H(!new)>(sort: Sorter<H>, s: seq<Entry<H>>, e: Entry<H>)
    requires Sorts(sort)
    ensures e in sort(s) <==> e in s
  {
    assert e in multiset(sort(s)) <==> e in sort(s);
    assert e in multiset(s) <==> e in s;
  }

  lemma InsertRepresents<H(!new)>(sort: Sorter<H>, s: seq<Entry<H>>, m: map<string, H>, e: Entry<H>)
    requires Sorts(sort) && Represents(s, m) && e.prefix !in m
    ensures Represents(sort(s + [e]), m[e.prefix := e.handler])
  {
    var t, n := sort(s + [e]), m[e.prefix := e.handler];
    forall x | x in t ensures x.prefix in n && n[x.prefix] == x.handler {
      MemberOfSorted(sort, s + [e], x);
    }
    forall p | p in n ensures Entry(p, n[p]) in t {
      MemberOfSorted(sort, s + [e], Entry(p, n[p]));
      assert p == e.prefix ==> (s + [e])[|s|] == Entry(p, n[p]);
    }
  }

  lemma {:induction false} BuildRepresents<H(!new)>(maxMessage: nat, sorts: seq<Sorter<H>>, ops: seq<Op<H>>)
    requires |sorts| == |ops| && forall i | 0 <= i < |sorts| :: Sorts(sorts[i])
    ensures Build(maxMessage, sorts, ops).exact == Exacts(maxMessage, ops)
    ensures Represents(Build(maxMessage, sorts, ops).prefixes, Prefixes(maxMessage, ops))
    decreases |ops|
  {
    if ops == [] {
    } else {
      var n := |ops| - 1;
      BuildRepresents(maxMessage, sorts[..n], ops[..n]);
      var before, m, op := Build(maxMessage, sorts[..n], ops[..n]), Prefixes(maxMessage, ops[..n]), ops[n];
      assert Knows(before.prefixes, op.route) <==> op.route in m by {
        if op.route in m { assert Entry(op.route, m[op.route]) in before.prefixes; }
      }
      if op.Prefix? && op.route !in m {
        InsertRepresents(sorts[n], before.prefixes, m, Entry(op.route, op.handler));
      }
    }
  }

  // The first fit among length-sorted entries is the longest match.
  lemma {:induction false} FirstFitIndex<H>(s: seq<Entry<H>>, route: string) returns (i: nat)
    ensures i <= |s| && forall j | 0 <= j < i :: !(s[j].prefix <= route)
    ensures FirstFit(s, route) == if i == |s| then None else Some(s[i].handler)
    ensures i < |s| ==> s[i].prefix <= route
  {
    if s == [] || s[0].prefix <= route {
      i := 0;
    } else {
      i := FirstFitIndex(s[1..], route);
      assert forall j | 1 <= j < i + 1 :: s[j] == s[1..][j - 1];
      assert i < |s[1..]| ==> s[i + 1] == s[1..][i];
      i := i + 1;
    }
  }

  // Whatever else matches comes later in the list, so it is shorter.
  lemma FirstIsLongest<H>(s: seq<Entry<H>>, m: map<string, H>, route: string, i: nat, q: string)
    requires Represents(s, m) && i < |s| && s[i].prefix <= route && forall j | 0 <= j < i :: !(s[j].prefix <= route)
    requires q in m && q <= route && q != s[i].prefix
    ensures |q| < |s[i].prefix|
  {
    assert Entry(q, m[q]) in s;
    var j :| 0 <= j < |s| && s[j] == Entry(q, m[q]);
    assert i < j;
    assert q == route[..|q|] && s[i].prefix == route[..|s[i].prefix|];
  }

  lemma FindAnswers<H>(r: Registry<H>, m: map<string, H>, route: string)
    requires Represents(r.prefixes, m)
    ensures Answers(r.exact, m, route, Find(r, route))
  {
    var s := r.prefixes;
    var i := FirstFitIndex(s, route);
    if route in r.exact {
    } else if i < |s| {
      assert s[i] in s;
      forall q | q in m && q <= route && q != s[i].prefix
        ensures |q| < |s[i].prefix|
      {
        FirstIsLongest(s, m, route, i, q);
      }
    } else {
      NoneFits(s, m, route);
    }
  }

  lemma NoneFits<H>(s: seq<Entry<H>>, m: map<string, H>, route: string)
    requires Represents(s, m) && forall j | 0 <= j < |s| :: !(s[j].prefix <= route)
    ensures forall q | q in m :: !(q <= route)
  {
    forall q | q in m
      ensures !(q <= route)
    {
      assert Entry(q, m[q]) in s;
    }
  }

  /** Lookup meets its specification after any registrations, whatever order the sort gives equal lengths. */
  lemma LookupCorrect<H(!new)>(maxMessage: nat, sorts: seq<Sorter<H>>, ops: seq<Op<H>>, route: string)
    requires |sorts| == |ops| && forall i | 0 <= i < |sorts| :: Sorts(sorts[i])
    ensures Answers(Exacts(maxMessage, ops), Prefixes(maxMessage, ops), route,
                    Find(Build(maxMessage, sorts, ops), route))
  {
    BuildRepresents(maxMessage, sorts, ops);
    FindAnswers(Build(maxMessage, sorts, ops), Prefixes(maxMessage, ops), route);
  }

  // No route is registered twice in the same table.
  ghost predicate NoRepeats<H>(ops: seq<Op<H>>) {
    forall i, j | 0 <= i < j < |ops| && ops[i].Exact? == ops[j].Exact? :: ops[i].route != ops[j].route
  }

  ghost predicate Maps<H>(m: map<string, H>, route: string, h: H) { route in m && m[route] == h }

  lemma {:induction false} ExactsOf<H>(maxMessage: nat, ops: seq<Op<H>>, route: string, h: H)
    requires NoRepeats(ops)
    ensures Maps(Exacts(maxMessage, ops), route, h) <==> Exact(route, h) in ops && 0 < |route| <= maxMessage
    ensures route in Exacts(maxMessage, ops) ==> Exact(route, Exacts(maxMessage, ops)[route]) in ops
  {
    if ops == [] {
    } else {
      var front, op := ops[..|ops| - 1], ops[|ops| - 1];
      ExactsOf(maxMessage, front, route, h);
      assert ops == front + [op];
    }
  }

  lemma {:induction false} PrefixesOf<H>(maxMessage: nat, ops: seq<Op<H>>, route: string, h: H)
    requires NoRepeats(ops)
    ensures Maps(Prefixes(maxMessage, ops), route, h) <==> Prefix(route, h) in ops && 0 < |route| <= maxMessage
    ensures route in Prefixes(maxMessage, ops) ==> Prefix(route, Prefixes(maxMessage, ops)[route]) in ops
  {
    if ops == [] {
    } else {
      var front, op := ops[..|ops| - 1], ops[|ops| - 1];
      PrefixesOf(maxMessage, front, route, h);
      assert ops == front + [op];
    }
  }

  /** Registration order is irrelevant: reordering distinct registrations changes no lookup. */
  lemma OrderIrrelevant<H(!new)>(maxMessage: nat, sorts: seq<Sorter<H>>, ops: seq<Op<H>>,
                                 sorts': seq<Sorter<H>>, ops': seq<Op<H>>, route: string)
    requires |sorts| == |ops| && forall i | 0 <= i < |sorts| :: Sorts(sorts[i])
    requires |sorts'| == |ops'| && forall i | 0 <= i < |sorts'| :: Sorts(sorts'[i])
    requires NoRepeats(ops) && NoRepeats(ops') && multiset(ops) == multiset(ops')
    ensures Find(Build(maxMessage, sorts, ops), route) == Find(Build(maxMessage, sorts', ops'), route)
  {
    LookupCorrect(maxMessage, sorts, ops, route);
    LookupCorrect(maxMessage, sorts', ops', route);
    SameTables(maxMessage, ops, ops');
    AnswerUnique(Exacts(maxMessage, ops), Prefixes(maxMessage, ops), route,
                 Find(Build(maxMessage, sorts, ops), route), Find(Build(maxMessage, sorts', ops'), route));
  }

  lemma SameTables<H>(maxMessage: nat, ops: seq<Op<H>>, ops': seq<Op<H>>)
    requires NoRepeats(ops) && NoRepeats(ops') && multiset(ops) == multiset(ops')
    ensures Exacts(maxMessage, ops) == Exacts(maxMessage, ops')
    ensures Prefixes(maxMessage, ops) == Prefixes(maxMessage, ops')
  {
    Included(maxMessage, ops, ops');
    Included(maxMessage, ops', ops);
  }

  lemma Included<H>(maxMessage: nat, ops: seq<Op<H>>, ops': seq<Op<H>>)
    requires NoRepeats(ops) && NoRepeats(ops') && multiset(ops) == multiset(ops')
    ensures forall r | r in Exacts(maxMessage, ops) ::
              r in Exacts(maxMessage, ops') && Exacts(maxMessage, ops')[r] == Exacts(maxMessage, ops)[r]
    ensures forall r | r in Prefixes(maxMessage, ops) ::
              r in Prefixes(maxMessage, ops') && Prefixes(maxMessage, ops')[r] == Prefixes(maxMessage, ops)[r]
  {
    forall r | r in Exacts(maxMessage, ops)
      ensures r in Exacts(maxMessage, ops') && Exacts(maxMessage, ops')[r] == Exacts(maxMessage, ops)[r]
    {
      var h := Exacts(maxMessage, ops)[r];
      ExactsOf(maxMessage, ops, r, h);
      assert Exact(r, h) in multiset(ops');
      ExactsOf(maxMessage, ops', r, h);
    }
    forall r | r in Prefixes(maxMessage, ops)
      ensures r in Prefixes(maxMessage, ops') && Prefixes(maxMessage, ops')[r] == Prefixes(maxMessage, ops)[r]
    {
      var h := Prefixes(maxMessage, ops)[r];
      PrefixesOf(maxMessage, ops, r, h);
      assert Prefix(r, h) in multiset(ops');
      PrefixesOf(maxMessage, ops', r, h);
    }
  }

  // ---- the registrar ------------------------------------------------------------------------

  /** The server's current snapshot; registration copies it, changes the copy and publishes it. */
  class Registrar<H(!new)> {
    const maxMessage: nat
    var snapshot: Registry<H>

    constructor (maxMessage: nat)
      ensures this.maxMessage == maxMessage && snapshot == Registry(map[], [])
    {
      this.maxMessage, snapshot := maxMessage, Registry(map[], []);
    }

    /** Registers one handler; a refused registration publishes nothing. */
    method Add(op: Op<H>, sort: Sorter<H>) returns (outcome: Outcome)
      modifies this
      ensures (snapshot, outcome) == Register(maxMessage, sort, old(snapshot), op)
      ensures outcome != Registered ==> snapshot == old(snapshot)
    {
      if op.route == "" {
        return EmptyRoute;
      }
      if |op.route| > maxMessage {
        return RouteTooLong;
      }
      var updated := snapshot;
      if op.Exact? {
        if op.route in updated.exact {
          return RouteExists;
        }
        updated := updated.(exact := updated.exact[op.route := op.handler]);
      } else {
        for i := 0 to |updated.prefixes|
          invariant forall k | 0 <= k < i :: updated.prefixes[k].prefix != op.route
        {
          if updated.prefixes[i].prefix == op.route {
            return RouteExists;
          }
        }
        updated := updated.(prefixes := updated.prefixes + [Entry(op.route, op.handler)]);
        updated := updated.(prefixes := sort(updated.prefixes));
      }
      snapshot := updated;
      outcome := Registered;
    }

    /** Scans one loaded snapshot. */
    method Lookup(route: string) returns (answer: Option<H>)
      ensures answer == Find(snapshot, route)
    {
      var registry := snapshot;
      if route in registry.exact {
        return Some(registry.exact[route]);
      }
      var i := 0;
      assert registry.prefixes[0..] == registry.prefixes;
      while i < |registry.prefixes|
        invariant i <= |registry.prefixes|
        invariant FirstFit(registry.prefixes[i..], route) == FirstFit(registry.prefixes, route)
      {
        var entry := registry.prefixes[i];
        if |route| >= |entry.prefix| && route[..|entry.prefix|] == entry.prefix {
          return Some(entry.handler);
        }
        assert registry.prefixes[i..][1..] == registry.prefixes[i + 1..];
        i := i + 1;
      }
      answer := None;
    }
  }
}
