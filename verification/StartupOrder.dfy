/** The order in which services start (src/compose.ts, startupOrder): Kahn's algorithm with a
    ready queue that is kept sorted. */
module StartupOrder {
  import opened Messages
  import opened Dependencies
  import Sums

  // ---------------------------------------------------------------------------------------
  // Sorting

  ghost predicate Sorted(s: seq<Name>) {
    forall i, j | 0 <= i < j < |s| :: s[i] <= s[j]
  }

  function Insert(s: seq<Name>, x: Name): seq<Name> {
    if s == [] || x <= s[0] then [x] + s else [s[0]] + Insert(s[1..], x)
  }

  /** sort() */
  function Sort(s: seq<Name>): seq<Name> {
    if s == [] then [] else Insert(Sort(s[..|s| - 1]), s[|s| - 1])
  }

  lemma {:induction false} InsertKeeps(s: seq<Name>, x: Name)
    ensures multiset(Insert(s, x)) == multiset(s) + multiset{x}
    ensures forall i | 0 <= i < |Insert(s, x)| :: Insert(s, x)[i] == x || Insert(s, x)[i] in s
  {
    if s != [] && x > s[0] {
      assert s == [s[0]] + s[1..];
      InsertKeeps(s[1..], x);
    }
  }

  lemma {:induction false} InsertSorts(s: seq<Name>, x: Name)
    requires Sorted(s)
    ensures Sorted(Insert(s, x))
  {
    if s != [] && x > s[0] {
      InsertSorts(s[1..], x);
      InsertKeeps(s[1..], x);
      var rest := Insert(s[1..], x);
      forall j | 0 <= j < |rest| ensures s[0] <= rest[j] {
        if rest[j] != x {
          var k :| 0 <= k < |s[1..]| && s[1..][k] == rest[j];
          assert s[k + 1] == rest[j];
        }
      }
    }
  }

  lemma {:induction false} SortSorts(s: seq<Name>)
    ensures Sorted(Sort(s)) && multiset(Sort(s)) == multiset(s)
  {
    if s != [] {
      assert s == s[..|s| - 1] + [s[|s| - 1]];
      SortSorts(s[..|s| - 1]);
      InsertSorts(Sort(s[..|s| - 1]), s[|s| - 1]);
      InsertKeeps(Sort(s[..|s| - 1]), s[|s| - 1]);
    }
  }

  lemma SameElements(a: seq<Name>, b: seq<Name>)
    requires multiset(a) == multiset(b)
    ensures Elements(a) == Elements(b) && (Distinct(b) ==> Distinct(a))
  {
    assert forall x :: x in a <==> x in multiset(a);
    assert forall x :: x in b <==> x in multiset(b);
    if Distinct(b) {
      forall i, j | 0 <= i < j < |a| ensures a[i] != a[j] {
        if a[i] == a[j] {
          TwoCopies(a, i, j);
          OneCopy(b, a[i]);
        }
      }
    }
  }

  lemma SortKeeps(s: seq<Name>)
    ensures Sorted(Sort(s)) && Elements(Sort(s)) == Elements(s) && (Distinct(s) ==> Distinct(Sort(s)))
  {
    SortSorts(s);
    SameElements(Sort(s), s);
  }

  /** indeg counts and adj lists, by dependency, the needs recorded so far. */
  ghost predicate Graph(needs: map<Name, set<Name>>, indeg: map<Name, int>, adj: map<Name, seq<Name>>) {
    && indeg.Keys == needs.Keys && adj.Keys == needs.Keys
    && (forall m | m in needs :: indeg[m] == |needs[m]|)
    && (forall d | d in adj :: Dependents(needs, d, adj[d]))
  }

  ghost predicate Dependents(needs: map<Name, set<Name>>, d: Name, s: seq<Name>) {
    Distinct(s) && forall m :: m in s <==> m in needs && d in needs[m]
  }

  lemma AddNeed(needs: map<Name, set<Name>>, indeg: map<Name, int>, adj: map<Name, seq<Name>>, svc: Name, dep: Name)
    requires Graph(needs, indeg, adj) && svc in needs && dep in needs && dep !in needs[svc]
    ensures Graph(needs[svc := needs[svc] + {dep}], indeg[svc := indeg[svc] + 1], adj[dep := adj[dep] + [svc]])
  {
    var needs', adj' := needs[svc := needs[svc] + {dep}], adj[dep := adj[dep] + [svc]];
    forall d | d in adj' ensures Dependents(needs', d, adj'[d]) {
      assert Dependents(needs, d, adj[d]);
      if d == dep {
        assert svc !in adj[d];
        assert forall m :: m in adj'[d] <==> m in adj[d] || m == svc;
      }
    }
  }

  ghost function AllNeeds(f: File): map<Name, set<Name>> {
    map m | m in f.deps :: Needs(f, m)
  }

  /** The needs of svc among its first k dependencies. */
  function SomeNeeds(f: File, svc: Name, k: nat): set<Name>
    requires svc in f.deps && k <= |f.deps[svc]|
  {
    set d | d in f.deps[svc][..k] && d in f.names
  }

  /** The needs recorded once the first i services have been read. */
  ghost function NeedsSoFar(f: File, i: nat): map<Name, set<Name>>
    requires i <= |f.names|
  {
    map m | m in f.deps :: if m in f.names[..i] then Needs(f, m) else {}
  }

  lemma NextDependency(f: File, svc: Name, k: nat)
    requires Valid(f) && svc in f.deps && k < |f.deps[svc]|
    ensures var dep := f.deps[svc][k];
            && SomeNeeds(f, svc, k + 1) == SomeNeeds(f, svc, k) + (if dep in f.names then {dep} else {})
            && dep !in SomeNeeds(f, svc, k)
  {
    assert f.deps[svc][..k + 1] == f.deps[svc][..k] + [f.deps[svc][k]];
    assert Distinct(f.deps[svc]);
  }

  lemma NextService(f: File, i: nat)
    requires Valid(f) && i < |f.names| && f.names[i] in f.deps
    ensures var svc := f.names[i];
            && NeedsSoFar(f, i)[svc := SomeNeeds(f, svc, 0)] == NeedsSoFar(f, i)
            && NeedsSoFar(f, i)[svc := SomeNeeds(f, svc, |f.deps[svc]|)] == NeedsSoFar(f, i + 1)
  {
    var svc := f.names[i];
    assert svc !in f.names[..i];
    assert f.deps[svc][..|f.deps[svc]|] == f.deps[svc];
    assert SomeNeeds(f, svc, |f.deps[svc]|) == Needs(f, svc);
    assert SomeNeeds(f, svc, 0) == {};
    assert f.names[..i + 1] == f.names[..i] + [svc];
    assert forall m :: m in f.names[..i + 1] <==> m in f.names[..i] || m == svc;
  }

  lemma AllRead(f: File)
    requires Valid(f)
    ensures NeedsSoFar(f, |f.names|) == AllNeeds(f)
    ensures forall m :: m in f.deps <==> m in f.names
  {
    assert f.names[..|f.names|] == f.names;
    assert forall m :: m in Elements(f.names) <==> m in f.names;
  }

  lemma NothingRead(f: File)
    requires Valid(f)
    ensures Graph(NeedsSoFar(f, 0), map n | n in f.deps :: 0, map n | n in f.deps :: [])
  {
    var needs: map<Name, set<Name>> := NeedsSoFar(f, 0);
    var adj: map<Name, seq<Name>> := map n | n in f.deps :: [];
    assert forall m | m in needs :: needs[m] == {};
    forall d | d in adj ensures Dependents(needs, d, adj[d]) {}
  }

  /** The counting loops: how many known services each one needs, and who needs it. */
  method BuildGraph(f: File) returns (indeg: map<Name, int>, adj: map<Name, seq<Name>>)
    requires Valid(f)
    ensures Graph(AllNeeds(f), indeg, adj)
  {
    hide Graph;
    indeg := map n | n in f.deps :: 0;
    adj := map n | n in f.deps :: [];
    AllRead(f);
    NothingRead(f);
    for i := 0 to |f.names|
      invariant Graph(NeedsSoFar(f, i), indeg, adj)
    {
      NextService(f, i);
      indeg, adj := ReadService(f, f.names[i], indeg, adj, NeedsSoFar(f, i));
    }
  }

  ghost function NeedsAt(f: File, needs: map<Name, set<Name>>, svc: Name, k: nat): map<Name, set<Name>>
    requires svc in f.deps && k <= |f.deps[svc]|
  {
    needs[svc := SomeNeeds(f, svc, k)]
  }

  lemma ReadNext(f: File, needs: map<Name, set<Name>>, svc: Name, k: nat)
    requires Valid(f) && needs.Keys == f.deps.Keys && svc in f.deps && k < |f.deps[svc]|
    ensures var now, dep := NeedsAt(f, needs, svc, k), f.deps[svc][k];
            && svc in now && dep !in now[svc]
            && NeedsAt(f, needs, svc, k + 1) == if dep in now then now[svc := now[svc] + {dep}] else now
  {
    var now, dep := NeedsAt(f, needs, svc, k), f.deps[svc][k];
    NextDependency(f, svc, k);
    AllRead(f);
    assert now.Keys == f.deps.Keys;
    assert dep in now <==> dep in f.names;
    if dep in now {
      assert now[svc := now[svc] + {dep}] == NeedsAt(f, needs, svc, k + 1);
    } else {
      assert SomeNeeds(f, svc, k + 1) == SomeNeeds(f, svc, k);
    }
  }

  method ReadService(f: File, svc: Name, indeg0: map<Name, int>, adj0: map<Name, seq<Name>>,
                     ghost needs: map<Name, set<Name>>)
    returns (indeg: map<Name, int>, adj: map<Name, seq<Name>>)
    requires Valid(f) && svc in f.deps && needs.Keys == f.deps.Keys
    requires Graph(NeedsAt(f, needs, svc, 0), indeg0, adj0)
    ensures Graph(NeedsAt(f, needs, svc, |f.deps[svc]|), indeg, adj)
  {
    indeg, adj := indeg0, adj0;
    for k := 0 to |f.deps[svc]|
      invariant Graph(NeedsAt(f, needs, svc, k), indeg, adj)
    {
      ReadNext(f, needs, svc, k);
      indeg, adj := ReadDependency(svc, f.deps[svc][k], indeg, adj, NeedsAt(f, needs, svc, k));
    }
  }

  method ReadDependency(svc: Name, dep: Name, indeg0: map<Name, int>, adj0: map<Name, seq<Name>>,
                        ghost needs: map<Name, set<Name>>)
    returns (indeg: map<Name, int>, adj: map<Name, seq<Name>>)
    requires Graph(needs, indeg0, adj0) && svc in needs && dep !in needs[svc]
    ensures Graph(if dep in needs then needs[svc := needs[svc] + {dep}] else needs, indeg, adj)
  {
    indeg, adj := indeg0, adj0;
    if dep in indeg {
      AddNeed(needs, indeg, adj, svc, dep);
      adj := adj[dep := adj[dep] + [svc]];
      indeg := indeg[svc := indeg[svc] + 1];
    }
  }

  // ---------------------------------------------------------------------------------------
  // The main loop

  /** What still holds each waiting service back, given who has started. */
  ghost predicate Counted(f: File, indeg: map<Name, int>, out: seq<Name>) {
    && indeg.Keys == f.deps.Keys
    && forall m | m in f.deps && m !in out :: indeg[m] == |Needs(f, m) - Elements(out)|
  }

  ghost predicate Queued(s: set<Name>, q: seq<Name>) {
    Sorted(q) && Distinct(q) && Elements(q) == s
  }

  /** Those of done that wait for nobody once n has started too. */
  ghost function Freed(f: File, out: seq<Name>, n: Name, done: set<Name>): set<Name> {
    set m | m in done && m in f.deps && Needs(f, m) <= Elements(out) + {n}
  }

  /** Starting n: its dependents lose one need each, and those with none left are ready. */
  ghost predicate Unlocking(f: File, out: seq<Name>, n: Name, done: set<Name>, indeg: map<Name, int>, q: seq<Name>) {
    Told(f, out, n, done, indeg) && Queued((Ready(f, out) - {n}) + Freed(f, out, n, done), q)
  }

  lemma UnlockNone(f: File, out: seq<Name>, n: Name, indeg: map<Name, int>, q: seq<Name>)
    requires Counted(f, indeg, out) && Queued(Ready(f, out) - {n}, q)
    ensures Unlocking(f, out, n, {}, indeg, q)
  {
    assert (Ready(f, out) - {n}) + Freed(f, out, n, {}) == Ready(f, out) - {n};
  }

  lemma StartedHasNeeds(f: File, out: seq<Name>, m: Name, d: Name)
    requires Respects(f, out) && m in out && m in f.deps && d in Needs(f, m)
    ensures d in out
  {
    var i :| 0 <= i < |out| && out[i] == m;
    var j := NeedComesFirst(f, out, i, d);
    assert out[j] in out;
  }

  /** A dependent of a service about to start has not started and is not that service. */
  lemma DependentWaits(f: File, out: seq<Name>, n: Name, m: Name)
    requires Respects(f, out) && n in Ready(f, out) && m in f.deps && n in Needs(f, m)
    ensures m !in out && m != n && m !in Ready(f, out)
    ensures |Needs(f, m) - Elements(out)| == 1 <==> Needs(f, m) <= Elements(out) + {n}
  {
    if m in out { StartedHasNeeds(f, out, m, n); }
    var left := Needs(f, m) - Elements(out);
    assert n in left;
    if Needs(f, m) <= Elements(out) + {n} { assert left == {n}; }
    if |left| == 1 {
      assert |left - {n}| == 0;
      assert left == {n};
    }
  }

  /** q.push(m); q.sort() */
  lemma PushSorted(s: set<Name>, q: seq<Name>, m: Name)
    requires Queued(s, q) && m !in s
    ensures Queued(s + {m}, Sort(q + [m]))
  {
    assert m !in Elements(q);
    SortKeeps(q + [m]);
    assert Elements(q + [m]) == Elements(q) + {m};
  }

  lemma FreedMore(f: File, out: seq<Name>, n: Name, done: set<Name>, m: Name)
    requires m in f.deps
    ensures Freed(f, out, n, done + {m}) == Freed(f, out, n, done)
        + (if Needs(f, m) <= Elements(out) + {n} then {m} else {})
  {
  }

  ghost predicate Told(f: File, out: seq<Name>, n: Name, done: set<Name>, indeg: map<Name, int>) {
    && indeg.Keys == f.deps.Keys
    && forall m | m in f.deps && m !in out && m != n ::
         indeg[m] == |Needs(f, m) - Elements(out)| - (if m in done then 1 else 0)
  }

  lemma TellOne(f: File, out: seq<Name>, n: Name, done: set<Name>, indeg: map<Name, int>, m: Name)
    requires Told(f, out, n, done, indeg) && m in f.deps && m !in done
    ensures Told(f, out, n, done + {m}, indeg[m := indeg[m] - 1])
  {
  }

  /** Reading one more dependent m of n. */
  lemma UnlockOne(f: File, out: seq<Name>, n: Name, done: set<Name>, indeg: map<Name, int>, q: seq<Name>, m: Name)
    requires Unlocking(f, out, n, done, indeg, q) && Respects(f, out) && n in Ready(f, out)
    requires m in f.deps && n in Needs(f, m) && m !in done
    ensures m in indeg
    ensures var indeg' := indeg[m := indeg[m] - 1];
            Unlocking(f, out, n, done + {m}, indeg', if indeg'[m] == 0 then Sort(q + [m]) else q)
  {
    DependentWaits(f, out, n, m);
    TellOne(f, out, n, done, indeg, m);
    QueueOne(f, out, n, done, q, m);
  }

  lemma QueueOne(f: File, out: seq<Name>, n: Name, done: set<Name>, q: seq<Name>, m: Name)
    requires Queued((Ready(f, out) - {n}) + Freed(f, out, n, done), q)
    requires m in f.deps && m !in done && m !in Ready(f, out)
    ensures Queued((Ready(f, out) - {n}) + Freed(f, out, n, done + {m}),
                   if Needs(f, m) <= Elements(out) + {n} then Sort(q + [m]) else q)
  {
    var s, s' := (Ready(f, out) - {n}) + Freed(f, out, n, done), (Ready(f, out) - {n}) + Freed(f, out, n, done + {m});
    FreedMore(f, out, n, done, m);
    if Needs(f, m) <= Elements(out) + {n} {
      assert s' == s + {m};
      PushSorted(s, q, m);
    } else {
      assert s' == s;
    }
  }

  /** When all dependents of n have been read, n has started. */
  lemma Unlocked(f: File, out: seq<Name>, n: Name, dependents: set<Name>, indeg: map<Name, int>, q: seq<Name>)
    requires Unlocking(f, out, n, dependents, indeg, q) && Respects(f, out) && n in Ready(f, out)
    requires forall m :: m in dependents <==> m in f.deps && n in Needs(f, m)
    ensures Counted(f, indeg, out + [n]) && Queued(Ready(f, out + [n]), q)
  {
    assert Elements(out + [n]) == Elements(out) + {n};
    forall m | m in f.deps && m !in out + [n] ensures indeg[m] == |Needs(f, m) - Elements(out + [n])| {
      var left := Needs(f, m) - Elements(out);
      if m in dependents {
        assert Needs(f, m) - Elements(out + [n]) == left - {n};
      } else {
        assert Needs(f, m) - Elements(out + [n]) == left;
      }
    }
    forall m ensures m in Ready(f, out + [n]) <==> m in (Ready(f, out) - {n}) + Freed(f, out, n, dependents) {
      if m in dependents { DependentWaits(f, out, n, m); }
      if m in f.deps && m !in dependents && Needs(f, m) <= Elements(out) + {n} { assert Needs(f, m) <= Elements(out); }
    }
  }

  lemma ElementsMore(s: seq<Name>, k: nat)
    requires Distinct(s) && k < |s|
    ensures Elements(s[..k + 1]) == Elements(s[..k]) + {s[k]} && s[k] in s && s[k] !in Elements(s[..k])
  {
  }

  /** The inner loop: n has started, its dependents are told. */
  method Unlock(f: File, n: Name, ms: seq<Name>, indeg0: map<Name, int>, q0: seq<Name>, ghost out: seq<Name>)
    returns (indeg: map<Name, int>, q: seq<Name>)
    requires Respects(f, out) && n in Ready(f, out)
    requires Counted(f, indeg0, out) && Queued(Ready(f, out) - {n}, q0)
    requires Distinct(ms) && forall m :: m in ms <==> m in f.deps && n in Needs(f, m)
    ensures Counted(f, indeg, out + [n]) && Queued(Ready(f, out + [n]), q)
  {
    indeg, q := indeg0, q0;
    UnlockNone(f, out, n, indeg, q);
    for k := 0 to |ms|
      invariant Unlocking(f, out, n, Elements(ms[..k]), indeg, q)
    {
      var m := ms[k];
      ElementsMore(ms, k);
      UnlockOne(f, out, n, Elements(ms[..k]), indeg, q, m);
      indeg := indeg[m := indeg[m] - 1];
      if indeg[m] == 0 { q := Sort(q + [m]); }
    }
    assert ms[..|ms|] == ms;
    Unlocked(f, out, n, Elements(ms), indeg, q);
  }

  /** names.filter(n => indeg[n] === 0) */
  function Idle(names: seq<Name>, indeg: map<Name, int>): seq<Name>
    requires forall n | n in names :: n in indeg
  {
    if names == [] then []
    else
      var front, last := names[..|names| - 1], names[|names| - 1];
      Idle(front, indeg) + (if indeg[last] == 0 then [last] else [])
  }

  lemma {:induction false} IdleAre(names: seq<Name>, indeg: map<Name, int>)
    requires (forall n | n in names :: n in indeg) && Distinct(names)
    ensures forall n :: n in Idle(names, indeg) <==> n in names && indeg[n] == 0
    ensures Distinct(Idle(names, indeg))
  {
    if names != [] {
      var front, last := names[..|names| - 1], names[|names| - 1];
      IdleAre(front, indeg);
      assert names == front + [last] && last !in front;
    }
  }

  lemma FirstCounts(f: File, indeg: map<Name, int>, adj: map<Name, seq<Name>>)
    requires Graph(AllNeeds(f), indeg, adj)
    ensures Counted(f, indeg, [])
    ensures forall m | m in f.deps :: indeg[m] == 0 <==> Needs(f, m) == {}
  {
    forall m | m in f.deps ensures Needs(f, m) - Elements([]) == Needs(f, m) && AllNeeds(f)[m] == Needs(f, m) {}
  }

  lemma FirstReady(f: File, names: set<Name>)
    requires forall n :: n in names <==> n in f.deps && Needs(f, n) == {}
    ensures names == Ready(f, [])
  {
    assert Elements([]) == {};
    forall m ensures m in names <==> m in Ready(f, []) {
      if m in f.deps { assert Needs(f, m) <= Elements([]) <==> Needs(f, m) == {}; }
    }
  }

  lemma FirstQueue(f: File, indeg: map<Name, int>, adj: map<Name, seq<Name>>)
    requires Valid(f) && Graph(AllNeeds(f), indeg, adj)
    ensures forall n | n in f.names :: n in indeg
    ensures Counted(f, indeg, []) && Queued(Ready(f, []), Sort(Idle(f.names, indeg)))
  {
    AllRead(f);
    FirstCounts(f, indeg, adj);
    IdleAre(f.names, indeg);
    var idle := Idle(f.names, indeg);
    SortKeeps(idle);
    assert forall n :: n in Elements(idle) <==> n in idle;
    FirstReady(f, Elements(idle));
  }

  lemma HeadIsLeast(s: set<Name>, q: seq<Name>)
    requires Queued(s, q) && q != []
    ensures Least(q[0], s) && Queued(s - {q[0]}, q[1..])
  {
    assert q == [q[0]] + q[1..];
    assert forall i | 1 <= i < |q| :: q[i] == q[1..][i - 1];
    forall x | x in s ensures q[0] <= x {
      var i :| 0 <= i < |q| && q[i] == x;
    }
  }

  lemma GreedyMore(f: File, out: seq<Name>, n: Name)
    requires Greedy(f, out) && Least(n, Ready(f, out))
    ensures Greedy(f, out + [n])
  {
    forall i | 0 <= i < |out + [n]| ensures Least((out + [n])[i], Ready(f, (out + [n])[..i])) {
      assert (out + [n])[..i] == out[..i];
      if i == |out| { assert out[..i] == out; }
    }
  }

  /** Nothing is ready but somebody has not started: there is a cycle among the rest. */
  lemma NothingReady(f: File, out: seq<Name>, n: Name)
    requires Valid(f) && Ready(f, out) == {} && n in f.deps && n !in out
    ensures !Acyclic(f)
  {
    var rest := f.deps.Keys - Elements(out);
    AllRead(f);
    forall m | m in rest ensures exists d :: d in Needs(f, m) && d in rest {
      assert m !in Ready(f, out);
      var d :| d in Needs(f, m) && d !in Elements(out);
      assert d in rest;
    }
    StuckHasCycle(f, rest, n);
  }

  lemma AllStarted(f: File, out: seq<Name>)
    requires Valid(f) && Greedy(f, out) && |out| == |f.names|
    ensures Startable(f, out)
  {
    GreedyRespects(f, out);
    AllRead(f);
    forall i | 0 <= i < |out| ensures out[i] in f.names { assert out[i] in f.deps; }
    ElementsSize(out);
    ElementsSize(f.names);
    SameSize(Elements(out), Elements(f.names));
    forall x ensures multiset(out)[x] == multiset(f.names)[x] {
      OneCopy(out, x);
      OneCopy(f.names, x);
      assert x in Elements(out) <==> x in Elements(f.names);
    }
  }

  lemma SameSize(a: set<Name>, b: set<Name>)
    requires a <= b && |a| == |b|
    ensures a == b
  {
    assert |b - a| == |b| - |a|;
  }

  /** The services in the order they should start, or nothing if some wait for each other.  There is
      an order exactly when no service needs itself, directly or through others; it lists each
      service once, each after all it needs; and no such order comes earlier. */
  method StartupOrder(f: File) returns (order: Option<seq<Name>>)
    requires Valid(f)
    ensures order.Some? <==> Acyclic(f)
    ensures order.Some? ==> Startable(f, order.value)
    ensures order.Some? ==> forall other | Startable(f, other) :: LexAtMost(order.value, other)
  {
    var indeg, adj := BuildGraph(f);
    FirstQueue(f, indeg, adj);
    var q := Sort(Idle(f.names, indeg));
    var out: seq<Name> := [];
    while q != []
      invariant Greedy(f, out) && Counted(f, indeg, out) && Queued(Ready(f, out), q)
      decreases |f.deps| - |out|
    {
      var n := q[0];
      HeadIsLeast(Ready(f, out), q);
      GreedyRespects(f, out);
      GreedyMore(f, out, n);
      Bounded(f, out + [n]);
      q := q[1..];
      var ms := Sort(adj[n]);
      SortKeeps(adj[n]);
      assert Dependents(AllNeeds(f), n, adj[n]);
      assert forall m :: m in ms <==> m in Elements(adj[n]) by { assert forall m :: m in ms <==> m in Elements(ms); }
      indeg, q := Unlock(f, n, ms, indeg, q, out);
      out := out + [n];
    }
    order := Conclude(f, out);
  }

  lemma Bounded(f: File, out: seq<Name>)
    requires Greedy(f, out)
    ensures |out| <= |f.deps|
  {
    GreedyRespects(f, out);
    ElementsSize(out);
    Sums.SubsetSize(Elements(out), f.deps.Keys);
  }

  /** The last line: a complete order, or none. */
  method Conclude(f: File, out: seq<Name>) returns (order: Option<seq<Name>>)
    requires Valid(f) && Greedy(f, out) && Ready(f, out) == {}
    ensures order.Some? <==> Acyclic(f)
    ensures order.Some? ==> Startable(f, order.value)
    ensures order.Some? ==> forall other | Startable(f, other) :: LexAtMost(order.value, other)
  {
    if |out| == |f.names| {
      AllStarted(f, out);
      StartableIsAcyclic(f, out);
      forall other | Startable(f, other) ensures LexAtMost(out, other) { GreedyIsLeast(f, out, other); }
      return Some(out);
    }
    SomebodyWaits(f, out);
    return None;
  }

  lemma SomebodyWaits(f: File, out: seq<Name>)
    requires Valid(f) && Greedy(f, out) && Ready(f, out) == {} && |out| != |f.names|
    ensures !Acyclic(f)
  {
    GreedyRespects(f, out);
    ElementsSize(out);
    ElementsSize(f.names);
    assert Elements(out) <= f.deps.Keys;
    var rest := f.deps.Keys - Elements(out);
    forall x | x in f.deps.Keys && x !in Elements(out) ensures x in rest {}
    assert rest == {} ==> f.deps.Keys <= Elements(out);
    assert rest == {} ==> Elements(out) == Elements(f.names);
    var n := Sums.Pick(rest);
    NothingReady(f, out, n);
  }
}
