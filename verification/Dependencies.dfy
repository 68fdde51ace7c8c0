/** Service dependencies and the orders that respect them: what src/compose.ts's startupOrder is
    to find, and when there is anything to find. */
module Dependencies {
  import Sums

  /** A service stands for the rank of its name in the order the code sorts by. */
  type Name = int

  /** names in the order they are declared; deps lists what each one says it depends on, known or
      not. */
  datatype File = File(names: seq<Name>, deps: map<Name, seq<Name>>)

  ghost predicate Distinct(s: seq<Name>) {
    forall i, j | 0 <= i < j < |s| :: s[i] != s[j]
  }

  function Elements(s: seq<Name>): set<Name> {
    set x | x in s
  }

  /** Keys of an object occur once. */
  ghost predicate Valid(f: File) {
    Distinct(f.names) && f.deps.Keys == Elements(f.names) && forall n | n in f.deps :: Distinct(f.deps[n])
  }

  /** The services n has to wait for. */
  function Needs(f: File, n: Name): set<Name>
    requires n in f.deps
  {
    set d | d in f.deps[n] && d in f.names
  }

  // ---------------------------------------------------------------------------------------
  // What an order should be

  /** A path of needs that ends where it began. */
  ghost predicate Cycle(f: File, path: seq<Name>) {
    && |path| >= 2 && path[0] == path[|path| - 1]
    && Path(f, path)
  }

  ghost predicate Path(f: File, path: seq<Name>) {
    && (forall i | 0 <= i < |path| :: path[i] in f.deps)
    && (forall i, j | 0 <= i < j < |path| && j == i + 1 :: path[j] in Needs(f, path[i]))
  }

  ghost predicate Acyclic(f: File) {
    forall path :: !Cycle(f, path)
  }

  /** Each service of the order comes after all it needs. */
  ghost predicate Respects(f: File, order: seq<Name>) {
    forall i | 0 <= i < |order| :: order[i] in f.deps && Needs(f, order[i]) <= Elements(order[..i])
  }

  ghost predicate Startable(f: File, order: seq<Name>) {
    multiset(order) == multiset(f.names) && Respects(f, order)
  }

  /** a is b, or smaller at the first place where they differ. */
  ghost predicate LexAtMost(a: seq<Name>, b: seq<Name>) {
    a == b || exists i :: 0 <= i < |a| && i < |b| && a[..i] == b[..i] && a[i] < b[i]
  }

  /** The services not yet started that wait for nothing more. */
  ghost function Ready(f: File, started: seq<Name>): set<Name> {
    set n | n in f.deps && n !in started && Needs(f, n) <= Elements(started)
  }

  ghost predicate Least(n: Name, s: set<Name>) {
    n in s && forall x | x in s :: n <= x
  }

  /** Every choice was the least one ready. */
  ghost predicate Greedy(f: File, order: seq<Name>) {
    forall i | 0 <= i < |order| :: Least(order[i], Ready(f, order[..i]))
  }

  lemma GreedyRespects(f: File, order: seq<Name>)
    requires Greedy(f, order)
    ensures Respects(f, order) && Distinct(order)
  {
    forall i | 0 <= i < |order| ensures order[i] in f.deps && Needs(f, order[i]) <= Elements(order[..i]) {
      assert Least(order[i], Ready(f, order[..i]));
    }
    forall i, j | 0 <= i < j < |order| ensures order[i] != order[j] {
      assert Least(order[j], Ready(f, order[..j]));
      assert order[..j][i] in order[..j];
    }
  }

  /** The first place where two sequences of the same length differ. */
  lemma {:induction false} FirstDifference(a: seq<Name>, b: seq<Name>, k: nat) returns (i: nat)
    requires k < |a| == |b| && a[k] != b[k]
    ensures i <= k && a[..i] == b[..i] && a[i] != b[i]
  {
    if j: nat :| j < k && a[j] != b[j] {
      i := FirstDifference(a, b, j);
    } else {
      i := k;
    }
  }

  lemma DistinctOf(f: File, order: seq<Name>)
    requires Distinct(f.names) && multiset(order) == multiset(f.names)
    ensures Distinct(order) && |order| == |f.names|
  {
    assert |multiset(order)| == |order|;
    forall i, j | 0 <= i < j < |order| ensures order[i] != order[j] {
      if order[i] == order[j] {
        TwoCopies(order, i, j);
        OneCopy(f.names, order[i]);
      }
    }
  }

  lemma TwoCopies(s: seq<Name>, i: nat, j: nat)
    requires i < j < |s| && s[i] == s[j]
    ensures multiset(s)[s[i]] >= 2
  {
    assert s == s[..j] + [s[j]] + s[j + 1..];
    assert s[..j][i] in multiset(s[..j]);
  }

  lemma {:induction false} OneCopy(s: seq<Name>, x: Name)
    requires Distinct(s)
    ensures multiset(s)[x] == if x in s then 1 else 0
  {
    if s != [] {
      var front := s[..|s| - 1];
      OneCopy(front, x);
      assert s == front + [s[|s| - 1]];
    }
  }

  /** A greedy order comes no later than any other order the services could start in. */
  lemma GreedyIsLeast(f: File, order: seq<Name>, other: seq<Name>)
    requires Valid(f) && Greedy(f, order) && Startable(f, order) && Startable(f, other)
    ensures LexAtMost(order, other)
  {
    DistinctOf(f, order);
    DistinctOf(f, other);
    if order != other {
      var k: nat :| k < |order| && order[k] != other[k];
      var i := FirstDifference(order, other, k);
      assert Least(order[i], Ready(f, order[..i]));
      assert other[i] !in other[..i];
      assert other[i] in Ready(f, other[..i]);
    }
  }

  // ---------------------------------------------------------------------------------------
  // Cycles

  lemma NeedComesFirst(f: File, order: seq<Name>, i: nat, d: Name) returns (j: nat)
    requires Respects(f, order) && i < |order| && d in Needs(f, order[i])
    ensures j < i && order[j] == d
  {
    assert d in Elements(order[..i]);
    j :| 0 <= j < i && order[..i][j] == d;
  }

  lemma SubPath(f: File, path: seq<Name>, lo: nat, hi: nat)
    requires Path(f, path) && lo <= hi <= |path|
    ensures Path(f, path[lo..hi])
  {
    var part := path[lo..hi];
    forall i, j | 0 <= i < j < |part| && j == i + 1 ensures part[j] in Needs(f, part[i]) {
      assert path[lo + j] in Needs(f, path[lo + i]);
    }
  }

  /** Along a path of needs an order only goes backwards. */
  lemma {:induction false} PathGoesBack(f: File, order: seq<Name>, path: seq<Name>, i: nat) returns (j: nat)
    requires Respects(f, order) && Path(f, path) && path != [] && i < |order| && order[i] == path[0]
    ensures j < |order| && order[j] == path[|path| - 1] && (|path| >= 2 ==> j < i) && j <= i
    decreases |path|
  {
    if |path| == 1 {
      j := i;
    } else {
      assert path[1] in Needs(f, path[0]);
      var k := NeedComesFirst(f, order, i, path[1]);
      SubPath(f, path, 1, |path|);
      j := PathGoesBack(f, order, path[1..|path|], k);
    }
  }

  lemma StartableIsAcyclic(f: File, order: seq<Name>)
    requires Valid(f) && Startable(f, order)
    ensures Acyclic(f)
  {
    DistinctOf(f, order);
    forall path ensures !Cycle(f, path) {
      if Cycle(f, path) {
        assert path[0] in f.names;
        assert path[0] in multiset(order);
        var i :| 0 <= i < |order| && order[i] == path[0];
        var j := PathGoesBack(f, order, path, i);
        assert false;
      }
    }
  }

  /** Every member needs another member. */
  ghost predicate Stuck(f: File, rest: set<Name>) {
    rest <= f.deps.Keys && forall n {:trigger Needs(f, n)} | n in rest :: exists d :: d in Needs(f, n) && d in rest
  }

  /** From a stuck set there are paths of any length inside it. */
  lemma {:induction false} LongPath(f: File, rest: set<Name>, start: Name, k: nat) returns (path: seq<Name>)
    requires Stuck(f, rest) && start in rest
    ensures |path| == k + 1 && Path(f, path) && forall i | 0 <= i < |path| :: path[i] in rest
  {
    if k == 0 {
      path := [start];
    } else {
      var before := LongPath(f, rest, start, k - 1);
      var d :| d in Needs(f, before[k - 1]) && d in rest;
      path := before + [d];
    }
  }

  lemma {:induction false} ElementsSize(s: seq<Name>)
    requires Distinct(s)
    ensures |Elements(s)| == |s|
  {
    if s != [] {
      var front := s[..|s| - 1];
      ElementsSize(front);
      assert Elements(s) == Elements(front) + {s[|s| - 1]};
      assert s[|s| - 1] !in front;
    }
  }

  /** A stuck set holds a cycle. */
  lemma StuckHasCycle(f: File, rest: set<Name>, start: Name)
    requires Stuck(f, rest) && start in rest
    ensures !Acyclic(f)
  {
    var path := LongPath(f, rest, start, |rest|);
    if Distinct(path) {
      ElementsSize(path);
      Sums.SubsetSize(Elements(path), rest);
      assert false;
    }
    var i, j :| 0 <= i < j < |path| && path[i] == path[j];
    var loop := path[i..j + 1];
    SubPath(f, path, i, j + 1);
    assert Cycle(f, loop);
  }
}
