/**
  Vocabulary shared by every part of the model.

  Money, prices and quantities are exact reals: the kernel computes them at 128
  or more significant digits, wide enough for every product and sum modelled here.
  Symbols, dates and instants are used by the kernel only through equality and
  order, so they are integers. An identity that the kernel hashes is modelled by
  the tuple of fields it hashes.
 */
module Common {

  datatype Option<+T> = None | Some(value: T)

  datatype Result<+T, +E> = Ok(value: T) | Err(error: E)

  datatype Market = CN | US

  datatype Side = Buy | Hold | Reduce | Sell

  type Symbol = int
  type Date = int
  type Instant = int
  type Id = seq<int>

  const MAX_MAGNITUDE := 100000000000000000000000000.0
  const GRID := 1000000000000.0

  /** At most twelve decimal places and an absolute value below 1E26. */
  predicate Supported(x: real) {
    -MAX_MAGNITUDE < x < MAX_MAGNITUDE && OnGrid(x)
  }

  predicate OnGrid(x: real) {
    (x * GRID).Floor as real == x * GRID
  }

  /** `n` is as near to `x` as any integer, and even where two are equally near. */
  predicate NearestEven(x: real, n: int) {
    x - 0.5 <= n as real <= x + 0.5 && (n as real == x - 0.5 || n as real == x + 0.5 ==> n % 2 == 0)
  }

  /** Nearest integer, ties to the even neighbour. */
  function RoundHalfEven(x: real): (r: int)
    ensures NearestEven(x, r)
    ensures x == x.Floor as real ==> r as real == x
  {
    var f := x.Floor;
    var rest := x - f as real;
    if rest < 0.5 then f
    else if rest > 0.5 then f + 1
    else if f % 2 == 0 then f
    else f + 1
  }

  /** Round to the 1E-12 quantum, half to even. */
  function Quantize12(x: real): (r: real)
    ensures x >= 0.0 ==> r >= 0.0
    ensures OnGrid(r)
    ensures OnGrid(x) ==> r == x
    ensures NearestEven(x * GRID, (r * GRID).Floor)
  {
    var n := RoundHalfEven(x * GRID);
    assert (n as real / GRID) * GRID == n as real;
    assert (n as real).Floor == n;
    n as real / GRID
  }

  /** No two positions hold the same value. */
  predicate Distinct<T(==)>(s: seq<T>) {
    forall i, j :: 0 <= i < j < |s| ==> s[i] != s[j]
  }

  lemma {:induction false} DistinctConcat<T>(a: seq<T>, b: seq<T>)
    requires Distinct(a) && Distinct(b)
    requires forall x :: x in a ==> x !in b
    ensures Distinct(a + b)
  {
    forall i, j | 0 <= i < j < |a + b| ensures (a + b)[i] != (a + b)[j] {
      if i < |a| && |a| <= j {
        assert (a + b)[i] in a && (a + b)[j] in b;
      }
    }
  }

  lemma {:induction false} DistinctParts<T>(a: seq<T>, b: seq<T>)
    requires Distinct(a + b)
    ensures Distinct(a) && Distinct(b)
    ensures forall x :: x in a ==> x !in b
  {
    forall i, j | 0 <= i < j < |a| ensures a[i] != a[j] {
      assert (a + b)[i] != (a + b)[j];
    }
    forall i, j | 0 <= i < j < |b| ensures b[i] != b[j] {
      assert (a + b)[|a| + i] != (a + b)[|a| + j];
    }
    forall i, j | 0 <= i < |a| && 0 <= j < |b| ensures a[i] != b[j] {
      assert (a + b)[i] != (a + b)[|a| + j];
    }
  }

  ghost predicate StrictlyAscending(s: seq<int>) {
    forall i, j :: 0 <= i < j < |s| ==> s[i] < s[j]
  }

  /** The least member of a nonempty set of integers. */
  function Least(s: set<int>): (m: int)
    requires s != {}
    ensures m in s && forall x :: x in s ==> m <= x
  {
    LeastExists(s);
    var m :| m in s && forall x :: x in s ==> m <= x;
    m
  }

  lemma {:induction false} EmptyOrInhabited(s: set<int>)
    ensures s == {} || exists x :: x in s
  {
    if !exists x :: x in s {
      assert forall x :: x !in s;
      assert s == {};
    }
  }

  lemma {:induction false} LeastExists(s: set<int>)
    requires s != {}
    ensures exists m :: m in s && forall x :: x in s ==> m <= x
    decreases |s|
  {
    EmptyOrInhabited(s);
    var x :| x in s;
    var rest := s - {x};
    EmptyOrInhabited(rest);
    var least := x;
    if exists y :: y in rest {
      LeastExists(rest);
      var m :| m in rest && forall y :: y in rest ==> m <= y;
      least := if x < m then x else m;
    }
    forall y | y in s ensures least <= y {
      if y != x {
        assert y in rest;
      }
    }
    assert least in s;
  }

  lemma {:induction false} LeadIsLeast(s: set<int>, m: int, rest: seq<int>)
    requires m in s && (forall x :: x in s ==> m <= x) && StrictlyAscending(rest)
    requires forall x :: x in rest <==> x in s - {m}
    ensures StrictlyAscending([m] + rest)
    ensures forall x :: x in [m] + rest <==> x in s
  {
    forall j | 0 <= j < |rest| ensures m < rest[j] {
      assert rest[j] in rest;
    }
    assert forall x :: x in [m] + rest <==> x == m || x in rest;
  }

  /** The members of a set in ascending order. */
  function Sorted(s: set<int>): (r: seq<int>)
    ensures |r| == |s|
    ensures forall x :: x in r <==> x in s
    ensures StrictlyAscending(r)
  {
    if s == {} then []
    else
      var m := Least(s);
      var rest := Sorted(s - {m});
      LeadIsLeast(s, m, rest);
      [m] + rest
  }

  /** An ascending sequence is determined by its members. */
  lemma {:induction false} SortedIsUnique(s: set<int>, r: seq<int>)
    requires StrictlyAscending(r)
    requires forall x :: x in r <==> x in s
    ensures r == Sorted(s)
    decreases |r|
  {
    if r == [] {
      EmptyOrInhabited(s);
    } else {
      FirstIsLeast(s, r);
      var m := Least(s);
      forall x ensures x in r[1..] <==> x in s - {m} {
        TailMembers(r, x);
      }
      SortedIsUnique(s - {m}, r[1..]);
      assert r == [r[0]] + r[1..];
    }
  }

  lemma {:induction false} FirstIsLeast(s: set<int>, r: seq<int>)
    requires StrictlyAscending(r) && r != []
    requires forall x :: x in r <==> x in s
    ensures s != {} && r[0] == Least(s)
  {
    var first := r[0];
    assert first in r && first in s;
    var m := Least(s);
    assert m in r;
    var k :| 0 <= k < |r| && r[k] == m;
  }

  lemma {:induction false} TailMembers(r: seq<int>, x: int)
    requires StrictlyAscending(r) && r != []
    ensures x in r[1..] <==> x in r && x != r[0]
  {
    if x in r[1..] {
      var k :| 0 <= k < |r[1..]| && r[1..][k] == x;
      assert r[k + 1] == x;
    }
    if x in r && x != r[0] {
      var k :| 0 <= k < |r| && r[k] == x;
      assert r[1..][k - 1] == x;
    }
  }
}
