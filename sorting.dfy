/** The result rows of the grouping engines and the way they are ordered.
    `Array.prototype.sort` is stable, so with a consistent comparator its
    result is fixed by three facts: it is a permutation of the input, it is
    sorted, and elements the comparator calls equal keep their input order.
    The model sorts with a stable insertion sort, in place on an array, and
    proves those three facts about the sequence it produces. */
module Sorting {

  /** One row of a result table: `{ categoria, valor }` or `{ periodo, valor }`. */
  datatype Entry = Entry(name: string, value: real)

  /** The two comparators the engines use: `(a, b) => b.valor - a.valor`, and
      `(a, b) => a.periodo.localeCompare(b.periodo)` taken as plain
      code-unit order. */
  datatype Order = ByValueDesc | ByLabelAsc

  /** `a` comes strictly before `b` in code-unit order. */
  predicate LexLess(a: string, b: string)
  {
    if a == [] then b != []
    else if b == [] then false
    else if a[0] != b[0] then a[0] < b[0]
    else LexLess(a[1..], b[1..])
  }

  /** The comparator puts x strictly before y. */
  predicate Before(o: Order, x: Entry, y: Entry)
  {
    match o
    case ByValueDesc => x.value > y.value
    case ByLabelAsc => LexLess(x.name, y.name)
  }

  /** The comparator calls x and y equal. */
  predicate Tied(o: Order, x: Entry, y: Entry)
  {
    !Before(o, x, y) && !Before(o, y, x)
  }

  lemma {:induction false} LexIrreflexive(a: string)
    ensures !LexLess(a, a)
  {
    if a != [] {
      LexIrreflexive(a[1..]);
    }
  }

  lemma {:induction false} LexTransitive(a: string, b: string, c: string)
    requires LexLess(a, b) && LexLess(b, c)
    ensures LexLess(a, c)
  {
    if a != [] && b != [] && c != [] && a[0] == b[0] && b[0] == c[0] {
      LexTransitive(a[1..], b[1..], c[1..]);
    }
  }

  lemma {:induction false} LexTotal(a: string, b: string)
    ensures a == b || LexLess(a, b) || LexLess(b, a)
  {
    if a != [] && b != [] && a[0] == b[0] {
      LexTotal(a[1..], b[1..]);
      if a[1..] == b[1..] {
        assert a == [a[0]] + a[1..] && b == [b[0]] + b[1..];
      }
    }
  }

  /** Code-unit order is a strict total order. */
  lemma LexStrictTotal(a: string, b: string)
    ensures !(LexLess(a, b) && LexLess(b, a))
    ensures a != b <==> LexLess(a, b) || LexLess(b, a)
  {
    LexIrreflexive(a);
    LexTotal(a, b);
    if LexLess(a, b) && LexLess(b, a) {
      LexTransitive(a, b, a);
    }
  }

  /** Both comparators are strict weak orders: "not before" is transitive
      and "tied" is an equivalence. */
  lemma NotBeforeTransitive(o: Order, x: Entry, y: Entry, z: Entry)
    requires !Before(o, x, y) && !Before(o, y, z)
    ensures !Before(o, x, z)
  {
    if o == ByLabelAsc {
      LexStrictTotal(x.name, y.name);
      LexStrictTotal(y.name, z.name);
      LexStrictTotal(x.name, z.name);
      if LexLess(z.name, y.name) && LexLess(y.name, x.name) {
        LexTransitive(z.name, y.name, x.name);
      }
    }
  }

  lemma BeforeAsymmetric(o: Order, x: Entry, y: Entry)
    ensures !(Before(o, x, y) && Before(o, y, x))
  {
    if o == ByLabelAsc {
      LexStrictTotal(x.name, y.name);
    }
  }

  lemma TiedTransitive(o: Order, x: Entry, y: Entry, z: Entry)
    requires Tied(o, x, y) && Tied(o, y, z)
    ensures Tied(o, x, z)
  {
    NotBeforeTransitive(o, x, y, z);
    NotBeforeTransitive(o, z, y, x);
  }

  /** One step of a stable insertion sort: x, taken from the right of the
      input, moves left past the elements it comes strictly before. */
  function Insert(o: Order, t: seq<Entry>, x: Entry): (r: seq<Entry>)
    ensures |r| == |t| + 1
  {
    if t == [] then [x]
    else if Before(o, x, t[|t| - 1]) then Insert(o, t[..|t| - 1], x) + [t[|t| - 1]]
    else t + [x]
  }

  /** The stably sorted form of s. */
  function SortBy(o: Order, s: seq<Entry>): (r: seq<Entry>)
    ensures |r| == |s|
  {
    if s == [] then [] else Insert(o, SortBy(o, s[..|s| - 1]), s[|s| - 1])
  }

  /** No element comes strictly before an earlier one. */
  predicate Sorted(o: Order, t: seq<Entry>)
  {
    forall i, j :: 0 <= i < j < |t| ==> !Before(o, t[j], t[i])
  }

  /** The elements of s the comparator ties with e, in their order in s. */
  function Ties(o: Order, s: seq<Entry>, e: Entry): (r: seq<Entry>)
    ensures forall i :: 0 <= i < |r| ==> Tied(o, r[i], e)
  {
    if s == [] then []
    else Ties(o, s[..|s| - 1], e) + (if Tied(o, s[|s| - 1], e) then [s[|s| - 1]] else [])
  }

  /** The sum of the values. */
  function Total(s: seq<Entry>): real
  {
    if s == [] then 0.0 else Total(s[..|s| - 1]) + s[|s| - 1].value
  }

  /** The labels, in order. */
  function Labels(s: seq<Entry>): (r: seq<string>)
    ensures |r| == |s|
    ensures forall i :: 0 <= i < |s| ==> r[i] == s[i].name
  {
    if s == [] then [] else Labels(s[..|s| - 1]) + [s[|s| - 1].name]
  }

  lemma {:induction false} InsertPermutes(o: Order, t: seq<Entry>, x: Entry)
    ensures multiset(Insert(o, t, x)) == multiset(t) + multiset{x}
  {
    if t != [] && Before(o, x, t[|t| - 1]) {
      InsertPermutes(o, t[..|t| - 1], x);
      assert t == t[..|t| - 1] + [t[|t| - 1]];
    }
  }

  /** Sorting only reorders. */
  lemma {:induction false} SortPermutes(o: Order, s: seq<Entry>)
    ensures multiset(SortBy(o, s)) == multiset(s)
  {
    if s != [] {
      var init, x := s[..|s| - 1], s[|s| - 1];
      assert SortBy(o, s) == Insert(o, SortBy(o, init), x);
      SortPermutes(o, init);
      InsertPermutes(o, SortBy(o, init), x);
      MultisetSnoc(s);
    }
  }

  lemma MultisetSnoc(s: seq<Entry>)
    requires s != []
    ensures multiset(s) == multiset(s[..|s| - 1]) + multiset{s[|s| - 1]}
  {
    assert s == s[..|s| - 1] + [s[|s| - 1]];
  }

  lemma {:induction false} InsertSorted(o: Order, t: seq<Entry>, x: Entry)
    requires Sorted(o, t)
    ensures Sorted(o, Insert(o, t, x))
  {
    if t == [] {
    } else if Before(o, x, t[|t| - 1]) {
      var last := t[|t| - 1];
      var u := Insert(o, t[..|t| - 1], x);
      InsertSorted(o, t[..|t| - 1], x);
      InsertPermutes(o, t[..|t| - 1], x);
      BeforeAsymmetric(o, x, last);
      forall i | 0 <= i < |u|
        ensures !Before(o, last, u[i])
      {
        assert u[i] in multiset(u);
        if u[i] != x {
          assert u[i] in multiset(t[..|t| - 1]);
          var k :| 0 <= k < |t| - 1 && t[..|t| - 1][k] == u[i];
          assert t[k] == u[i];
        }
      }
    } else {
      var last := t[|t| - 1];
      forall i | 0 <= i < |t|
        ensures !Before(o, x, t[i])
      {
        if i < |t| - 1 {
          NotBeforeTransitive(o, x, last, t[i]);
        }
      }
    }
  }

  /** The sorted form is sorted. */
  lemma {:induction false} SortSorted(o: Order, s: seq<Entry>)
    ensures Sorted(o, SortBy(o, s))
  {
    if s != [] {
      SortSorted(o, s[..|s| - 1]);
      InsertSorted(o, SortBy(o, s[..|s| - 1]), s[|s| - 1]);
    }
  }

  lemma {:induction false} TiesAppend(o: Order, a: seq<Entry>, b: seq<Entry>, e: Entry)
    ensures Ties(o, a + b, e) == Ties(o, a, e) + Ties(o, b, e)
  {
    if b == [] {
      assert a + b == a;
    } else {
      var init, y := b[..|b| - 1], b[|b| - 1];
      var ty := if Tied(o, y, e) then [y] else [];
      TiesAppend(o, a, init, e);
      assert (a + b)[..|a + b| - 1] == a + init && (a + b)[|a + b| - 1] == y;
      assert Ties(o, a + b, e) == Ties(o, a + init, e) + ty;
      assert Ties(o, b, e) == Ties(o, init, e) + ty;
    }
  }

  lemma TiesOne(o: Order, x: Entry, e: Entry)
    ensures Ties(o, [x], e) == if Tied(o, x, e) then [x] else []
  {
    assert [x][..0] == [];
  }

  lemma {:induction false} InsertStable(o: Order, t: seq<Entry>, x: Entry, e: Entry)
    ensures Ties(o, Insert(o, t, x), e) == Ties(o, t, e) + Ties(o, [x], e)
  {
    if t == [] {
      assert Insert(o, t, x) == [x];
      assert Ties(o, t, e) == [];
    } else if Before(o, x, t[|t| - 1]) {
      var init := t[..|t| - 1];
      var last := t[|t| - 1];
      assert Insert(o, t, x) == Insert(o, init, x) + [last];
      assert init + [last] == t;
      InsertStable(o, init, x, e);
      MovePastStable(o, Insert(o, init, x), init, last, x, e);
    } else {
      assert Insert(o, t, x) == t + [x];
      TiesAppend(o, t, [x], e);
    }
  }

  /** x moving past an element it comes strictly before does not reorder
      any tied pair: the two are not tied with each other. */
  lemma MovePastStable(o: Order, u: seq<Entry>, init: seq<Entry>, last: Entry, x: Entry, e: Entry)
    requires Before(o, x, last)
    requires Ties(o, u, e) == Ties(o, init, e) + Ties(o, [x], e)
    ensures Ties(o, u + [last], e) == Ties(o, init + [last], e) + Ties(o, [x], e)
  {
    TiesAppend(o, u, [last], e);
    TiesAppend(o, init, [last], e);
    NotBothTied(o, x, last, e);
    var a, tx, tl := Ties(o, init, e), Ties(o, [x], e), Ties(o, [last], e);
    assert tx == [] || tl == [];
    assert a + tx + tl == a + tl + tx;
  }

  /** Elements one of which comes strictly before the other are not both
      tied with a third, so at most one of them is kept by Ties. */
  lemma NotBothTied(o: Order, x: Entry, y: Entry, e: Entry)
    requires Before(o, x, y)
    ensures Ties(o, [x], e) == [] || Ties(o, [y], e) == []
  {
    TiesOne(o, x, e);
    TiesOne(o, y, e);
    if Tied(o, x, e) && Tied(o, y, e) {
      TiedTransitive(o, x, e, y);
    }
  }

  /** Elements the comparator ties keep their input order. */
  lemma {:induction false} SortStable(o: Order, s: seq<Entry>, e: Entry)
    ensures Ties(o, SortBy(o, s), e) == Ties(o, s, e)
  {
    if s != [] {
      SortStable(o, s[..|s| - 1], e);
      InsertStable(o, SortBy(o, s[..|s| - 1]), s[|s| - 1], e);
      assert [s[|s| - 1]][..0] == [];
    }
  }

  lemma {:induction false} TotalAppend(a: seq<Entry>, b: seq<Entry>)
    ensures Total(a + b) == Total(a) + Total(b)
  {
    if b == [] {
      assert a + b == a;
    } else {
      TotalAppend(a, b[..|b| - 1]);
      assert (a + b)[..|a + b| - 1] == a + b[..|b| - 1];
    }
  }

  lemma {:induction false} InsertTotal(o: Order, t: seq<Entry>, x: Entry)
    ensures Total(Insert(o, t, x)) == Total(t) + x.value
  {
    if t != [] && Before(o, x, t[|t| - 1]) {
      InsertTotal(o, t[..|t| - 1], x);
      assert t == t[..|t| - 1] + [t[|t| - 1]];
      TotalAppend(t[..|t| - 1], [t[|t| - 1]]);
      assert [t[|t| - 1]][..0] == [];
    }
  }

  /** Sorting keeps the sum of the values. */
  lemma {:induction false} SortTotal(o: Order, s: seq<Entry>)
    ensures Total(SortBy(o, s)) == Total(s)
  {
    if s != [] {
      SortTotal(o, s[..|s| - 1]);
      InsertTotal(o, SortBy(o, s[..|s| - 1]), s[|s| - 1]);
    }
  }

  /** One pass of the insertion sort: a[i] moves left past the elements
      of the sorted prefix a[..i] it comes strictly before. */
  method InsertAt(a: array<Entry>, i: int, o: Order)
    requires 0 <= i < a.Length
    modifies a
    ensures a[..i + 1] == Insert(o, old(a[..i]), old(a[i]))
    ensures a[i + 1..] == old(a[i + 1..])
  {
    ghost var t := a[..i];
    var x := a[i];
    var j := ShiftRight(a, i, o, x, t);
    a[j] := x;
    StopStep(o, t, x, j);
    Assemble(a[..], t, x, j);
    assert a[..i + 1] == a[..][..|t| + 1];
  }

  /** The elements of the sorted prefix t = a[..i] that x comes strictly
      before move one place right; j is the hole they leave. */
  method ShiftRight(a: array<Entry>, i: int, o: Order, x: Entry, ghost t: seq<Entry>) returns (j: int)
    requires 0 <= i < a.Length && t == a[..i]
    modifies a
    ensures 0 <= j <= i
    ensures forall k :: 0 <= k < j ==> a[k] == t[k]
    ensures forall k :: j < k <= i ==> a[k] == t[k - 1]
    ensures forall k :: i < k < a.Length ==> a[k] == old(a[k])
    ensures j == 0 || !Before(o, x, t[j - 1])
    ensures Insert(o, t, x) == Insert(o, t[..j], x) + t[j..]
  {
    j := i;
    assert t[..j] == t;
    assert t[j..] == [];
    while j > 0 && Before(o, x, a[j - 1])
      invariant 0 <= j <= i
      invariant forall k :: 0 <= k < j ==> a[k] == t[k]
      invariant forall k :: j < k <= i ==> a[k] == t[k - 1]
      invariant forall k :: i < k < a.Length ==> a[k] == old(a[k])
      invariant Insert(o, t, x) == Insert(o, t[..j], x) + t[j..]
    {
      ShiftStep(o, t, x, j);
      a[j] := a[j - 1];
      j := j - 1;
    }
  }

  /** The array after the pass, read pointwise, is t with x put at j. */
  lemma Assemble(s: seq<Entry>, t: seq<Entry>, x: Entry, j: int)
    requires 0 <= j <= |t| < |s| && s[j] == x
    requires forall k :: 0 <= k < j ==> s[k] == t[k]
    requires forall k :: j < k <= |t| ==> s[k] == t[k - 1]
    ensures s[..|t| + 1] == t[..j] + [x] + t[j..]
  {
  }

  /** The element at j - 1 comes after x, so x moves past it. */
  lemma ShiftStep(o: Order, t: seq<Entry>, x: Entry, j: int)
    requires 0 < j <= |t| && Before(o, x, t[j - 1])
    requires Insert(o, t, x) == Insert(o, t[..j], x) + t[j..]
    ensures Insert(o, t, x) == Insert(o, t[..j - 1], x) + t[j - 1..]
  {
    assert t[..j][..j - 1] == t[..j - 1];
    assert t[j - 1..] == [t[j - 1]] + t[j..];
  }

  /** x stops at j: at the front, or after an element it does not come before. */
  lemma StopStep(o: Order, t: seq<Entry>, x: Entry, j: int)
    requires 0 <= j <= |t| && (j == 0 || !Before(o, x, t[j - 1]))
    requires Insert(o, t, x) == Insert(o, t[..j], x) + t[j..]
    ensures Insert(o, t, x) == t[..j] + [x] + t[j..]
  {
    if j > 0 {
      assert t[..j][..j - 1] == t[..j - 1];
    }
  }

  /** Sorting one more element inserts it into the sorted prefix. */
  lemma SortByStep(o: Order, s: seq<Entry>, i: int)
    requires 0 <= i < |s|
    ensures SortBy(o, s[..i + 1]) == Insert(o, SortBy(o, s[..i]), s[i])
  {
    assert s[..i + 1][..i] == s[..i];
  }

  /** `rows.sort(cmp)`, as an insertion sort in place. */
  method SortInPlace(a: array<Entry>, o: Order)
    modifies a
    ensures a[..] == SortBy(o, old(a[..]))
  {
    ghost var s := a[..];
    var i := 0;
    while i < a.Length
      invariant 0 <= i <= a.Length
      invariant a[..i] == SortBy(o, s[..i])
      invariant a[i..] == s[i..]
    {
      SortByStep(o, s, i);
      assert a[i] == s[i] && a[i + 1..] == s[i + 1..] by {
        assert a[i..][0] == a[i] && a[i..][1..] == a[i + 1..];
        assert s[i..][0] == s[i] && s[i..][1..] == s[i + 1..];
      }
      InsertAt(a, i, o);
      i := i + 1;
    }
    assert a[..] == a[..a.Length];
    assert s == s[..a.Length];
  }
}
