/**
 * The array operations the chat code uses: `filter`, `map`, and
 * `Array.from(new Set(xs))`, which drops repeated elements keeping the first occurrence.
 */
module JsArray {

  /** `s.filter(keep)`. */
  function Filter<T>(s: seq<T>, keep: T -> bool): (r: seq<T>)
    ensures |r| <= |s|
    ensures forall i :: 0 <= i < |r| ==> keep(r[i])
  {
    if s == [] then []
    else if keep(s[0]) then [s[0]] + Filter(s[1..], keep)
    else Filter(s[1..], keep)
  }

  /** `s.map(f)`: one result per element, position by position. */
  function Map<A, B>(s: seq<A>, f: A -> B): (r: seq<B>)
    ensures |r| == |s|
    ensures forall i :: 0 <= i < |s| ==> r[i] == f(s[i])
  {
    if s == [] then [] else [f(s[0])] + Map(s[1..], f)
  }

  /** Dropping the last element of `a + b`, for a non-empty `b`, drops the last of `b`. */
  lemma DropLastAppend<T>(a: seq<T>, b: seq<T>)
    requires b != []
    ensures (a + b)[..|a + b| - 1] == a + b[..|b| - 1] && (a + b)[|a + b| - 1] == b[|b| - 1]
  {
  }

  lemma SnocAssoc<T>(a: seq<T>, b: seq<T>, y: T)
    ensures (a + b) + [y] == a + (b + [y])
  {
  }

  /** The predicate `x => !present.includes(x)`. */
  function Absent<T(==)>(present: seq<T>): T -> bool {
    x => x !in present
  }

  /** Mapping distributes over concatenation. */
  lemma {:induction false} MapAppend<A, B>(a: seq<A>, b: seq<A>, f: A -> B)
    ensures Map(a + b, f) == Map(a, f) + Map(b, f)
  {
  }

  /** Everything `filter` returns comes from its input. */
  lemma {:induction false} FilterFrom<T>(s: seq<T>, keep: T -> bool)
    ensures forall i :: 0 <= i < |Filter(s, keep)| ==> Filter(s, keep)[i] in s
  {
    if s != [] {
      FilterFrom(s[1..], keep);
    }
  }

  /** Each kept element sits at some position of the input. */
  lemma {:induction false} FilterPosition<T>(s: seq<T>, keep: T -> bool, i: int) returns (p: int)
    requires 0 <= i < |Filter(s, keep)|
    ensures 0 <= p < |s| && Filter(s, keep)[i] == s[p]
  {
    if keep(s[0]) && i == 0 {
      p := 0;
    } else {
      var p' := FilterPosition(s[1..], keep, if keep(s[0]) then i - 1 else i);
      p := p' + 1;
    }
  }

  /** `filter` keeps the relative order of what it keeps. */
  lemma {:induction false} FilterSubsequence<T>(s: seq<T>, keep: T -> bool, i: int, j: int) returns (p: int, q: int)
    requires 0 <= i < j < |Filter(s, keep)|
    ensures 0 <= p < q < |s| && Filter(s, keep)[i] == s[p] && Filter(s, keep)[j] == s[q]
  {
    if keep(s[0]) && i == 0 {
      var q' := FilterPosition(s[1..], keep, j - 1);
      p, q := 0, q' + 1;
    } else {
      var shift := if keep(s[0]) then 1 else 0;
      var p', q' := FilterSubsequence(s[1..], keep, i - shift, j - shift);
      p, q := p' + 1, q' + 1;
    }
  }

  /** Filtering distributes over concatenation. */
  lemma {:induction false} FilterAppend<T>(a: seq<T>, b: seq<T>, keep: T -> bool)
    ensures Filter(a + b, keep) == Filter(a, keep) + Filter(b, keep)
  {
    if a == [] {
      assert a + b == b;
    } else {
      FilterAppend(a[1..], b, keep);
      assert (a + b)[0] == a[0] && (a + b)[1..] == a[1..] + b;
      if keep(a[0]) {
        assert Filter(a + b, keep) == [a[0]] + (Filter(a[1..], keep) + Filter(b, keep));
        ConsAppend(a[0], Filter(a[1..], keep), Filter(b, keep));
      }
    }
  }

  lemma ConsAppend<T>(x: T, u: seq<T>, v: seq<T>)
    ensures [x] + (u + v) == ([x] + u) + v
  {
  }

  predicate NoDuplicates<T(==)>(s: seq<T>) {
    forall i, j :: 0 <= i < j < |s| ==> s[i] != s[j]
  }

  /**
   * `Array.from(new Set(s))`: a Set is filled in iteration order and only adds an
   * element it does not hold yet, so each value is kept at its first occurrence.
   */
  function Distinct<T(==, !new)>(s: seq<T>): (r: seq<T>)
    ensures NoDuplicates(r)
    ensures forall x :: x in r <==> x in s
    ensures |r| <= |s|
  {
    if s == [] then []
    else
      var d := Distinct(s[..|s| - 1]);
      var x := s[|s| - 1];
      assert forall i :: 0 <= i < |s| - 1 ==> s[i] == s[..|s| - 1][i];
      if x in d then d else d + [x]
  }

  /** Position of the first occurrence of `x` in `s`. */
  function FirstIndex<T(==)>(s: seq<T>, x: T): (i: nat)
    requires x in s
    ensures i < |s| && s[i] == x
    ensures forall j :: 0 <= j < i ==> s[j] != x
  {
    if s[0] == x then 0 else 1 + FirstIndex(s[1..], x)
  }

  lemma {:induction false} FirstIndexAppend<T>(s: seq<T>, y: T, x: T)
    requires x in s
    ensures FirstIndex(s + [y], x) == FirstIndex(s, x)
  {
    if s[0] != x {
      assert (s + [y])[1..] == s[1..] + [y];
      FirstIndexAppend(s[1..], y, x);
    }
  }

  /** Appending one value adds it at the end unless it was already there. */
  lemma DistinctSnoc<T(!new)>(s: seq<T>, x: T)
    ensures Distinct(s + [x]) == if x in Distinct(s) then Distinct(s) else Distinct(s) + [x]
  {
    assert (s + [x])[..|s|] == s;
  }

  /** `Distinct` lists the values in the order of their first occurrence in `s`. */
  lemma {:induction false} DistinctFirstOccurrenceOrder<T(!new)>(s: seq<T>)
    ensures forall i, j :: 0 <= i < j < |Distinct(s)| ==>
      FirstIndex(s, Distinct(s)[i]) < FirstIndex(s, Distinct(s)[j])
  {
    if s != [] {
      var p, x := s[..|s| - 1], s[|s| - 1];
      assert s == p + [x];
      DistinctFirstOccurrenceOrder(p);
      var d := Distinct(p);
      forall y | y in p ensures FirstIndex(s, y) == FirstIndex(p, y) {
        FirstIndexAppend(p, x, y);
      }
      if x !in d {
        assert FirstIndex(s, x) == |p|;
      }
    }
  }

  /** A list without repeated values is left as it is. */
  lemma {:induction false} DistinctOfDistinct<T(!new)>(s: seq<T>)
    requires NoDuplicates(s)
    ensures Distinct(s) == s
  {
    if s != [] {
      var p := s[..|s| - 1];
      DistinctOfDistinct(p);
      assert s[|s| - 1] !in p;
      assert p + [s[|s| - 1]] == s;
    }
  }

  /**
   * Appending a batch to a list without repeated values and removing repeats keeps
   * the old list as it was and adds the batch's new values in first-occurrence order.
   */
  lemma {:induction false} DistinctAppend<T(!new)>(prev: seq<T>, batch: seq<T>)
    requires NoDuplicates(prev)
    ensures Distinct(prev + batch) == prev + Filter(Distinct(batch), Absent(prev))
    decreases |batch|
  {
    if batch == [] {
      assert prev + batch == prev;
      DistinctOfDistinct(prev);
    } else {
      var b, x := batch[..|batch| - 1], batch[|batch| - 1];
      assert batch == b + [x];
      assert prev + batch == (prev + b) + [x];
      DistinctSnoc(prev + b, x);
      DistinctSnoc(b, x);
      DistinctAppend(prev, b);
      AppendOneStep(prev, x, x in b, Distinct(prev + b), Distinct(b), Distinct(prev + batch), Distinct(batch));
    }
  }

  /**
   * The step of `DistinctAppend` for one more batch value `x`, with the deduplicated
   * lists before (`d`, `db`) and after (`r`, `rb`) it given as plain values.
   */
  lemma AppendOneStep<T>(prev: seq<T>, x: T, inBatch: bool, d: seq<T>, db: seq<T>, r: seq<T>, rb: seq<T>)
    requires d == prev + Filter(db, Absent(prev))
    requires (x in d) == (x in prev || inBatch) && (x in db) == inBatch
    requires r == (if x in d then d else d + [x]) && rb == (if x in db then db else db + [x])
    ensures r == prev + Filter(rb, Absent(prev))
  {
    FilterAppend(db, [x], Absent(prev));
    assert Filter([x], Absent(prev)) == if x in prev then [] else [x];
  }
}
