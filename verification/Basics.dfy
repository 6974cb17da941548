/** Shared vocabulary: optional values, outcomes, string order, sorting and sums over finite sets. */
module Basics {

  datatype Option<+T> = None | Some(value: T)

  datatype Result<+T, +E> = Ok(value: T) | Err(error: E)

  // ---------------------------------------------------------------------------
  // Python's `<` on str: lexicographic by code point.

  predicate Less(a: string, b: string) {
    |b| > 0 && (|a| == 0 || a[0] < b[0] || (a[0] == b[0] && Less(a[1..], b[1..])))
  }

  lemma {:induction false} LessTrichotomy(a: string, b: string)
    ensures Less(a, b) || a == b || Less(b, a)
    ensures !(Less(a, b) && Less(b, a))
    ensures Less(a, b) ==> a != b
  {
    if |a| > 0 && |b| > 0 && a[0] == b[0] {
      LessTrichotomy(a[1..], b[1..]);
      assert a == [a[0]] + a[1..] && b == [b[0]] + b[1..];
    }
  }

  lemma {:induction false} LessTransitive(a: string, b: string, c: string)
    requires Less(a, b) && Less(b, c)
    ensures Less(a, c)
  {
    if |a| > 0 && a[0] == b[0] && b[0] == c[0] {
      LessTransitive(a[1..], b[1..], c[1..]);
    }
  }

  /** `less` strictly orders the values in `dom`: what makes a sort's outcome unique. */
  ghost predicate StrictTotalOn<T(!new)>(less: (T, T) -> bool, dom: set<T>) {
    && (forall x, y | x in dom && y in dom :: less(x, y) || x == y || less(y, x))
    && (forall x, y | x in dom && y in dom :: !(less(x, y) && less(y, x)))
    && (forall x, y, z | x in dom && y in dom && z in dom && less(x, y) && less(y, z) :: less(x, z))
  }

  // ---------------------------------------------------------------------------
  // Python's `sorted(xs, key=...)`, for a key order given as `less`.

  function Insert<T>(less: (T, T) -> bool, x: T, s: seq<T>): (r: seq<T>)
    ensures multiset(r) == multiset{x} + multiset(s)
  {
    if s == [] then [x]
    else if less(x, s[0]) then [x] + s
    else
      assert s == [s[0]] + s[1..];
      [s[0]] + Insert(less, x, s[1..])
  }

  function SortBy<T>(less: (T, T) -> bool, s: seq<T>): (r: seq<T>)
    ensures multiset(r) == multiset(s)
  {
    if s == [] then []
    else
      assert s == [s[0]] + s[1..];
      Insert(less, s[0], SortBy(less, s[1..]))
  }

  ghost predicate Ascending<T>(less: (T, T) -> bool, s: seq<T>) {
    forall i, j | 0 <= i < j < |s| :: less(s[i], s[j])
  }

  function Elems<T>(s: seq<T>): set<T> { set x | x in s }

  lemma ElemsAppend<T>(s: seq<T>, x: T)
    ensures Elems(s + [x]) == Elems(s) + {x}
  {}

  ghost predicate NoDup<T>(s: seq<T>) {
    forall i, j | 0 <= i < j < |s| :: s[i] != s[j]
  }

  lemma SameElems<T>(s: seq<T>, t: seq<T>)
    requires multiset(s) == multiset(t)
    ensures Elems(s) == Elems(t) && |s| == |t|
  {
    assert |multiset(s)| == |s| && |multiset(t)| == |t|;
    forall x ensures x in s <==> x in t { assert x in s <==> x in multiset(s); assert x in t <==> x in multiset(t); }
  }

  lemma {:induction false} InsertAscending<T(!new)>(less: (T, T) -> bool, x: T, s: seq<T>)
    requires Ascending(less, s) && x !in s
    requires StrictTotalOn(less, Elems(s) + {x})
    ensures Ascending(less, Insert(less, x, s))
  {
    if s == [] {
    } else if less(x, s[0]) {
      assert forall k | 0 <= k < |s| :: s[k] in Elems(s);
      assert forall k | 1 <= k < |s| :: less(s[0], s[k]);
    } else {
      var rest := s[1..];
      assert Elems(rest) <= Elems(s);
      InsertAscending(less, x, rest);
      var r := Insert(less, x, rest);
      SameElems(r, [x] + rest);
      forall k | 0 <= k < |r| ensures less(s[0], r[k]) {
        assert r[k] in Elems([x] + rest);
        if r[k] == x { assert s[0] in Elems(s); } else {
          var j :| 0 <= j < |rest| && rest[j] == r[k];
          assert s[j + 1] == r[k];
        }
      }
    }
  }

  lemma {:induction false} SortByAscending<T(!new)>(less: (T, T) -> bool, s: seq<T>)
    requires NoDup(s) && StrictTotalOn(less, Elems(s))
    ensures Ascending(less, SortBy(less, s))
    ensures Elems(SortBy(less, s)) == Elems(s) && |SortBy(less, s)| == |s|
  {
    if s != [] {
      var rest := s[1..];
      assert Elems(rest) <= Elems(s);
      SortByAscending(less, rest);
      SameElems(SortBy(less, rest), rest);
      assert s[0] !in rest;
      assert Elems(SortBy(less, rest)) + {s[0]} == Elems(s);
      InsertAscending(less, s[0], SortBy(less, rest));
    }
    SameElems(SortBy(less, s), s);
  }

  lemma ElemsNonEmpty<T>(s: seq<T>)
    ensures s != [] <==> Elems(s) != {}
  {
    if s != [] { assert s[0] in Elems(s); }
  }

  lemma AscendingHeadFirst<T(!new)>(less: (T, T) -> bool, s: seq<T>, t: seq<T>)
    requires Ascending(less, s) && Ascending(less, t)
    requires Elems(s) == Elems(t) && StrictTotalOn(less, Elems(s))
    requires s != []
    ensures t != [] && s[0] == t[0]
  {
    assert s[0] in Elems(s);
    assert s[0] in t;
    var j :| 0 <= j < |t| && t[j] == s[0];
    assert t[0] in Elems(t);
    assert t[0] in s;
    var i :| 0 <= i < |s| && s[i] == t[0];
  }

  lemma TailElems<T(!new)>(less: (T, T) -> bool, s: seq<T>)
    requires s != [] && Ascending(less, s) && StrictTotalOn(less, Elems(s))
    ensures Elems(s[1..]) == Elems(s) - {s[0]}
  {
    assert s == [s[0]] + s[1..];
    assert forall j | 1 <= j < |s| :: less(s[0], s[j]);
    assert s[0] in Elems(s);
    assert s[0] !in s[1..];
  }

  /** Two ascending sequences over the same values are the same sequence. */
  lemma {:induction false} AscendingUnique<T(!new)>(less: (T, T) -> bool, s: seq<T>, t: seq<T>)
    requires Ascending(less, s) && Ascending(less, t)
    requires Elems(s) == Elems(t) && StrictTotalOn(less, Elems(s))
    ensures s == t
  {
    if s == [] {
      ElemsNonEmpty(t);
    } else {
      AscendingHeadFirst(less, s, t);
      TailElems(less, s);
      TailElems(less, t);
      AscendingUnique(less, s[1..], t[1..]);
      assert s == [s[0]] + s[1..] && t == [t[0]] + t[1..];
    }
  }

  // ---------------------------------------------------------------------------
  // Sums over finite sets.

  ghost function Sum<T(!new)>(s: set<T>, f: T -> int): int {
    if s == {} then 0 else var x :| x in s; f(x) + Sum(s - {x}, f)
  }

  lemma {:induction false} SumTake<T(!new)>(s: set<T>, f: T -> int, x: T)
    requires x in s
    ensures Sum(s, f) == f(x) + Sum(s - {x}, f)
    decreases |s|
  {
    var y :| y in s && Sum(s, f) == f(y) + Sum(s - {y}, f);
    if y != x {
      SumTake(s - {y}, f, x);
      SumTake(s - {x}, f, y);
      assert s - {y} - {x} == s - {x} - {y};
    }
  }

  lemma SumAdd<T(!new)>(s: set<T>, f: T -> int, x: T)
    requires x !in s
    ensures Sum(s + {x}, f) == Sum(s, f) + f(x)
  {
    SumTake(s + {x}, f, x);
    assert s + {x} - {x} == s;
  }

  lemma {:induction false} SumSame<T(!new)>(s: set<T>, f: T -> int, g: T -> int)
    requires forall x | x in s :: f(x) == g(x)
    ensures Sum(s, f) == Sum(s, g)
    decreases |s|
  {
    if s != {} {
      var x :| x in s;
      SumTake(s, f, x);
      SumTake(s, g, x);
      SumSame(s - {x}, f, g);
    }
  }

  lemma {:induction false} SumShift<T(!new)>(s: set<T>, f: T -> int, c: int, g: T -> int)
    requires forall x | x in s :: f(x) == c + g(x)
    ensures Sum(s, f) == c * |s| + Sum(s, g)
    decreases |s|
  {
    if s != {} {
      var x :| x in s;
      SumTake(s, f, x);
      SumTake(s, g, x);
      SumShift(s - {x}, f, c, g);
    }
  }

  lemma {:induction false} SumZero<T(!new)>(s: set<T>, f: T -> int)
    requires forall x | x in s :: f(x) == 0
    ensures Sum(s, f) == 0
    decreases |s|
  {
    if s != {} {
      var x :| x in s;
      SumTake(s, f, x);
      SumZero(s - {x}, f);
    }
  }

  lemma SumConst<T(!new)>(s: set<T>, f: T -> int, c: int)
    requires forall x | x in s :: f(x) == c
    ensures Sum(s, f) == c * |s|
  {
    SumShift(s, f, c, (x: T) => 0);
    SumZero(s, (x: T) => 0);
  }

  lemma {:induction false} SumSplit<T(!new)>(a: set<T>, b: set<T>, f: T -> int)
    requires a !! b
    ensures Sum(a + b, f) == Sum(a, f) + Sum(b, f)
    decreases |a|
  {
    if a == {} {
      assert a + b == b;
    } else {
      var x :| x in a;
      SumTake(a, f, x);
      SumTake(a + b, f, x);
      assert a + b - {x} == (a - {x}) + b;
      SumSplit(a - {x}, b, f);
    }
  }

  ghost function Fiber<T(!new), K(!new)>(s: set<T>, key: T -> K, k: K): set<T> {
    set x | x in s && key(x) == k
  }

  /** Summing per key and then over keys gives the whole sum. */
  lemma {:induction false} SumByKey<T(!new), K(!new)>(s: set<T>, keys: set<K>, key: T -> K, f: T -> int)
    requires forall x | x in s :: key(x) in keys
    ensures Sum(s, f) == Sum(keys, (k: K) => Sum(Fiber(s, key, k), f))
    decreases |keys|
  {
    if keys == {} {
      assert s == {};
    } else {
      var k :| k in keys;
      var g := (k: K) => Sum(Fiber(s, key, k), f);
      var at := Fiber(s, key, k);
      var rest := s - at;
      SumTake(keys, g, k);
      SumSplit(at, rest, f);
      assert at + rest == s;
      SumByKey(rest, keys - {k}, key, f);
      forall k' | k' in keys - {k}
        ensures g(k') == Sum(Fiber(rest, key, k'), f)
      {
        assert Fiber(s, key, k') == Fiber(rest, key, k');
      }
      SumSame(keys - {k}, g, (k: K) => Sum(Fiber(rest, key, k), f));
    }
  }

  ghost function Image<T(!new), K(!new)>(s: set<T>, key: T -> K): set<K> { set x | x in s :: key(x) }

  lemma {:induction false} ImageSize<T(!new), K(!new)>(s: set<T>, key: T -> K)
    requires forall x, y | x in s && y in s && key(x) == key(y) :: x == y
    ensures |Image(s, key)| == |s|
    decreases |s|
  {
    if s != {} {
      var x :| x in s;
      ImageSize(s - {x}, key);
      assert Image(s, key) == Image(s - {x}, key) + {key(x)};
      assert key(x) !in Image(s - {x}, key);
    }
  }

  /** Some enumeration of a finite set. */
  ghost function Enumerate<T(!new)>(s: set<T>): (r: seq<T>)
    ensures Elems(r) == s && NoDup(r)
  {
    if s == {} then []
    else
      var x :| x in s;
      var rest := Enumerate(s - {x});
      assert x !in Elems(rest);
      assert Elems([x] + rest) == {x} + Elems(rest);
      [x] + rest
  }
}
