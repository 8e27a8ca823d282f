/** Order-preserving filters, counts and the subsequence relation used throughout the model. */
module Seqs {

  /** The elements of `s` that satisfy `p`, in their original order (a Python list comprehension with an `if`). */
  function Filter<T>(p: T -> bool, s: seq<T>): (r: seq<T>)
    ensures |r| <= |s|
  {
    if s == [] then [] else (if p(s[0]) then [s[0]] else []) + Filter(p, s[1..])
  }

  /** Everything the filter keeps comes from `s` and satisfies `p`. */
  lemma {:induction false} FilterMembers<T>(p: T -> bool, s: seq<T>)
    ensures forall x :: x in Filter(p, s) ==> x in s && p(x)
  {
    if s != [] {
      FilterMembers(p, s[1..]);
      assert Filter(p, s) == (if p(s[0]) then [s[0]] else []) + Filter(p, s[1..]);
    }
  }

  /** How many elements of `s` satisfy `p`. */
  function CountIf<T>(p: T -> bool, s: seq<T>): (n: nat)
    ensures n <= |s|
  {
    if s == [] then 0 else (if p(s[0]) then 1 else 0) + CountIf(p, s[1..])
  }

  /** `a` is obtained from `b` by deleting elements, order kept. */
  predicate IsSubsequence<T(==)>(a: seq<T>, b: seq<T>)
    decreases |b|
  {
    if a == [] then true
    else if b == [] then false
    else if a[0] == b[0] then IsSubsequence(a[1..], b[1..])
    else IsSubsequence(a, b[1..])
  }

  lemma {:induction false} FilterLength<T>(p: T -> bool, s: seq<T>)
    ensures |Filter(p, s)| == CountIf(p, s)
  {
    if s != [] {
      FilterLength(p, s[1..]);
    }
  }

  lemma {:induction false} FilterSplit<T>(p: T -> bool, s: seq<T>)
    ensures |Filter(p, s)| + |Filter(x => !p(x), s)| == |s|
  {
    if s != [] {
      FilterSplit(p, s[1..]);
    }
  }

  lemma {:induction false} FilterIsSubsequence<T>(p: T -> bool, s: seq<T>)
    ensures IsSubsequence(Filter(p, s), s)
  {
    if s != [] {
      FilterIsSubsequence(p, s[1..]);
      if p(s[0]) {
        assert Filter(p, s) == [s[0]] + Filter(p, s[1..]);
        assert Filter(p, s)[1..] == Filter(p, s[1..]);
      } else {
        assert Filter(p, s) == Filter(p, s[1..]);
        SubsequenceOfTail(Filter(p, s[1..]), s);
      }
    }
  }

  /** Anything that is a subsequence of the tail of `b` is a subsequence of `b`. */
  lemma {:induction false} SubsequenceOfTail<T>(a: seq<T>, b: seq<T>)
    requires b != [] && IsSubsequence(a, b[1..])
    ensures IsSubsequence(a, b)
    decreases |b|, |a|
  {
    if a != [] && a[0] == b[0] {
      SubsequenceDropHead(a, b[1..]);
    }
  }

  lemma {:induction false} SubsequenceDropHead<T>(a: seq<T>, b: seq<T>)
    requires a != [] && IsSubsequence(a, b)
    ensures IsSubsequence(a[1..], b)
    decreases |b|, |a|
  {
    if b != [] {
      if a[0] == b[0] {
        if a[1..] != [] {
          SubsequenceOfTail(a[1..], b);
        }
      } else {
        SubsequenceDropHead(a, b[1..]);
        if a[1..] != [] {
          SubsequenceOfTail(a[1..], b);
        }
      }
    }
  }

  lemma {:induction false} FilterAppend<T>(p: T -> bool, s: seq<T>, x: T)
    ensures Filter(p, s + [x]) == Filter(p, s) + (if p(x) then [x] else [])
  {
    if s == [] {
      assert s + [x] == [x];
    } else {
      var head := if p(s[0]) then [s[0]] else [];
      assert (s + [x])[0] == s[0] && (s + [x])[1..] == s[1..] + [x];
      FilterAppend(p, s[1..], x);
      assert Filter(p, s + [x]) == head + (Filter(p, s[1..]) + (if p(x) then [x] else []));
    }
  }

  lemma {:induction false} CountIfAppend<T>(p: T -> bool, s: seq<T>, x: T)
    ensures CountIf(p, s + [x]) == CountIf(p, s) + (if p(x) then 1 else 0)
  {
    if s == [] {
      assert s + [x] == [x];
    } else {
      assert (s + [x])[1..] == s[1..] + [x];
      CountIfAppend(p, s[1..], x);
    }
  }

  /** Replacing one element changes the count by what the old and the new element contribute. */
  lemma {:induction false} CountIfUpdate<T>(p: T -> bool, s: seq<T>, i: nat, x: T)
    requires i < |s|
    ensures CountIf(p, s[i := x]) == CountIf(p, s) - (if p(s[i]) then 1 else 0) + (if p(x) then 1 else 0)
  {
    if i > 0 {
      assert s[i := x][1..] == s[1..][i - 1 := x];
      CountIfUpdate(p, s[1..], i - 1, x);
    } else {
      assert s[i := x][1..] == s[1..];
    }
  }

  /** Filtering by `q` loses no element that satisfies `p` when `p` implies `q`. */
  lemma {:induction false} FilterKeepsCount<T>(p: T -> bool, q: T -> bool, s: seq<T>)
    requires forall x :: p(x) ==> q(x)
    ensures CountIf(p, Filter(q, s)) == CountIf(p, s)
  {
    if s != [] {
      FilterKeepsCount(p, q, s[1..]);
      var f := Filter(q, s);
      if q(s[0]) {
        assert f == [s[0]] + Filter(q, s[1..]);
        assert f[0] == s[0] && f[1..] == Filter(q, s[1..]);
      } else {
        assert f == Filter(q, s[1..]);
      }
    }
  }

  /** Filtering by `q` leaves no element that satisfies `p` when `p` excludes `q`. */
  lemma {:induction false} FilterDropsCount<T>(p: T -> bool, q: T -> bool, s: seq<T>)
    requires forall x :: p(x) ==> !q(x)
    ensures CountIf(p, Filter(q, s)) == 0
  {
    if s != [] {
      FilterDropsCount(p, q, s[1..]);
      var f := Filter(q, s);
      if q(s[0]) {
        assert f == [s[0]] + Filter(q, s[1..]);
        assert f[0] == s[0] && f[1..] == Filter(q, s[1..]);
      } else {
        assert f == Filter(q, s[1..]);
      }
    }
  }

  lemma {:induction false} CountIfNone<T>(p: T -> bool, s: seq<T>)
    requires forall i :: 0 <= i < |s| ==> !p(s[i])
    ensures CountIf(p, s) == 0
  {
    if s != [] {
      CountIfNone(p, s[1..]);
    }
  }

  lemma {:induction false} CountIfPositive<T>(p: T -> bool, s: seq<T>, i: nat)
    requires i < |s| && p(s[i])
    ensures CountIf(p, s) > 0
  {
    if i > 0 {
      CountIfPositive(p, s[1..], i - 1);
    }
  }

  /** No element satisfies `p` exactly when the count is zero. */
  lemma {:induction false} CountIfZero<T>(p: T -> bool, s: seq<T>)
    ensures CountIf(p, s) == 0 <==> forall i :: 0 <= i < |s| ==> !p(s[i])
  {
    if s != [] {
      CountIfZero(p, s[1..]);
      assert forall i :: 1 <= i < |s| ==> s[i] == s[1..][i - 1];
    }
  }

  /** The keys of the elements of `s`, `{key(x) for x in s}`. */
  function KeysOf<T, K(==)>(key: T -> K, s: seq<T>): (r: set<K>)
    ensures forall i :: 0 <= i < |s| ==> key(s[i]) in r
  {
    set i | 0 <= i < |s| :: key(s[i])
  }

  /**
   * The elements of `s` whose key was met neither in `seen` nor on an earlier
   * element: a loop that appends an element and adds its key to a seen-set.
   */
  function KeepFirst<T, K(==)>(key: T -> K, seen: set<K>, s: seq<T>): (r: seq<T>)
    ensures |r| <= |s|
    decreases |s|
  {
    if s == [] then []
    else if key(s[0]) in seen then KeepFirst(key, seen, s[1..])
    else [s[0]] + KeepFirst(key, seen + {key(s[0])}, s[1..])
  }

  lemma {:induction false} KeepFirstIsSubsequence<T, K>(key: T -> K, seen: set<K>, s: seq<T>)
    ensures IsSubsequence(KeepFirst(key, seen, s), s)
    decreases |s|
  {
    if s != [] {
      if key(s[0]) in seen {
        KeepFirstIsSubsequence(key, seen, s[1..]);
        if KeepFirst(key, seen, s) != [] {
          SubsequenceOfTail(KeepFirst(key, seen, s), s);
        }
      } else {
        var rest := KeepFirst(key, seen + {key(s[0])}, s[1..]);
        KeepFirstIsSubsequence(key, seen + {key(s[0])}, s[1..]);
        assert ([s[0]] + rest)[1..] == rest;
      }
    }
  }

  /** No kept element has a key met before it: none in `seen`, and no two kept ones share a key. */
  lemma {:induction false} KeepFirstDistinct<T, K>(key: T -> K, seen: set<K>, s: seq<T>)
    ensures forall i :: 0 <= i < |KeepFirst(key, seen, s)| ==> key(KeepFirst(key, seen, s)[i]) !in seen
    ensures forall i, j :: 0 <= i < j < |KeepFirst(key, seen, s)| ==>
      key(KeepFirst(key, seen, s)[i]) != key(KeepFirst(key, seen, s)[j])
    decreases |s|
  {
    if s != [] {
      if key(s[0]) in seen {
        KeepFirstDistinct(key, seen, s[1..]);
      } else {
        var d := key(s[0]);
        var rest := KeepFirst(key, seen + {d}, s[1..]);
        KeepFirstDistinct(key, seen + {d}, s[1..]);
        var r := [s[0]] + rest;
        assert forall i :: 1 <= i < |r| ==> r[i] == rest[i - 1];
      }
    }
  }

  /** Every key of `s` is in `seen` or is the key of a kept element. */
  lemma {:induction false} KeepFirstCovers<T, K>(key: T -> K, seen: set<K>, s: seq<T>)
    ensures forall i :: 0 <= i < |s| ==> key(s[i]) in seen + KeysOf(key, KeepFirst(key, seen, s))
    decreases |s|
  {
    if s != [] {
      var d := key(s[0]);
      if d in seen {
        KeepFirstCovers(key, seen, s[1..]);
        assert forall i :: 1 <= i < |s| ==> s[i] == s[1..][i - 1];
      } else {
        var rest := KeepFirst(key, seen + {d}, s[1..]);
        KeepFirstCovers(key, seen + {d}, s[1..]);
        var r := [s[0]] + rest;
        assert key(r[0]) == d;
        forall x | x in KeysOf(key, rest)
          ensures x in KeysOf(key, r)
        {
          var i :| 0 <= i < |rest| && key(rest[i]) == x;
          assert r[i + 1] == rest[i];
        }
        assert forall i :: 1 <= i < |s| ==> s[i] == s[1..][i - 1];
      }
    }
  }

  /** One loop step: the element is kept exactly when its key is new. */
  lemma KeepFirstStep<T, K>(key: T -> K, seen: set<K>, s: seq<T>, i: nat)
    requires i < |s|
    ensures KeepFirst(key, seen, s[i..]) ==
      if key(s[i]) in seen then KeepFirst(key, seen, s[i + 1..])
      else [s[i]] + KeepFirst(key, seen + {key(s[i])}, s[i + 1..])
  {
    assert s[i..][1..] == s[i + 1..];
  }
}
