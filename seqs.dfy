/**
 * The three JavaScript array operations the core is built from --
 * `findIndex`/`find`, `filter` and `map` -- as recursive functions over
 * sequences, with the properties the rest of the model relies on.
 */
module Seqs {
  import opened Wrappers

  /** Position of the first element that satisfies `p`, as `findIndex` scans. */
  function FirstIndex<T>(s: seq<T>, p: T -> bool): (r: Option<nat>)
    ensures r.Some? ==> r.value < |s| && p(s[r.value])
    ensures r.Some? ==> forall j :: 0 <= j < r.value ==> !p(s[j])
    ensures r.None? ==> forall j :: 0 <= j < |s| ==> !p(s[j])
  {
    if s == [] then None
    else if p(s[0]) then Some(0)
    else match FirstIndex(s[1..], p)
      case None => None
      case Some(k) => Some(k + 1)
  }

  /** `s.find(p)`: the first element satisfying `p`, or nothing. */
  function Find<T>(s: seq<T>, p: T -> bool): (r: Option<T>)
    ensures r.Some? ==> p(r.value)
    ensures r.Some? ==> exists i :: 0 <= i < |s| && s[i] == r.value && forall j :: 0 <= j < i ==> !p(s[j])
    ensures r.None? <==> forall j :: 0 <= j < |s| ==> !p(s[j])
  {
    match FirstIndex(s, p)
    case None => None
    case Some(i) => Some(s[i])
  }

  /** `s.filter(p)`: the elements satisfying `p`, in their original order. */
  function Filter<T>(s: seq<T>, p: T -> bool): (r: seq<T>)
    ensures |r| <= |s|
  {
    if s == [] then [] else (if p(s[0]) then [s[0]] else []) + Filter(s[1..], p)
  }

  /** What `filter` keeps comes from `s` and passes `p`. */
  lemma {:induction false} FilterSound<T>(s: seq<T>, p: T -> bool)
    ensures forall x :: x in Filter(s, p) ==> x in s && p(x)
  {
    if s != [] {
      FilterSound(s[1..], p);
    }
  }

  /** Everything in `s` that passes `p` is kept. */
  lemma {:induction false} FilterComplete<T>(s: seq<T>, p: T -> bool)
    ensures forall i :: 0 <= i < |s| && p(s[i]) ==> s[i] in Filter(s, p)
  {
    if s != [] {
      FilterComplete(s[1..], p);
      assert forall i :: 1 <= i < |s| ==> s[i] == s[1..][i - 1];
    }
  }

  /** `x` occurs in `s` at some position before an occurrence of `y`. */
  ghost predicate Precedes<T>(s: seq<T>, x: T, y: T) {
    exists a, b :: 0 <= a < b < |s| && s[a] == x && s[b] == y
  }

  lemma PrecedesTail<T>(s: seq<T>, x: T, y: T)
    requires s != [] && Precedes(s[1..], x, y)
    ensures Precedes(s, x, y)
  {
    var a, b :| 0 <= a < b < |s[1..]| && s[1..][a] == x && s[1..][b] == y;
    assert s[a + 1] == x && s[b + 1] == y;
  }

  lemma PrecedesHead<T>(s: seq<T>, y: T)
    requires s != [] && y in s[1..]
    ensures Precedes(s, s[0], y)
  {
    var b :| 0 <= b < |s[1..]| && s[1..][b] == y;
    assert s[0] == s[0] && s[b + 1] == y;
  }

  /**
   * `filter` keeps the relative order of what it keeps: any two kept
   * elements sit in `s` at increasing positions.
   */
  lemma {:induction false} FilterKeepsOrder<T>(s: seq<T>, p: T -> bool)
    ensures forall i, j :: 0 <= i < j < |Filter(s, p)| ==> Precedes(s, Filter(s, p)[i], Filter(s, p)[j])
  {
    if s == [] {
      assert Filter(s, p) == [];
    } else {
      var r := Filter(s, p);
      var t := Filter(s[1..], p);
      FilterKeepsOrder(s[1..], p);
      FilterSound(s[1..], p);
      forall i, j | 0 <= i < j < |r| ensures Precedes(s, r[i], r[j]) {
        if p(s[0]) {
          assert r == [s[0]] + t;
          if i == 0 {
            assert r[j] == t[j - 1] && t[j - 1] in t;
            PrecedesHead(s, r[j]);
          } else {
            assert r[i] == t[i - 1] && r[j] == t[j - 1];
            PrecedesTail(s, r[i], r[j]);
          }
        } else {
          assert r == t;
          PrecedesTail(s, r[i], r[j]);
        }
      }
    }
  }

  /** `s.map(f)`. */
  function Map<T, U>(s: seq<T>, f: T -> U): (r: seq<U>)
    ensures |r| == |s|
    ensures forall i :: 0 <= i < |s| ==> r[i] == f(s[i])
  {
    if s == [] then [] else [f(s[0])] + Map(s[1..], f)
  }

  /** Filtering distributes over concatenation: it keeps the order of what it keeps. */
  lemma {:induction false} FilterAppend<T>(a: seq<T>, b: seq<T>, p: T -> bool)
    ensures Filter(a + b, p) == Filter(a, p) + Filter(b, p)
  {
    if a == [] {
      assert a + b == b;
    } else {
      var head := if p(a[0]) then [a[0]] else [];
      assert (a + b)[0] == a[0];
      assert (a + b)[1..] == a[1..] + b;
      FilterAppend(a[1..], b, p);
      calc {
        Filter(a + b, p);
        head + Filter(a[1..] + b, p);
        head + (Filter(a[1..], p) + Filter(b, p));
        (head + Filter(a[1..], p)) + Filter(b, p);
        Filter(a, p) + Filter(b, p);
      }
    }
  }

  /** A filter that every element passes is the identity. */
  lemma {:induction false} FilterAll<T>(s: seq<T>, p: T -> bool)
    requires forall i :: 0 <= i < |s| ==> p(s[i])
    ensures Filter(s, p) == s
  {
    if s != [] {
      FilterAll(s[1..], p);
    }
  }

  /** A filter that drops exactly one element cuts that element out. */
  lemma {:induction false} FilterDropsOne<T>(pre: seq<T>, x: T, post: seq<T>, p: T -> bool)
    requires forall i :: 0 <= i < |pre| ==> p(pre[i])
    requires !p(x)
    requires forall i :: 0 <= i < |post| ==> p(post[i])
    ensures Filter(pre + [x] + post, p) == pre + post
  {
    var s := pre + [x] + post;
    if pre == [] {
      assert s == [x] + post;
      assert s[1..] == post;
      FilterAll(post, p);
    } else {
      assert s[0] == pre[0];
      assert s[1..] == pre[1..] + [x] + post;
      FilterDropsOne(pre[1..], x, post, p);
      assert pre + post == [pre[0]] + (pre[1..] + post);
    }
  }
}
