/**
 * The list updaters the screens apply to their state after a server reply:
 * `filter`, `map` that rewrites the matching entries, and `find`. Each screen
 * instantiates them with its own id test.
 */
module Lists {
  import opened Js

  /** `a` is `b` with some entries deleted, the rest in their original order. */
  ghost predicate Subseq<T>(a: seq<T>, b: seq<T>)
    decreases |b|
  {
    a == [] || (b != [] && ((a[0] == b[0] && Subseq(a[1..], b[1..])) || Subseq(a, b[1..])))
  }

  /** `xs.filter(keep)`. */
  function Filter<T>(xs: seq<T>, keep: T -> bool): (r: seq<T>)
    ensures |r| <= |xs|
    ensures forall x :: x in r ==> x in xs && keep(x)
    ensures forall x :: x in xs && keep(x) ==> x in r
  {
    if xs == [] then []
    else (if keep(xs[0]) then [xs[0]] else []) + Filter(xs[1..], keep)
  }

  lemma {:induction false} FilterAppend<T>(a: seq<T>, b: seq<T>, keep: T -> bool)
    ensures Filter(a + b, keep) == Filter(a, keep) + Filter(b, keep)
    decreases |a|
  {
    if a == [] {
      assert a + b == b;
    } else {
      assert (a + b)[0] == a[0] && (a + b)[1..] == a[1..] + b;
      FilterAppend(a[1..], b, keep);
    }
  }

  /** Filtering keeps the surviving entries in their original order. */
  lemma {:induction false} FilterIsSubseq<T>(xs: seq<T>, keep: T -> bool)
    ensures Subseq(Filter(xs, keep), xs)
    decreases |xs|
  {
    if xs != [] {
      FilterIsSubseq(xs[1..], keep);
      var r := Filter(xs, keep);
      if keep(xs[0]) {
        assert r[0] == xs[0] && r[1..] == Filter(xs[1..], keep);
      } else {
        assert r == Filter(xs[1..], keep);
      }
    }
  }

  /** When every entry passes, nothing is removed: deleting an id that is not in the list is a no-op. */
  lemma {:induction false} FilterKeepsAll<T>(xs: seq<T>, keep: T -> bool)
    requires forall i :: 0 <= i < |xs| ==> keep(xs[i])
    ensures Filter(xs, keep) == xs
    decreases |xs|
  {
    if xs != [] {
      FilterKeepsAll(xs[1..], keep);
      assert [xs[0]] + xs[1..] == xs;
    }
  }

  /** When exactly the entry at `i` fails the test, filtering removes that one entry and nothing else. */
  lemma {:induction false} FilterRemovesOne<T>(xs: seq<T>, keep: T -> bool, i: nat)
    requires i < |xs| && !keep(xs[i])
    requires forall j :: 0 <= j < |xs| && j != i ==> keep(xs[j])
    ensures Filter(xs, keep) == xs[..i] + xs[i + 1..]
    decreases i
  {
    var tail := xs[1..];
    if i == 0 {
      assert Filter(tail, keep) == tail by {
        forall j | 0 <= j < |tail| ensures keep(tail[j]) { assert tail[j] == xs[j + 1]; }
        FilterKeepsAll(tail, keep);
      }
      assert Filter(xs, keep) == Filter(tail, keep);
    } else {
      assert Filter(tail, keep) == tail[..i - 1] + tail[i..] by {
        forall j | 0 <= j < |tail| && j != i - 1 ensures keep(tail[j]) { assert tail[j] == xs[j + 1]; }
        FilterRemovesOne(tail, keep, i - 1);
      }
      assert Filter(xs, keep) == [xs[0]] + Filter(tail, keep);
      assert xs[..i] == [xs[0]] + tail[..i - 1];
      assert xs[i + 1..] == tail[i..];
    }
  }

  /** Filtering twice with the same test is filtering once. */
  lemma {:induction false} FilterIdempotent<T>(xs: seq<T>, keep: T -> bool)
    ensures Filter(Filter(xs, keep), keep) == Filter(xs, keep)
  {
    var r := Filter(xs, keep);
    forall i | 0 <= i < |r| ensures keep(r[i]) { assert r[i] in r; }
    FilterKeepsAll(r, keep);
  }

  /** `xs.map(x => hit(x) ? f(x) : x)`. */
  function MapWhere<T>(xs: seq<T>, hit: T -> bool, f: T -> T): (r: seq<T>)
    ensures |r| == |xs|
    ensures forall i :: 0 <= i < |xs| && !hit(xs[i]) ==> r[i] == xs[i]
    ensures forall i :: 0 <= i < |xs| && hit(xs[i]) ==> r[i] == f(xs[i])
  {
    seq(|xs|, i requires 0 <= i < |xs| => if hit(xs[i]) then f(xs[i]) else xs[i])
  }

  /** When no entry matches, the mapped list is the list itself. */
  lemma MapWhereNoHit<T>(xs: seq<T>, hit: T -> bool, f: T -> T)
    requires forall i :: 0 <= i < |xs| ==> !hit(xs[i])
    ensures MapWhere(xs, hit, f) == xs
  {
  }

  /** When exactly the entry at `i` matches, only that entry changes. */
  lemma MapWhereOne<T>(xs: seq<T>, hit: T -> bool, f: T -> T, i: nat)
    requires i < |xs| && hit(xs[i])
    requires forall j :: 0 <= j < |xs| && j != i ==> !hit(xs[j])
    ensures MapWhere(xs, hit, f) == xs[i := f(xs[i])]
  {
  }

  /** `xs.find(hit)`: the first matching entry, if any. */
  function Find<T>(xs: seq<T>, hit: T -> bool): (r: Option<T>)
    ensures r.None? <==> forall i :: 0 <= i < |xs| ==> !hit(xs[i])
    ensures r.Some? ==> (exists i :: 0 <= i < |xs| && xs[i] == r.value && hit(xs[i])
                                     && forall j :: 0 <= j < i ==> !hit(xs[j]))
  {
    if xs == [] then None
    else if hit(xs[0]) then Some(xs[0])
    else
      var r := Find(xs[1..], hit);
      assert r.Some? ==> (exists i :: 1 <= i < |xs| && xs[i] == r.value && hit(xs[i])
                                      && forall j :: 0 <= j < i ==> !hit(xs[j])) by {
        if r.Some? {
          var k :| 0 <= k < |xs[1..]| && xs[1..][k] == r.value && hit(xs[1..][k])
            && forall j :: 0 <= j < k ==> !hit(xs[1..][j]);
          assert forall j :: 1 <= j < k + 1 ==> xs[j] == xs[1..][j - 1];
        }
      }
      r
  }
}
