/** The two JavaScript array operations the seed data and its lookups are built from. */
module ArrayOps {
  import opened Wrappers

  /** `s.find(p)`: the first element satisfying `p`, if any. */
  function Find<T>(s: seq<T>, p: T -> bool): (r: Option<T>)
    ensures r.Some? ==>
      exists k :: 0 <= k < |s| && s[k] == r.value && p(s[k]) && forall j :: 0 <= j < k ==> !p(s[j])
    ensures r.None? ==> forall j :: 0 <= j < |s| ==> !p(s[j])
    decreases |s|
  {
    if s == [] then None
    else if p(s[0]) then Some(s[0])
    else
      Find(s[1..], p)
  }

  /** When at most one element satisfies `p`, the element found is the only one that does. */
  lemma FindOnlyMatch<T>(s: seq<T>, p: T -> bool)
    requires forall i, j :: 0 <= i < j < |s| && p(s[i]) ==> !p(s[j])
    requires Find(s, p).Some?
    ensures forall x <- s :: p(x) ==> x == Find(s, p).value
  {
    forall x <- s | p(x) ensures x == Find(s, p).value {
      var i :| 0 <= i < |s| && s[i] == x;
      var k :| 0 <= k < |s| && s[k] == Find(s, p).value && p(s[k]) && forall j :: 0 <= j < k ==> !p(s[j]);
    }
  }

  /** `s.flatMap(f)`: the results of `f` on every element, concatenated in order. */
  function FlatMap<T, U>(s: seq<T>, f: T -> seq<U>): (r: seq<U>)
    ensures |r| == TotalLength(s, f)
    ensures s != [] ==> f(s[0]) <= r
    decreases |s|
  {
    if s == [] then [] else f(s[0]) + FlatMap(s[1..], f)
  }

  /** The total length of the results of `f` on every element. */
  function TotalLength<T, U>(s: seq<T>, f: T -> seq<U>): nat
    decreases |s|
  {
    if s == [] then 0 else |f(s[0])| + TotalLength(s[1..], f)
  }

  /**
   * Flattening keeps every element and adds none: its length is the sum of
   * the parts, and an element is in it exactly when it is in some part.
   */
  lemma {:induction false} FlatMapContents<T, U>(s: seq<T>, f: T -> seq<U>)
    ensures |FlatMap(s, f)| == TotalLength(s, f)
    ensures forall u :: u in FlatMap(s, f) <==> exists x :: x in s && u in f(x)
    decreases |s|
  {
    if s != [] {
      FlatMapContents(s[1..], f);
      forall u ensures u in FlatMap(s, f) <==> exists x :: x in s && u in f(x) {
        if u in f(s[0]) {
          assert s[0] in s;
        } else if exists x :: x in s && u in f(x) {
          var x :| x in s && u in f(x);
          assert x in s[1..];
        }
      }
    }
  }

  /** Flattening a sequence with one more element appends that element's part at the end. */
  lemma {:induction false} FlatMapSnoc<T, U>(s: seq<T>, x: T, f: T -> seq<U>)
    ensures FlatMap(s + [x], f) == FlatMap(s, f) + f(x)
    decreases |s|
  {
    if s == [] {
      assert [x][1..] == [];
    } else {
      assert (s + [x])[1..] == s[1..] + [x];
      FlatMapSnoc(s[1..], x, f);
    }
  }
}
