/**
 * The two loop shapes the sheet readers and the order handler share:
 * appending the records that some items yield to a list, in order, and
 * filling a dictionary by assignment, where a later key overrides an earlier one.
 */
module Rows {
  import opened Wrappers

  /** A sheet row as the values API returns it: a list of cells, possibly shorter than the range. */
  type Row = seq<string>

  function Emit<T>(o: Option<T>): seq<T> {
    if o.Some? then [o.value] else []
  }

  /** The list a `for x in xs: if ...: out.append(...)` loop builds, where `f` decides and builds. */
  function Collect<X, T>(xs: seq<X>, f: X -> Option<T>): seq<T>
    decreases |xs|
  {
    if xs == [] then [] else Collect(xs[..|xs| - 1], f) + Emit(f(xs[|xs| - 1]))
  }

  /** Collecting keeps the order of the input: a split input gives the concatenated outputs. */
  lemma {:induction false} CollectAppend<X, T>(a: seq<X>, b: seq<X>, f: X -> Option<T>)
    ensures Collect(a + b, f) == Collect(a, f) + Collect(b, f)
    decreases |b|
  {
    if b == [] {
      assert a + b == a;
    } else {
      var b' := b[..|b| - 1];
      assert (a + b)[..|a + b| - 1] == a + b';
      assert (a + b)[|a + b| - 1] == b[|b| - 1];
      CollectAppend(a, b', f);
    }
  }

  /** An output element is exactly what some input element yields. */
  lemma {:induction false} CollectMembers<X, T>(xs: seq<X>, f: X -> Option<T>, y: T)
    ensures y in Collect(xs, f) <==> exists i :: 0 <= i < |xs| && f(xs[i]) == Some(y)
    decreases |xs|
  {
    if xs != [] {
      var p := xs[..|xs| - 1];
      CollectMembers(p, f, y);
      if exists i :: 0 <= i < |xs| && f(xs[i]) == Some(y) {
        var i :| 0 <= i < |xs| && f(xs[i]) == Some(y);
        if i < |xs| - 1 {
          assert p[i] == xs[i];
        }
      }
      if exists i :: 0 <= i < |p| && f(p[i]) == Some(y) {
        var i :| 0 <= i < |p| && f(p[i]) == Some(y);
        assert xs[i] == p[i];
      }
    }
  }

  lemma {:induction false} CollectLength<X, T>(xs: seq<X>, f: X -> Option<T>)
    ensures |Collect(xs, f)| <= |xs|
    decreases |xs|
  {
    if xs != [] {
      CollectLength(xs[..|xs| - 1], f);
    }
  }

  /** An element that yields nothing for every input leaves the output empty. */
  lemma {:induction false} CollectNone<X, T>(xs: seq<X>, f: X -> Option<T>)
    requires forall i :: 0 <= i < |xs| ==> f(xs[i]).None?
    ensures Collect(xs, f) == []
    decreases |xs|
  {
    if xs != [] {
      CollectNone(xs[..|xs| - 1], f);
    }
  }

  /** The dictionary a `for x in xs: d[key] = value` loop builds, where `f` gives the pair or skips. */
  function FoldLast<X, V>(xs: seq<X>, f: X -> Option<(string, V)>): map<string, V>
    decreases |xs|
  {
    if xs == [] then map[]
    else
      var d := FoldLast(xs[..|xs| - 1], f);
      var o := f(xs[|xs| - 1]);
      if o.Some? then d[o.value.0 := o.value.1] else d
  }

  predicate Binds<X, V>(f: X -> Option<(string, V)>, x: X, k: string) {
    f(x).Some? && f(x).value.0 == k
  }

  /**
   * A key is present exactly when some element binds it, and its value is
   * that of the LAST element binding it.
   */
  lemma {:induction false} FoldLastSpec<X, V>(xs: seq<X>, f: X -> Option<(string, V)>, k: string)
    ensures k in FoldLast(xs, f) <==> exists i :: 0 <= i < |xs| && Binds(f, xs[i], k)
    ensures k in FoldLast(xs, f) ==>
      exists j :: 0 <= j < |xs| && Binds(f, xs[j], k) && FoldLast(xs, f)[k] == f(xs[j]).value.1 &&
        forall i :: j < i < |xs| ==> !Binds(f, xs[i], k)
    decreases |xs|
  {
    if xs != [] {
      var p := xs[..|xs| - 1];
      var n := |xs| - 1;
      FoldLastSpec(p, f, k);
      if Binds(f, xs[n], k) {
        assert FoldLast(xs, f)[k] == f(xs[n]).value.1;
      } else {
        if exists i :: 0 <= i < |xs| && Binds(f, xs[i], k) {
          var i :| 0 <= i < |xs| && Binds(f, xs[i], k);
          assert p[i] == xs[i];
        }
        if k in FoldLast(xs, f) {
          var j :| 0 <= j < |p| && Binds(f, p[j], k) && FoldLast(p, f)[k] == f(p[j]).value.1 &&
            forall i :: j < i < |p| ==> !Binds(f, p[i], k);
          assert xs[j] == p[j];
          assert forall i :: j < i < |xs| ==> !Binds(f, xs[i], k) by {
            forall i | j < i < |xs| ensures !Binds(f, xs[i], k) {
              if i < n { assert xs[i] == p[i]; }
            }
          }
        }
      }
    }
  }
}
