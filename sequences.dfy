/** Option and Result, the two wrappers the calculator's lookups and error paths need. */
module Wrappers {

  datatype Option<+T> = None | Some(value: T)

  datatype Result<+T, +E> = Ok(value: T) | Err(error: E)
}

/**
 * The three list operations the calculator applies to query results:
 * `filter`, `find` and a loop that maps every element and stops at the
 * first thrown error.
 */
module Sequences {
  import opened Wrappers

  /** The elements of `xs` that satisfy `p`, in their original order. */
  function Filter<T(!new)>(xs: seq<T>, p: T -> bool): (r: seq<T>)
    ensures |r| <= |xs|
  {
    if xs == [] then []
    else (if p(xs[0]) then [xs[0]] else []) + Filter(xs[1..], p)
  }

  /** The filter keeps exactly the elements that satisfy the predicate. */
  lemma {:induction false} FilterMembers<T(!new)>(xs: seq<T>, p: T -> bool)
    ensures forall x :: x in Filter(xs, p) <==> x in xs && p(x)
  {
    if xs != [] {
      FilterMembers(xs[1..], p);
      assert forall x :: x in xs <==> x == xs[0] || x in xs[1..];
    }
  }

  /** Filtering a concatenation filters each part. */
  lemma {:induction false} FilterAppend<T(!new)>(a: seq<T>, b: seq<T>, p: T -> bool)
    ensures Filter(a + b, p) == Filter(a, p) + Filter(b, p)
  {
    if a == [] {
      assert a + b == b;
    } else {
      assert (a + b)[1..] == a[1..] + b;
      FilterAppend(a[1..], b, p);
      var head := if p(a[0]) then [a[0]] else [];
      assert Filter(a + b, p) == head + Filter(a[1..] + b, p);
      assert head + (Filter(a[1..], p) + Filter(b, p)) == (head + Filter(a[1..], p)) + Filter(b, p);
    }
  }

  /** A filter keeps every element exactly when every element satisfies the predicate. */
  lemma {:induction false} FilterKeepsAll<T(!new)>(xs: seq<T>, p: T -> bool)
    ensures |Filter(xs, p)| == |xs| <==> forall i :: 0 <= i < |xs| ==> p(xs[i])
  {
    if xs != [] {
      FilterKeepsAll(xs[1..], p);
      assert forall i :: 1 <= i < |xs| ==> xs[i] == xs[1..][i - 1];
      if forall i :: 0 <= i < |xs| ==> p(xs[i]) {
        assert forall i :: 0 <= i < |xs[1..]| ==> p(xs[1..][i]) by {
          forall i | 0 <= i < |xs[1..]| ensures p(xs[1..][i]) {
            assert xs[1..][i] == xs[i + 1];
          }
        }
      }
      if |Filter(xs, p)| == |xs| {
        assert p(xs[0]);
        forall i | 0 <= i < |xs| ensures p(xs[i]) {
          if i > 0 {
            assert xs[i] == xs[1..][i - 1];
          }
        }
      }
    }
  }

  /** A filter keeps nothing exactly when no element satisfies the predicate. */
  lemma FilterKeepsNone<T(!new)>(xs: seq<T>, p: T -> bool)
    ensures |Filter(xs, p)| == 0 <==> forall i :: 0 <= i < |xs| ==> !p(xs[i])
  {
    FilterMembers(xs, p);
    if |Filter(xs, p)| != 0 {
      assert Filter(xs, p)[0] in Filter(xs, p);
    }
    if exists i :: 0 <= i < |xs| && p(xs[i]) {
      var i :| 0 <= i < |xs| && p(xs[i]);
      assert xs[i] in Filter(xs, p);
    }
  }

  /** A weaker predicate keeps at least as many elements. */
  lemma {:induction false} FilterMonotone<T(!new)>(xs: seq<T>, p: T -> bool, q: T -> bool)
    requires forall i :: 0 <= i < |xs| && p(xs[i]) ==> q(xs[i])
    ensures |Filter(xs, p)| <= |Filter(xs, q)|
  {
    if xs != [] {
      forall i | 0 <= i < |xs[1..]| && p(xs[1..][i]) ensures q(xs[1..][i]) {
        assert xs[1..][i] == xs[i + 1];
      }
      FilterMonotone(xs[1..], p, q);
    }
  }

  /** The first element of `xs` that satisfies `p`, as Array.prototype.find returns it. */
  function FindFirst<T(!new)>(xs: seq<T>, p: T -> bool): (r: Option<T>)
    ensures r.Some? ==> r.value in xs && p(r.value)
    ensures r.None? <==> forall x :: x in xs ==> !p(x)
  {
    if xs == [] then None
    else if p(xs[0]) then Some(xs[0])
    else FindFirst(xs[1..], p)
  }

  /**
   * Applies `f` to every element in order and collects the results; the
   * first element whose result is an error aborts the whole map with that
   * error.
   */
  function MapAll<A, B, E>(xs: seq<A>, f: A -> Result<B, E>): (r: Result<seq<B>, E>)
    ensures r.Ok? ==> |r.value| == |xs|
  {
    if xs == [] then Ok([])
    else
      match MapAll(xs[..|xs| - 1], f)
      case Err(e) => Err(e)
      case Ok(init) =>
        match f(xs[|xs| - 1])
        case Err(e) => Err(e)
        case Ok(y) => Ok(init + [y])
  }

  /**
   * A successful map holds one result per element, in order; a failed map
   * carries the error of an element all of whose predecessors succeeded.
   */
  lemma {:induction false} MapAllResult<A, B, E>(xs: seq<A>, f: A -> Result<B, E>)
    ensures var r := MapAll(xs, f);
            (r.Ok? ==> forall i :: 0 <= i < |xs| ==> f(xs[i]) == Ok(r.value[i])) &&
            (r.Err? ==> exists i :: 0 <= i < |xs| && f(xs[i]) == Err(r.error) &&
                                    forall j :: 0 <= j < i ==> f(xs[j]).Ok?)
  {
    if xs != [] {
      var n := |xs| - 1;
      MapAllResult(xs[..n], f);
      assert forall i :: 0 <= i < n ==> xs[..n][i] == xs[i];
      match MapAll(xs[..n], f)
      case Err(e) =>
        var i :| 0 <= i < n && f(xs[..n][i]) == Err(e) && forall j :: 0 <= j < i ==> f(xs[..n][j]).Ok?;
        assert f(xs[i]) == Err(e);
      case Ok(init) =>
        match f(xs[n])
        case Err(e) =>
          assert f(xs[n]) == Err(e);
        case Ok(y) =>
          assert forall i :: 0 <= i < n ==> f(xs[i]) == Ok((init + [y])[i]);
    }
  }

  /** Element `i` of a successful map is the result for `xs[i]`. */
  lemma MapAllAt<A, B, E>(xs: seq<A>, f: A -> Result<B, E>, i: nat)
    requires MapAll(xs, f).Ok? && i < |xs|
    ensures f(xs[i]) == Ok(MapAll(xs, f).value[i])
  {
    MapAllResult(xs, f);
  }

  /** When every element maps successfully, the map is exactly the element-wise results. */
  lemma MapAllOk<A, B, E>(xs: seq<A>, f: A -> Result<B, E>, ys: seq<B>)
    requires |ys| == |xs|
    requires forall i :: 0 <= i < |xs| ==> f(xs[i]) == Ok(ys[i])
    ensures MapAll(xs, f) == Ok(ys)
  {
    MapAllResult(xs, f);
    var r := MapAll(xs, f);
    if r.Ok? {
      assert r.value == ys;
    }
  }

  /** The error of the map is the error of the first element that fails. */
  lemma MapAllFirstErr<A, B, E>(xs: seq<A>, f: A -> Result<B, E>, i: nat)
    requires i < |xs| && f(xs[i]).Err?
    requires forall j :: 0 <= j < i ==> f(xs[j]).Ok?
    ensures MapAll(xs, f) == Err(f(xs[i]).error)
  {
    MapAllResult(xs, f);
    var r := MapAll(xs, f);
    if r.Err? {
      var k :| 0 <= k < |xs| && f(xs[k]) == Err(r.error) && forall j :: 0 <= j < k ==> f(xs[j]).Ok?;
      assert k == i;
    }
  }

  /** Mapping one more element that succeeds extends the results by one. */
  lemma MapAllStep<A, B, E>(xs: seq<A>, f: A -> Result<B, E>, i: nat, ys: seq<B>, y: B)
    requires i < |xs| && MapAll(xs[..i], f) == Ok(ys) && f(xs[i]) == Ok(y)
    ensures MapAll(xs[..i + 1], f) == Ok(ys + [y])
  {
    assert xs[..i + 1][..i] == xs[..i];
  }

  /** When a prefix maps successfully and the next element fails, the whole map fails with that error. */
  lemma MapAllPrefixErr<A, B, E>(xs: seq<A>, f: A -> Result<B, E>, i: nat)
    requires i < |xs| && MapAll(xs[..i], f).Ok? && f(xs[i]).Err?
    ensures MapAll(xs, f) == Err(f(xs[i]).error)
  {
    MapAllResult(xs[..i], f);
    forall j | 0 <= j < i ensures f(xs[j]).Ok? {
      assert xs[..i][j] == xs[j];
    }
    MapAllFirstErr(xs, f, i);
  }
}
