/** The job set both services fan out over: every (centre, specialty) pair,
    visited by two nested `for range` loops with the centres outside. */
module Jobs {
  import Wrappers

  /** The pairs `(x, ys[0]), ..., (x, ys[|ys| - 1])`: one pass of the inner loop. */
  function Row<A, B>(x: A, ys: seq<B>): (r: seq<(A, B)>)
    ensures |r| == |ys|
    ensures forall j :: 0 <= j < |ys| ==> r[j] == (x, ys[j])
  {
    if ys == [] then [] else Row(x, ys[..|ys| - 1]) + [(x, ys[|ys| - 1])]
  }

  lemma RowSnoc<A, B>(x: A, ys: seq<B>, j: nat)
    requires j < |ys|
    ensures Row(x, ys[..j + 1]) == Row(x, ys[..j]) + [(x, ys[j])]
  {
    assert ys[..j + 1][..j] == ys[..j];
  }

  /** `xs × ys` in nested-loop order. */
  function Product<A, B>(xs: seq<A>, ys: seq<B>): seq<(A, B)>
  {
    if xs == [] then [] else Product(xs[..|xs| - 1], ys) + Row(xs[|xs| - 1], ys)
  }

  lemma {:induction false} ProductAppend<A, B>(xs: seq<A>, zs: seq<A>, ys: seq<B>)
    ensures Product(xs + zs, ys) == Product(xs, ys) + Product(zs, ys)
  {
    if zs == [] {
      assert xs + zs == xs;
    } else {
      var init, last := zs[..|zs| - 1], zs[|zs| - 1];
      assert (xs + zs)[..|xs + zs| - 1] == xs + init;
      assert (xs + zs)[|xs + zs| - 1] == last;
      calc {
        Product(xs + zs, ys);
        Product(xs + init, ys) + Row(last, ys);
        { ProductAppend(xs, init, ys); }
        Product(xs, ys) + Product(init, ys) + Row(last, ys);
        { AppendAssoc(Product(xs, ys), Product(init, ys), Row(last, ys)); }
        Product(xs, ys) + Product(zs, ys);
      }
    }
  }

  /** The jobs of centre `xs[i]` form one contiguous run, over the specialties
      in their configured order, after the jobs of every earlier centre and
      before those of every later one: the centres are the outer loop. */
  lemma ProductSplit<A, B>(xs: seq<A>, ys: seq<B>, i: nat)
    requires i < |xs|
    ensures Product(xs, ys) == Product(xs[..i], ys) + Row(xs[i], ys) + Product(xs[i + 1..], ys)
  {
    assert xs == xs[..i] + [xs[i]] + xs[i + 1..];
    ProductAppend(xs[..i] + [xs[i]], xs[i + 1..], ys);
    ProductAppend(xs[..i], [xs[i]], ys);
    assert [xs[i]][..0] == [];
  }

  lemma MulSucc(k: nat, n: nat)
    ensures (k + 1) * n == k * n + n
  {
  }

  /** Each pair occurs as often as its centre times its specialty: with
      duplicate-free configuration lists, exactly once per pair. */
  lemma {:induction false} ProductCount<A, B>(xs: seq<A>, ys: seq<B>, a: A, b: B)
    ensures multiset(Product(xs, ys))[(a, b)] == multiset(xs)[a] * multiset(ys)[b]
  {
    if xs != [] {
      var init, x := xs[..|xs| - 1], xs[|xs| - 1];
      assert xs == init + [x];
      ProductCount(init, ys, a, b);
      RowCount(x, ys, a, b);
      var p, q := multiset(Product(init, ys))[(a, b)], multiset(Row(x, ys))[(a, b)];
      assert multiset(Product(xs, ys))[(a, b)] == p + q;
      var m, k := multiset(init)[a], multiset(ys)[b];
      if x == a {
        assert multiset(xs)[a] == m + 1;
        MulSucc(m, k);
      } else {
        assert multiset(xs)[a] == m;
      }
    }
  }

  lemma {:induction false} RowCount<A, B>(x: A, ys: seq<B>, a: A, b: B)
    ensures multiset(Row(x, ys))[(a, b)] == if x == a then multiset(ys)[b] else 0
  {
    if ys != [] {
      var init := ys[..|ys| - 1];
      assert ys == init + [ys[|ys| - 1]];
      RowCount(x, init, a, b);
    }
  }

  /** A pair is a job exactly when its centre and its specialty are configured. */
  lemma ProductMembership<A, B>(xs: seq<A>, ys: seq<B>, a: A, b: B)
    ensures (a, b) in Product(xs, ys) <==> a in xs && b in ys
  {
    ProductCount(xs, ys, a, b);
    assert (a, b) in Product(xs, ys) <==> multiset(Product(xs, ys))[(a, b)] > 0;
    assert a in xs <==> multiset(xs)[a] > 0;
    assert b in ys <==> multiset(ys)[b] > 0;
  }

  /** One more inner-loop step extends the visited prefix by one pair. */
  lemma ProductStep<A, B>(xs: seq<A>, ys: seq<B>, i: nat, j: nat)
    requires i < |xs| && j < |ys|
    ensures Product(xs[..i], ys) + Row(xs[i], ys[..j + 1])
         == Product(xs[..i], ys) + Row(xs[i], ys[..j]) + [(xs[i], ys[j])]
  {
    var zs := ys[..j + 1];
    assert zs[..|zs| - 1] == ys[..j] && zs[|zs| - 1] == ys[j];
    assert Row(xs[i], zs) == Row(xs[i], ys[..j]) + [(xs[i], ys[j])];
    AppendAssoc(Product(xs[..i], ys), Row(xs[i], ys[..j]), [(xs[i], ys[j])]);
  }

  /** Finishing the inner loop finishes one more row of the product. */
  lemma ProductRow<A, B>(xs: seq<A>, ys: seq<B>, i: nat)
    requires i < |xs|
    ensures Product(xs[..i + 1], ys) == Product(xs[..i], ys) + Row(xs[i], ys[..|ys|])
  {
    assert xs[..i + 1][..i] == xs[..i];
    assert ys[..|ys|] == ys;
  }

  /** What every job of a fan-out returned, in submission order. */
  function Outcomes<J, R>(jobs: seq<J>, run: J -> R): (rs: seq<R>)
    ensures |rs| == |jobs|
  {
    if jobs == [] then [] else Outcomes(jobs[..|jobs| - 1], run) + [run(jobs[|jobs| - 1])]
  }

  /** The values of the jobs that succeeded, in order: what gets notified. */
  function Succeeded<T, E>(rs: seq<Wrappers.Result<T, E>>): seq<T>
  {
    if rs == [] then []
    else Succeeded(rs[..|rs| - 1]) + if rs[|rs| - 1].Success? then [rs[|rs| - 1].value] else []
  }

  /** The error an `errgroup` reports when its jobs finish in submission
      order: that of the first job that failed. */
  function FirstFailure<T, E>(rs: seq<Wrappers.Result<T, E>>): Wrappers.Option<E>
  {
    if rs == [] then Wrappers.None
    else if FirstFailure(rs[..|rs| - 1]).Some? then FirstFailure(rs[..|rs| - 1])
    else if rs[|rs| - 1].Failure? then Wrappers.Some(rs[|rs| - 1].error)
    else Wrappers.None
  }

  lemma SucceededSnoc<T, E>(rs: seq<Wrappers.Result<T, E>>, r: Wrappers.Result<T, E>)
    ensures Succeeded(rs + [r]) == Succeeded(rs) + if r.Success? then [r.value] else []
  {
    assert (rs + [r])[..|rs|] == rs;
  }

  lemma {:induction false} SucceededAppend<T, E>(rs: seq<Wrappers.Result<T, E>>, ts: seq<Wrappers.Result<T, E>>)
    ensures Succeeded(rs + ts) == Succeeded(rs) + Succeeded(ts)
  {
    if ts == [] {
      assert rs + ts == rs;
    } else {
      var init := ts[..|ts| - 1];
      assert (rs + ts)[..|rs + ts| - 1] == rs + init;
      SucceededAppend(rs, init);
    }
  }

  /** Appending a part at a time builds the same log as appending it all at once. */
  lemma AppendAssoc<T>(a: seq<T>, b: seq<T>, c: seq<T>)
    ensures a + b + c == a + (b + c)
  {
  }

  lemma {:induction false} OutcomesAppend<J, R>(jobs: seq<J>, more: seq<J>, run: J -> R)
    ensures Outcomes(jobs + more, run) == Outcomes(jobs, run) + Outcomes(more, run)
  {
    if more == [] {
      assert jobs + more == jobs;
    } else {
      var init := more[..|more| - 1];
      assert (jobs + more)[..|jobs + more| - 1] == jobs + init;
      OutcomesAppend(jobs, init, run);
    }
  }

  lemma OutcomesSnoc<J, R>(jobs: seq<J>, j: J, run: J -> R)
    ensures Outcomes(jobs + [j], run) == Outcomes(jobs, run) + [run(j)]
  {
    assert (jobs + [j])[..|jobs|] == jobs;
  }

  /** The `i`-th outcome is what the `i`-th job returned. */
  lemma {:induction false} OutcomesAt<J, R>(jobs: seq<J>, run: J -> R, i: nat)
    requires i < |jobs|
    ensures Outcomes(jobs, run)[i] == run(jobs[i])
  {
    if i < |jobs| - 1 {
      OutcomesAt(jobs[..|jobs| - 1], run, i);
    }
  }

  /** A value is notified exactly when some job succeeded with it. */
  lemma {:induction false} SucceededMembership<T, E>(rs: seq<Wrappers.Result<T, E>>, v: T)
    ensures v in Succeeded(rs) <==> exists i :: 0 <= i < |rs| && rs[i] == Wrappers.Success(v)
  {
    if rs != [] {
      var init := rs[..|rs| - 1];
      SucceededMembership(init, v);
      if exists i :: 0 <= i < |init| && init[i] == Wrappers.Success(v) {
        var i :| 0 <= i < |init| && init[i] == Wrappers.Success(v);
        assert rs[i] == Wrappers.Success(v);
      }
      if exists i :: 0 <= i < |rs| && rs[i] == Wrappers.Success(v) {
        var i :| 0 <= i < |rs| && rs[i] == Wrappers.Success(v);
        if i < |init| {
          assert init[i] == Wrappers.Success(v);
        }
      }
    }
  }

  /** Every job notifies when none failed. */
  lemma {:induction false} SucceededAll<T, E>(rs: seq<Wrappers.Result<T, E>>)
    ensures |Succeeded(rs)| <= |rs|
    ensures |Succeeded(rs)| == |rs| <==> forall i :: 0 <= i < |rs| ==> rs[i].Success?
  {
    if rs != [] {
      var init := rs[..|rs| - 1];
      SucceededAll(init);
      assert forall i :: 0 <= i < |init| ==> init[i] == rs[i];
    }
  }

  /** The group reports error `e` exactly when some job failed with `e` and
      every job submitted before it succeeded. */
  lemma {:induction false} FirstFailureIff<T, E>(rs: seq<Wrappers.Result<T, E>>, e: E)
    ensures FirstFailure(rs) == Wrappers.Some(e) <==>
      exists i :: 0 <= i < |rs| && rs[i] == Wrappers.Failure(e) && forall k :: 0 <= k < i ==> rs[k].Success?
  {
    if rs != [] {
      var init := rs[..|rs| - 1];
      FirstFailureIff(init, e);
      FirstFailureNone(init);
      if FirstFailure(rs) == Wrappers.Some(e) {
        if FirstFailure(init).Some? {
          var i :| 0 <= i < |init| && init[i] == Wrappers.Failure(e) && forall k :: 0 <= k < i ==> init[k].Success?;
          assert rs[i] == Wrappers.Failure(e) && forall k :: 0 <= k < i ==> rs[k].Success?;
        } else {
          assert rs[|rs| - 1] == Wrappers.Failure(e) && forall k :: 0 <= k < |rs| - 1 ==> rs[k].Success?;
        }
      }
      if exists i :: 0 <= i < |rs| && rs[i] == Wrappers.Failure(e) && forall k :: 0 <= k < i ==> rs[k].Success? {
        var i :| 0 <= i < |rs| && rs[i] == Wrappers.Failure(e) && forall k :: 0 <= k < i ==> rs[k].Success?;
        if i < |init| {
          assert init[i] == Wrappers.Failure(e) && forall k :: 0 <= k < i ==> init[k].Success?;
        } else {
          assert forall k :: 0 <= k < |init| ==> init[k].Success?;
        }
      }
    }
  }

  /** The group reports no error exactly when every job succeeded. */
  lemma {:induction false} FirstFailureNone<T, E>(rs: seq<Wrappers.Result<T, E>>)
    ensures FirstFailure(rs).None? <==> forall i :: 0 <= i < |rs| ==> rs[i].Success?
  {
    if rs != [] {
      var init := rs[..|rs| - 1];
      FirstFailureNone(init);
      assert forall i :: 0 <= i < |init| ==> init[i] == rs[i];
    }
  }

  lemma FirstFailureSnoc<T, E>(rs: seq<Wrappers.Result<T, E>>, r: Wrappers.Result<T, E>)
    ensures FirstFailure(rs + [r]) ==
      if FirstFailure(rs).Some? then FirstFailure(rs)
      else if r.Failure? then Wrappers.Some(r.error) else Wrappers.None
  {
    assert (rs + [r])[..|rs|] == rs;
  }

  /** The first failure of a longer run is that of its first part, if that
      part failed at all. */
  lemma {:induction false} FirstFailureAppend<T, E>(rs: seq<Wrappers.Result<T, E>>, ts: seq<Wrappers.Result<T, E>>)
    ensures FirstFailure(rs + ts) == if FirstFailure(rs).Some? then FirstFailure(rs) else FirstFailure(ts)
  {
    if ts == [] {
      assert rs + ts == rs;
    } else {
      var init := ts[..|ts| - 1];
      assert (rs + ts)[..|rs + ts| - 1] == rs + init;
      FirstFailureAppend(rs, init);
    }
  }
}
