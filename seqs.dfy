/** Sequence helpers shared by the rule models. */
module Seqs {
  import opened Wrappers

  /** `[x for xs in ss for x in xs]`. */
  function Flatten<T>(ss: seq<seq<T>>): seq<T> {
    if ss == [] then [] else Flatten(ss[..|ss| - 1]) + ss[|ss| - 1]
  }

  lemma {:induction false} FlattenMember<T>(ss: seq<seq<T>>, x: T)
    ensures x in Flatten(ss) <==> exists i :: 0 <= i < |ss| && x in ss[i]
  {
    if ss != [] {
      var n := |ss| - 1;
      FlattenMember(ss[..n], x);
      assert forall i :: 0 <= i < n ==> ss[..n][i] == ss[i];
    }
  }

  lemma {:induction false} FlattenAppend<T>(xs: seq<seq<T>>, ys: seq<seq<T>>)
    ensures Flatten(xs + ys) == Flatten(xs) + Flatten(ys)
  {
    if ys == [] {
      assert xs + ys == xs;
    } else {
      var n := |ys| - 1;
      var zs := xs + ys;
      assert zs[..|zs| - 1] == xs + ys[..n] && zs[|zs| - 1] == ys[n];
      assert Flatten(zs) == Flatten(xs + ys[..n]) + ys[n];
      FlattenAppend(xs, ys[..n]);
      assert Flatten(ys) == Flatten(ys[..n]) + ys[n];
    }
  }

  /** `[f(x) for x in xs]` for an `f` that may raise: the first element that raises decides the error. */
  function MapAll<A, B>(xs: seq<A>, f: A -> Result<B>): (r: Result<seq<B>>)
    ensures r.Ok? ==> |r.value| == |xs| && forall i :: 0 <= i < |xs| ==> f(xs[i]) == Ok(r.value[i])
    ensures r.Err? ==> exists i :: 0 <= i < |xs| && f(xs[i]) == Err(r.error) && forall j :: 0 <= j < i ==> f(xs[j]).Ok?
  {
    if xs == [] then Ok([])
    else
      var n := |xs| - 1;
      var prefix := xs[..n];
      assert forall j :: 0 <= j < n ==> prefix[j] == xs[j];
      match MapAll(prefix, f)
      case Err(e) => Err(e)
      case Ok(init) =>
        match f(xs[n])
        case Err(e) => Err(e)
        case Ok(x) => Ok(init + [x])
  }

  /** Two elements that both succeed. */
  lemma {:induction false} MapAllPair<A, B>(a: A, b: A, f: A -> Result<B>, x: B, z: B)
    requires f(a) == Ok(x) && f(b) == Ok(z)
    ensures MapAll([a, b], f) == Ok([x, z])
  {
    var xs := [a, b];
    assert [a][..0] == [];
    assert MapAll([a][..0], f) == Ok([]);
    assert [] + [x] == [x];
    assert MapAll([a], f) == Ok([x]);
    assert xs[..1] == [a];
    assert [x] + [z] == [x, z];
  }

  /** The map succeeds exactly when no element raises. */
  lemma {:induction false} MapAllOk<A, B>(xs: seq<A>, f: A -> Result<B>)
    ensures MapAll(xs, f).Ok? <==> forall i :: 0 <= i < |xs| ==> f(xs[i]).Ok?
  {
  }

  /** One more element extends a successful map by its image. */
  lemma {:induction false} MapAllStep<A, B>(xs: seq<A>, f: A -> Result<B>, i: nat, out: seq<B>)
    requires i < |xs| && MapAll(xs[..i], f) == Ok(out)
    ensures f(xs[i]).Ok? ==> MapAll(xs[..i + 1], f) == Ok(out + [f(xs[i]).value])
    ensures f(xs[i]).Err? ==> MapAll(xs, f) == Err(f(xs[i]).error)
  {
    assert xs[..i + 1][..i] == xs[..i];
    if f(xs[i]).Err? {
      MapAllPrefixErr(xs, f, i + 1);
    }
  }

  /** A failing prefix makes the whole map fail with the same error. */
  lemma {:induction false} MapAllPrefixErr<A, B>(xs: seq<A>, f: A -> Result<B>, k: nat)
    requires k <= |xs| && MapAll(xs[..k], f).Err?
    ensures MapAll(xs, f) == MapAll(xs[..k], f)
    decreases |xs| - k
  {
    if k < |xs| {
      assert xs[..k + 1][..k] == xs[..k];
      MapAllPrefixErr(xs, f, k + 1);
    } else {
      assert xs[..k] == xs;
    }
  }

  /**
   * `[f(c, x) for x in xs]` with the same first argument `c` throughout: the first
   * element that raises decides the error.
   */
  function MapAllWith<C, A, B>(c: C, xs: seq<A>, f: (C, A) -> Result<B>): (r: Result<seq<B>>)
    ensures r.Ok? ==> |r.value| == |xs| && forall i :: 0 <= i < |xs| ==> f(c, xs[i]) == Ok(r.value[i])
    ensures r.Err? ==> exists i :: 0 <= i < |xs| && f(c, xs[i]) == Err(r.error) && forall j :: 0 <= j < i ==> f(c, xs[j]).Ok?
  {
    if xs == [] then Ok([])
    else
      var n := |xs| - 1;
      var prefix := xs[..n];
      assert forall j :: 0 <= j < n ==> prefix[j] == xs[j];
      match MapAllWith(c, prefix, f)
      case Err(e) => Err(e)
      case Ok(init) =>
        match f(c, xs[n])
        case Err(e) => Err(e)
        case Ok(x) => Ok(init + [x])
  }

  /** The map succeeds exactly when no element raises. */
  lemma {:induction false} MapAllWithOk<C, A, B>(c: C, xs: seq<A>, f: (C, A) -> Result<B>)
    ensures MapAllWith(c, xs, f).Ok? <==> forall i :: 0 <= i < |xs| ==> f(c, xs[i]).Ok?
  {
  }

  /** One more element extends a successful map by its image, or ends it with its error. */
  lemma {:induction false} MapAllWithStep<C, A, B>(c: C, xs: seq<A>, f: (C, A) -> Result<B>, i: nat, out: seq<B>)
    requires i < |xs| && MapAllWith(c, xs[..i], f) == Ok(out)
    ensures f(c, xs[i]).Ok? ==> MapAllWith(c, xs[..i + 1], f) == Ok(out + [f(c, xs[i]).value])
    ensures f(c, xs[i]).Err? ==> MapAllWith(c, xs, f) == Err(f(c, xs[i]).error)
  {
    assert xs[..i + 1][..i] == xs[..i];
    if f(c, xs[i]).Err? {
      MapAllWithPrefixErr(c, xs, f, i + 1);
    }
  }

  /** A failing prefix makes the whole map fail with the same error. */
  lemma {:induction false} MapAllWithPrefixErr<C, A, B>(c: C, xs: seq<A>, f: (C, A) -> Result<B>, k: nat)
    requires k <= |xs| && MapAllWith(c, xs[..k], f).Err?
    ensures MapAllWith(c, xs, f) == MapAllWith(c, xs[..k], f)
    decreases |xs| - k
  {
    if k < |xs| {
      assert xs[..k + 1][..k] == xs[..k];
      MapAllWithPrefixErr(c, xs, f, k + 1);
    } else {
      assert xs[..k] == xs;
    }
  }
}
