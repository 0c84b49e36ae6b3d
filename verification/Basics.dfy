/** Small things that several modules share. */
module Basics {

  datatype Option<+T> = None | Some(value: T)
  datatype Result<+T, +E> = Ok(value: T) | Err(error: E)

  function Min(a: nat, b: nat): nat { if a < b then a else b }
  function Max(a: nat, b: nat): nat { if a < b then b else a }

  /** `vec![0; n]`. */
  function Zeros(n: nat): (r: seq<nat>)
    ensures |r| == n && forall i :: 0 <= i < n ==> r[i] == 0
  { if n == 0 then [] else Zeros(n - 1) + [0] }

  /** The first error of a list of verdicts. */
  function FirstError<E>(vs: seq<Result<(), E>>): Result<(), E> {
    if vs == [] then Ok(())
    else
      var before := FirstError(vs[..|vs| - 1]);
      if before.Err? then before else vs[|vs| - 1]
  }

  lemma {:induction false} FirstErrorOk<E>(vs: seq<Result<(), E>>)
    ensures FirstError(vs).Ok? <==> forall i :: 0 <= i < |vs| ==> vs[i].Ok?
  {
    if vs != [] {
      var init, last := vs[..|vs| - 1], vs[|vs| - 1];
      FirstErrorOk(init);
      assert vs == init + [last];
    }
  }

  lemma {:induction false} FirstErrorAt<E>(vs: seq<Result<(), E>>, i: nat)
    requires i < |vs| && vs[i].Err? && forall j :: 0 <= j < i ==> vs[j].Ok?
    ensures FirstError(vs) == vs[i]
  {
    var init := vs[..|vs| - 1];
    if i < |vs| - 1 { FirstErrorAt(init, i); } else { FirstErrorOk(init); }
  }

  /** `collect` into a result: all values, or the first error. */
  function Collect<T, E>(rs: seq<Result<T, E>>): Result<seq<T>, E> {
    if rs == [] then Ok([])
    else
      var before, last := Collect(rs[..|rs| - 1]), rs[|rs| - 1];
      if before.Err? then before else if last.Err? then Err(last.error) else Ok(before.value + [last.value])
  }

  /** It succeeds with exactly the values of the list. */
  lemma {:induction false} CollectOk<T, E>(rs: seq<Result<T, E>>, ts: seq<T>)
    requires |ts| == |rs|
    ensures Collect(rs) == Ok(ts) <==> forall i :: 0 <= i < |rs| ==> rs[i] == Ok(ts[i])
  {
    if rs != [] {
      var n := |rs| - 1;
      CollectOk(rs[..n], ts[..n]);
      CollectSize(rs[..n]);
      assert rs == rs[..n] + [rs[n]] && ts == ts[..n] + [ts[n]];
      if Collect(rs) == Ok(ts) { PushInjective(Collect(rs[..n]).value, rs[n].value, ts[..n], ts[n]); }
    }
  }

  lemma {:induction false} CollectSize<T, E>(rs: seq<Result<T, E>>)
    ensures Collect(rs).Ok? ==> |Collect(rs).value| == |rs|
  { if rs != [] { CollectSize(rs[..|rs| - 1]); } }

  lemma {:induction false} PushInjective<T>(s: seq<T>, x: T, t: seq<T>, y: T)
    requires |s| == |t| && s + [x] == t + [y]
    ensures s == t && x == y
  {
    assert s == (s + [x])[..|s|] && t == (t + [y])[..|s|];
    assert x == (s + [x])[|s|] && y == (t + [y])[|s|];
  }

  lemma {:induction false} CollectAt<T, E>(rs: seq<Result<T, E>>, i: nat)
    requires i < |rs| && rs[i].Err? && forall j :: 0 <= j < i ==> rs[j].Ok?
    ensures Collect(rs) == Err(rs[i].error)
  {
    var init := rs[..|rs| - 1];
    if i < |rs| - 1 { CollectAt(init, i); } else { CollectAll(init); }
  }

  lemma {:induction false} CollectAll<T, E>(rs: seq<Result<T, E>>)
    requires forall j :: 0 <= j < |rs| ==> rs[j].Ok?
    ensures Collect(rs).Ok?
  { if rs != [] { CollectAll(rs[..|rs| - 1]); } }
}
