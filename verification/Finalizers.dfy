/** Finalizer lists: the in-place filter and the laws of adding and removing. */
module Finalizers {
  /** The list without `f`, order kept. */
  function Without(fs: seq<string>, f: string): seq<string> {
    if fs == [] then [] else
      var rest, last := Without(fs[..|fs| - 1], f), fs[|fs| - 1];
      if last == f then rest else rest + [last]
  }

  /** The filter writes through the backing array it is still reading from. */
  method FilterInPlace(finalizers: array<string>, f: string) returns (kept: nat)
    modifies finalizers
    ensures kept <= finalizers.Length
    ensures finalizers[..kept] == Without(old(finalizers[..]), f)
  {
    kept := 0;
    ghost var was := finalizers[..];
    for i := 0 to finalizers.Length
      invariant kept <= i
      invariant finalizers[..kept] == Without(was[..i], f)
      invariant finalizers[i..] == was[i..]
    {
      assert was[..i + 1][..i] == was[..i];
      assert finalizers[i] == finalizers[i..][0] == was[i];
      if finalizers[i] != f {
        finalizers[kept] := finalizers[i];
        kept := kept + 1;
      }
      assert was[i + 1..] == was[i..][1..];
    }
    assert was[..finalizers.Length] == was;
  }

  /** Exactly the other finalizers are left, and their relative order. */
  lemma {:induction false} WithoutElements(fs: seq<string>, f: string)
    ensures f !in Without(fs, f)
    ensures forall x :: x != f ==> multiset(Without(fs, f))[x] == multiset(fs)[x]
  {
    if fs == [] {
    } else {
      WithoutElements(fs[..|fs| - 1], f);
      assert fs == fs[..|fs| - 1] + [fs[|fs| - 1]];
    }
  }

  lemma {:induction false} WithoutSplits(a: seq<string>, b: seq<string>, f: string)
    ensures Without(a + b, f) == Without(a, f) + Without(b, f)
  {
    if b == [] {
      assert a + b == a;
    } else {
      WithoutSplits(a, b[..|b| - 1], f);
      assert (a + b)[..|a + b| - 1] == a + b[..|b| - 1];
    }
  }

  lemma {:induction false} WithoutAbsent(fs: seq<string>, f: string)
    requires f !in fs
    ensures Without(fs, f) == fs
  {
    if fs == [] {
    } else {
      WithoutAbsent(fs[..|fs| - 1], f);
    }
  }

  /** Removing what was added restores the list. */
  lemma AddThenRemove(fs: seq<string>, f: string)
    requires f !in fs
    ensures Without(fs + [f], f) == fs
  {
    WithoutAbsent(fs, f);
    assert (fs + [f])[..|fs|] == fs;
  }
}
