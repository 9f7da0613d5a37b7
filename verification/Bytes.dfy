/** Byte strings built one element after the other. */
module Bytes {

  /** The bytes of a list. */
  function Cat<T>(f: T -> string, xs: seq<T>): string {
    if xs == [] then "" else Cat(f, xs[..|xs| - 1]) + f(xs[|xs| - 1])
  }

  lemma CatNext<T>(f: T -> string, xs: seq<T>, k: nat)
    requires k < |xs|
    ensures Cat(f, xs[..k + 1]) == Cat(f, xs[..k]) + f(xs[k])
  {
    assert xs[..k + 1][..k] == xs[..k];
  }

  lemma {:induction false} CatFront<T>(f: T -> string, xs: seq<T>)
    requires xs != []
    ensures Cat(f, xs) == f(xs[0]) + Cat(f, xs[1..])
  {
    var k := |xs| - 1;
    if k == 0 {
      assert xs[..0] == [] && xs[1..] == [];
      assert f(xs[0]) + "" == "" + f(xs[0]);
    } else {
      CatFront(f, xs[..k]);
      Assoc(f(xs[0]), Cat(f, xs[..k][1..]), f(xs[k]));
      assert xs[..k][1..] == xs[1..][..k - 1] && xs[1..][k - 1] == xs[k];
    }
  }

  lemma Assoc(a: string, b: string, c: string)
    ensures (a + b) + c == a + (b + c) && a + "" == a
  {
  }

  /** Appending reaches past a field and its separator. */
  lemma Past(a: string, separator: string, b: string, tail: string)
    ensures (a + (separator + b)) + tail == a + (separator + (b + tail))
  {
    Assoc(a, separator + b, tail);
    Assoc(separator, b, tail);
  }

  lemma Split(a: string, b: string)
    ensures (a + b)[..|a|] == a && (a + b)[|a|..] == b
  {
  }

  function Slashes(n: nat): (r: string)
    ensures |r| == n && forall i :: 0 <= i < n ==> r[i] == '\\'
  {
    seq(n, i => '\\')
  }

  /** How many backslashes a text begins with. */
  function LeadingSlashes(s: string): (k: nat)
    ensures k <= |s| && (forall i :: 0 <= i < k ==> s[i] == '\\') && (k < |s| ==> s[k] != '\\')
  {
    if s == "" || s[0] != '\\' then 0 else 1 + LeadingSlashes(s[1..])
  }
}
