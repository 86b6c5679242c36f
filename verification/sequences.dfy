/** Two list-building patterns the extractor uses over and over, stated once
    for any element type: a list built by appending one result per input,
    and a list built by appending only the results that are present. */
module Sequences {
  import opened Wrappers

  /** `[f(x) for x in s]`, built from the front by appending. */
  function MapPrefix<A, B>(f: A -> B, s: seq<A>): seq<B> {
    if s == [] then [] else MapPrefix(f, s[..|s| - 1]) + [f(s[|s| - 1])]
  }

  /** One result per input, in the inputs' order. */
  lemma {:induction false} MapPrefixSpec<A, B>(f: A -> B, s: seq<A>)
    ensures |MapPrefix(f, s)| == |s|
    ensures forall j :: 0 <= j < |s| ==> MapPrefix(f, s)[j] == f(s[j])
  {
    if s != [] {
      MapPrefixSpec(f, s[..|s| - 1]);
    }
  }

  /** One more step of a loop that builds MapPrefix(f, s). */
  lemma MapPrefixStep<A, B>(f: A -> B, s: seq<A>, k: nat)
    requires k < |s|
    ensures MapPrefix(f, s[..k + 1]) == MapPrefix(f, s[..k]) + [f(s[k])]
  {
    assert s[..k + 1][..k] == s[..k];
  }

  /** The present values of `c`, in order: what a loop that appends only
      when it has something to append builds. */
  function Keep<T>(c: seq<Option<T>>): seq<T> {
    if c == [] then []
    else Keep(c[..|c| - 1]) + (if c[|c| - 1].Some? then [c[|c| - 1].value] else [])
  }

  /** One more step of a loop that builds Keep(c). */
  lemma KeepStep<T>(c: seq<Option<T>>, k: nat)
    requires k < |c|
    ensures Keep(c[..k + 1]) == Keep(c[..k]) + (if c[k].Some? then [c[k].value] else [])
  {
    assert c[..k + 1][..k] == c[..k];
  }

  /** Nothing is invented and nothing present is dropped. */
  lemma {:induction false} KeepMembers<T>(c: seq<Option<T>>)
    ensures |Keep(c)| <= |c|
    ensures forall i :: 0 <= i < |Keep(c)| ==> Some(Keep(c)[i]) in c
    ensures forall j :: 0 <= j < |c| && c[j].Some? ==> c[j].value in Keep(c)
  {
    if c != [] {
      var p := c[..|c| - 1];
      KeepMembers(p);
      assert forall x :: x in p ==> x in c;
      forall j | 0 <= j < |c| && c[j].Some?
        ensures c[j].value in Keep(c)
      {
        if j < |c| - 1 {
          assert p[j] == c[j];
        }
      }
    }
  }

  /** When every present value carries its own position (`rank`), the kept
      values come out strictly ordered by that position, and the value kept
      with rank k is the one at position k. */
  lemma {:induction false} KeepRanked<T>(c: seq<Option<T>>, rank: T -> nat)
    requires forall j :: 0 <= j < |c| && c[j].Some? ==> rank(c[j].value) == j
    ensures forall i :: 0 <= i < |Keep(c)| ==> rank(Keep(c)[i]) < |c| && c[rank(Keep(c)[i])] == Some(Keep(c)[i])
    ensures forall i, i' :: 0 <= i < i' < |Keep(c)| ==> rank(Keep(c)[i]) < rank(Keep(c)[i'])
  {
    if c != [] {
      var p := c[..|c| - 1];
      KeepRanked(p, rank);
    }
  }

  /** The positions of the present values of `c`: all of them, each once,
      in increasing order. */
  function KeptAt<T>(c: seq<Option<T>>): (ps: seq<nat>)
    ensures forall i :: 0 <= i < |ps| ==> ps[i] < |c| && c[ps[i]].Some?
    ensures forall i, j :: 0 <= i < j < |ps| ==> ps[i] < ps[j]
    ensures forall k :: 0 <= k < |c| && c[k].Some? ==> k in ps
  {
    if c == [] then [] else KeptAt(c[..|c| - 1]) + (if c[|c| - 1].Some? then [|c| - 1] else [])
  }

  /** Keep(c) is exactly the present values read at KeptAt(c): one kept
      value per present position, in the order of `c`, repeats included. */
  lemma {:induction false} KeepAt<T>(c: seq<Option<T>>)
    ensures |Keep(c)| == |KeptAt(c)|
    ensures forall i :: 0 <= i < |Keep(c)| ==> c[KeptAt(c)[i]] == Some(Keep(c)[i])
  {
    if c != [] {
      var p := c[..|c| - 1];
      KeepAt(p);
      forall i | 0 <= i < |Keep(p)|
        ensures c[KeptAt(c)[i]] == Some(Keep(c)[i])
      {
        assert KeptAt(c)[i] == KeptAt(p)[i];
        assert Keep(c)[i] == Keep(p)[i];
        assert c[KeptAt(p)[i]] == p[KeptAt(p)[i]];
      }
    }
  }
}
