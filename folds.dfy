/**
 * The shape shared by every modeler loop: walk the rows of a table in order,
 * drop some, turn the others into output maps.
 */
module Folds {
  import opened Options

  function OptSeq<B>(o: Option<B>): (r: seq<B>)
    ensures |r| <= 1
  {
    match o
    case None => []
    case Some(b) => [b]
  }

  /** An element of a list extended by an optional one is in the list or is that one. */
  lemma OptSeqMember<B>(xs: seq<B>, o: Option<B>, y: B)
    ensures y in xs + OptSeq(o) <==> y in xs || o == Some(y)
  {
  }

  /** A list built slot by slot, each slot adding its entry if it has one, holds exactly the slots' entries. */
  lemma {:induction false} SlotsMember<B>(slot: nat -> Option<B>, upTo: nat -> seq<B>, n: nat, y: B)
    requires upTo(0) == []
    requires forall k: nat :: 1 <= k <= n ==> upTo(k) == upTo(k - 1) + OptSeq(slot(k))
    ensures y in upTo(n) <==> exists k: nat :: 1 <= k <= n && slot(k) == Some(y)
  {
    if n > 0 {
      SlotsMember(slot, upTo, n - 1, y);
      OptSeqMember(upTo(n - 1), slot(n), y);
    }
  }

  /** The images under `f` of the elements of `s` that `f` keeps, in order. */
  function FilterMap<A, B>(s: seq<A>, f: A -> Option<B>): (r: seq<B>)
    ensures |r| <= |s|
  {
    if s == [] then [] else FilterMap(s[..|s| - 1], f) + OptSeq(f(s[|s| - 1]))
  }

  /** One more element of the input adds its image, if any, at the end. */
  lemma FilterMapStep<A, B>(s: seq<A>, i: nat, f: A -> Option<B>)
    requires i < |s|
    ensures FilterMap(s[..i + 1], f) == FilterMap(s[..i], f) + OptSeq(f(s[i]))
  {
    assert s[..i + 1][..i] == s[..i];
  }

  /** An output is there exactly when some input produced it. */
  lemma {:induction false} FilterMapMember<A, B>(s: seq<A>, f: A -> Option<B>, y: B)
    ensures y in FilterMap(s, f) <==> exists i :: 0 <= i < |s| && f(s[i]) == Some(y)
  {
    if s != [] {
      var init := s[..|s| - 1];
      FilterMapMember(init, f, y);
      if y in FilterMap(s, f) && y !in FilterMap(init, f) {
        assert f(s[|s| - 1]) == Some(y);
      }
      if exists i :: 0 <= i < |s| && f(s[i]) == Some(y) {
        var i :| 0 <= i < |s| && f(s[i]) == Some(y);
        if i < |s| - 1 {
          assert init[i] == s[i];
        }
      }
    }
  }

  /** When `f` keeps everything, nothing is dropped. */
  lemma {:induction false} FilterMapKeepsAll<A, B>(s: seq<A>, f: A -> Option<B>)
    requires forall i :: 0 <= i < |s| ==> f(s[i]).Some?
    ensures |FilterMap(s, f)| == |s|
  {
    if s != [] {
      FilterMapKeepsAll(s[..|s| - 1], f);
    }
  }

  /** Filtering a concatenation filters the parts in turn. */
  lemma {:induction false} FilterMapAppend<A, B>(a: seq<A>, b: seq<A>, f: A -> Option<B>)
    ensures FilterMap(a + b, f) == FilterMap(a, f) + FilterMap(b, f)
    decreases |b|
  {
    if b != [] {
      var b' := b[..|b| - 1];
      assert (a + b)[..|a + b| - 1] == a + b';
      FilterMapAppend(a, b', f);
    } else {
      assert a + b == a;
    }
  }

  /** The concatenation of a sequence of sequences. */
  function Flatten<T>(ss: seq<seq<T>>): (r: seq<T>)
  {
    if ss == [] then [] else Flatten(ss[..|ss| - 1]) + ss[|ss| - 1]
  }

  lemma {:induction false} FlattenMember<T>(ss: seq<seq<T>>, x: T)
    ensures x in Flatten(ss) <==> exists i :: 0 <= i < |ss| && x in ss[i]
  {
    if ss != [] {
      var init := ss[..|ss| - 1];
      FlattenMember(init, x);
      if exists i :: 0 <= i < |ss| && x in ss[i] {
        var i :| 0 <= i < |ss| && x in ss[i];
        if i < |ss| - 1 {
          assert init[i] == ss[i];
        }
      }
    }
  }

  /** Flattening one more piece appends it. */
  lemma FlattenSnoc<T>(ss: seq<seq<T>>, x: seq<T>)
    ensures Flatten(ss + [x]) == Flatten(ss) + x
  {
    assert (ss + [x])[..|ss|] == ss;
  }

  /** The image of every element, in order. */
  function MapSeq<A, B>(s: seq<A>, f: A -> B): (r: seq<B>)
    ensures |r| == |s| && forall i :: 0 <= i < |s| ==> r[i] == f(s[i])
  {
    seq(|s|, i requires 0 <= i < |s| => f(s[i]))
  }

  lemma MapSeqStep<A, B>(s: seq<A>, i: nat, f: A -> B)
    requires i < |s|
    ensures MapSeq(s[..i + 1], f) == MapSeq(s[..i], f) + [f(s[i])]
  {
    assert MapSeq(s[..i + 1], f)[i] == f(s[i]);
  }

  /** A loop that threads a state through the elements of `s`. */
  function Fold<A, S>(s: seq<A>, init: S, f: (S, A) -> S): S
  {
    if s == [] then init else f(Fold(s[..|s| - 1], init, f), s[|s| - 1])
  }

  lemma FoldStep<A, S>(s: seq<A>, i: nat, init: S, f: (S, A) -> S)
    requires i < |s|
    ensures Fold(s[..i + 1], init, f) == f(Fold(s[..i], init, f), s[i])
  {
    assert s[..i + 1][..i] == s[..i];
  }
}
