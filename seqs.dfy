/** Order-preserving filtering and substring search over sequences. */
module Seqs {

  /** The elements of `s` that satisfy `p`, in their original order
      (the shape of a Go loop that appends matching elements to a result slice). */
  function Keep<T>(s: seq<T>, p: T -> bool): (r: seq<T>)
    ensures |r| <= |s|
    ensures forall x :: x in r ==> p(x)
  {
    if s == [] then []
    else
      var init := Keep(s[..|s| - 1], p);
      if p(s[|s| - 1]) then init + [s[|s| - 1]] else init
  }

  /** Appending one element extends the filtered prefix by that element exactly when it matches. */
  lemma KeepSnoc<T>(s: seq<T>, x: T, p: T -> bool)
    ensures Keep(s + [x], p) == if p(x) then Keep(s, p) + [x] else Keep(s, p)
  {
    assert (s + [x])[..|s|] == s;
  }

  /** An element survives the filter exactly when it is in the input and matches. */
  lemma {:induction false} KeepMembership<T>(s: seq<T>, p: T -> bool, x: T)
    ensures x in Keep(s, p) <==> x in s && p(x)
  {
    if s != [] {
      var init := s[..|s| - 1];
      KeepMembership(init, p, x);
      assert s == init + [s[|s| - 1]];
    }
  }

  /** The filter is empty exactly when no element matches. */
  lemma {:induction false} KeepEmpty<T>(s: seq<T>, p: T -> bool)
    ensures Keep(s, p) == [] <==> forall i :: 0 <= i < |s| ==> !p(s[i])
  {
    if s != [] {
      var init := s[..|s| - 1];
      KeepEmpty(init, p);
      assert forall i :: 0 <= i < |init| ==> init[i] == s[i];
    }
  }

  /** The positions of the matching elements of `s`, in increasing order. */
  ghost function KeptIndices<T>(s: seq<T>, p: T -> bool): seq<int>
  {
    if s == [] then []
    else
      var init := KeptIndices(s[..|s| - 1], p);
      if p(s[|s| - 1]) then init + [|s| - 1] else init
  }

  /** Every picked position lies in `s`, and the positions strictly increase. */
  lemma {:induction false} KeptIndicesIncrease<T>(s: seq<T>, p: T -> bool)
    ensures forall j :: 0 <= j < |KeptIndices(s, p)| ==> 0 <= KeptIndices(s, p)[j] < |s|
    ensures forall j, k :: 0 <= j < k < |KeptIndices(s, p)| ==> KeptIndices(s, p)[j] < KeptIndices(s, p)[k]
  {
    if s != [] {
      KeptIndicesIncrease(s[..|s| - 1], p);
    }
  }

  /** A position is picked exactly when the element there matches. */
  lemma {:induction false} KeptIndicesExact<T>(s: seq<T>, p: T -> bool)
    ensures forall i :: 0 <= i < |s| ==> (i in KeptIndices(s, p) <==> p(s[i]))
  {
    if s != [] {
      var init := s[..|s| - 1];
      KeptIndicesExact(init, p);
      KeptIndicesIncrease(init, p);
      assert forall i :: 0 <= i < |init| ==> init[i] == s[i];
      assert |s| - 1 !in KeptIndices(init, p);
    }
  }

  /** The filter's j-th element is the element of `s` at the j-th picked position. */
  lemma {:induction false} KeepAtKeptIndices<T>(s: seq<T>, p: T -> bool)
    ensures |Keep(s, p)| == |KeptIndices(s, p)|
    ensures forall j :: 0 <= j < |KeptIndices(s, p)| ==>
      0 <= KeptIndices(s, p)[j] < |s| && Keep(s, p)[j] == s[KeptIndices(s, p)[j]]
  {
    KeptIndicesIncrease(s, p);
    if s != [] {
      var init := s[..|s| - 1];
      KeepAtKeptIndices(init, p);
      KeptIndicesIncrease(init, p);
      assert forall i :: 0 <= i < |init| ==> init[i] == s[i];
    }
  }

  /** `Keep(s, p)` is exactly the ordered subsequence of `s` picked out by the strictly increasing
      positions of its matching elements: every matching position is picked and no other. */
  lemma KeepIsOrderedSubsequence<T>(s: seq<T>, p: T -> bool)
    ensures |Keep(s, p)| == |KeptIndices(s, p)|
    ensures forall j :: 0 <= j < |KeptIndices(s, p)| ==>
      0 <= KeptIndices(s, p)[j] < |s| && Keep(s, p)[j] == s[KeptIndices(s, p)[j]]
    ensures forall j, k :: 0 <= j < k < |KeptIndices(s, p)| ==> KeptIndices(s, p)[j] < KeptIndices(s, p)[k]
    ensures forall i :: 0 <= i < |s| ==> (i in KeptIndices(s, p) <==> p(s[i]))
  {
    KeepAtKeptIndices(s, p);
    KeptIndicesIncrease(s, p);
    KeptIndicesExact(s, p);
  }

  /** Filtering twice is filtering once by both predicates. */
  lemma {:induction false} KeepKeep<T>(s: seq<T>, p: T -> bool, q: T -> bool, x: T)
    ensures x in Keep(Keep(s, p), q) <==> x in s && p(x) && q(x)
  {
    KeepMembership(s, p, x);
    KeepMembership(Keep(s, p), q, x);
  }

  /** `sub` occurs in `s` starting at position `i`. */
  ghost predicate OccursAt<T>(s: seq<T>, sub: seq<T>, i: int)
  {
    0 <= i && i + |sub| <= |s| && s[i..i + |sub|] == sub
  }

  /** Substring search, as Go's strings.Contains: the empty sequence occurs in every sequence. */
  function Contains<T(==)>(s: seq<T>, sub: seq<T>): bool
    decreases |s|
  {
    if |sub| > |s| then false
    else if s[..|sub|] == sub then true
    else Contains(s[1..], sub)
  }

  /** `Contains` agrees with the definition of an occurrence. */
  lemma {:induction false} ContainsOccurs<T>(s: seq<T>, sub: seq<T>)
    ensures Contains(s, sub) <==> exists i :: OccursAt(s, sub, i)
    decreases |s|
  {
    if |sub| > |s| {
    } else if s[..|sub|] == sub {
      assert OccursAt(s, sub, 0);
    } else {
      ContainsOccurs(s[1..], sub);
      if Contains(s[1..], sub) {
        var i :| OccursAt(s[1..], sub, i);
        assert s[i + 1..i + 1 + |sub|] == s[1..][i..i + |sub|];
        assert OccursAt(s, sub, i + 1);
      } else {
        forall i | OccursAt(s, sub, i) ensures false {
          assert i != 0;
          assert s[1..][i - 1..i - 1 + |sub|] == s[i..i + |sub|];
          assert OccursAt(s[1..], sub, i - 1);
        }
      }
    }
  }

  /** The middle part of a concatenation is contained in it. */
  lemma ContainsInfix<T>(a: seq<T>, b: seq<T>, c: seq<T>)
    ensures Contains(a + b + c, b)
  {
    assert (a + b + c)[|a|..|a| + |b|] == b;
    assert OccursAt(a + b + c, b, |a|);
    ContainsOccurs(a + b + c, b);
  }
}
