/**
 * Sequences used as insertion-ordered sets: the `includes`-then-`push`
 * idiom and the first-seen deduplication it builds up.
 */
module Lists {

  predicate NoDuplicates<T(==)>(s: seq<T>) {
    forall i, j :: 0 <= i < j < |s| ==> s[i] != s[j]
  }

  /** `if (!list.includes(x)) list.push(x)`. */
  function AppendNew<T(==)>(s: seq<T>, x: T): (r: seq<T>)
    ensures x in r
    ensures forall i :: 0 <= i < |s| ==> s[i] in r
    ensures forall i :: 0 <= i < |r| ==> r[i] in s || r[i] == x
    ensures NoDuplicates(s) ==> NoDuplicates(r)
    ensures x in s ==> r == s
    ensures x !in s ==> |r| == |s| + 1 && r[..|s|] == s
  {
    if x in s then s else s + [x]
  }

  /** The elements of `s` in the order they first occur, built by `AppendNew` from left to right. */
  function Dedup<T(==)>(s: seq<T>): seq<T> {
    if |s| == 0 then [] else AppendNew(Dedup(s[..|s| - 1]), s[|s| - 1])
  }

  /** The position of the first occurrence of `x` in `s`. */
  function FirstIndex<T(==)>(s: seq<T>, x: T): (k: nat)
    requires x in s
    ensures k < |s| && s[k] == x
    ensures forall i :: 0 <= i < k ==> s[i] != x
  {
    var p := s[..|s| - 1];
    if x in p then FirstIndex(p, x) else |s| - 1
  }

  /** Deduplication keeps exactly the elements of its input. */
  lemma {:induction false} DedupMembers<T>(s: seq<T>)
    ensures forall x :: x in Dedup(s) <==> x in s
  {
    if |s| > 0 {
      var p := s[..|s| - 1];
      DedupMembers(p);
      assert s == p + [s[|s| - 1]];
    }
  }

  /** Deduplication never repeats an element. */
  lemma {:induction false} DedupDistinct<T>(s: seq<T>)
    ensures NoDuplicates(Dedup(s))
  {
    if |s| > 0 {
      DedupDistinct(s[..|s| - 1]);
    }
  }

  /** Earlier elements of the deduplicated sequence were first seen earlier in the input. */
  lemma {:induction false} DedupFirstSeen<T>(s: seq<T>)
    ensures forall x :: x in Dedup(s) ==> x in s
    ensures forall i, j :: 0 <= i < j < |Dedup(s)| ==> FirstIndex(s, Dedup(s)[i]) < FirstIndex(s, Dedup(s)[j])
  {
    DedupMembers(s);
    if |s| > 0 {
      var p := s[..|s| - 1];
      var x := s[|s| - 1];
      var q := Dedup(p);
      DedupFirstSeen(p);
      DedupMembers(p);
      var r := Dedup(s);
      forall i, j | 0 <= i < j < |r|
        ensures FirstIndex(s, r[i]) < FirstIndex(s, r[j])
      {
        assert r[i] == q[i];
        assert r[i] in p;
        assert FirstIndex(s, r[i]) == FirstIndex(p, r[i]);
        if j < |q| {
          assert r[j] == q[j];
          assert FirstIndex(s, r[j]) == FirstIndex(p, r[j]);
        } else {
          assert r[j] == x && x !in p;
          assert FirstIndex(s, r[j]) == |s| - 1;
        }
      }
    }
  }
}
