/** Sequences without duplicates, the sets they list, and the sizes of sets. */
module Collections {
  ghost predicate NoDups<T>(s: seq<T>) { forall i, j :: 0 <= i < j < |s| ==> s[i] != s[j] }

  ghost function Elems<T>(s: seq<T>): set<T> { set x | x in s }

  /** The sequence holds exactly the elements of the set, each once. */
  ghost predicate Lists<T(!new)>(list: seq<T>, s: set<T>) { NoDups(list) && forall x :: x in list <==> x in s }

  /** A sequence has as many elements as places exactly if it has no duplicates. */
  lemma {:induction false} ElemsSize<T>(s: seq<T>)
    ensures |Elems(s)| <= |s| && (|Elems(s)| == |s| <==> NoDups(s))
  {
    if s != [] {
      var init, last := s[..|s| - 1], s[|s| - 1];
      ElemsSize(init);
      assert s == init + [last];
      assert Elems(s) == Elems(init) + {last};
      if last in init {
        var i :| 0 <= i < |init| && init[i] == last;
        assert s[i] == s[|s| - 1];
        assert Elems(s) == Elems(init);
      } else if NoDups(init) {
        assert forall i :: 0 <= i < |init| ==> init[i] in init;
      }
    }
  }

  lemma SubsetSize<T>(a: set<T>, b: set<T>)
    requires a <= b
    ensures |a| <= |b| && (|a| == |b| ==> a == b)
  {
    assert b == a + (b - a);
  }
}
