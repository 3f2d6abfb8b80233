/** Duplicate-free lists built the way the metric scripts build them: walk the
    values in order and `append` each one that is `not in` the list yet. */
module Lists {

  predicate NoDups<T(==)>(s: seq<T>) {
    forall i, j :: 0 <= i < j < |s| ==> s[i] != s[j]
  }

  /** The set of the elements of `s` (Python's `set(s)`). */
  function Elems<T>(s: seq<T>): set<T> {
    set x | x in s
  }

  /** A list has at most as many distinct elements as entries. */
  lemma {:induction false} ElemsCard<T>(s: seq<T>)
    ensures |Elems(s)| <= |s|
    decreases |s|
  {
    if s != [] {
      var init := s[..|s| - 1];
      ElemsCard(init);
      assert Elems(s) == Elems(init) + {s[|s| - 1]} by {
        assert s == init + [s[|s| - 1]];
      }
    }
  }

  /** The list `acc` after `if v not in acc: acc.append(v)` for each `v` of
      `vs`, in order. */
  function AppendNew<T(==)>(acc: seq<T>, vs: seq<T>): seq<T>
    decreases |vs|
  {
    if vs == [] then acc
    else
      var a := AppendNew(acc, vs[..|vs| - 1]);
      if vs[|vs| - 1] in a then a else a + [vs[|vs| - 1]]
  }

  /** The distinct values of `vs` in the order of their first occurrence. */
  function Dedup<T(==)>(vs: seq<T>): seq<T> {
    AppendNew([], vs)
  }

  /** The index of the first occurrence of `x` in `s`. */
  function FirstIndex<T(==)>(s: seq<T>, x: T): (i: nat)
    requires x in s
    ensures i < |s| && s[i] == x && x !in s[..i]
  {
    if s[0] == x then 0 else 1 + FirstIndex(s[1..], x)
  }

  /** The old list is kept as a prefix, exactly the values of `vs` not already
      in it are added after it, and no duplicate appears. */
  lemma {:induction false} AppendNewGrows<T>(acc: seq<T>, vs: seq<T>)
    ensures |acc| <= |AppendNew(acc, vs)|
    ensures AppendNew(acc, vs)[..|acc|] == acc
    ensures forall x :: x in AppendNew(acc, vs) <==> x in acc || x in vs
    ensures forall x :: x in AppendNew(acc, vs)[|acc|..] <==> x in vs && x !in acc
    ensures NoDups(acc) ==> NoDups(AppendNew(acc, vs))
    decreases |vs|
  {
    if vs != [] {
      var init := vs[..|vs| - 1];
      var v := vs[|vs| - 1];
      AppendNewGrows(acc, init);
      assert vs == init + [v];
      var a := AppendNew(acc, init);
      assert a == acc + a[|acc|..];
      if v !in a {
        assert (a + [v])[..|acc|] == a[..|acc|];
        assert (a + [v])[|acc|..] == a[|acc|..] + [v];
      }
    }
  }

  /** A list that starts with `g0` still does after `AppendNew`, and its set
      grows by exactly the appended values. */
  lemma AppendNewKeepsPrefix<T>(g0: seq<T>, g: seq<T>, vs: seq<T>)
    requires |g0| <= |g| && g[..|g0|] == g0
    ensures var g' := AppendNew(g, vs);
            && |g0| <= |g'| && g'[..|g0|] == g0
            && Elems(g') == Elems(g) + Elems(vs)
            && (NoDups(g) ==> NoDups(g'))
  {
    var g' := AppendNew(g, vs);
    AppendNewGrows(g, vs);
    assert g'[..|g0|] == g[..|g0|];
    assert forall x :: x in g' <==> x in g || x in vs;
    assert Elems(g') == Elems(g) + Elems(vs);
  }

  /** A duplicate-free list has as many elements as its set. */
  lemma {:induction false} NoDupsCard<T>(s: seq<T>)
    requires NoDups(s)
    ensures |Elems(s)| == |s|
    decreases |s|
  {
    if s != [] {
      var init := s[..|s| - 1];
      NoDupsCard(init);
      assert s == init + [s[|s| - 1]];
      assert Elems(s) == Elems(init) + {s[|s| - 1]};
      assert s[|s| - 1] !in Elems(init);
    }
  }

  /** `Dedup` keeps first-occurrence order: of any two of its elements, the
      earlier one first occurs earlier in the input. */
  lemma {:induction false} DedupOrder<T>(vs: seq<T>)
    ensures forall x :: x in Dedup(vs) <==> x in vs
    ensures NoDups(Dedup(vs))
    ensures forall i, j :: 0 <= i < j < |Dedup(vs)| ==>
              FirstIndex(vs, Dedup(vs)[i]) < FirstIndex(vs, Dedup(vs)[j])
    decreases |vs|
  {
    AppendNewGrows([], vs);
    if vs != [] {
      var init := vs[..|vs| - 1];
      var v := vs[|vs| - 1];
      DedupOrder(init);
      assert vs == init + [v];
      var d := Dedup(init);
      forall x | x in init ensures FirstIndex(vs, x) == FirstIndex(init, x) {
        FirstIndexOfPrefix(init, [v], x);
      }
      if v !in d {
        assert FirstIndex(vs, v) == |init| by {
          assert v !in vs[..|init|];
        }
        forall i | 0 <= i < |d| ensures FirstIndex(vs, d[i]) < |init| {
          assert d[i] in d;
        }
      }
    }
  }

  lemma {:induction false} FirstIndexOfPrefix<T>(s: seq<T>, t: seq<T>, x: T)
    requires x in s
    ensures FirstIndex(s + t, x) == FirstIndex(s, x)
    decreases |s|
  {
    if s[0] != x {
      assert (s + t)[1..] == s[1..] + t;
      FirstIndexOfPrefix(s[1..], t, x);
    }
  }
}
