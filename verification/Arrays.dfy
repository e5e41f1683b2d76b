/** JavaScript array operations the services rely on. */
module Arrays {

  /** `indexOf`: the first position of `u`, or -1. */
  function IndexOf<T(==)>(s: seq<T>, u: T): (i: int)
    ensures -1 <= i < |s|
    ensures i == -1 <==> u !in s
    ensures i >= 0 ==> s[i] == u && u !in s[..i]
  {
    if s == [] then -1
    else if s[0] == u then 0
    else
      var k := IndexOf(s[1..], u);
      assert s == [s[0]] + s[1..];
      if k == -1 then -1 else assert s[..k + 1] == [s[0]] + s[1..][..k]; k + 1
  }

  /** `splice(i, 1)`: a negative index counts from the end. */
  function Splice<T>(s: seq<T>, i: int): seq<T> {
    var k := if i >= 0 then i else if |s| + i >= 0 then |s| + i else 0;
    if k < |s| then s[..k] + s[k + 1..] else s
  }

  /** `Array.from(new Set(s))`: first occurrences, in order. */
  function Dedup<T(==)>(s: seq<T>): seq<T> {
    if s == [] then []
    else
      var front := Dedup(s[..|s| - 1]);
      if s[|s| - 1] in front then front else front + [s[|s| - 1]]
  }

  predicate NoDup<T(==)>(s: seq<T>) {
    forall i, j | 0 <= i < j < |s| :: s[i] != s[j]
  }

  /** The others of a list, in order. */
  function Without<T(==)>(s: seq<T>, u: T): seq<T> {
    if s == [] then [] else (if s[0] == u then [] else [s[0]]) + Without(s[1..], u)
  }

  lemma {:induction false} WithoutAbsent<T>(s: seq<T>, u: T)
    requires u !in s
    ensures Without(s, u) == s
  {
    if s != [] {
      WithoutAbsent(s[1..], u);
    }
  }

  lemma SpliceTail<T>(s: seq<T>, k: nat)
    requires 0 < |s| && k < |s| - 1
    ensures Splice(s, k + 1) == [s[0]] + Splice(s[1..], k)
  {
    assert s[..k + 1] == [s[0]] + s[1..][..k];
    assert s[k + 2..] == s[1..][k + 1..];
  }

  /** On a duplicate-free list, splicing an element out leaves exactly the others, in order. */
  lemma {:induction false} SpliceIsWithout<T>(s: seq<T>, u: T)
    requires NoDup(s) && u in s
    ensures Splice(s, IndexOf(s, u)) == Without(s, u)
  {
    var rest := s[1..];
    assert s == [s[0]] + rest;
    if s[0] == u {
      assert u !in rest;
      WithoutAbsent(rest, u);
    } else {
      SpliceIsWithout(rest, u);
      SpliceTail(s, IndexOf(rest, u));
    }
  }

  lemma {:induction false} IndexOfLast<T>(s: seq<T>, u: T)
    requires u !in s
    ensures IndexOf(s + [u], u) == |s|
  {
    if s == [] {
    } else {
      assert (s + [u])[0] == s[0] && (s + [u])[1..] == s[1..] + [u];
      IndexOfLast(s[1..], u);
    }
  }

  lemma SpliceLast<T>(s: seq<T>, u: T)
    requires u !in s
    ensures Splice(s + [u], IndexOf(s + [u], u)) == s
  {
    IndexOfLast(s, u);
  }

  lemma {:induction false} DedupIsSet<T>(s: seq<T>)
    ensures NoDup(Dedup(s))
    ensures forall u :: u in Dedup(s) <==> u in s
  {
    if s == [] {
    } else {
      var n := |s| - 1;
      var front, last := s[..n], s[n];
      DedupIsSet(front);
      assert s == front + [last];
    }
  }

  lemma {:induction false} DedupKeeps<T>(s: seq<T>)
    requires NoDup(s)
    ensures Dedup(s) == s
  {
    if s == [] {
    } else {
      var n := |s| - 1;
      DedupKeeps(s[..n]);
      assert s == s[..n] + [s[n]];
    }
  }

  /** Adding to a duplicate-free list. */
  lemma DedupAppend<T>(s: seq<T>, u: T)
    requires NoDup(s)
    ensures Dedup(s + [u]) == if u in s then s else s + [u]
  {
    DedupKeeps(s);
    assert (s + [u])[..|s|] == s;
  }

  lemma {:induction false} NoOthers<T>(s: seq<T>, u: T)
    requires NoDup(s) && u in s && Without(s, u) == []
    ensures s == [u]
  {
    if s[0] == u {
      WithoutAbsent(s[1..], u);
    }
  }

  lemma {:induction false} WithoutNoDup<T>(s: seq<T>, u: T)
    requires NoDup(s)
    ensures NoDup(Without(s, u)) && forall v :: v in Without(s, u) <==> v in s && v != u
  {
    if s != [] {
      WithoutNoDup(s[1..], u);
      assert s[0] !in Without(s[1..], u) by { assert s[0] !in s[1..]; }
      assert s == [s[0]] + s[1..];
    }
  }
}
