/** Small vocabulary shared by the modules of this project. */
module Common {

  datatype Option<+T> = None | Some(value: T)

  /** No two positions of `s` hold the same element. */
  ghost predicate Distinct<T(!new)>(s: seq<T>) {
    forall i, j :: 0 <= i < j < |s| ==> s[i] != s[j]
  }

  /** `order` lists every element of `s` exactly once. */
  ghost predicate Lists<T(!new)>(order: seq<T>, s: set<T>) {
    Distinct(order) && forall x :: x in order <==> x in s
  }

  /** How often `x` occurs in `s`. */
  ghost function Occurrences<T>(s: seq<T>, x: T): nat {
    if s == [] then 0 else Occurrences(s[..|s| - 1], x) + if s[|s| - 1] == x then 1 else 0
  }

  /** The concatenation of all strings (or sequences) in `parts`, in order. */
  ghost function Flatten<T>(parts: seq<seq<T>>): seq<T> {
    if parts == [] then [] else Flatten(parts[..|parts| - 1]) + parts[|parts| - 1]
  }

  lemma FlattenSnoc<T>(parts: seq<seq<T>>, part: seq<T>)
    ensures Flatten(parts + [part]) == Flatten(parts) + part
  {
    assert (parts + [part])[..|parts|] == parts;
  }

  /** Two concatenations that exchange the same middle part. */
  lemma Regroup<T>(a: seq<T>, p: seq<T>, whole: seq<T>, m: seq<T>, q: seq<T>, w: seq<T>)
    requires a + p == whole && m + q == p + w
    ensures (a + m) + q == whole + w
  {
    assert (a + m) + q == a + (m + q);
    assert a + (p + w) == (a + p) + w;
  }

  /** A listing of a set is as long as the set is large. */
  lemma {:induction false} ListingSize<T(!new)>(order: seq<T>, s: set<T>)
    requires Lists(order, s)
    ensures |order| == |s|
  {
    if order != [] {
      var front, last := order[..|order| - 1], order[|order| - 1];
      assert order == front + [last];
      assert last in s;
      ListingSize(front, s - {last});
    } else {
      assert s == {};
    }
  }
}
