/** Picking and deleting elements of a list by position. */
module Positions {
  import opened Basics

  /** The lists have the same elements, each as often. */
  ghost predicate Permuted<T(!new)>(a: seq<T>, b: seq<T>)
  {
    forall x :: Times(a, x) == Times(b, x)
  }

  predicate InRange(idx: seq<nat>, n: nat)
  {
    forall i | 0 <= i < |idx| :: idx[i] < n
  }

  /** The elements at these positions, in this order. */
  function Picked<T>(s: seq<T>, idx: seq<nat>): seq<T>
    requires InRange(idx, |s|)
  {
    seq(|idx|, i requires 0 <= i < |idx| => s[idx[i]])
  }

  /** The elements at the other positions. */
  function DeleteAt<T>(s: seq<T>, idx: seq<nat>): seq<T>
  {
    if s == [] then []
    else DeleteAt(s[..|s| - 1], idx) + if |s| - 1 in idx then [] else [s[|s| - 1]]
  }

  lemma {:induction false} DeleteOneMore<T>(s: seq<T>, idx: seq<nat>, k: nat, x: T)
    requires k !in idx
    ensures Times(DeleteAt(s, idx), x) == Times(DeleteAt(s, idx + [k]), x) + if k < |s| && s[k] == x then 1 else 0
    decreases |s|
  {
    if s != [] {
      var last := |s| - 1;
      DeleteOneMore(s[..last], idx, k, x);
      TimesConcat(DeleteAt(s[..last], idx), if last in idx then [] else [s[last]], x);
      TimesConcat(DeleteAt(s[..last], idx + [k]), if last in idx + [k] then [] else [s[last]], x);
    }
  }

  lemma {:induction false} DeleteNone<T>(s: seq<T>)
    ensures DeleteAt(s, []) == s
    decreases |s|
  {
    if s != [] {
      DeleteNone(s[..|s| - 1]);
    }
  }

  /** What is picked and what is left make up the whole. */
  lemma {:induction false} PickedAndLeft<T>(s: seq<T>, idx: seq<nat>, x: T)
    requires InRange(idx, |s|) && Distinct(idx)
    ensures Times(Picked(s, idx), x) + Times(DeleteAt(s, idx), x) == Times(s, x)
    decreases |idx|
  {
    if idx == [] {
      DeleteNone(s);
    } else {
      var n := |idx| - 1;
      PickedAndLeft(s, idx[..n], x);
      DeleteOneMore(s, idx[..n], idx[n], x);
      assert idx[..n] + [idx[n]] == idx;
      assert Picked(s, idx)[..n] == Picked(s, idx[..n]);
    }
  }

  lemma {:induction false} DeleteAll<T>(s: seq<T>, idx: seq<nat>)
    requires forall i | 0 <= i < |s| :: i in idx
    ensures DeleteAt(s, idx) == []
    decreases |s|
  {
    if s != [] {
      DeleteAll(s[..|s| - 1], idx);
    }
  }

  /** Picking every position once permutes the list. */
  lemma PickedPermutes<T(!new)>(s: seq<T>, idx: seq<nat>)
    requires InRange(idx, |s|) && Distinct(idx) && forall i | 0 <= i < |s| :: i in idx
    ensures Permuted(Picked(s, idx), s)
  {
    DeleteAll(s, idx);
    forall x ensures Times(Picked(s, idx), x) == Times(s, x) {
      PickedAndLeft(s, idx, x);
    }
  }

  /** As many elements are left as are not picked. */
  lemma {:induction false} LeftLength<T>(s: seq<T>, idx: seq<nat>)
    requires InRange(idx, |s|) && Distinct(idx)
    ensures |DeleteAt(s, idx)| == |s| - |idx|
    decreases |idx|
  {
    if idx == [] {
      DeleteNone(s);
    } else {
      var n := |idx| - 1;
      LeftLength(s, idx[..n]);
      DeleteOneLength(s, idx[..n], idx[n]);
      assert idx[..n] + [idx[n]] == idx;
    }
  }

  lemma {:induction false} DeleteOneLength<T>(s: seq<T>, idx: seq<nat>, k: nat)
    requires k !in idx
    ensures |DeleteAt(s, idx)| == |DeleteAt(s, idx + [k])| + if k < |s| then 1 else 0
    decreases |s|
  {
    if s != [] {
      DeleteOneLength(s[..|s| - 1], idx, k);
    }
  }
}
