/** The circular index arithmetic both buffers of the pipeline share. A ring of `n` slots with
    read position `r` and write position `w` always leaves one slot unused. */
module Ring {

  /** Index increment as written in the code: add one and wrap by comparison. */
  function Bump(p: nat, n: nat): (q: nat)
    requires p < n
    ensures q < n
  {
    if p + 1 == n then 0 else p + 1
  }

  predicate Full(r: nat, w: nat, n: nat)
    requires n >= 1
  {
    (w + 1) % n == r
  }

  predicate Empty(r: nat, w: nat) { r == w }

  /** The same condition without the division. */
  predicate AtCapacity(r: nat, w: nat, n: nat)
    requires w < n
  {
    Bump(w, n) == r
  }

  lemma FullIsAtCapacity(r: nat, w: nat, n: nat)
    requires w < n && r < n
    ensures Full(r, w, n) <==> AtCapacity(r, w, n)
  {
    if w + 1 == n {
      assert (w + 1) % n == 0;
    } else {
      assert (w + 1) % n == w + 1;
    }
  }

  predicate InWindow(j: nat, r: nat, w: nat)
  {
    if r <= w then r <= j < w else r <= j || j < w
  }

  /** The published slots, oldest first. */
  function Window<T>(slots: seq<T>, r: nat, w: nat): (s: seq<T>)
    requires r < |slots| && w < |slots|
    ensures |s| == if r <= w then w - r else w - r + |slots|
  {
    if r <= w then slots[r..w] else slots[r..] + slots[..w]
  }

  lemma WindowPush<T>(slots: seq<T>, r: nat, w: nat)
    requires r < |slots| && w < |slots| && !AtCapacity(r, w, |slots|)
    ensures Window(slots, r, Bump(w, |slots|)) == Window(slots, r, w) + [slots[w]]
  {
  }

  lemma WindowPop<T>(slots: seq<T>, r: nat, w: nat)
    requires r < |slots| && w < |slots| && r != w
    ensures Window(slots, r, w) == [slots[r]] + Window(slots, Bump(r, |slots|), w)
  {
  }

  lemma WindowFrame<T>(slots: seq<T>, j: nat, v: T, r: nat, w: nat)
    requires r < |slots| && w < |slots| && j < |slots| && !InWindow(j, r, w)
    ensures Window(slots[j := v], r, w) == Window(slots, r, w)
  {
  }
}
