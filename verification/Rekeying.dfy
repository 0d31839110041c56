/** Moving the entries of a table to new keys, one key at a time. */
module Rekeying {
  import opened Basics

  /** Takes the entry under `from` out and puts it in again under `to`; an insertion under a key
      that is taken fails, and the entry is gone. */
  function Exchange<V>(m: map<int, V>, from: int, to: int): map<int, V>
  {
    if from !in m then m
    else if to in m && to != from then m - {from}
    else (m - {from})[to := m[from]]
  }

  /** What an exchange does, entry by entry. */
  ghost predicate Exchanged<V>(m: map<int, V>, from: int, to: int, r: map<int, V>)
  {
    && (forall k :: k in r <==> (k in m && k != from) || (k == to && from in m))
    && (forall k | k in r :: from in m && k == to && (to == from || to !in m) ==> r[k] == m[from])
    && (forall k | k in r :: k in m && k != from ==> r[k] == m[k])
  }

  lemma ExchangeEntries<V>(m: map<int, V>, from: int, to: int)
    ensures Exchanged(m, from, to, Exchange(m, from, to))
  {
  }

  /** The node handle is taken out, gets the new key, and is inserted. */
  method ExchangeMapKey<V>(m: map<int, V>, from: int, to: int) returns (r: map<int, V>)
    ensures r == Exchange(m, from, to)
  {
    r := m;
    if from in r {
      var handle := r[from];
      r := r - {from};
      if to !in r {
        r := r[to := handle];
      }
    }
  }

  lemma ExchangeCount<V>(m: map<int, V>, from: int, to: int)
    ensures |Exchange(m, from, to)| <= |m|
    ensures |Exchange(m, from, to)| == |m| <==> from !in m || to == from || to !in m
  {
    if from in m {
      var rest := m - {from};
      assert m == rest[from := m[from]];
    }
  }

  /** New keys for some of the keys of a table, and exchanging them in some order. */
  type Renaming = map<int, int>

  function ExchangeAll<V>(m: map<int, V>, ren: Renaming, order: seq<int>): map<int, V>
    requires forall i :: 0 <= i < |order| ==> order[i] in ren
  {
    if order == [] then m
    else
      var last := order[|order| - 1];
      Exchange(ExchangeAll(m, ren, order[..|order| - 1]), last, ren[last])
  }

  /** Each key of the renaming, once. */
  ghost predicate IsOrder(ren: Renaming, order: seq<int>)
  {
    && (forall i :: 0 <= i < |order| ==> order[i] in ren)
    && (forall k :: k in ren ==> k in order)
    && (forall i, j :: 0 <= i < j < |order| ==> order[i] != order[j])
  }

  /** No new key is another key, and no two new keys are the same. */
  predicate Fresh(keys: set<int>, ren: Renaming)
  {
    && (forall k | k in ren :: ren[k] == k || ren[k] !in keys)
    && (forall k, l | k in ren && l in ren && k != l :: ren[k] != ren[l])
  }

  /** The key of an entry once the renaming of the keys in `done` has been carried out. */
  function NewKey(ren: Renaming, done: set<int>, k: int): int
  {
    if k in ren && k in done then ren[k] else k
  }

  /** Every entry is found under its new key, and nothing else is in the table. */
  ghost predicate Moved<V>(m: map<int, V>, ren: Renaming, done: set<int>, r: map<int, V>)
  {
    && (forall k | k in m :: Arrived(m, r, k, NewKey(ren, done, k)))
    && (forall k | k in r :: CameFrom(m, ren, done, k))
  }

  ghost predicate Arrived<V>(m: map<int, V>, r: map<int, V>, k: int, to: int)
    requires k in m
  {
    to in r && r[to] == m[k]
  }

  ghost predicate CameFrom<V>(m: map<int, V>, ren: Renaming, done: set<int>, k: int)
  {
    exists l :: l in m && NewKey(ren, done, l) == k
  }

  lemma ExchangeMoves<V>(m: map<int, V>, keys: set<int>, ren: Renaming, done: set<int>, k: int, r: map<int, V>,
                         next: map<int, V>)
    requires m.Keys <= keys && ren.Keys <= keys && Fresh(keys, ren)
    requires k in ren && k !in done && done <= ren.Keys
    requires Moved(m, ren, done, r) && Exchanged(r, k, ren[k], next)
    ensures Moved(m, ren, done + {k}, next)
  {
    assert k in r ==> k in m by {
      if k in r {
        assert CameFrom(m, ren, done, k);
      }
    }
    forall l | l in m
      ensures Arrived(m, next, l, NewKey(ren, done + {k}, l))
    {
      assert Arrived(m, r, l, NewKey(ren, done, l));
      assert k in m ==> NewKey(ren, done, k) == k && k in r;
    }
    forall j | j in next
      ensures CameFrom(m, ren, done + {k}, j)
    {
      if j in r && j != k {
        assert CameFrom(m, ren, done, j);
        var l :| l in m && NewKey(ren, done, l) == j;
        assert l != k;
        assert NewKey(ren, done + {k}, l) == j;
      } else {
        assert NewKey(ren, done + {k}, k) == ren[k];
      }
    }
  }

  /** With fresh new keys nothing is lost: whatever the order, every entry ends under its new key. */
  lemma {:induction false} ExchangeAllMoves<V>(m: map<int, V>, keys: set<int>, ren: Renaming, order: seq<int>,
                                               done: set<int>)
    requires m.Keys <= keys && ren.Keys <= keys && Fresh(keys, ren)
    requires (forall k :: k in done <==> k in order) && done <= ren.Keys
    requires forall i :: 0 <= i < |order| ==> order[i] in ren
    requires forall i, j :: 0 <= i < j < |order| ==> order[i] != order[j]
    ensures Moved(m, ren, done, ExchangeAll(m, ren, order))
    decreases |order|
  {
    if order == [] {
      forall k | k in m ensures CameFrom(m, ren, done, k) {
        assert NewKey(ren, done, k) == k;
      }
    } else {
      var before, last := order[..|order| - 1], order[|order| - 1];
      assert order == before + [last];
      ExchangeAllMoves(m, keys, ren, before, done - {last});
      ExchangeEntries(ExchangeAll(m, ren, before), last, ren[last]);
      ExchangeMoves(m, keys, ren, done - {last}, last, ExchangeAll(m, ren, before), ExchangeAll(m, ren, order));
      assert done - {last} + {last} == done;
    }
  }

  /** Exchanges never bring an entry back. */
  lemma {:induction false} ExchangeAllShrinks<V>(m: map<int, V>, ren: Renaming, order: seq<int>, n: nat)
    requires n <= |order| && forall i :: 0 <= i < |order| ==> order[i] in ren
    ensures |ExchangeAll(m, ren, order)| <= |ExchangeAll(m, ren, order[..n])|
    decreases |order|
  {
    if n < |order| {
      ExchangeAllShrinks(m, ren, order[..|order| - 1], n);
      ExchangeCount(ExchangeAll(m, ren, order[..|order| - 1]), order[|order| - 1], ren[order[|order| - 1]]);
      assert order[..|order| - 1][..n] == order[..n];
    } else {
      assert order[..n] == order;
    }
  }

  lemma {:induction false} OrderExists(ren: Renaming, keys: set<int>, first: seq<int>) returns (order: seq<int>)
    requires keys <= ren.Keys && (forall i :: 0 <= i < |first| ==> first[i] in ren && first[i] !in keys)
    requires forall i, j :: 0 <= i < j < |first| ==> first[i] != first[j]
    requires forall k :: k in ren ==> k in keys || k in first
    ensures IsOrder(ren, order) && first <= order
    decreases keys
  {
    if keys != {} {
      var k := Member(keys);
      order := OrderExists(ren, keys - {k}, first + [k]);
    } else {
      order := first;
    }
  }

  lemma FirstExchange<V>(m: map<int, V>, ren: Renaming, k: int)
    requires k in ren
    ensures ExchangeAll(m, ren, [k]) == Exchange(m, k, ren[k])
  {
    assert [k][..0] == [];
  }

  lemma SecondExchange<V>(m: map<int, V>, ren: Renaming, k: int, l: int)
    requires k in ren && l in ren
    ensures ExchangeAll(m, ren, [k, l]) == Exchange(Exchange(m, k, ren[k]), l, ren[l])
  {
    assert [k, l][..1] == [k];
    FirstExchange(m, ren, k);
  }

  /** Starting with the key whose new key is another entry's. */
  lemma LosesToOther<V>(m: map<int, V>, ren: Renaming, k: int) returns (order: seq<int>)
    requires ren.Keys <= m.Keys && k in ren && ren[k] != k && ren[k] in m
    ensures IsOrder(ren, order) && |ExchangeAll(m, ren, order)| < |m|
  {
    order := OrderExists(ren, ren.Keys - {k}, [k]);
    ExchangeAllShrinks(m, ren, order, 1);
    assert order[..1] == [k];
    FirstExchange(m, ren, k);
    ExchangeCount(m, k, ren[k]);
  }

  /** Starting with the two keys that share a new key. */
  lemma LosesToTwin<V>(m: map<int, V>, ren: Renaming, k: int, l: int) returns (order: seq<int>)
    requires ren.Keys <= m.Keys && k in ren && l in ren && k != l && ren[k] == ren[l] && ren[k] !in m
    ensures IsOrder(ren, order) && |ExchangeAll(m, ren, order)| < |m|
  {
    order := OrderExists(ren, ren.Keys - {k, l}, [k, l]);
    ExchangeAllShrinks(m, ren, order, 2);
    assert order[..2] == [k, l];
    SecondExchange(m, ren, k, l);
    ExchangeCount(Exchange(m, k, ren[k]), l, ren[l]);
  }

  /** Without fresh new keys some order loses an entry. */
  lemma LosingOrder<V>(m: map<int, V>, ren: Renaming) returns (order: seq<int>)
    requires ren.Keys <= m.Keys && !Fresh(m.Keys, ren)
    ensures IsOrder(ren, order) && |ExchangeAll(m, ren, order)| < |m|
  {
    if k :| k in ren && ren[k] != k && ren[k] in m {
      order := LosesToOther(m, ren, k);
    } else {
      var k, l :| k in ren && l in ren && k != l && ren[k] == ren[l];
      order := LosesToTwin(m, ren, k, l);
    }
  }

  lemma MovedKeepsCount<V>(m: map<int, V>, ren: Renaming, done: set<int>, r: map<int, V>)
    requires ren.Keys <= m.Keys && Fresh(m.Keys, ren) && Moved(m, ren, done, r) && |r| <= |m|
    ensures |r| == |m|
  {
    if |r| < |m| {
      NoInjection(m.Keys, r.Keys, ren, done, m);
    }
  }

  /** Renaming is one to one on the keys of the table. */
  lemma {:induction false} NoInjection<V>(from: set<int>, to: set<int>, ren: Renaming, done: set<int>, m: map<int, V>)
    requires from <= m.Keys && ren.Keys <= m.Keys && Fresh(m.Keys, ren)
    requires forall k | k in from :: NewKey(ren, done, k) in to
    ensures |from| <= |to|
    decreases from
  {
    if from != {} {
      var k := Member(from);
      NoInjection(from - {k}, to - {NewKey(ren, done, k)}, ren, done, m);
    }
  }

  /** No order loses an entry exactly when the new keys are fresh. */
  lemma LosslessIffFresh<V>(m: map<int, V>, ren: Renaming)
    requires ren.Keys <= m.Keys
    ensures Fresh(m.Keys, ren) <==> forall order :: IsOrder(ren, order) ==> |ExchangeAll(m, ren, order)| == |m|
  {
    if Fresh(m.Keys, ren) {
      forall order | IsOrder(ren, order) ensures |ExchangeAll(m, ren, order)| == |m| {
        ExchangeAllMoves(m, m.Keys, ren, order, ren.Keys);
        ExchangeAllShrinks(m, ren, order, 0);
        MovedKeepsCount(m, ren, ren.Keys, ExchangeAll(m, ren, order));
      }
    } else {
      var order := LosingOrder(m, ren);
    }
  }
}
