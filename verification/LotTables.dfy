/** Folding many lots into a table, one entry per lot key, and the laws that make the order irrelevant. */
module LotTables {
  import opened Basics
  import opened LotKeys
  import opened Lots
  import opened Selections

  /** The dictionary the fold updates: what has been accumulated under each lot key. */
  type LotTable = map<LotKey, Totals>

  function At(m: LotTable, k: LotKey): Option<Totals> {
    if k in m then Some(m[k]) else None
  }

  lemma SameEverywhere(a: LotTable, b: LotTable)
    requires forall k :: At(a, k) == At(b, k)
    ensures a == b
  {
    forall k
      ensures k in a <==> k in b
      ensures k in a && k in b ==> a[k] == b[k]
    {
      assert At(a, k) == At(b, k);
    }
  }

  function Merge(a: LotTable, b: LotTable): (m: LotTable)
    ensures forall k :: At(m, k) == Add(At(a, k), At(b, k))
  {
    map k | k in a.Keys + b.Keys :: Add(At(a, k), At(b, k)).value
  }

  function Absorb(m: LotTable, lot: LotState): LotTable {
    m[lot.key := if lot.key in m then Plus(m[lot.key], lot.totals) else lot.totals]
  }

  function FoldLots(lots: seq<LotState>): LotTable {
    if lots == [] then map[]
    else Absorb(FoldLots(lots[..|lots| - 1]), lots[|lots| - 1])
  }

  function Share(lot: LotState, k: LotKey): Option<Totals> {
    if lot.key == k then Some(lot.totals) else None
  }

  /** What one key accumulates, without any dictionary: the reference the fold is measured against. */
  function Acc(lots: seq<LotState>, k: LotKey): Option<Totals> {
    if lots == [] then None
    else Add(Acc(lots[..|lots| - 1], k), Share(lots[|lots| - 1], k))
  }

  lemma {:induction false} FoldIsAcc(lots: seq<LotState>, k: LotKey)
    ensures At(FoldLots(lots), k) == Acc(lots, k)
  {
    if lots == [] {
    } else {
      FoldIsAcc(lots[..|lots| - 1], k);
    }
  }

  lemma {:induction false} AccConcat(xs: seq<LotState>, ys: seq<LotState>, k: LotKey)
    ensures Acc(xs + ys, k) == Add(Acc(xs, k), Acc(ys, k))
    decreases |ys|
  {
    if ys == [] {
      assert xs + ys == xs;
    } else {
      var init, last := ys[..|ys| - 1], ys[|ys| - 1];
      assert (xs + ys)[..|xs + ys| - 1] == xs + init;
      AccConcat(xs, init, k);
      AddAssociative(Acc(xs, k), Acc(init, k), Share(last, k));
    }
  }

  /** fold(A + B) == fold(A) merged with fold(B). */
  lemma FoldConcat(xs: seq<LotState>, ys: seq<LotState>)
    ensures FoldLots(xs + ys) == Merge(FoldLots(xs), FoldLots(ys))
  {
    forall k
      ensures At(FoldLots(xs + ys), k) == At(Merge(FoldLots(xs), FoldLots(ys)), k)
    {
      FoldIsAcc(xs + ys, k);
      FoldIsAcc(xs, k);
      FoldIsAcc(ys, k);
      AccConcat(xs, ys, k);
    }
    SameEverywhere(FoldLots(xs + ys), Merge(FoldLots(xs), FoldLots(ys)));
  }

  lemma MergeAssociative(a: LotTable, b: LotTable, c: LotTable)
    ensures Merge(Merge(a, b), c) == Merge(a, Merge(b, c))
  {
    forall k
      ensures At(Merge(Merge(a, b), c), k) == At(Merge(a, Merge(b, c)), k)
    {
      AddAssociative(At(a, k), At(b, k), At(c, k));
    }
    SameEverywhere(Merge(Merge(a, b), c), Merge(a, Merge(b, c)));
  }

  lemma MergeCommutative(a: LotTable, b: LotTable)
    ensures Merge(a, b) == Merge(b, a)
  {
    forall k
      ensures At(Merge(a, b), k) == At(Merge(b, a), k)
    {
      AddCommutative(At(a, k), At(b, k));
    }
    SameEverywhere(Merge(a, b), Merge(b, a));
  }

  lemma MergeIdentity(a: LotTable)
    ensures Merge(a, map[]) == a == Merge(map[], a)
  {
    SameEverywhere(Merge(a, map[]), a);
    SameEverywhere(Merge(map[], a), a);
  }

  lemma AbsorbIsMerge(m: LotTable, lots: seq<LotState>, lot: LotState)
    ensures Absorb(Merge(m, FoldLots(lots)), lot) == Merge(m, FoldLots(lots + [lot]))
  {
    assert (lots + [lot])[..|lots|] == lots;
    forall k
      ensures At(Absorb(Merge(m, FoldLots(lots)), lot), k) == At(Merge(m, FoldLots(lots + [lot])), k)
    {
      AddAssociative(At(m, k), At(FoldLots(lots), k), Share(lot, k));
    }
    SameEverywhere(Absorb(Merge(m, FoldLots(lots)), lot), Merge(m, FoldLots(lots + [lot])));
  }

  // ------------------------------------------------------------ folding events

  function LotsOf(es: seq<InventoryEvent>): (lots: seq<LotState>)
    ensures |lots| == |es|
    ensures forall i :: 0 <= i < |es| ==> lots[i] == LotFromEvent(es[i])
  {
    if es == [] then [] else LotsOf(es[..|es| - 1]) + [LotFromEvent(es[|es| - 1])]
  }

  function FoldTable(es: seq<InventoryEvent>): LotTable {
    FoldLots(LotsOf(es))
  }

  lemma FoldTableConcat(es: seq<InventoryEvent>, fs: seq<InventoryEvent>)
    ensures FoldTable(es + fs) == Merge(FoldTable(es), FoldTable(fs))
  {
    hide LotsOf, FoldLots, Merge;
    assert LotsOf(es + fs) == LotsOf(es) + LotsOf(fs);
    FoldConcat(LotsOf(es), LotsOf(fs));
  }

  /** Taking one event out from anywhere and folding it last changes nothing. */
  lemma FoldTablePull(es: seq<InventoryEvent>, i: nat)
    requires i < |es|
    ensures FoldTable(es) == Merge(FoldTable(es[..i] + es[i + 1..]), FoldTable([es[i]]))
  {
    var a, e, b := es[..i], [es[i]], es[i + 1..];
    assert es == (a + e) + b;
    FoldTableConcat(a + e, b);
    FoldTableConcat(a, e);
    FoldTableConcat(a, b);
    MergeAssociative(FoldTable(a), FoldTable(e), FoldTable(b));
    MergeCommutative(FoldTable(e), FoldTable(b));
    MergeAssociative(FoldTable(a), FoldTable(b), FoldTable(e));
  }

  /** A permutation still holds the last element somewhere; without it, the rest is a permutation of the rest. */
  lemma LastSomewhere<T>(xs: seq<T>, ys: seq<T>) returns (i: nat)
    requires multiset(xs) == multiset(ys) && xs != []
    ensures i < |ys| && ys[i] == xs[|xs| - 1]
    ensures multiset(xs[..|xs| - 1]) == multiset(ys[..i] + ys[i + 1..])
  {
    var n := |xs| - 1;
    assert xs[n] in multiset(ys);
    i :| 0 <= i < |ys| && ys[i] == xs[n];
    assert xs == xs[..n] + [xs[n]];
    assert ys == ys[..i] + [ys[i]] + ys[i + 1..];
    assert multiset(ys[..i] + ys[i + 1..]) == multiset(ys) - multiset{ys[i]};
    assert multiset(xs[..n]) == multiset(xs) - multiset{xs[n]};
  }

  lemma NoneLeft<T>(ys: seq<T>)
    requires multiset(ys) == multiset{}
    ensures ys == []
  {
    assert |multiset(ys)| == 0;
  }

  /** The fold does not depend on the order in which events arrive. */
  lemma {:induction false} FoldTablePermutation(es: seq<InventoryEvent>, fs: seq<InventoryEvent>)
    requires multiset(es) == multiset(fs)
    ensures FoldTable(es) == FoldTable(fs)
    decreases |es|
  {
    hide FoldTable, Merge;
    if es == [] {
      NoneLeft(fs);
    } else {
      var n := |es| - 1;
      var i := LastSomewhere(es, fs);
      FoldTablePermutation(es[..n], fs[..i] + fs[i + 1..]);
      assert es == es[..n] + [es[n]];
      FoldTableConcat(es[..n], [es[n]]);
      FoldTablePull(fs, i);
    }
  }

  // ------------------------------------------------------------- selecting events

  /** Splitting a selection in two splits its fold in two. */
  lemma {:induction false} FoldSplit(
    log: seq<InventoryEvent>, p: InventoryEvent -> bool, p1: InventoryEvent -> bool, p2: InventoryEvent -> bool)
    requires forall e :: e in log ==> p(e) == (p1(e) || p2(e)) && !(p1(e) && p2(e))
    ensures FoldTable(Where(log, p)) == Merge(FoldTable(Where(log, p1)), FoldTable(Where(log, p2)))
  {
    if log == [] {
      MergeIdentity(map[]);
    } else {
      var init, e := log[..|log| - 1], log[|log| - 1];
      assert e in log;
      FoldSplit(init, p, p1, p2);
      var a, b, x := FoldTable(Where(init, p1)), FoldTable(Where(init, p2)), FoldTable([e]);
      FoldTableConcat(Where(init, p), [e]);
      FoldTableConcat(Where(init, p1), [e]);
      FoldTableConcat(Where(init, p2), [e]);
      MergeAssociative(a, b, x);
      MergeCommutative(b, x);
      MergeAssociative(a, x, b);
    }
  }
}
