/** Instants that keep their distance, and how many of them a window can hold. */
module Spacing {

  ghost predicate Spaced(ts: seq<real>, gap: real) {
    forall i, j :: 0 <= i && j == i + 1 && j < |ts| ==> ts[j] - ts[i] >= gap
  }

  lemma {:induction false} SpacedApart(ts: seq<real>, gap: real, i: nat, j: nat)
    requires Spaced(ts, gap) && i <= j < |ts|
    ensures ts[j] - ts[i] >= (j - i) as real * gap
    decreases j - i
  {
    if i == j {
    } else {
      SpacedApart(ts, gap, i, j - 1);
      assert (j - i) as real * gap == (j - 1 - i) as real * gap + gap;
    }
  }

  /** A window of length `w` holds at most w / gap + 1 spaced instants. */
  lemma WindowHolds(ts: seq<real>, gap: real, i: nat, j: nat, w: real)
    requires Spaced(ts, gap) && i <= j < |ts| && gap > 0.0 && ts[j] - ts[i] <= w
    ensures (j - i + 1) as real <= w / gap + 1.0
  {
    SpacedApart(ts, gap, i, j);
    var n := (j - i) as real;
    assert n * gap <= w;
    assert w / gap - n == (w - n * gap) / gap >= 0.0;
  }

  /** Both at once: how far apart, and how many. */
  lemma SpacedWindow(ts: seq<real>, gap: real, i: nat, j: nat, w: real)
    requires Spaced(ts, gap) && i <= j < |ts|
    ensures ts[j] - ts[i] >= (j - i) as real * gap
    ensures gap > 0.0 && ts[j] - ts[i] <= w ==> (j - i + 1) as real <= w / gap + 1.0
  {
    hide Spaced;
    SpacedApart(ts, gap, i, j);
    if gap > 0.0 && ts[j] - ts[i] <= w {
      WindowHolds(ts, gap, i, j, w);
    }
  }

  lemma SpacedAppend(ts: seq<real>, gap: real, t: real)
    requires Spaced(ts, gap) && (ts != [] ==> t - ts[|ts| - 1] >= gap)
    ensures Spaced(ts + [t], gap)
  {
  }
}
