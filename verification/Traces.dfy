/** Runs of a machine: the world after a sequence of labels. The world is picked out by the
    whole trace of worlds, so that a statement about a run does not unroll the machine. */
module Traces {

  /** One world before every label, one at the end. */
  ghost predicate Worlds<W, L>(start: W, step: (W, L) -> W, labels: seq<L>, ws: seq<W>) {
    && |ws| == |labels| + 1 && ws[0] == start
    && (forall i {:trigger labels[i]} :: 0 <= i < |labels| ==> ws[i + 1] == step(ws[i], labels[i]))
  }

  lemma {:induction false} SomeWorlds<W, L>(start: W, step: (W, L) -> W, labels: seq<L>) returns (ws: seq<W>)
    ensures Worlds(start, step, labels, ws)
    decreases |labels|
  {
    if labels == [] {
      ws := [start];
    } else {
      var n := |labels| - 1;
      var init := SomeWorlds(start, step, labels[..n]);
      ws := init + [step(init[n], labels[n])];
      forall i | 0 <= i < |labels| ensures ws[i + 1] == step(ws[i], labels[i]) {
        if i < n { assert labels[..n][i] == labels[i]; }
      }
    }
  }

  lemma WorldsExist<W, L>(start: W, step: (W, L) -> W, labels: seq<L>)
    ensures exists ws: seq<W> :: Worlds(start, step, labels, ws)
  {
    var ws := SomeWorlds(start, step, labels);
  }

  lemma WorldsUnique<W, L>(start: W, step: (W, L) -> W, labels: seq<L>, x: seq<W>, y: seq<W>)
    requires Worlds(start, step, labels, x) && Worlds(start, step, labels, y)
    ensures x == y
  {
    var i := 0;
    while i < |labels|
      invariant 0 <= i <= |labels| && x[..i + 1] == y[..i + 1]
    {
      assert x[i] == x[..i + 1][i] && y[i] == y[..i + 1][i];
      assert x[i + 1] == step(x[i], labels[i]) == y[i + 1];
      i := i + 1;
    }
  }

  /** The world after the labels. */
  ghost function Last<W(!new), L>(start: W, step: (W, L) -> W, labels: seq<L>): W {
    WorldsExist(start, step, labels);
    var ws: seq<W> :| Worlds(start, step, labels, ws);
    ws[|labels|]
  }

  lemma WorldsEnd<W(!new), L>(start: W, step: (W, L) -> W, labels: seq<L>, ws: seq<W>)
    requires Worlds(start, step, labels, ws)
    ensures Last(start, step, labels) == ws[|labels|]
  {
    hide Worlds;
    forall other: seq<W> | Worlds(start, step, labels, other) ensures other == ws {
      WorldsUnique(start, step, labels, other, ws);
    }
  }

  lemma LastStart<W(!new), L>(start: W, step: (W, L) -> W)
    ensures Last(start, step, []) == start
  {
    hide Last;
    var ws := SomeWorlds(start, step, []);
    WorldsEnd(start, step, [], ws);
  }

  /** A run goes one step further with every label. */
  lemma LastMore<W(!new), L>(start: W, step: (W, L) -> W, labels: seq<L>, l: L)
    ensures Last(start, step, labels + [l]) == step(Last(start, step, labels), l)
  {
    hide Last;
    var all, n := labels + [l], |labels|;
    var ws := SomeWorlds(start, step, all);
    WorldsEnd(start, step, all, ws);
    forall i | 0 <= i < n ensures ws[..n + 1][i + 1] == step(ws[..n + 1][i], labels[i]) {
      assert all[i] == labels[i];
    }
    WorldsEnd(start, step, labels, ws[..n + 1]);
    assert all[n] == l;
  }
}
