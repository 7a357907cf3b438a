/** How the number of owned references changes when one component of the state changes. */
module Counting {
  import opened Protocol
  import opened Steps
  import opened Invariant

  lemma {:induction false} CellSum(xs: seq<Cell>, i: nat, x: Cell, p: Ptr)
    requires i < |xs|
    ensures SumCells(xs[i := x], p) == SumCells(xs, p) - CellHolds(xs[i], p) + CellHolds(x, p)
  {
    var k := |xs| - 1;
    if i < k {
      assert xs[i := x][..k] == xs[..k][i := x];
      CellSum(xs[..k], i, x, p);
    } else {
      assert xs[i := x][..k] == xs[..k];
    }
  }

  lemma {:induction false} GuardSum(xs: seq<Guard>, i: nat, x: Guard, p: Ptr)
    requires i < |xs|
    ensures SumGuards(xs[i := x], p) == SumGuards(xs, p) - GuardHolds(xs[i], p) + GuardHolds(x, p)
  {
    var k := |xs| - 1;
    if i < k {
      assert xs[i := x][..k] == xs[..k][i := x];
      GuardSum(xs[..k], i, x, p);
    } else {
      assert xs[i := x][..k] == xs[..k];
    }
  }

  lemma {:induction false} NodeSum(xs: seq<Node>, i: nat, x: Node, p: Ptr)
    requires i < |xs|
    ensures SumNodes(xs[i := x], p) == SumNodes(xs, p) - NodeHolds(xs[i], p) + NodeHolds(x, p)
  {
    var k := |xs| - 1;
    if i < k {
      assert xs[i := x][..k] == xs[..k][i := x];
      NodeSum(xs[..k], i, x, p);
    } else {
      assert xs[i := x][..k] == xs[..k];
    }
  }

  lemma {:induction false} ThreadSum(xs: seq<Thread>, i: nat, x: Thread, p: Ptr)
    requires i < |xs|
    ensures SumThreads(xs[i := x], p) == SumThreads(xs, p) - ThreadOwns(xs[i], p) + ThreadOwns(x, p)
  {
    var k := |xs| - 1;
    if i < k {
      assert xs[i := x][..k] == xs[..k][i := x];
      ThreadSum(xs[..k], i, x, p);
    } else {
      assert xs[i := x][..k] == xs[..k];
    }
  }

  lemma CellAppend(xs: seq<Cell>, x: Cell, p: Ptr)
    ensures SumCells(xs + [x], p) == SumCells(xs, p) + CellHolds(x, p)
  {
    assert (xs + [x])[..|xs|] == xs;
  }

  lemma GuardAppend(xs: seq<Guard>, x: Guard, p: Ptr)
    ensures SumGuards(xs + [x], p) == SumGuards(xs, p) + GuardHolds(x, p)
  {
    assert (xs + [x])[..|xs|] == xs;
  }

  lemma NodeAppend(xs: seq<Node>, x: Node, p: Ptr)
    ensures SumNodes(xs + [x], p) == SumNodes(xs, p) + NodeHolds(x, p)
  {
    assert (xs + [x])[..|xs|] == xs;
  }

  lemma ThreadAppend(xs: seq<Thread>, x: Thread, p: Ptr)
    ensures SumThreads(xs + [x], p) == SumThreads(xs, p) + ThreadOwns(x, p)
  {
    assert (xs + [x])[..|xs|] == xs;
  }

  /** What one component owns is part of the whole. */
  lemma {:induction false} CellPart(xs: seq<Cell>, i: nat, p: Ptr)
    requires i < |xs|
    ensures CellHolds(xs[i], p) <= SumCells(xs, p)
  {
    if i < |xs| - 1 { CellPart(xs[..|xs| - 1], i, p); }
  }

  lemma {:induction false} GuardPart(xs: seq<Guard>, i: nat, p: Ptr)
    requires i < |xs|
    ensures GuardHolds(xs[i], p) <= SumGuards(xs, p)
  {
    if i < |xs| - 1 { GuardPart(xs[..|xs| - 1], i, p); }
  }

  lemma {:induction false} ThreadPart(xs: seq<Thread>, i: nat, p: Ptr)
    requires i < |xs|
    ensures ThreadOwns(xs[i], p) <= SumThreads(xs, p)
  {
    if i < |xs| - 1 { ThreadPart(xs[..|xs| - 1], i, p); }
  }

  /** Settling a slot gives one reference to the guard that wrote it. */
  lemma SettleSum(s: State, n: nat, j: nat, p: Ptr)
    requires n < |s.nodes| && j < |s.nodes[n].slots| && s.nodes[n].slots[j].Owes? && SlotOK(s, n, j)
    ensures Owned(Settle(s, n, j), p) == Owned(s, p) + Eq(s.nodes[n].slots[j].ptr, p)
  {
    var nd := s.nodes[n];
    var w := nd.slots[j].who;
    NodeSum(s.nodes, n, nd.(slots := nd.slots[j := Free]), p);
    GuardSum(s.guards, w, s.guards[w].(paid := true), p);
  }
}
