/** The loop of `Debt::pay_all` on its own: the slots of all nodes, and the pre-paid reference. */
module PayAll {
  import opened FastSlots

  /** The reference count of the object that is paid for. */
  class Count {
    var refs: nat

    constructor (n: nat)
      ensures refs == n
    {
      refs := n;
    }
  }

  /** The slots of one node that owe `p`. */
  function Debts(slots: seq<nat>, p: nat): (d: set<nat>)
    ensures forall x: nat :: x in d <==> x < |slots| && slots[x] == p
  {
    set x: nat | 0 <= x < |slots| && slots[x] == p
  }

  /** The slots of all nodes that owe `p`. */
  function AllDebts(nodes: seq<seq<nat>>, p: nat): (d: set<(nat, nat)>)
    ensures forall n: nat, x: nat :: (n, x) in d <==> n < |nodes| && x < |nodes[n]| && nodes[n][x] == p
  {
    set n: nat, x: nat | 0 <= n < |nodes| && 0 <= x < |nodes[n]| && nodes[n][x] == p :: (n, x)
  }

  /** The number of debts on `p` is how often `p` occurs among the slots. */
  lemma {:induction false} DebtsCount(slots: seq<nat>, p: nat)
    ensures |Debts(slots, p)| == multiset(slots)[p]
  {
    if |slots| > 0 {
      var k := |slots| - 1;
      DebtsCount(slots[..k], p);
      OneMore(slots, k, p);
      assert slots == slots[..k] + [slots[k]];
      assert slots[..|slots|] == slots;
    }
  }

  lemma OneMore(slots: seq<nat>, k: nat, p: nat)
    requires k < |slots|
    ensures |Debts(slots[..k + 1], p)| == |Debts(slots[..k], p)| + (if slots[k] == p then 1 else 0)
  {
    var before, now := Debts(slots[..k], p), Debts(slots[..k + 1], p);
    assert now == if slots[k] == p then before + {k} else before;
  }

  /** The debts of one more node. */
  lemma NodeMore(nodes: seq<seq<nat>>, k: nat, p: nat)
    requires k < |nodes|
    ensures |AllDebts(nodes[..k + 1], p)| == |AllDebts(nodes[..k], p)| + |Debts(nodes[k], p)|
  {
    var before, now, here := AllDebts(nodes[..k], p), AllDebts(nodes[..k + 1], p), Debts(nodes[k], p);
    var placed := At(here, k);
    assert now == before + placed;
    assert before !! placed;
    AtSize(here, k);
  }

  function At(xs: set<nat>, k: nat): (d: set<(nat, nat)>)
    ensures forall n: nat, x: nat :: (n, x) in d <==> n == k && x in xs
  {
    set x | x in xs :: (k, x)
  }

  lemma {:induction false} AtSize(xs: set<nat>, k: nat)
    ensures |At(xs, k)| == |xs|
    decreases |xs|
  {
    if xs != {} {
      var y :| y in xs;
      AtSize(xs - {y}, k);
      assert At(xs, k) == At(xs - {y}, k) + {(k, y)};
    }
  }

  /** After a sweep for `p` no slot owes `p`, and debts on other pointers are where they were. */
  lemma SweptDebts(before: seq<nat>, after: seq<nat>, p: nat, q: nat)
    requires p != NONE && q != NONE && |after| == |before|
    requires forall x :: 0 <= x < |before| ==> after[x] == if before[x] == p then NONE else before[x]
    ensures Debts(after, q) == if q == p then {} else Debts(before, q)
    ensures multiset(after)[q] == if q == p then 0 else multiset(before)[q]
  {
    assert Debts(after, q) == if q == p then {} else Debts(before, q);
    DebtsCount(after, q);
    DebtsCount(before, q);
  }

  /** `Debt::pay`. */
  method Pay(slots: array<nat>, i: nat, p: nat) returns (paid: bool)
    requires i < slots.Length
    modifies slots
    ensures paid == (old(slots[i]) == p)
    ensures slots[..] == if paid then old(slots[..])[i := NONE] else old(slots[..])
  {
    paid := slots[i] == p;
    if paid { slots[i] := NONE; }
  }

  /** One node.  Whenever a slot is tried, one reference is there to be given away: the count is ahead
      of the payments by the pre-paid one. */
  method PayNode(slots: array<nat>, p: nat, count: Count, ghost base: nat)
    requires count.refs == base + 1
    modifies slots, count
    ensures forall x :: 0 <= x < slots.Length ==> slots[x] == if old(slots[x]) == p then NONE else old(slots[x])
    ensures count.refs == base + multiset(old(slots[..]))[p] + 1
  {
    ghost var was := slots[..];
    for i := 0 to slots.Length
      invariant forall k :: 0 <= k < i ==> slots[k] == if was[k] == p then NONE else was[k]
      invariant forall k :: i <= k < slots.Length ==> slots[k] == was[k]
      invariant count.refs == base + |Debts(was[..i], p)| + 1
    {
      OneMore(was, i, p);
      ghost var now := slots[..];
      var paid := Pay(slots, i, p);
      if paid { count.refs := count.refs + 1; }
      assert forall k :: 0 <= k < slots.Length && k != i ==> slots[..][k] == now[k];
    }
    assert was[..|was|] == was;
    DebtsCount(was, p);
  }

  /** The whole sweep: every debt on `p` is paid, no other slot changes, and the count has risen by
      exactly the number of debts paid. */
  method PayAllDebts(p: nat, nodes: seq<array<nat>>, count: Count)
    requires forall m, n :: 0 <= m < n < |nodes| ==> nodes[m] != nodes[n]
    modifies count, set n | n in nodes
    ensures forall n, x :: 0 <= n < |nodes| && 0 <= x < nodes[n].Length ==>
      nodes[n][x] == if old(nodes[n][x]) == p then NONE else old(nodes[n][x])
    ensures count.refs == old(count.refs) + |AllDebts(old(Contents(nodes)), p)|
  {
    ghost var was := Contents(nodes);
    count.refs := count.refs + 1;
    for n := 0 to |nodes|
      invariant forall m, x :: 0 <= m < n && 0 <= x < nodes[m].Length ==> nodes[m][x] == if was[m][x] == p then NONE else was[m][x]
      invariant forall m :: n <= m < |nodes| ==> nodes[m][..] == was[m]
      invariant count.refs == old(count.refs) + |AllDebts(was[..n], p)| + 1
    {
      NodeMore(was, n, p);
      DebtsCount(was[n], p);
      ghost var now := Contents(nodes);
      PayNode(nodes[n], p, count, old(count.refs) + |AllDebts(was[..n], p)|);
      assert forall m :: 0 <= m < |nodes| && m != n ==> nodes[m][..] == now[m];
    }
    assert was[..|was|] == was;
    count.refs := count.refs - 1;
  }

  ghost function Contents(nodes: seq<array<nat>>): (r: seq<seq<nat>>)
    reads set n | n in nodes
    ensures |r| == |nodes| && forall i :: 0 <= i < |nodes| ==> r[i] == nodes[i][..]
  {
    if |nodes| == 0 then [] else Contents(nodes[..|nodes| - 1]) + [nodes[|nodes| - 1][..]]
  }
}
