/**
 The control word as the machine word it really is: two tag bits, and a generation counter that
 wraps around.  `w` is the width of the word in bits.
 */
module ControlWord {
  import opened Protocol
  import opened Steps
  import opened Wrappers

  const REPLACEMENT_TAG: nat := 1
  const GEN_TAG: nat := 2
  const TAGS: nat := 4
  const IDLE: nat := 0

  function Pow2(k: nat): (r: nat)
    ensures r > 0
  {
    if k == 0 then 1 else 2 * Pow2(k - 1)
  }

  // ---------------------------------------------------------------------------------------------
  // Tags

  /** The arms of the match in `help`. */
  datatype Arm = Nothing | Replaced(envelope: nat) | Generation(gen: nat) | Unreachable

  function Decode(control: nat): Arm {
    if control % TAGS == IDLE && control == IDLE then Nothing
    else if control % TAGS == REPLACEMENT_TAG then Replaced(control - control % TAGS)
    else if control % TAGS == GEN_TAG then Generation(control)
    else Unreachable
  }

  /** The words that `get_debt`, `help` and `confirm` store. */
  predicate IsIdleWord(c: nat) { c == IDLE }
  ghost predicate IsGenWord(c: nat) { exists g: nat :: g % TAGS == 0 && c == g + GEN_TAG }
  ghost predicate IsReplacementWord(c: nat) { exists e: nat :: e % TAGS == 0 && c == e + REPLACEMENT_TAG }

  /** Decoding is exact: each arm is taken for the words stored with that meaning and for no other,
      so the unreachable arm is taken for none of them. */
  lemma DecodeIsExact(c: nat)
    ensures Decode(c).Nothing? <==> IsIdleWord(c)
    ensures Decode(c).Generation? <==> IsGenWord(c)
    ensures Decode(c).Replaced? <==> IsReplacementWord(c)
    ensures Decode(c).Unreachable? <==> !IsIdleWord(c) && !IsGenWord(c) && !IsReplacementWord(c)
    ensures Decode(c).Replaced? ==> Decode(c).envelope % TAGS == 0 && Decode(c).envelope + REPLACEMENT_TAG == c
  {
    if c % TAGS == GEN_TAG { assert (c - GEN_TAG) % TAGS == 0 && c == (c - GEN_TAG) + GEN_TAG; }
    if c % TAGS == REPLACEMENT_TAG { assert (c - REPLACEMENT_TAG) % TAGS == 0 && c == (c - REPLACEMENT_TAG) + REPLACEMENT_TAG; }
  }

  // ---------------------------------------------------------------------------------------------
  // Generations

  /** A width has room for the tags. */
  lemma Room(w: nat)
    requires w >= 2
    ensures Pow2(w) == 4 * Pow2(w - 2)
  {
    assert Pow2(w) == 2 * Pow2(w - 1);
  }

  /** `wrapping_add(4)` in `w` bits. */
  function Bump(w: nat, g: nat): nat {
    if g + 4 < Pow2(w) then g + 4 else g + 4 - Pow2(w)
  }

  /** The counter after `n` increments. */
  function Nth(w: nat, n: nat): (g: nat)
    requires w >= 2
    ensures g + GEN_TAG < Pow2(w) && g % TAGS == 0
  {
    Room(w);
    if n == 0 then 0 else Bump(w, Nth(w, n - 1))
  }

  lemma MulMono(m: nat, a: nat, b: nat)
    requires a <= b
    ensures m * a <= m * b
  {
  }

  lemma ModUnique(m: nat, k: nat, r: nat)
    requires r < m
    ensures (m * k + r) % m == r
  {
    var x := m * k + r;
    assert x == m * (x / m) + x % m;
    if x / m < k { MulMono(m, x / m + 1, k); }
    if x / m > k { MulMono(m, k + 1, x / m); }
  }

  lemma ModNext(q: nat, n: nat)
    requires q > 0
    ensures (n + 1) % q == if n % q + 1 == q then 0 else n % q + 1
  {
    var d, r := n / q, n % q;
    assert n == q * d + r;
    if r + 1 == q {
      assert n + 1 == q * (d + 1) + 0;
      ModUnique(q, d + 1, 0);
    } else {
      ModUnique(q, d, r + 1);
    }
  }

  /** The generations count through all multiples of four, in a cycle of `2^(w-2)`. */
  lemma {:induction false} NthIs(w: nat, n: nat)
    requires w >= 2
    ensures Nth(w, n) == 4 * (n % Pow2(w - 2))
    decreases n
  {
    if n > 0 {
      NthIs(w, n - 1);
      Room(w);
      ModNext(Pow2(w - 2), n - 1);
    }
  }

  /** The `n`-th generation signals `discard`. */
  predicate Discards(w: nat, n: nat)
    requires w >= 2
  {
    Nth(w, n) == 0
  }

  /** The generation that signals `discard` is exactly the last one before the counter repeats. */
  lemma DiscardOnTheLast(w: nat, n: nat)
    requires w >= 2
    ensures Discards(w, n) <==> n % Pow2(w - 2) == 0
    ensures 1 <= n <= Pow2(w - 2) ==> (Discards(w, n) <==> n == Pow2(w - 2))
  {
    NthIs(w, n);
    if 1 <= n < Pow2(w - 2) { ModUnique(Pow2(w - 2), 0, n); }
    if n == Pow2(w - 2) { ModUnique(Pow2(w - 2), 1, 0); }
  }

  lemma ModGap(q: nat, m: nat, n: nat)
    requires m < n < m + q
    ensures m % q != n % q
  {
    assert m == q * (m / q) + m % q && n == q * (n / q) + n % q;
    if m / q < n / q { MulMono(q, m / q + 1, n / q); } else { MulMono(q, n / q, m / q); }
  }

  /** Any `2^(w-2)` generations in a row are pairwise distinct. */
  lemma GenerationsAreDistinct(w: nat, m: nat, n: nat)
    requires w >= 2 && m < n < m + Pow2(w - 2)
    ensures Nth(w, m) != Nth(w, n)
  {
    NthIs(w, m);
    NthIs(w, n);
    ModGap(Pow2(w - 2), m, n);
  }

  /** The thread-local counter. */
  class GenerationCounter {
    const w: nat
    var generation: nat
    ghost var count: nat

    ghost predicate Valid()
      reads this
    {
      w >= 2 && generation == Nth(w, count)
    }

    constructor (w: nat)
      requires w >= 2
      ensures Valid() && this.w == w && count == 0
    {
      this.w := w;
      generation := 0;
      count := 0;
    }

    /** The part of `get_debt` that makes the control word. */
    method Next() returns (control: nat, discard: bool)
      requires Valid()
      modifies this
      ensures Valid() && count == old(count) + 1
      ensures Decode(control) == Generation(Nth(w, count) + GEN_TAG) && control == Nth(w, count) + GEN_TAG && control < Pow2(w)
      ensures discard <==> Discards(w, count)
    {
      generation := Bump(w, generation);
      count := count + 1;
      discard := generation == 0;
      control := generation + GEN_TAG;
    }
  }

  /** How a fallback load ends. */
  datatype Outcome = Confirmed(control: nat) | Panicked

  /** `LocalNode`, as far as the generations concern it. */
  class LocalNode {
    const helping: GenerationCounter
    var node: Option<nat>

    ghost predicate Valid()
      reads this, helping
    {
      helping.Valid()
    }

    constructor (w: nat, n: nat)
      requires w >= 2
      ensures Valid() && fresh(helping) && node == Some(n) && helping.w == w && helping.count == 0
    {
      helping := new GenerationCounter(w);
      node := Some(n);
    }

    /** Makes the control word.  On a discard the node goes away. */
    method NewHelping() returns (control: nat)
      requires Valid() && node.Some?
      modifies this, helping
      ensures Valid() && helping.count == old(helping.count) + 1
      ensures control == Nth(helping.w, helping.count) + GEN_TAG
      ensures node == if Discards(helping.w, helping.count) then None else old(node)
    {
      var discard;
      control, discard := helping.Next();
      if discard { node := None; }
    }

    /** `new_helping` and then `confirm_helping` on the same `LocalNode`: the latter expects the node to be
        there still.  It is, except on every `2^(w-2)`-th generation. */
    method Fallback() returns (r: Outcome)
      requires Valid() && node.Some?
      modifies this, helping
      ensures Valid() && helping.count == old(helping.count) + 1
      ensures r.Panicked? <==> Discards(helping.w, old(helping.count) + 1)
      ensures r.Confirmed? ==> node == old(node) && r.control == Nth(helping.w, helping.count) + GEN_TAG
    {
      var control := NewHelping();
      match node
      case Some(_) => r := Confirmed(control);
      case None => r := Panicked;
    }
  }

  // ---------------------------------------------------------------------------------------------
  // The words behind the state machine

  /** The word that stands for a control of the state machine; `addr` gives the envelopes' addresses. */
  function Encode(w: nat, addr: seq<nat>, k: Control): nat
    requires w >= 2 && (k.Repl? ==> k.env < |addr|)
  {
    match k
    case Idle => IDLE
    case Gen(g, _) => Nth(w, g) + GEN_TAG
    case Repl(e, _) => addr[e] + REPLACEMENT_TAG
  }

  /** Equal, as far as the program can see. */
  predicate Alike(k: Control, l: Control) {
    match k
    case Idle => l.Idle?
    case Gen(g, _) => l.Gen? && l.gen == g
    case Repl(e, _) => l.Repl? && l.env == e
  }

  /** While no counter has wrapped around, comparing words is comparing controls: the compare-exchange
      of `help` and the test in `confirm` decide what the state machine decides. */
  lemma WordsAreControls(w: nat, addr: seq<nat>, k: Control, l: Control)
    requires w >= 2
    requires forall e :: 0 <= e < |addr| ==> addr[e] % TAGS == 0
    requires forall d, e :: 0 <= d < e < |addr| ==> addr[d] != addr[e]
    requires (k.Repl? ==> k.env < |addr|) && (l.Repl? ==> l.env < |addr|)
    requires (k.Gen? ==> k.gen < Pow2(w - 2)) && (l.Gen? ==> l.gen < Pow2(w - 2))
    ensures Encode(w, addr, k) == Encode(w, addr, l) <==> Alike(k, l)
    ensures Decode(Encode(w, addr, k)).Nothing? <==> k.Idle?
    ensures Decode(Encode(w, addr, k)).Generation? <==> k.Gen?
    ensures k.Repl? <==> Decode(Encode(w, addr, k)) == Replaced(if k.Repl? then addr[k.env] else 1)
  {
    if k.Gen? && l.Gen? {
      if k.gen < l.gen { GenerationsAreDistinct(w, k.gen, l.gen); }
      if l.gen < k.gen { GenerationsAreDistinct(w, l.gen, k.gen); }
    }
  }

  lemma SameGenIsSameWord(w: nat, addr: seq<nat>, k: Control, gen: nat)
    requires w >= 2 && gen < Pow2(w - 2) && (k.Gen? ==> k.gen < Pow2(w - 2))
    requires forall e :: 0 <= e < |addr| ==> addr[e] % TAGS == 0
    requires forall d, e :: 0 <= d < e < |addr| ==> addr[d] != addr[e]
    requires k.Repl? ==> k.env < |addr|
    ensures SameGen(k, gen) <==> Encode(w, addr, k) == Nth(w, gen) + GEN_TAG
  {
    WordsAreControls(w, addr, k, Gen(gen, 0));
  }
}
