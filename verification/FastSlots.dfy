/** The scan over the fast slots, as the loop over the array that it is. */
module FastSlots {
  import opened Wrappers

  /** `Debt::NONE`. */
  const NONE: nat := 3
  const DEBT_SLOT_CNT: nat := 8

  /** Thread-local information: the next slot in rotation. */
  class Local {
    var offset: nat

    constructor ()
      ensures offset == 0
    {
      offset := 0;
    }
  }

  /** The index that is looked at in turn `i`. */
  function Turn(i: nat, offset: nat): (j: nat)
    ensures j < DEBT_SLOT_CNT
  {
    (i + offset) % DEBT_SLOT_CNT
  }

  /** The turn in which index `j` is looked at. */
  function TurnOf(j: nat, offset: nat): (i: nat)
    requires j < DEBT_SLOT_CNT
    ensures i < DEBT_SLOT_CNT
  {
    (j + DEBT_SLOT_CNT - offset % DEBT_SLOT_CNT) % DEBT_SLOT_CNT
  }

  /** The rotation is a permutation, for every offset: each index has exactly one turn.  It begins at the
      offset and goes up by one, around the end. */
  lemma RotationVisitsEachOnce(offset: nat, j: nat, i: nat)
    requires j < DEBT_SLOT_CNT && i < DEBT_SLOT_CNT
    ensures Turn(i, offset) == j <==> i == TurnOf(j, offset)
    ensures offset < DEBT_SLOT_CNT ==> Turn(0, offset) == offset
    ensures Turn(i + 1, offset) == if Turn(i, offset) + 1 < DEBT_SLOT_CNT then Turn(i, offset) + 1 else 0
  {
    var k := offset % DEBT_SLOT_CNT;
    assert offset == DEBT_SLOT_CNT * (offset / DEBT_SLOT_CNT) + k;
    assert Turn(i, offset) == (i + k) % DEBT_SLOT_CNT;
  }

  class Slots {
    const slots: array<nat>

    ghost predicate Valid()
      reads this
    {
      slots.Length == DEBT_SLOT_CNT
    }

    constructor ()
      ensures Valid() && fresh(slots)
      ensures forall j :: 0 <= j < DEBT_SLOT_CNT ==> slots[j] == NONE
    {
      slots := new nat[DEBT_SLOT_CNT](_ => NONE);
    }

    /** Slot `j` is the first free one in rotation. */
    ghost predicate FirstFree(j: nat, offset: nat)
      requires Valid() && j < DEBT_SLOT_CNT
      reads this, slots
    {
      && slots[j] == NONE
      && forall k :: 0 <= k < DEBT_SLOT_CNT && TurnOf(k, offset) < TurnOf(j, offset) ==> slots[k] != NONE
    }

    /** Put `ptr` into the first free slot in rotation.  `None` means that every slot was occupied. */
    method GetDebt(ptr: nat, local: Local) returns (r: Option<nat>)
      requires Valid()
      modifies slots, local
      ensures r.None? <==> forall j :: 0 <= j < DEBT_SLOT_CNT ==> old(slots[j]) != NONE
      ensures r.None? ==> slots[..] == old(slots[..]) && local.offset == old(local.offset)
      ensures r.Some? ==>
        && r.value < DEBT_SLOT_CNT && old(FirstFree(r.value, local.offset))
        && slots[..] == old(slots[..])[r.value := ptr]
        && local.offset == r.value + 1
    {
      var offset := local.offset;
      var len := slots.Length;
      for i := 0 to len
        invariant slots[..] == old(slots[..]) && local.offset == offset
        invariant forall k :: 0 <= k < DEBT_SLOT_CNT && TurnOf(k, offset) < i ==> slots[k] != NONE
      {
        var j := (i + offset) % len;
        RotationVisitsEachOnce(offset, j, i);
        if slots[j] == NONE {
          slots[j] := ptr;
          local.offset := j + 1;
          return Some(j);
        }
        forall k | 0 <= k < DEBT_SLOT_CNT && TurnOf(k, offset) < i + 1 ensures slots[k] != NONE {
          if TurnOf(k, offset) == i { RotationVisitsEachOnce(offset, k, i); }
        }
      }
      return None;
    }
  }
}
