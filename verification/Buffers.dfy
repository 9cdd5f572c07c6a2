/** The fixed arrays with a count that the server keeps its tables in. */
module Buffers {
  import opened Sequences
  import opened Outboxes

  /** Put the newest entry in front; a full roll loses its last one. */
  function Enroll<T>(roll: seq<T>, x: T, cap: nat): (r: seq<T>)
    requires 0 < cap
    ensures |r| <= cap
  {
    [x] + FirstN(roll, cap - 1)
  }

  /** A roll that only ever grew by Enroll is the front of its reversed history. */
  lemma RollIsRecentHistory<T>(history: seq<T>, x: T, cap: nat)
    requires 0 < cap
    ensures Enroll(FirstN(Reverse(history), cap), x, cap) == FirstN(Reverse(history + [x]), cap)
  {
    ReverseSnoc(history, x);
    var r := Reverse(history);
    assert FirstN(FirstN(r, cap), cap - 1) == FirstN(r, cap - 1);
  }

  class Buffer<T(0)> {
    const slots: array<T>
    var count: nat

    ghost predicate Valid()
      reads this
    {
      0 < slots.Length && count <= slots.Length
    }

    ghost function Contents(): seq<T>
      reads this, slots
      requires Valid()
    {
      slots[..count]
    }

    constructor (cap: nat)
      requires 0 < cap
      ensures Valid() && slots.Length == cap && Contents() == []
      ensures fresh(slots)
    {
      slots := new T[cap];
      count := 0;
    }

    /** The outbox append: when full, everything moves down over the oldest. */
    method Push(x: T)
      requires Valid()
      modifies this`count, slots
      ensures Valid()
      ensures Contents() == PushDropOldest(old(Contents()), x, slots.Length)
    {
      if count >= slots.Length {
        forall i | 0 <= i < slots.Length - 1 { slots[i] := slots[i + 1]; }
        count := slots.Length - 1;
      }
      slots[count] := x;
      count := count + 1;
    }

    /** The roll insert: everything moves up, the last one out when full. */
    method PushFront(x: T)
      requires Valid()
      modifies this`count, slots
      ensures Valid()
      ensures Contents() == Enroll(old(Contents()), x, slots.Length)
    {
      if count >= slots.Length {
        count := slots.Length - 1;
      }
      if count > 0 {
        forall i | 1 <= i <= count { slots[i] := slots[i - 1]; }
      }
      slots[0] := x;
      count := count + 1;
    }

    /** Copy out at most cap entries from the front and close the gap. */
    method Take(cap: nat) returns (batch: seq<T>)
      requires Valid()
      modifies this`count, slots
      ensures Valid()
      ensures batch == FirstN(old(Contents()), cap)
      ensures batch + Contents() == old(Contents())
    {
      var n := if count < cap then count else cap;
      batch := slots[..n];
      if n > 0 {
        count := count - n;
        if count > 0 {
          forall i | 0 <= i < count { slots[i] := slots[i + n]; }
        }
      }
    }
  }
}
