/** The array-backed ring buffer that stores the values of a channel. */
module RingBuffers {
  /** An index that has run past the end at most once, brought back into a ring of `capacity` slots. */
  function Wrap(i: nat, capacity: nat): nat {
    if i < capacity then i else i - capacity
  }

  class ArrayBuf<T(0)> {
    /** Slots that hold no stored item have arbitrary contents, like the uninitialised memory of the source. */
    const buffer: array<T>
    var size: nat
    var recvIdx: nat
    var sendIdx: nat
    /** The stored items, oldest first. */
    ghost var Items: seq<T>

    ghost predicate Valid()
      reads this, buffer
    {
      && size == |Items| <= buffer.Length
      && (buffer.Length == 0 ==> recvIdx == 0)
      && (buffer.Length > 0 ==> recvIdx < buffer.Length)
      && sendIdx == Wrap(recvIdx + size, buffer.Length)
      && forall i :: 0 <= i < size ==> Items[i] == buffer[Wrap(recvIdx + i, buffer.Length)]
    }

    constructor (capacity: nat)
      ensures Valid() && Items == [] && buffer.Length == capacity && fresh(buffer)
    {
      buffer := new T[capacity];
      size, recvIdx, sendIdx, Items := 0, 0, 0, [];
    }

    function Capacity(): nat {
      buffer.Length
    }

    method IsEmpty() returns (r: bool)
      requires Valid()
      ensures r <==> Items == []
    {
      r := size == 0;
    }

    method CanPush() returns (r: bool)
      requires Valid()
      ensures r <==> |Items| < Capacity()
    {
      r := size != buffer.Length;
    }

    method NextIdx(lastIdx: nat) returns (r: nat)
      requires lastIdx < buffer.Length
      ensures r == Wrap(lastIdx + 1, buffer.Length)
    {
      if lastIdx + 1 == buffer.Length {
        return 0;
      }
      return lastIdx + 1;
    }

    /** Stores an item behind the others; the source panics when there is no free slot. */
    method Push(value: T)
      requires Valid() && |Items| < Capacity()
      modifies this, buffer
      ensures Valid()
      ensures Items == old(Items) + [value]
    {
      buffer[sendIdx] := value;
      sendIdx := NextIdx(sendIdx);
      size := size + 1;
      Items := Items + [value];
    }

    /** Takes the oldest item; the source panics when there is none. */
    method Pop() returns (value: T)
      requires Valid() && Items != []
      modifies this
      ensures Valid()
      ensures old(Items) == [value] + Items
    {
      value := buffer[recvIdx];
      recvIdx := NextIdx(recvIdx);
      size := size - 1;
      Items := Items[1..];
    }

    /** The destructor: releases the stored items and nothing else, oldest first. */
    method Drop() returns (released: seq<T>)
      requires Valid()
      modifies this
      ensures Valid() && Items == []
      ensures released == old(Items)
    {
      released := [];
      while size > 0
        invariant Valid()
        invariant released + Items == old(Items)
        decreases size
      {
        var value := Pop();
        released := released + [value];
      }
    }
  }
}
