/**
 * DynMem_<T>: an exclusively owned buffer of `numElem` elements.  The host
 * pointer is always there; in the mapped (CUFFT) build a device pointer
 * aliases the same pages, which the model keeps as a ghost field equal to the
 * host pointer.  A moved-from handle holds no pointers.
 */
module DynMemory {

  /** The values of a 64-bit C `size_t`. */
  type SizeT = n: int | 0 <= n < 0x1_0000_0000_0000_0000

  /** The values of a 32-bit C `unsigned int`, the index type of `operator[]`. */
  type UInt = i: int | 0 <= i < 0x1_0000_0000

  class DynMem<T(0)> {
    /** Host pointer: null only after the handle was moved from. */
    var ptrH: array?<T>
    /** Device pointer of the mapped build: the same storage as `ptrH`. */
    ghost var ptrD: array?<T>
    /** Element count given at construction; never set by the move constructor. */
    var numElem: SizeT

    /** The device pointer aliases the host pointer (both null after a move). */
    ghost predicate Valid()
      reads this
    {
      ptrD == ptrH
    }

    /** Allocates `numElem` elements (the contents are indeterminate). */
    constructor (numElem: SizeT)
      ensures Valid()
      ensures ptrH != null && fresh(ptrH) && ptrH.Length == numElem
      ensures this.numElem == numElem
    {
      this.numElem := numElem;
      ptrH := new T[numElem];
      ptrD := ptrH;
    }

    /**
     * Move constructor: takes `other`'s pointers and leaves `other` without
     * any.  Nothing is allocated or copied, and the element count of the new
     * handle is whatever the uninitialised field holds.
     */
    constructor MoveFrom(other: DynMem<T>)
      requires other.Valid()
      modifies other
      ensures Valid() && other.Valid()
      ensures ptrH == old(other.ptrH) && ptrD == old(other.ptrD)
      ensures other.ptrH == null && other.ptrD == null
      ensures other.numElem == old(other.numElem)
      ensures ptrH != null ==> ptrH[..] == old(other.ptrH[..])
    {
      numElem := *;
      ptrH := other.ptrH;
      ptrD := other.ptrD;
      new;
      other.ptrH := null;
      other.ptrD := null;
    }

    /**
     * Destructor: releases the host allocation (in the mapped build, the
     * device alias with it).  Returns what is released; null means the
     * handle was moved from and nothing is released.
     */
    method Destroy() returns (released: array?<T>)
      requires Valid()
      ensures released == ptrH && released == ptrD
    {
      released := ptrH;
    }

    /** hostMem(): the host pointer, the same storage as the device pointer. */
    function HostMem(): (p: array?<T>)
      reads this
      ensures Valid() ==> p == ptrD
    {
      ptrH
    }

    /** deviceMem() of the mapped build: the same storage as the host pointer. */
    ghost function DeviceMem(): (p: array?<T>)
      reads this
      ensures Valid() ==> p == HostMem()
    {
      ptrD
    }

    /**
     * Copy assignment: overwrites the first `numElem` elements of this
     * handle's allocation with those of `rhs` (a memcpy of `numElem`
     * elements).  The count is this handle's, not `rhs`'s; `rhs`'s
     * allocation must hold at least that many, and memcpy demands two
     * distinct allocations.  No pointer and no count changes.
     */
    method CopyAssign(rhs: DynMem<T>)
      requires ptrH != null && rhs.ptrH != null && ptrH != rhs.ptrH
      requires numElem <= ptrH.Length && numElem <= rhs.ptrH.Length
      modifies ptrH
      ensures unchanged(this, rhs)
      ensures ptrH[..numElem] == rhs.ptrH[..numElem]
      ensures ptrH[numElem..] == old(ptrH[numElem..])
      ensures rhs.ptrH[..] == old(rhs.ptrH[..])
    {
      forall i | 0 <= i < numElem {
        ptrH[i] := rhs.ptrH[i];
      }
    }

    /**
     * Move assignment: adopts `rhs`'s pointers and leaves `rhs` without any.
     * The allocation this handle owned before is not released: it stays
     * allocated with its contents, owned by neither handle.  The element
     * count of this handle is kept.  Moving a handle into itself leaves it
     * empty, since the source is cleared after the adoption.
     */
    method MoveAssign(rhs: DynMem<T>)
      requires Valid() && rhs.Valid()
      modifies this, rhs
      ensures Valid() && rhs.Valid()
      ensures rhs.ptrH == null && rhs.ptrD == null
      ensures rhs != this ==> ptrH == old(rhs.ptrH) && ptrD == old(rhs.ptrD)
      ensures rhs == this ==> ptrH == null
      ensures numElem == old(numElem) && rhs.numElem == old(rhs.numElem)
      ensures old(ptrH) != null && old(ptrH) != old(rhs.ptrH) ==> ptrH != old(ptrH) && rhs.ptrH != old(ptrH)
      ensures old(ptrH) != null ==> old(ptrH)[..] == old(ptrH[..])
    {
      ptrH := rhs.ptrH;
      rhs.ptrH := null;
      ptrD := rhs.ptrD;
      rhs.ptrD := null;
    }

    /** operator[]: the element at index `i` of the host allocation. */
    function At(i: UInt): (x: T)
      reads this, ptrH
      requires ptrH != null && i < ptrH.Length
      ensures x == ptrH[i]
    {
      ptrH[i]
    }
  }
}
