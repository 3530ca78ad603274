/**
 * Client sequences over DynMem: what a caller can conclude from the
 * contracts of its operations about who owns, releases or abandons which
 * allocation.  Destructors run in reverse order of construction, as they do
 * for C++ locals.
 */
module Lifecycle {
  import opened DynMemory

  /**
   * `DynMem b2(std::move(b1));` after writing `x` through b1's host pointer:
   * b2 reads `x` back from the very allocation b1 made, b2's destructor
   * releases that allocation and b1's destructor releases nothing.
   */
  method MoveConstructThenDestroy<T(0)>(n: SizeT, x: T)
    returns (allocation: array<T>, readBack: T, releasedByNew: array?<T>, releasedByMoved: array?<T>)
    requires n > 0
    ensures allocation.Length == n
    ensures readBack == x
    ensures releasedByNew == allocation && releasedByMoved == null
  {
    var b1 := new DynMem<T>(n);
    allocation := b1.HostMem();
    allocation[0] := x;
    var b2 := new DynMem<T>.MoveFrom(b1);
    readBack := b2.At(0);
    releasedByNew := b2.Destroy();
    releasedByMoved := b1.Destroy();
  }

  /**
   * `a = std::move(b);` between two live buffers: `a` adopts b's allocation
   * but keeps its own count, neither destructor releases the allocation `a`
   * owned before (it leaks), and b's destructor releases nothing.
   */
  method MoveAssignAbandons<T(0)>(n: SizeT, m: SizeT)
    returns (abandoned: array<T>, adopted: array<T>, targetCount: SizeT,
             releasedByTarget: array?<T>, releasedBySource: array?<T>)
    ensures abandoned.Length == n && adopted.Length == m
    ensures abandoned != adopted
    ensures targetCount == n
    ensures releasedByTarget == adopted && releasedBySource == null
  {
    var a := new DynMem<T>(n);
    var b := new DynMem<T>(m);
    abandoned, adopted := a.HostMem(), b.HostMem();
    a.MoveAssign(b);
    targetCount := a.numElem;
    releasedBySource := b.Destroy();
    releasedByTarget := a.Destroy();
  }

  /**
   * `b2 = b1;` between two buffers of the same count, then a write of `x`
   * through b2's host pointer: the copy made b2's elements equal to b1's, and
   * the later write changes b2 only.
   */
  method CopyIsIndependent<T(0)>(n: SizeT, x: T)
    returns (source: seq<T>, copy: seq<T>, sourceAfterWrite: seq<T>, copyAfterWrite: seq<T>)
    requires n > 0
    ensures |source| == n && copy == source
    ensures sourceAfterWrite == source
    ensures copyAfterWrite == [x] + source[1..]
  {
    var b1 := new DynMem<T>(n);
    var b2 := new DynMem<T>(n);
    b2.CopyAssign(b1);
    source, copy := b1.HostMem()[..], b2.HostMem()[..];
    var p := b2.HostMem();
    p[0] := x;
    sourceAfterWrite, copyAfterWrite := b1.HostMem()[..], p[..];
  }
}
