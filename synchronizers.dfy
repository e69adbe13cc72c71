/**
 * Synchronizers and finalizers (include/InterData.h): how an exported data set is combined
 * into its destination, and what happens to the original afterwards. The mode is chosen at
 * registration; only the None and Sum operations and the Keep and Clear finalizations have
 * implementations.
 */
module Synchronizers {
  import Wrappers
  import Exceptions

  /** `SynchronizationMode::Operation`; the source refers to `Sum` as `Add` (see README). */
  datatype Operation = None | Sum | Product | Max | Min | Average | Gather
  datatype Locality = Global | Local
  datatype Finalization = Keep | Clear

  /** `SynchronizationMode(operation, locality, finalization = Keep)`. */
  datatype SynchronizationMode = SynchronizationMode(operation: Operation, locality: Locality, finalization: Finalization := Keep)

  datatype Synchronizer = NoneSynchronizer | AddSynchronizer(numElements: int)
  datatype Finalizer = KeepFinalizer | ClearFinalizer(numElements: int)

  const SynchronizationNotImplemented: string := "Synchronization mode is not currently implemented"

  /**
   * `createSynchronizer(dataSet, mode)`, with `numElements` the data set's
   * `getNumElements()`: None and Sum have synchronizers, every other operation throws.
   */
  function CreateSynchronizer(numElements: int, mode: SynchronizationMode): (r: Wrappers.Result<Synchronizer, Exceptions.Failure>)
    ensures r.Success? <==> mode.operation in {Operation.None, Sum}
    ensures mode.operation == Operation.None ==> r == Wrappers.Success(NoneSynchronizer)
    ensures mode.operation == Sum ==> r == Wrappers.Success(AddSynchronizer(numElements))
    ensures r.Failure? ==> r.error == Exceptions.Failure(Exceptions.NotImplemented, SynchronizationNotImplemented)
  {
    match mode.operation
    case None => Wrappers.Success(NoneSynchronizer)
    case Sum => Wrappers.Success(AddSynchronizer(numElements))
    case _ => Wrappers.Failure(Exceptions.Failure(Exceptions.NotImplemented, SynchronizationNotImplemented))
  }

  /** `createFinalizer(dataSet, mode)`: both finalizations have implementations, so it never throws. */
  function CreateFinalizer(numElements: int, mode: SynchronizationMode): (f: Finalizer)
    ensures f.KeepFinalizer? <==> mode.finalization == Keep
    ensures mode.finalization == Clear ==> f == ClearFinalizer(numElements)
  {
    match mode.finalization
    case Keep => KeepFinalizer
    case Clear => ClearFinalizer(numElements)
  }

  /** The number of loop iterations of `for (int i = 0; i < numElements; i++)`. */
  function Count(numElements: int): nat {
    if numElements < 0 then 0 else numElements
  }

  /** The effect of one synchronizer run on the destination `d` with source `s`. */
  function Synchronized(sync: Synchronizer, d: seq<int>, s: seq<int>): (r: seq<int>)
    requires sync.AddSynchronizer? ==> Count(sync.numElements) <= |d| && Count(sync.numElements) <= |s|
    ensures |r| == |d|
  {
    match sync
    case NoneSynchronizer => d
    case AddSynchronizer(n) => seq(|d|, k requires 0 <= k < |d| => if k < Count(n) then d[k] + s[k] else d[k])
  }

  /**
   * `run(destination, source)`: the add synchronizer makes each of the first `numElements`
   * destination elements the old value plus the source's, leaves the rest and the source
   * unchanged; the none synchronizer changes nothing. Source and destination may be the
   * same buffer, which the add synchronizer then doubles.
   */
  method Run(sync: Synchronizer, dst: array<int>, src: array<int>)
    requires sync.AddSynchronizer? ==> Count(sync.numElements) <= dst.Length && Count(sync.numElements) <= src.Length
    modifies dst
    ensures dst[..] == Synchronized(sync, old(dst[..]), old(src[..]))
    ensures src != dst ==> src[..] == old(src[..])
  {
    if sync.AddSynchronizer? {
      var n := sync.numElements;
      var i := 0;
      while i < n
        invariant 0 <= i <= Count(n)
        invariant forall k :: 0 <= k < i ==> dst[k] == old(dst[k]) + old(src[k])
        invariant forall k :: i <= k < dst.Length ==> dst[k] == old(dst[k])
        invariant src != dst ==> src[..] == old(src[..])
      {
        dst[i] := dst[i] + src[i];
        i := i + 1;
      }
    }
  }

  /** Adding two sources in either order gives the same destination. */
  lemma SynchronizedCommutes(n: int, d: seq<int>, s: seq<int>, t: seq<int>)
    requires Count(n) <= |d| && Count(n) <= |s| && Count(n) <= |t|
    ensures Synchronized(AddSynchronizer(n), Synchronized(AddSynchronizer(n), d, s), t)
         == Synchronized(AddSynchronizer(n), Synchronized(AddSynchronizer(n), d, t), s)
  {
  }

  /** The sum, over all the buffers, of their elements at position `k`. */
  function ColumnSum(buffers: seq<seq<int>>, k: nat): int
    requires forall b :: 0 <= b < |buffers| ==> k < |buffers[b]|
    decreases |buffers|
  {
    if buffers == [] then 0 else ColumnSum(buffers[..|buffers| - 1], k) + buffers[|buffers| - 1][k]
  }

  /** Running the add synchronizer once per source buffer, in order. */
  function SynchronizedAll(n: int, d: seq<int>, buffers: seq<seq<int>>): (r: seq<int>)
    requires Count(n) <= |d|
    requires forall b :: 0 <= b < |buffers| ==> Count(n) <= |buffers[b]|
    ensures |r| == |d|
    decreases |buffers|
  {
    if buffers == [] then d
    else Synchronized(AddSynchronizer(n), SynchronizedAll(n, d, buffers[..|buffers| - 1]), buffers[|buffers| - 1])
  }

  /**
   * Accumulating a sequence of per-thread buffers with the add synchronizer leaves each of
   * the first `numElements` destination elements equal to its start value plus the sum of
   * the buffers' elements at that position; the rest are untouched.
   */
  lemma {:induction false} SynchronizedAllSums(n: int, d: seq<int>, buffers: seq<seq<int>>, k: nat)
    requires Count(n) <= |d|
    requires forall b :: 0 <= b < |buffers| ==> Count(n) <= |buffers[b]|
    requires k < |d|
    ensures k < Count(n) ==> SynchronizedAll(n, d, buffers)[k] == d[k] + ColumnSum(buffers, k)
    ensures k >= Count(n) ==> SynchronizedAll(n, d, buffers)[k] == d[k]
    decreases |buffers|
  {
    if buffers != [] {
      SynchronizedAllSums(n, d, buffers[..|buffers| - 1], k);
    }
  }

  /** The effect of `ClearFinalizer::run` as written: each element has 0 added to it. */
  function FinalizedAsWritten(fin: Finalizer, d: seq<int>): (r: seq<int>)
    requires fin.ClearFinalizer? ==> Count(fin.numElements) <= |d|
  {
    match fin
    case KeepFinalizer => d
    case ClearFinalizer(n) => seq(|d|, k requires 0 <= k < |d| => if k < Count(n) then d[k] + 0 else d[k])
  }

  /** The intended effect: Keep does nothing, Clear sets the first `numElements` elements to 0. */
  function Finalized(fin: Finalizer, d: seq<int>): (r: seq<int>)
    requires fin.ClearFinalizer? ==> Count(fin.numElements) <= |d|
    ensures |r| == |d|
  {
    match fin
    case KeepFinalizer => d
    case ClearFinalizer(n) => seq(|d|, k requires 0 <= k < |d| => if k < Count(n) then 0 else d[k])
  }

  /** As written, both finalizers leave the data unchanged: Clear does not clear. */
  lemma FinalizedAsWrittenIsIdentity(fin: Finalizer, d: seq<int>)
    requires fin.ClearFinalizer? ==> Count(fin.numElements) <= |d|
    ensures FinalizedAsWritten(fin, d) == d
  {
  }

  /** A one-element buffer holding 1 keeps its 1 under the Clear finalizer as written. */
  lemma ClearFinalizerCounterexample()
    ensures FinalizedAsWritten(ClearFinalizer(1), [1]) == [1]
    ensures Finalized(ClearFinalizer(1), [1]) == [0]
  {
    FinalizedAsWrittenIsIdentity(ClearFinalizer(1), [1]);
  }

  /** The intended Clear finalizer is idempotent and zeroes exactly the first `numElements` elements. */
  lemma FinalizedClears(n: int, d: seq<int>)
    requires Count(n) <= |d|
    ensures forall k :: 0 <= k < Count(n) ==> Finalized(ClearFinalizer(n), d)[k] == 0
    ensures Finalized(ClearFinalizer(n), d)[Count(n)..] == d[Count(n)..]
    ensures Finalized(ClearFinalizer(n), Finalized(ClearFinalizer(n), d)) == Finalized(ClearFinalizer(n), d)
  {
  }

  /** `run(data)` as written. */
  method RunFinalizerAsWritten(fin: Finalizer, data: array<int>)
    requires fin.ClearFinalizer? ==> Count(fin.numElements) <= data.Length
    modifies data
    ensures data[..] == FinalizedAsWritten(fin, old(data[..]))
  {
    if fin.ClearFinalizer? {
      var n := fin.numElements;
      var i := 0;
      while i < n
        invariant 0 <= i <= Count(n)
        invariant data[..] == old(data[..])
      {
        data[i] := data[i] + 0;
        i := i + 1;
      }
    }
  }

  /** `run(data)` as intended: the Clear finalizer sets each of the first `numElements` elements to 0. */
  method RunFinalizer(fin: Finalizer, data: array<int>)
    requires fin.ClearFinalizer? ==> Count(fin.numElements) <= data.Length
    modifies data
    ensures data[..] == Finalized(fin, old(data[..]))
  {
    if fin.ClearFinalizer? {
      var n := fin.numElements;
      var i := 0;
      while i < n
        invariant 0 <= i <= Count(n)
        invariant forall k :: 0 <= k < i ==> data[k] == 0
        invariant forall k :: i <= k < data.Length ==> data[k] == old(data[k])
      {
        data[i] := 0;
        i := i + 1;
      }
    }
  }
}
