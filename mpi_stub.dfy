/**
 * The single-process MPI stub (src/MPIWrapper.cpp): the subset of MPI the code base uses,
 * for a run with one process of rank 0. Point-to-point and broadcast operations are
 * unimplemented and report failure; gather and reduce copy the local buffer.
 *
 * Buffers are bytes. `size_t` arithmetic wraps modulo 2^64, and a data type's size is
 * taken from an LP64 platform (`char` 1 byte, `int` and `float` 4, `double` 8).
 */
module MpiStub {
  type Byte = bv8

  /** 2^64, the modulus of `size_t`. */
  const SizeModulus: nat := 0x1_0000_0000_0000_0000

  /** The codes of `enum MPI_Datatype`; a variable of the type may hold any other `int` too. */
  const MPI_DATATYPE_NULL: int := 0
  const MPI_CHAR: int := 1
  const MPI_INT: int := 2
  const MPI_FLOAT: int := 3
  const MPI_DOUBLE: int := 4

  /** The return code of a stub that succeeds, and of one that is not implemented. */
  const Success: int := 0
  const NotImplemented: int := 1

  /**
   * `getSize(type)`: the byte size of one element, 0 for the null type, and `(size_t)-1`
   * for a value that is not an enumerator.
   */
  function GetSize(dtype: int): (size: nat)
    ensures size < SizeModulus
    ensures dtype == MPI_DATATYPE_NULL <==> size == 0
    ensures dtype == MPI_CHAR ==> size == 1
    ensures dtype == MPI_INT || dtype == MPI_FLOAT ==> size == 4
    ensures dtype == MPI_DOUBLE ==> size == 8
    ensures !(MPI_DATATYPE_NULL <= dtype <= MPI_DOUBLE) <==> size == SizeModulus - 1
  {
    match dtype
    case 0 => 0
    case 1 => 1
    case 2 => 4
    case 3 => 4
    case 4 => 8
    case _ => SizeModulus - 1
  }

  /** `count * getSize(type)` in `size_t`: the count converts to unsigned and the product wraps. */
  function ByteCount(count: int, dtype: int): (n: nat)
    ensures n < SizeModulus
    ensures 0 <= count && count * GetSize(dtype) < SizeModulus ==> n == count * GetSize(dtype)
  {
    (count * GetSize(dtype)) % SizeModulus
  }

  /** A negative count is a huge byte count, and so is a single element of an unknown type. */
  lemma ByteCountWraps()
    ensures ByteCount(-1, MPI_CHAR) == SizeModulus - 1
    ensures ByteCount(1, 7) == SizeModulus - 1
    ensures ByteCount(2, 7) == SizeModulus - 2
  {
  }

  /** Byte counts compare across types: two `int`s are as many bytes as eight `char`s. */
  lemma ByteCountAcrossTypes()
    ensures ByteCount(2, MPI_INT) == ByteCount(8, MPI_CHAR) == ByteCount(1, MPI_DOUBLE)
    ensures ByteCount(3, MPI_DATATYPE_NULL) == ByteCount(0, MPI_DOUBLE) == 0
  {
  }

  /** `MPI_Comm_rank(comm, &rank)`: the only process has rank 0. */
  method CommRank(comm: int) returns (rc: int, rank: int)
    ensures rc == Success && rank == 0
  {
    rank := 0;
    rc := Success;
  }

  /** `MPI_Comm_size(comm, &size)`: there is one process. */
  method CommSize(comm: int) returns (rc: int, size: int)
    ensures rc == Success && size == 1
  {
    size := 1;
    rc := Success;
  }

  /** `MPI_Comm_dup(comm, &newcomm)`: the new handle is the old one. */
  method CommDup(comm: int) returns (newcomm: int)
    ensures newcomm == comm
  {
    newcomm := comm;
  }

  /** `MPI_Barrier(comm)`: one process never waits. */
  method Barrier(comm: int) returns (rc: int)
    ensures rc == Success
  {
    rc := Success;
  }

  /** `MPI_Send`: not implemented; nothing is sent. */
  method Send(buf: seq<Byte>, count: int, dtype: int, dest: int, tag: int, comm: int) returns (rc: int)
    ensures rc == NotImplemented
  {
    rc := NotImplemented;
  }

  /** `MPI_Recv`: not implemented; the receive buffer is left as it is. */
  method Recv(buf: array<Byte>, count: int, dtype: int, source: int, tag: int, comm: int) returns (rc: int)
    ensures rc == NotImplemented
  {
    rc := NotImplemented;
  }

  /** `MPI_Sendrecv`: not implemented; the receive buffer is left as it is. */
  method Sendrecv(sendbuf: seq<Byte>, sendcount: int, sendtype: int, dest: int, sendtag: int,
                  recvbuf: array<Byte>, recvcount: int, recvtype: int, source: int, recvtag: int, comm: int)
    returns (rc: int)
    ensures rc == NotImplemented
  {
    rc := NotImplemented;
  }

  /** `MPI_Bcast`: not implemented; the buffer is left as it is. */
  method Bcast(buffer: array<Byte>, count: int, dtype: int, root: int, comm: int) returns (rc: int)
    ensures rc == NotImplemented
  {
    rc := NotImplemented;
  }

  /** Whether `MPI_Gather` copies: the root is process 0 and both sides count the same bytes. */
  predicate GatherAccepts(sendcount: int, sendtype: int, recvcount: int, recvtype: int, root: int) {
    root == 0 && ByteCount(sendcount, sendtype) == ByteCount(recvcount, recvtype)
  }

  /**
   * `MPI_Gather`: when it accepts, the first `sendcount * getSize(sendtype)` bytes of the
   * receive buffer become the send buffer's and the call succeeds; otherwise it fails and
   * the receive buffer is left unchanged. `memcpy` needs both buffers to hold that many bytes.
   */
  method Gather(sendbuf: seq<Byte>, sendcount: int, sendtype: int,
                recvbuf: array<Byte>, recvcount: int, recvtype: int, root: int, comm: int)
    returns (rc: int)
    requires GatherAccepts(sendcount, sendtype, recvcount, recvtype, root) ==>
      ByteCount(sendcount, sendtype) <= |sendbuf| && ByteCount(sendcount, sendtype) <= recvbuf.Length
    modifies recvbuf
    ensures rc == Success <==> GatherAccepts(sendcount, sendtype, recvcount, recvtype, root)
    ensures rc != Success ==> rc == NotImplemented && recvbuf[..] == old(recvbuf[..])
    ensures rc == Success ==> recvbuf[..] == Copied(old(recvbuf[..]), sendbuf, ByteCount(sendcount, sendtype))
  {
    if root == 0 && ByteCount(sendcount, sendtype) == ByteCount(recvcount, recvtype) {
      Memcpy(recvbuf, sendbuf, ByteCount(sendcount, sendtype));
      rc := Success;
    } else {
      rc := NotImplemented;
    }
  }

  /** The bytes of `dst` once `memcpy(dst, src, n)` has copied the first `n` bytes of `src`. */
  function Copied(dst: seq<Byte>, src: seq<Byte>, n: nat): (r: seq<Byte>)
    requires n <= |dst| && n <= |src|
    ensures |r| == |dst|
  {
    src[..n] + dst[n..]
  }

  /** What a copy leaves: the first `n` bytes are the source's, the rest are the destination's. */
  lemma CopiedSpec(dst: seq<Byte>, src: seq<Byte>, n: nat)
    requires n <= |dst| && n <= |src|
    ensures forall k :: 0 <= k < n ==> Copied(dst, src, n)[k] == src[k]
    ensures forall k :: n <= k < |dst| ==> Copied(dst, src, n)[k] == dst[k]
    ensures Copied(Copied(dst, src, n), src, n) == Copied(dst, src, n)
  {
    assert Copied(dst, src, n)[..n] == src[..n];
    assert Copied(dst, src, n)[n..] == dst[n..];
  }

  /** `memcpy(dst, src, n)`, one assignment of all `n` bytes. */
  method Memcpy(dst: array<Byte>, src: seq<Byte>, n: nat)
    requires n <= dst.Length && n <= |src|
    modifies dst
    ensures dst[..] == Copied(old(dst[..]), src, n)
  {
    forall k | 0 <= k < n {
      dst[k] := src[k];
    }
    assert dst[..] == Copied(old(dst[..]), src, n);
  }

  /**
   * `MPI_Reduce`: with one process the reduction of a buffer is the buffer, whatever the
   * operation and the root: the `count * getSize(dtype)` bytes are copied and it succeeds.
   */
  method Reduce(sendbuf: seq<Byte>, recvbuf: array<Byte>, count: int, dtype: int, op: int, root: int, comm: int)
    returns (rc: int)
    requires ByteCount(count, dtype) <= |sendbuf| && ByteCount(count, dtype) <= recvbuf.Length
    modifies recvbuf
    ensures rc == Success
    ensures recvbuf[..] == Copied(old(recvbuf[..]), sendbuf, ByteCount(count, dtype))
  {
    Memcpy(recvbuf, sendbuf, ByteCount(count, dtype));
    rc := Success;
  }

  /** `MPI_Allreduce`: `MPI_Reduce` with root 0. */
  method Allreduce(sendbuf: seq<Byte>, recvbuf: array<Byte>, count: int, dtype: int, op: int, comm: int)
    returns (rc: int)
    requires ByteCount(count, dtype) <= |sendbuf| && ByteCount(count, dtype) <= recvbuf.Length
    modifies recvbuf
    ensures rc == Success
    ensures recvbuf[..] == Copied(old(recvbuf[..]), sendbuf, ByteCount(count, dtype))
  {
    rc := Reduce(sendbuf, recvbuf, count, dtype, op, 0, comm);
  }
}
