/**
 * The "dummy" algorithm (dummy_algo.c): its transfer copies the source
 * block into the destination block unchanged; init and close only trace.
 *
 * A C pointer into a buffer is modelled as an array together with the
 * index of the first byte the pointer designates.
 */
module DummyAlgo {
  import opened Posix

  /** `dummy_algo_init`: succeeds, always, and touches no state. */
  method Init() returns (r: int)
    ensures r == 0
  {
    r := 0;
  }

  /** `dummy_algo_close`: the algorithm has no state to release. */
  method Close()
  {
  }

  /**
   * The destination `d` after `n` bytes of `s`, starting at `from`, have
   * been copied over it at `at`: what `memcpy(d + at, s + from, n)` leaves.
   */
  function Copied(d: seq<byte>, at: nat, s: seq<byte>, from: nat, n: nat): (r: seq<byte>)
    requires at + n <= |d| && from + n <= |s|
    ensures |r| == |d|
    ensures r[at..at + n] == s[from..from + n]
    ensures forall i | 0 <= i < |d| && !(at <= i < at + n) :: r[i] == d[i]
  {
    d[..at] + s[from..from + n] + d[at + n..]
  }

  /**
   * `dummy_algo_transfer(dst, src, size)`: `memcpy` of `size` bytes, which
   * C requires to lie inside both buffers and not to overlap; returns `size`.
   */
  method Transfer(dst: array<byte>, dstAt: nat, src: array<byte>, srcAt: nat, size: nat)
    returns (r: nat)
    requires dstAt + size <= dst.Length && srcAt + size <= src.Length
    requires dst == src ==> dstAt + size <= srcAt || srcAt + size <= dstAt
    modifies dst
    ensures r == size
    ensures dst[..] == Copied(old(dst[..]), dstAt, old(src[..]), srcAt, size)
    ensures src[srcAt..srcAt + size] == old(src[srcAt..srcAt + size])
    ensures src != dst ==> src[..] == old(src[..])
  {
    forall i | 0 <= i < size {
      dst[dstAt + i] := src[srcAt + i];
    }
    r := size;
  }
}
