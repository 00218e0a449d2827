/**
 * Values that travel between the connection engine and the network: bytes,
 * the flags word, inbound headers, outbound segments, connection identifiers,
 * the state of an event-loop timer handle, and Python's slicing of byte strings.
 */
module Wire {

  newtype byte = b: int | 0 <= b < 256

  /** A network address, as the network layer hands it over (a dotted string). */
  type Addr = string

  /** The 16-bit flags word of a header: control bits low, header length in 32-bit words in the top 4 bits. */
  type Flags = bv16

  // Control bits, at their standard TCP positions.
  const FLAGS_FIN: Flags := 0x01
  const FLAGS_SYN: Flags := 0x02
  const FLAGS_ACK: Flags := 0x10

  /** Maximum segment size: the largest payload one segment carries. */
  const MSS: nat := 1460

  /** Delays, in seconds, with which the connection arms its timer. */
  const SHORT_DELAY: real := 0.5
  const LONG_DELAY: real := 1.0

  predicate HasFlag(flags: Flags, f: Flags) {
    flags & f == f
  }

  /** Number of header bytes announced by the flags word: four times its top four bits. */
  function HeaderLength(flags: Flags): (n: nat)
    ensures n % 4 == 0 && n <= 60
  {
    4 * ((flags >> 12) as int)
  }

  /**
   * A connection is keyed by the peer's address and port followed by the
   * server's own address and port, in that order.
   */
  datatype ConnId = ConnId(srcAddr: Addr, srcPort: nat, dstAddr: Addr, dstPort: nat)

  /** The fields of an inbound header, as the header reader returns them. */
  datatype Header = Header(srcPort: nat, dstPort: nat, seqNo: nat, ackNo: nat, flags: Flags,
                           windowSize: nat, checksum: nat, urgPtr: nat)

  /** An outbound segment: the header fields the engine chooses, its payload, and the address it is sent to. */
  datatype Segment = Segment(srcPort: nat, dstPort: nat, seqNo: int, ackNo: int, flags: Flags,
                             payload: seq<byte>, dest: Addr)

  /**
   * An event-loop timer handle. Cancelling marks any handle cancelled, even
   * one that has already run; a handle that ran without being cancelled is Fired.
   */
  datatype Timer = Pending(delay: real) | Fired | Cancelled

  function Min(a: int, b: int): int {
    if a <= b then a else b
  }

  /** Python's reading of a slice bound: negative counts from the end, then clamped to [0, n]. */
  function Clamp(i: int, n: nat): (r: nat)
    ensures r <= n
    ensures 0 <= i <= n ==> r == i
  {
    if i < 0 then (if i + n < 0 then 0 else i + n) else if i > n then n else i
  }

  /** Python's s[i:j]. */
  function Slice<T>(s: seq<T>, i: int, j: int): (r: seq<T>)
    ensures 0 <= i <= j <= |s| ==> r == s[i..j]
    ensures |r| <= |s|
  {
    var lo, hi := Clamp(i, |s|), Clamp(j, |s|);
    if lo <= hi then s[lo..hi] else []
  }

  /** Python's s[i:]. */
  function SliceFrom<T>(s: seq<T>, i: int): seq<T> {
    Slice(s, i, |s|)
  }

  /** Python's s[:j]. */
  function SliceTo<T>(s: seq<T>, j: int): seq<T> {
    Slice(s, 0, j)
  }

  /** Cutting at any non-negative position and gluing the halves gives the string back. */
  lemma SliceSplit<T>(s: seq<T>, n: nat)
    ensures SliceTo(s, n) + SliceFrom(s, n) == s
    ensures |SliceTo(s, n)| == Min(n, |s|)
    ensures |SliceFrom(s, n)| == |s| - Min(n, |s|)
  {
    if n > |s| {
      assert SliceTo(s, n) == s;
    } else {
      assert s[..n] + s[n..] == s;
    }
  }

  /** Slicing past a dropped prefix of m elements is slicing the original with bounds shifted by m. */
  lemma SliceShift<T>(s: seq<T>, m: nat, i: int, j: int)
    requires m <= |s| && m <= i <= j
    ensures Slice(s, i, j) == Slice(s[m..], i - m, j - m)
  {
    var lo, hi := Clamp(i, |s|), Clamp(j, |s|);
    assert Clamp(i - m, |s| - m) == lo - m && Clamp(j - m, |s| - m) == hi - m;
    assert s[lo..hi] == s[m..][lo - m..hi - m];
  }

  /** A prefix one longer is the prefix followed by the next element. */
  lemma PrefixGrows<T>(s: seq<T>, k: nat)
    requires k < |s|
    ensures s[..k + 1] == s[..k] + [s[k]]
  {
  }

  /** Concatenation of a sequence of byte strings, in order. */
  function Concat(ps: seq<seq<byte>>): seq<byte>
    decreases |ps|
  {
    if ps == [] then [] else Concat(ps[..|ps| - 1]) + ps[|ps| - 1]
  }

  lemma {:induction false} ConcatAppend(ps: seq<seq<byte>>, qs: seq<seq<byte>>)
    ensures Concat(ps + qs) == Concat(ps) + Concat(qs)
    decreases |qs|
  {
    if qs == [] {
      assert ps + qs == ps;
    } else {
      var n := |qs| - 1;
      assert (ps + qs)[..|ps + qs| - 1] == ps + qs[..n];
      ConcatAppend(ps, qs[..n]);
    }
  }

  /** f applied to each element of s, in order. */
  function Map<A, B>(s: seq<A>, f: A -> B): (r: seq<B>)
    ensures |r| == |s|
    ensures forall k :: 0 <= k < |s| ==> r[k] == f(s[k])
  {
    seq(|s|, k requires 0 <= k < |s| => f(s[k]))
  }

  /** Payloads of a list of segments, in order. */
  function Payloads(segs: seq<Segment>): seq<seq<byte>> {
    Map(segs, (g: Segment) => g.payload)
  }
}
