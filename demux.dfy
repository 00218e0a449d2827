/**
 * The server's routing decision for one inbound segment: drop it (wrong
 * port, bad checksum, unknown connection), open a connection on SYN, or hand
 * it to the connection keyed by its 4-tuple.
 */
module Demux {
  import opened Wire

  datatype Decision =
    | WrongPort
    | BadChecksum
    | Open(id: ConnId, clientSeq: nat)
    | Forward(id: ConnId, seqNo: nat, ackNo: nat, flags: Flags, payload: seq<byte>)
    | Unknown(id: ConnId)

  /** The bytes after the header whose length the flags word announces (Python's segment[4*(flags>>12):]). */
  function PayloadOf(segment: seq<byte>, flags: Flags): seq<byte> {
    SliceFrom(segment, HeaderLength(flags))
  }

  /** The key of an inbound segment: the sender's address and port, then the receiving address and port. */
  function IdOf(srcAddr: Addr, dstAddr: Addr, h: Header): ConnId {
    ConnId(srcAddr, h.srcPort, dstAddr, h.dstPort)
  }

  /** Whether a segment passes the port and checksum filters. */
  predicate Admitted(porta: nat, ignoreChecksum: bool, h: Header, checksumOk: bool) {
    h.dstPort == porta && (ignoreChecksum || checksumOk)
  }

  /**
   * The decision for a segment with parsed header h and raw bytes segment,
   * given the listening port, the network's checksum setting, the keys of the
   * connection table, and whether the checksum routine returned zero.
   */
  function Decide(porta: nat, ignoreChecksum: bool, known: set<ConnId>,
                  srcAddr: Addr, dstAddr: Addr, h: Header, segment: seq<byte>, checksumOk: bool): Decision
  {
    if h.dstPort != porta then WrongPort
    else if !ignoreChecksum && !checksumOk then BadChecksum
    else
      var payload := PayloadOf(segment, h.flags);
      var id := IdOf(srcAddr, dstAddr, h);
      if HasFlag(h.flags, FLAGS_SYN) then Open(id, h.seqNo)
      else if id in known then Forward(id, h.seqNo, h.ackNo, h.flags, payload)
      else Unknown(id)
  }

  /** The server's initial sequence number: two random bytes read as a big-endian integer. */
  function InitialSeq(hi: byte, lo: byte): nat {
    (hi as int) * 256 + (lo as int)
  }

  /** The answer to a SYN: from the server's port to the peer's, SYN|ACK, sequence isn, acknowledging clientSeq + 1. */
  function SynAck(id: ConnId, isn: nat, clientSeq: nat): Segment {
    Segment(id.dstPort, id.srcPort, isn, clientSeq + 1, FLAGS_SYN | FLAGS_ACK, [], id.srcAddr)
  }

  // ---------------------------------------------------------------- lemmas

  /** The three ways a segment is dropped without touching any connection. */
  lemma DecideDrops(porta: nat, ignoreChecksum: bool, known: set<ConnId>,
                    srcAddr: Addr, dstAddr: Addr, h: Header, segment: seq<byte>, checksumOk: bool)
    ensures var d := Decide(porta, ignoreChecksum, known, srcAddr, dstAddr, h, segment, checksumOk);
      && (h.dstPort != porta ==> d == WrongPort)
      && (h.dstPort == porta && !ignoreChecksum && !checksumOk ==> d == BadChecksum)
      && ((Admitted(porta, ignoreChecksum, h, checksumOk) && !HasFlag(h.flags, FLAGS_SYN)
           && IdOf(srcAddr, dstAddr, h) !in known) ==> d == Unknown(IdOf(srcAddr, dstAddr, h)))
  {
  }

  /**
   * A connection is opened exactly for an admitted SYN, whether or not its
   * 4-tuple is already in the table, and it is keyed by that tuple with the
   * peer's sequence number.
   */
  lemma DecideOpens(porta: nat, ignoreChecksum: bool, known: set<ConnId>,
                    srcAddr: Addr, dstAddr: Addr, h: Header, segment: seq<byte>, checksumOk: bool)
    ensures var d := Decide(porta, ignoreChecksum, known, srcAddr, dstAddr, h, segment, checksumOk);
      && (d.Open? <==> Admitted(porta, ignoreChecksum, h, checksumOk) && HasFlag(h.flags, FLAGS_SYN))
      && (d.Open? ==> d.id == IdOf(srcAddr, dstAddr, h) && d.clientSeq == h.seqNo)
  {
  }

  /**
   * A segment reaches a connection exactly when it is admitted, lacks SYN,
   * and its 4-tuple is in the table; the connection then gets the header's
   * sequence number, acknowledgment number and flags, and the bytes after
   * the header.
   */
  lemma DecideForwards(porta: nat, ignoreChecksum: bool, known: set<ConnId>,
                       srcAddr: Addr, dstAddr: Addr, h: Header, segment: seq<byte>, checksumOk: bool)
    ensures var d := Decide(porta, ignoreChecksum, known, srcAddr, dstAddr, h, segment, checksumOk);
      && (d.Forward? <==> Admitted(porta, ignoreChecksum, h, checksumOk) && !HasFlag(h.flags, FLAGS_SYN)
                          && IdOf(srcAddr, dstAddr, h) in known)
      && (d.Forward? ==> d == Forward(IdOf(srcAddr, dstAddr, h), h.seqNo, h.ackNo, h.flags, PayloadOf(segment, h.flags)))
  {
  }

  /**
   * The payload is what follows the header: header and payload glue back to
   * the segment when the announced header fits, and the payload is empty when
   * it does not.
   */
  lemma PayloadFollowsHeader(segment: seq<byte>, flags: Flags)
    ensures HeaderLength(flags) <= |segment| ==>
      segment[..HeaderLength(flags)] + PayloadOf(segment, flags) == segment
    ensures HeaderLength(flags) <= |segment| ==> |PayloadOf(segment, flags)| == |segment| - HeaderLength(flags)
    ensures HeaderLength(flags) > |segment| ==> PayloadOf(segment, flags) == []
  {
    if HeaderLength(flags) <= |segment| {
      assert segment[..HeaderLength(flags)] + segment[HeaderLength(flags)..] == segment;
    }
  }

  /** Initial sequence numbers lie in [0, 65536), and every number there comes from exactly one pair of bytes. */
  lemma InitialSeqRange(hi: byte, lo: byte)
    ensures InitialSeq(hi, lo) < 65536
    ensures (InitialSeq(hi, lo) / 256) as byte == hi && (InitialSeq(hi, lo) % 256) as byte == lo
  {
  }

  lemma InitialSeqCovers(n: nat)
    requires n < 65536
    ensures InitialSeq((n / 256) as byte, (n % 256) as byte) == n
  {
  }

  /** The SYN+ACK carries the server's number and acknowledges the peer's number plus one, and nothing else. */
  lemma SynAckShape(id: ConnId, isn: nat, clientSeq: nat)
    ensures var s := SynAck(id, isn, clientSeq);
      && s.seqNo == isn && s.ackNo == clientSeq + 1 && s.payload == []
      && HasFlag(s.flags, FLAGS_SYN) && HasFlag(s.flags, FLAGS_ACK) && !HasFlag(s.flags, FLAGS_FIN)
      && s.srcPort == id.dstPort && s.dstPort == id.srcPort && s.dest == id.srcAddr
  {
  }
}
