/**
 * The per-connection engine of the server as pure transitions on the
 * connection's counters, its retransmission buffer and its timer handle.
 * Each entry point of a connection (a received segment, the timer running,
 * a send, a close) is one function from the old state to the new state and
 * the segments handed to the network.
 */
module Connection {
  import opened Wire

  /**
   * The mutable fields of one connection.
   * seqNo: the sequence number put on acknowledgments (the last acknowledgment number received);
   * ackNo: the next sequence number expected from the peer;
   * answerSeq: the server's own sequence counter, advanced by every byte sent;
   * lastSent: the retransmission buffer;
   * timer: the handle of the retransmission timer.
   */
  datatype Conn = Conn(seqNo: int, ackNo: int, answerSeq: int, lastSent: seq<byte>, timer: Timer)

  /** What a received segment does: the new state, the payloads handed to the receive callback, the segments sent, and whether the connection leaves the table. */
  datatype Reaction = Reaction(next: Conn, deliver: seq<seq<byte>>, out: seq<Segment>, teardown: bool)

  /** What a timer run or a send does: the new state and the segments sent. */
  datatype Step = Step(next: Conn, out: seq<Segment>)

  /**
   * A new connection, created on the peer's SYN. Its seqNo starts at the
   * peer's sequence number and its ackNo one past it; answerSeq is the
   * server's initial sequence number; a timer is armed for SHORT_DELAY.
   */
  function Init(clientSeq: int, answerSeq: int): Conn {
    Conn(clientSeq, clientSeq + 1, answerSeq, [], Pending(SHORT_DELAY))
  }

  /** An acknowledgment alone: no payload, ACK set, FIN clear. */
  predicate IsPureAck(flags: Flags, payload: seq<byte>) {
    |payload| == 0 && HasFlag(flags, FLAGS_ACK) && !HasFlag(flags, FLAGS_FIN)
  }

  /** A segment from the server's port to the peer's, sent to the peer's address. */
  function ToPeer(id: ConnId, seqNo: int, ackNo: int, flags: Flags, payload: seq<byte>): Segment {
    Segment(id.dstPort, id.srcPort, seqNo, ackNo, flags, payload, id.srcAddr)
  }

  /** The segment-receive handler of a connection. */
  function Receive(c: Conn, id: ConnId, registered: bool,
                   seqNo: int, ackNo: int, flags: Flags, payload: seq<byte>): Reaction
  {
    if seqNo != c.ackNo then
      Reaction(c, [], [], false)
    else
      var c1 := c.(seqNo := ackNo);
      if IsPureAck(flags, payload) then
        // the buffer is cut at ackNo - seqNo, read after seqNo was set to ackNo
        var c2 := c1.(timer := Cancelled, lastSent := SliceFrom(c1.lastSent, ackNo - c1.seqNo), seqNo := ackNo);
        var c3 := if ackNo < c2.answerSeq then c2.(timer := Pending(LONG_DELAY)) else c2;
        Reaction(c3, [], [], false)
      else
        var c2 := c1.(ackNo := c1.ackNo + if |payload| > 0 then |payload| else 1);
        Reaction(c2, if registered then [payload] else [],
                 [ToPeer(id, c2.seqNo, c2.ackNo, FLAGS_ACK, [])], HasFlag(flags, FLAGS_FIN))
  }

  /** The retransmission-timer handler, run by the event loop when the handle fires. */
  function TimerFires(c: Conn, id: ConnId): Step {
    var c1 := c.(timer := Fired);
    if |c1.lastSent| > 0 then
      var seg := ToPeer(id, c1.seqNo, c1.ackNo, FLAGS_ACK, SliceTo(c1.lastSent, MSS));
      Step(c1.(lastSent := SliceFrom(c1.lastSent, MSS), timer := Pending(SHORT_DELAY)), [seg])
    else
      Step(c1, [])
  }

  /** Number of rounds of a loop over range(0, n, MSS): the MSS-sized pieces of n bytes, the last one possibly shorter. */
  function NumChunks(n: nat): nat
    decreases n
  {
    if n == 0 then 0 else if n <= MSS then 1 else 1 + NumChunks(n - MSS)
  }

  /** Piece k of data: Python's data[k*MSS : k*MSS + MSS]. */
  function Chunk(data: seq<byte>, k: nat): seq<byte> {
    Slice(data, k * MSS, k * MSS + MSS)
  }

  /** All the pieces of data, in order. */
  function Chunks(data: seq<byte>): seq<seq<byte>> {
    seq(NumChunks(|data|), k requires 0 <= k < NumChunks(|data|) => Chunk(data, k))
  }

  /**
   * The segments a send of data emits, starting from the counter answerSeq:
   * piece k carries sequence number answerSeq + 1 + k*MSS and is addressed
   * to the server's own address (the third part of the connection id).
   */
  function SendSegments(id: ConnId, answerSeq: int, ackNo: int, data: seq<byte>): seq<Segment> {
    seq(NumChunks(|data|), k requires 0 <= k < NumChunks(|data|) =>
      Segment(id.dstPort, id.srcPort, answerSeq + 1 + k * MSS, ackNo, FLAGS_ACK, Chunk(data, k), id.dstAddr))
  }

  /**
   * The application's send: the buffer is replaced by data, answerSeq advances
   * by its length, and the timer is re-armed only if its handle was cancelled
   * and at least one piece goes out.
   */
  function Send(c: Conn, id: ConnId, data: seq<byte>): Step {
    var t := if |data| > 0 && c.timer.Cancelled? then Pending(LONG_DELAY) else c.timer;
    Step(c.(answerSeq := c.answerSeq + |data|, lastSent := data, timer := t),
         SendSegments(id, c.answerSeq, c.ackNo, data))
  }

  /** The application's close: one empty FIN segment with the current counters. */
  function FinSegment(c: Conn, id: ConnId): Segment {
    ToPeer(id, c.seqNo, c.ackNo, FLAGS_FIN, [])
  }

  /** Whether a received segment takes the path that removes the connection from the table. */
  predicate TearsDown(c: Conn, seqNo: int, flags: Flags) {
    seqNo == c.ackNo && HasFlag(flags, FLAGS_FIN)
  }
}
