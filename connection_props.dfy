/**
 * Properties of the per-connection transitions: what a received segment
 * does in each of its three cases, that duplicates are harmless, that an
 * in-order stream comes out intact, how a send cuts its data into segments,
 * and what repeated timer runs retransmit.
 */
module ConnectionProps {
  import opened Wire
  import opened Connection

  // ---------------------------------------------------------------- receive

  /** A segment whose sequence number is not the expected one changes nothing and is not answered. */
  lemma ReceiveOutOfOrder(c: Conn, id: ConnId, registered: bool,
                          seqNo: int, ackNo: int, flags: Flags, payload: seq<byte>)
    requires seqNo != c.ackNo
    ensures Receive(c, id, registered, seqNo, ackNo, flags, payload) == Reaction(c, [], [], false)
  {
  }

  /**
   * An in-order pure acknowledgment takes its acknowledgment number as seqNo,
   * keeps ackNo, answerSeq and the whole retransmission buffer, sends and
   * delivers nothing, and leaves the timer cancelled unless ackNo < answerSeq,
   * in which case a new one is armed for LONG_DELAY.
   */
  lemma ReceivePureAck(c: Conn, id: ConnId, registered: bool,
                       seqNo: int, ackNo: int, flags: Flags)
    requires seqNo == c.ackNo && IsPureAck(flags, [])
    ensures var r := Receive(c, id, registered, seqNo, ackNo, flags, []);
      && r.next.seqNo == ackNo && r.next.ackNo == c.ackNo && r.next.answerSeq == c.answerSeq
      && r.next.lastSent == c.lastSent
      && r.next.timer == (if ackNo < c.answerSeq then Pending(LONG_DELAY) else Cancelled)
      && r.out == [] && r.deliver == [] && !r.teardown
  {
  }

  /**
   * Any other in-order segment advances ackNo by the payload length (by one
   * when the payload is empty), hands the payload to a registered callback,
   * answers with exactly one empty ACK carrying (acknowledgment received, new
   * ackNo), and tears the connection down exactly when FIN is set.
   */
  lemma ReceiveInOrder(c: Conn, id: ConnId, registered: bool,
                       seqNo: int, ackNo: int, flags: Flags, payload: seq<byte>)
    requires seqNo == c.ackNo && !IsPureAck(flags, payload)
    ensures var r := Receive(c, id, registered, seqNo, ackNo, flags, payload);
      var advanced := c.ackNo + (if |payload| > 0 then |payload| else 1);
      && r.next == c.(seqNo := ackNo, ackNo := advanced)
      && r.deliver == (if registered then [payload] else [])
      && r.out == [ToPeer(id, ackNo, advanced, FLAGS_ACK, [])]
      && r.teardown == HasFlag(flags, FLAGS_FIN)
  {
  }

  /**
   * A segment is answered (with one segment) exactly when it is in order and
   * not a pure acknowledgment, and removes the connection exactly when it is
   * in order and carries FIN.
   */
  lemma ReceiveAnswers(c: Conn, id: ConnId, registered: bool,
                       seqNo: int, ackNo: int, flags: Flags, payload: seq<byte>)
    ensures var r := Receive(c, id, registered, seqNo, ackNo, flags, payload);
      && |r.out| <= 1
      && (r.out != [] <==> seqNo == c.ackNo && !IsPureAck(flags, payload))
      && (r.teardown <==> TearsDown(c, seqNo, flags))
      && (r.deliver != [] ==> registered && r.out != [])
  {
  }

  /** The expected sequence number never decreases, and grows exactly when the segment is answered. */
  lemma ReceiveAckNoMonotone(c: Conn, id: ConnId, registered: bool,
                             seqNo: int, ackNo: int, flags: Flags, payload: seq<byte>)
    ensures var r := Receive(c, id, registered, seqNo, ackNo, flags, payload);
      && r.next.ackNo >= c.ackNo
      && (r.next.ackNo > c.ackNo <==> r.out != [])
  {
  }

  /**
   * A second copy of a segment produces the same connection state as the
   * first copy did, and is neither answered nor delivered. After data, the copy
   * is out of order. After a pure acknowledgment, ackNo has not moved, so the
   * copy is in order again and repeats the cancel and the re-arm for
   * LONG_DELAY. Timers here are tags, so the model does not see that the repeat
   * postpones retransmission.
   */
  lemma ReceiveTwiceIsReceiveOnce(c: Conn, id: ConnId, registered: bool,
                                  seqNo: int, ackNo: int, flags: Flags, payload: seq<byte>)
    ensures var r1 := Receive(c, id, registered, seqNo, ackNo, flags, payload);
      var r2 := Receive(r1.next, id, registered, seqNo, ackNo, flags, payload);
      && r2 == Reaction(r1.next, [], [], false)
  {
    var r1 := Receive(c, id, registered, seqNo, ackNo, flags, payload);
    if seqNo == c.ackNo && !IsPureAck(flags, payload) {
      assert r1.next.ackNo > c.ackNo;
    } else if seqNo == c.ackNo {
      assert r1.next.ackNo == seqNo && r1.next.seqNo == ackNo;
      assert r1.next.lastSent == c.lastSent;
    }
  }

  // ---------------------------------------------------------------- streams

  /** One received segment, as the demultiplexer forwards it. */
  datatype Inbound = Inbound(seqNo: int, ackNo: int, flags: Flags, payload: seq<byte>)

  /** Payloads of a run of received segments, in order. */
  function InPayloads(segs: seq<Inbound>): seq<seq<byte>> {
    Map(segs, (g: Inbound) => g.payload)
  }

  /** Feeding a run of segments to the receive handler, one after another. */
  function ReceiveAll(c: Conn, id: ConnId, registered: bool, segs: seq<Inbound>): Reaction
    decreases |segs|
  {
    if segs == [] then Reaction(c, [], [], false)
    else
      var r := Receive(c, id, registered, segs[0].seqNo, segs[0].ackNo, segs[0].flags, segs[0].payload);
      var rest := ReceiveAll(r.next, id, registered, segs[1..]);
      Reaction(rest.next, r.deliver + rest.deliver, r.out + rest.out, r.teardown || rest.teardown)
  }

  /** Number of payload bytes in a run of segments. */
  function Bytes(segs: seq<Inbound>): nat
    decreases |segs|
  {
    if segs == [] then 0 else |segs[0].payload| + Bytes(segs[1..])
  }

  /** A run of data segments, none with FIN, the first starting at `start` and each next one where the previous ended. */
  ghost predicate Contiguous(start: int, segs: seq<Inbound>)
    decreases |segs|
  {
    || segs == []
    || (&& segs[0].seqNo == start && segs[0].payload != [] && !HasFlag(segs[0].flags, FLAGS_FIN)
        && Contiguous(start + |segs[0].payload|, segs[1..]))
  }

  /** The answers a contiguous run should draw: per segment, an empty ACK for every byte up to its end. */
  function Acks(id: ConnId, start: int, segs: seq<Inbound>): (acks: seq<Segment>)
    ensures |acks| == |segs|
    decreases |segs|
  {
    if segs == [] then []
    else
      var next := start + |segs[0].payload|;
      [ToPeer(id, segs[0].ackNo, next, FLAGS_ACK, [])] + Acks(id, next, segs[1..])
  }

  /**
   * The first segment of a contiguous run is accepted and the rest of the
   * run is contiguous from the new ackNo; whatever the rest delivers and
   * answers as expected, the whole run does too.
   */
  lemma ReceiveFirst(c: Conn, id: ConnId, registered: bool, segs: seq<Inbound>)
    requires segs != [] && Contiguous(c.ackNo, segs)
    ensures var s, tail := segs[0], segs[1..];
      var next := c.(seqNo := s.ackNo, ackNo := c.ackNo + |s.payload|);
      var all, rest := ReceiveAll(c, id, registered, segs), ReceiveAll(next, id, registered, tail);
      && Contiguous(next.ackNo, tail)
      && all.next == rest.next
      && Bytes(segs) == |s.payload| + Bytes(tail)
      && (rest.deliver == (if registered then InPayloads(tail) else []) ==>
            all.deliver == (if registered then InPayloads(segs) else []))
      && (rest.out == Acks(id, next.ackNo, tail) ==> all.out == Acks(id, c.ackNo, segs))
      && all.teardown == rest.teardown
  {
    var s, tail := segs[0], segs[1..];
    ReceiveInOrder(c, id, registered, s.seqNo, s.ackNo, s.flags, s.payload);
    assert InPayloads(segs) == [s.payload] + InPayloads(tail);
  }

  /**
   * In-order delivery: a contiguous run of data segments starting at the
   * expected sequence number is accepted whole. A registered callback
   * receives exactly the payloads, in order; ackNo ends past the last byte;
   * every segment draws its ACK; and nothing tears the connection down.
   */
  lemma {:induction false} ReceiveStream(c: Conn, id: ConnId, registered: bool, segs: seq<Inbound>)
    requires Contiguous(c.ackNo, segs)
    ensures var r := ReceiveAll(c, id, registered, segs);
      && r.deliver == (if registered then InPayloads(segs) else [])
      && r.next.ackNo == c.ackNo + Bytes(segs)
      && r.out == Acks(id, c.ackNo, segs)
      && !r.teardown
    decreases |segs|
  {
    if segs != [] {
      var s := segs[0];
      ReceiveFirst(c, id, registered, segs);
      ReceiveStream(c.(seqNo := s.ackNo, ackNo := c.ackNo + |s.payload|), id, registered, segs[1..]);
    }
  }

  /** The k-th answer of a run acknowledges every byte through segment k. */
  lemma {:induction false} AcksAt(id: ConnId, start: int, segs: seq<Inbound>, k: nat)
    requires k < |segs|
    ensures Acks(id, start, segs)[k] == ToPeer(id, segs[k].ackNo, start + Bytes(segs[..k + 1]), FLAGS_ACK, [])
    decreases k
  {
    var tail := segs[1..];
    var prefix := segs[..k + 1];
    assert prefix[0] == segs[0] && prefix[1..] == tail[..k];
    if k == 0 {
      assert tail[..0] == [];
    } else {
      AcksAt(id, start + |segs[0].payload|, tail, k - 1);
      assert segs[k] == tail[k - 1] && tail[..k] == tail[..(k - 1) + 1];
    }
  }

  // ---------------------------------------------------------------- send

  /** Round k of the loop over range(0, n, MSS) runs exactly when k < NumChunks(n). */
  lemma {:induction false} ChunkIndex(n: nat, k: nat)
    ensures k * MSS < n <==> k < NumChunks(n)
    decreases n
  {
    if n > MSS && k > 0 {
      ChunkIndex(n - MSS, k - 1);
    }
  }

  /** NumChunks is the ceiling of n / MSS. */
  lemma NumChunksIsCeiling(n: nat)
    ensures NumChunks(n) * MSS >= n
    ensures n > 0 ==> (NumChunks(n) - 1) * MSS < n
    ensures NumChunks(n) == 0 <==> n == 0
  {
    ChunkIndex(n, 0);
    ChunkIndex(n, NumChunks(n));
    if n > 0 {
      ChunkIndex(n, NumChunks(n) - 1);
    }
  }

  /** Piece k of data, for k below the number of pieces, is a non-empty run of at most MSS bytes, exactly MSS unless it is the last. */
  lemma ChunkShape(data: seq<byte>, k: nat)
    requires k < NumChunks(|data|)
    ensures k * MSS < |data|
    ensures Chunk(data, k) == data[k * MSS .. Min(k * MSS + MSS, |data|)]
    ensures 0 < |Chunk(data, k)| <= MSS
    ensures k < NumChunks(|data|) - 1 ==> |Chunk(data, k)| == MSS
  {
    ChunkIndex(|data|, k);
    ChunkIndex(|data|, k + 1);
  }

  /** The first k pieces glue back to the first k*MSS bytes of data. */
  lemma {:induction false} ChunksPrefix(data: seq<byte>, k: nat)
    requires k <= NumChunks(|data|)
    ensures Concat(Chunks(data)[..k]) == data[..Min(k * MSS, |data|)]
    decreases k
  {
    var ps := Chunks(data);
    if k == 0 {
      assert ps[..0] == [];
    } else {
      var j := k - 1;
      var i := j * MSS;
      ChunksPrefix(data, j);
      SendRoundData(data, j, i);
      assert i + MSS == k * MSS;
      var front := ps[..k];
      assert front[..j] == ps[..j] && front[j] == Slice(data, i, i + MSS);
      assert Concat(front) == Concat(front[..j]) + front[j];
    }
  }

  /**
   * One more round of the send loop, at offset i = k*MSS: the piece cut there
   * is non-empty, the loop goes on exactly while pieces remain, and the bytes
   * sent so far grow by the piece.
   */
  lemma SendRoundData(data: seq<byte>, k: nat, i: nat)
    requires k < NumChunks(|data|) && i == k * MSS
    ensures i < |data|
    ensures i + MSS < |data| <==> k + 1 < NumChunks(|data|)
    ensures Min(i, |data|) + |Slice(data, i, i + MSS)| == Min(i + MSS, |data|)
    ensures data[..Min(i + MSS, |data|)] == data[..Min(i, |data|)] + Slice(data, i, i + MSS)
  {
    ChunkIndex(|data|, k);
    ChunkIndex(|data|, k + 1);
    assert Slice(data, i, i + MSS) == data[i..Min(i + MSS, |data|)];
  }

  /** Segment k of a send: piece k of the data, numbered k*MSS past answerSeq + 1, to the server's own address. */
  lemma SendSegmentAt(id: ConnId, answerSeq: int, ackNo: int, data: seq<byte>, k: nat)
    requires k < NumChunks(|data|)
    ensures SendSegments(id, answerSeq, ackNo, data)[k]
         == Segment(id.dstPort, id.srcPort, answerSeq + 1 + k * MSS, ackNo, FLAGS_ACK, Chunk(data, k), id.dstAddr)
  {
    var s := SendSegments(id, answerSeq, ackNo, data)[k];
    assert s.payload == Chunk(data, k) && s.seqNo == answerSeq + 1 + k * MSS;
    assert s.srcPort == id.dstPort && s.dstPort == id.srcPort && s.ackNo == ackNo;
    assert s.flags == FLAGS_ACK && s.dest == id.dstAddr;
  }

  /** The payloads of a send are the pieces of its data. */
  lemma SendPayloads(id: ConnId, answerSeq: int, ackNo: int, data: seq<byte>)
    ensures Payloads(SendSegments(id, answerSeq, ackNo, data)) == Chunks(data)
  {
  }

  /**
   * A send of data emits ceil(|data| / MSS) segments whose payloads, glued in
   * order, give data back; every payload is non-empty and at most MSS bytes,
   * and every one but the last is exactly MSS bytes.
   */
  lemma SendCutsData(id: ConnId, answerSeq: int, ackNo: int, data: seq<byte>)
    ensures var segs := SendSegments(id, answerSeq, ackNo, data);
      && |segs| * MSS >= |data| && (|data| > 0 ==> (|segs| - 1) * MSS < |data|)
      && Concat(Payloads(segs)) == data
      && (forall k :: 0 <= k < |segs| ==> 0 < |segs[k].payload| <= MSS)
      && (forall k :: 0 <= k < |segs| - 1 ==> |segs[k].payload| == MSS)
  {
    var segs := SendSegments(id, answerSeq, ackNo, data);
    NumChunksIsCeiling(|data|);
    SendPayloads(id, answerSeq, ackNo, data);
    ChunksPrefix(data, |segs|);
    assert Chunks(data)[..|segs|] == Chunks(data);
    forall k | 0 <= k < |segs| ensures 0 < |segs[k].payload| <= MSS && (k < |segs| - 1 ==> |segs[k].payload| == MSS) {
      ChunkShape(data, k);
    }
  }

  /**
   * Every segment of a send carries as sequence number answerSeq + 1 plus the
   * number of bytes sent before it, so sequence numbers strictly increase; all
   * go from the server's port to the peer's port, acknowledge ackNo, carry
   * ACK, and are addressed to the server's own address.
   */
  lemma SendNumbersBytes(id: ConnId, answerSeq: int, ackNo: int, data: seq<byte>)
    ensures var segs := SendSegments(id, answerSeq, ackNo, data);
      && (forall k :: 0 <= k < |segs| ==> segs[k].seqNo == answerSeq + 1 + |Concat(Payloads(segs)[..k])|)
      && (forall j, k :: 0 <= j < k < |segs| ==> segs[j].seqNo < segs[k].seqNo)
      && (forall k :: 0 <= k < |segs| ==>
            segs[k].srcPort == id.dstPort && segs[k].dstPort == id.srcPort && segs[k].ackNo == ackNo
            && segs[k].flags == FLAGS_ACK && segs[k].dest == id.dstAddr)
  {
    var segs := SendSegments(id, answerSeq, ackNo, data);
    forall k | 0 <= k < |segs| ensures segs[k].seqNo == answerSeq + 1 + |Concat(Payloads(segs)[..k])| {
      SendPayloads(id, answerSeq, ackNo, data);
      ChunksPrefix(data, k);
      ChunkShape(data, k);
    }
  }

  /**
   * After a send the counter stands at the last byte sent, the buffer holds
   * exactly the data, seqNo and ackNo are kept, and a next send continues the
   * numbering where this one stopped.
   */
  lemma SendAdvances(c: Conn, id: ConnId, data: seq<byte>, more: seq<byte>)
    requires |data| > 0 && |more| > 0
    ensures var s := Send(c, id, data);
      var s2 := Send(s.next, id, more);
      && s.next.answerSeq == c.answerSeq + |data| && s.next.lastSent == data
      && s.next.seqNo == c.seqNo && s.next.ackNo == c.ackNo
      && s2.out[0].seqNo == s.out[|s.out| - 1].seqNo + |s.out[|s.out| - 1].payload|
  {
    var s := Send(c, id, data);
    var n := |s.out|;
    SendCutsData(id, c.answerSeq, c.ackNo, data);
    SendNumbersBytes(id, c.answerSeq, c.ackNo, data);
    NumChunksIsCeiling(|more|);
    assert Payloads(s.out) == Payloads(s.out)[..n - 1] + [s.out[n - 1].payload];
    ConcatAppend(Payloads(s.out)[..n - 1], [s.out[n - 1].payload]);
    assert Concat([s.out[n - 1].payload]) == s.out[n - 1].payload by {
      assert [s.out[n - 1].payload][..0] == [];
    }
  }

  // ---------------------------------------------------------------- timer

  /** A timer run with an empty buffer sends nothing, arms nothing, and changes no counter or buffer. */
  lemma TimerOnEmptyBuffer(c: Conn, id: ConnId)
    requires c.lastSent == []
    ensures TimerFires(c, id) == Step(c.(timer := Fired), [])
  {
  }

  /**
   * A timer run with a non-empty buffer sends exactly one ACK segment with
   * (seqNo, ackNo) carrying the first MSS bytes of the buffer, keeps the rest,
   * and arms a new timer for SHORT_DELAY.
   */
  lemma TimerOnData(c: Conn, id: ConnId)
    requires c.lastSent != []
    ensures var s := TimerFires(c, id);
      && |s.out| == 1
      && s.out[0] == ToPeer(id, c.seqNo, c.ackNo, FLAGS_ACK, s.out[0].payload)
      && s.out[0].payload + s.next.lastSent == c.lastSent
      && |s.out[0].payload| == Min(MSS, |c.lastSent|)
      && s.next == c.(lastSent := s.next.lastSent, timer := Pending(SHORT_DELAY))
  {
    SliceSplit(c.lastSent, MSS);
  }

  /** The timer handler run n times in a row, as the event loop would fire each handle it arms. */
  function FireTimes(c: Conn, id: ConnId, n: nat): Step
    decreases n
  {
    if n == 0 then Step(c, [])
    else
      var s := TimerFires(c, id);
      var rest := FireTimes(s.next, id, n - 1);
      Step(rest.next, s.out + rest.out)
  }

  lemma ChunkOfRest(buf: seq<byte>, k: nat)
    requires |buf| > 0
    ensures Chunk(buf, k + 1) == Chunk(SliceFrom(buf, MSS), k)
    ensures Chunk(buf, 0) == SliceTo(buf, MSS)
    ensures NumChunks(|buf|) == 1 + NumChunks(|SliceFrom(buf, MSS)|)
  {
    if |buf| > MSS {
      var rest := buf[MSS..];
      assert SliceFrom(buf, MSS) == rest;
      SliceShift(buf, MSS, (k + 1) * MSS, (k + 1) * MSS + MSS);
    } else {
      assert SliceFrom(buf, MSS) == [];
      assert Chunk(buf, k + 1) == [];
    }
  }

  /**
   * Draining the buffer: ceil(|buffer| / MSS) timer runs retransmit, in order,
   * exactly the pieces a send of that buffer would have cut, all of them with
   * the same sequence number seqNo; they leave the buffer empty and the
   * counters untouched, and the run after that sends nothing.
   */
  lemma {:induction false} TimerDrainsBuffer(c: Conn, id: ConnId)
    ensures var n := NumChunks(|c.lastSent|);
      var s := FireTimes(c, id, n);
      && |s.out| == n
      && (forall k :: 0 <= k < n ==> s.out[k] == ToPeer(id, c.seqNo, c.ackNo, FLAGS_ACK, Chunk(c.lastSent, k)))
      && s.next.lastSent == []
      && s.next.seqNo == c.seqNo && s.next.ackNo == c.ackNo && s.next.answerSeq == c.answerSeq
      && TimerFires(s.next, id).out == []
    decreases |c.lastSent|
  {
    var buf := c.lastSent;
    var n := NumChunks(|buf|);
    if buf == [] {
      assert n == 0;
    } else {
      var first := TimerFires(c, id);
      SliceSplit(buf, MSS);
      ChunkOfRest(buf, 0);
      TimerDrainsBuffer(first.next, id);
      var rest := FireTimes(first.next, id, n - 1);
      forall k | 0 <= k < n
        ensures FireTimes(c, id, n).out[k] == ToPeer(id, c.seqNo, c.ackNo, FLAGS_ACK, Chunk(buf, k))
      {
        if k > 0 {
          ChunkOfRest(buf, k - 1);
        }
      }
    }
  }

  // ---------------------------------------------------------------- send, then acknowledgment

  /**
   * A send of MSS + 1 bytes from a cancelled timer emits two segments and
   * arms the timer for LONG_DELAY. The pure acknowledgment of the first one only (its number is the second
   * segment's sequence number) is in order, but it leaves the timer cancelled,
   * because it equals answerSeq and the re-arm test is ackNo < answerSeq. It
   * also leaves the buffer holding all MSS + 1 bytes.
   */
  lemma AckOfAllButLastByte(c: Conn, id: ConnId, registered: bool, flags: Flags, data: seq<byte>)
    requires |data| == MSS + 1 && c.timer.Cancelled? && IsPureAck(flags, [])
    ensures var s := Send(c, id, data);
      && |s.out| == 2
      && s.next.timer == Pending(LONG_DELAY)
      && var r := Receive(s.next, id, registered, s.next.ackNo, s.out[1].seqNo, flags, []);
      && |s.out[1].payload| == 1
      && r.next.seqNo == s.out[1].seqNo
      && r.next.timer == Cancelled
      && r.next.lastSent == data
  {
    var s := Send(c, id, data);
    SendCutsData(id, c.answerSeq, c.ackNo, data);
    ChunkShape(data, 1);
    assert s.out[1].seqNo == c.answerSeq + 1 + MSS == s.next.answerSeq;
    ReceivePureAck(s.next, id, registered, s.next.ackNo, s.out[1].seqNo, flags);
    var r := Receive(s.next, id, registered, s.next.ackNo, s.out[1].seqNo, flags, []);
    assert |s.out[1].payload| == 1;
    assert r.next.seqNo == s.out[1].seqNo;
    assert r.next.timer == Cancelled;
    assert r.next.lastSent == data;
  }

  /**
   * After a send of 2*MSS bytes and the pure acknowledgment of its first
   * segment, the timer is armed and, when it fires, resends the FIRST MSS
   * bytes, which were already acknowledged, under the sequence number of the
   * second segment: the acknowledgment did not remove them from the buffer.
   */
  lemma RetransmitAfterPartialAck(c: Conn, id: ConnId, registered: bool, flags: Flags, data: seq<byte>)
    requires |data| == 2 * MSS && IsPureAck(flags, [])
    ensures var s := Send(c, id, data);
      && |s.out| == 2
      && var r := Receive(s.next, id, registered, s.next.ackNo, s.out[1].seqNo, flags, []);
      && var t := TimerFires(r.next, id);
      && r.next.timer == Pending(LONG_DELAY)
      && t.out == [ToPeer(id, s.out[1].seqNo, c.ackNo, FLAGS_ACK, data[..MSS])]
      && s.out[0].payload == data[..MSS] && s.out[1].payload == data[MSS..]
  {
    var s := Send(c, id, data);
    SendCutsData(id, c.answerSeq, c.ackNo, data);
    ChunkShape(data, 0);
    ChunkShape(data, 1);
    assert s.out[1].seqNo == c.answerSeq + 1 + MSS < s.next.answerSeq;
    ReceivePureAck(s.next, id, registered, s.next.ackNo, s.out[1].seqNo, flags);
    var r := Receive(s.next, id, registered, s.next.ackNo, s.out[1].seqNo, flags, []);
    assert r.next.lastSent == data && r.next.seqNo == s.out[1].seqNo && r.next.ackNo == c.ackNo;
    assert SliceTo(data, MSS) == data[..MSS];
  }

  // ---------------------------------------------------------------- handshake

  /**
   * The handshake seen from a new connection: the peer's ACK of the SYN+ACK
   * (sequence clientSeq + 1, acknowledgment isn + 1, no payload) is taken as an
   * in-order pure acknowledgment whatever the timer did meanwhile; it sets seqNo
   * to isn + 1, leaves the timer cancelled, and the first send then numbers its
   * first byte isn + 1 and arms the timer.
   */
  lemma HandshakeThenSend(clientSeq: int, isn: int, timer: Timer, id: ConnId, registered: bool,
                          flags: Flags, data: seq<byte>)
    requires IsPureAck(flags, []) && |data| > 0
    ensures var c0 := Init(clientSeq, isn).(timer := timer);
      var r := Receive(c0, id, registered, clientSeq + 1, isn + 1, flags, []);
      var s := Send(r.next, id, data);
      && r.out == [] && r.next.seqNo == isn + 1 && r.next.ackNo == clientSeq + 1
      && r.next.timer == Cancelled
      && s.out[0].seqNo == isn + 1 && s.out[0].ackNo == clientSeq + 1
      && s.next.timer == Pending(LONG_DELAY)
  {
    NumChunksIsCeiling(|data|);
  }
}
