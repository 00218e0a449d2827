# A verified model of a simplified TCP server (tcp.py)

The modelled program is the connection engine of a small, single-threaded
TCP-like transport. A `Servidor` listens on one port. It receives raw
segments from the network layer and drops those addressed to another port or
with a bad checksum. It opens a `Conexao` for every SYN, keyed by the 4-tuple
(peer address, peer port, own address, own port), replacing whatever that
tuple held, and answers it with SYN+ACK. Every other segment goes to the
connection its tuple names, or is dropped if there is none. A `Conexao`
holds a few counters, a retransmission buffer and a timer handle:

- `seqNo` is the number put on outgoing acknowledgments. It starts at the
  peer's initial sequence number and afterwards holds the acknowledgment
  number of the last in-order segment received.
- `ackNo` is the next sequence number expected from the peer.
- `answerSeq` is the server's own sequence counter. It starts at a random
  16-bit number and grows by every byte sent.
- `lastSentSegment` is the retransmission buffer.
- `timer` is the event-loop handle of the retransmission timer.

The connection's entry points are:

- receive: strict in-order acceptance, pure acknowledgments, data and FIN;
- the timer handler: it resends the front MSS bytes of the buffer and drops them;
- send: it cuts data into MSS-sized segments;
- close: it sends one FIN.

The project has three layers.

- `Wire` (wire.dfy) holds the values on the wire: bytes, the 16-bit flags
  word, inbound headers, outbound segments, connection ids, timer-handle
  states (`Pending(delay)`, `Fired`, `Cancelled`) and Python's slicing of
  byte strings.
- `Connection` (connection.dfy) and `Demux` (demux.dfy) are pure
  transitions. `Connection.Receive`, `Connection.TimerFires`,
  `Connection.Send` and `Connection.FinSegment` give one connection's new
  state and the segments it sends. `Demux.Decide` is the server's routing
  decision for one segment. `ConnectionProps` (connection_props.dfy) and
  `Demux` prove what these transitions promise.
- `Tcp` (tcp.dfy) holds the classes `Network`, `Servidor` and `Conexao`.
  Their fields change in place, and the connection table is a `map` field
  that methods insert into, overwrite and delete from. Each method is proved
  to leave exactly the state and the sent-segment log that its pure
  transition gives.

The network is an object that records every segment handed to it, in order.
The accept and receive callbacks are a flag each for "a callback is
registered", plus a log of the arguments it was called with.

Some behaviour of the code as written is proved rather than smoothed over:

- A pure acknowledgment never trims the retransmission buffer. The cut
  offset `ack_no - self.seq_no` is read after `seq_no` was set to `ack_no`,
  so it is always 0.
- The timer is re-armed after an acknowledgment only when `ack < answer_seq`.
  An acknowledgment that leaves exactly one byte outstanding therefore leaves
  the timer cancelled (`ConnectionProps.AckOfAllButLastByte`).
- After a partial acknowledgment, the timer run resends the first,
  already-acknowledged bytes under the sequence number of the
  unacknowledged ones (`ConnectionProps.RetransmitAfterPartialAck`).
- Every timer run puts the same `seqNo` on its segment
  (`ConnectionProps.TimerDrainsBuffer`).
- A send throws away whatever the buffer held.
- A send addresses its segments to the server's own address. Every other
  segment goes to the peer's address.
- A send re-arms the timer only when the handle is `Cancelled`, not when it
  has `Fired`.
- The receive callback is called for in-order segments with an empty
  payload too, such as a bare FIN.

## Model

| member | source | states |
|---|---|---|
| `Tcp.Network.Enviar` | tcp.py:44 | handing a segment to the network appends exactly that segment to the sent log |
| `Tcp.Servidor.constructor` | tcp.py:7-12 | a new server listens on the given port with an empty connection table and no accept callback |
| `Tcp.Servidor.RegistrarMonitorDeConexoesAceitas` | tcp.py:14-19 | after registration, accepted connections are reported to the application |
| `Tcp.Servidor.RdtRcv` | tcp.py:21-52 | a dropped segment (wrong port, failed checksum unless ignored, unknown tuple without SYN) changes no table entry, no connection and sends nothing; a SYN puts a fresh connection with ackNo = seq+1, answerSeq = the ISN, empty buffer and a 0.5 timer at its tuple, leaves every other entry and every old connection unchanged, sends exactly one SYN+ACK and reports the connection to a registered accept callback; any other segment is handled by its connection alone, with the payload after the header, and a FIN removes exactly that tuple; the table stays keyed by each connection's own tuple |
| `Demux.DecideDrops` | tcp.py:25-52 | a segment is dropped when its destination port is not the listening port, when its checksum fails and checksums are not ignored, and when it lacks SYN and its tuple is not in the table |
| `Demux.DecideOpens` | tcp.py:35-39 | a connection is opened exactly for an admitted SYN, whether or not the tuple is already known, keyed by (source address, source port, destination address, destination port) with the peer's sequence number |
| `Demux.DecideForwards` | tcp.py:32-49 | a segment reaches a connection exactly when it is admitted, lacks SYN and its tuple is known, with the header's seq, ack and flags and the bytes after the header |
| `Demux.PayloadFollowsHeader` | tcp.py:32 | the payload is the segment minus its first 4*(flags>>12) bytes: header and payload glue back to the segment, and the payload is empty when the announced header is longer than the segment |
| `Wire.HeaderLength` | tcp.py:32 | the announced header length is a multiple of 4 and at most 60 bytes |
| `Demux.InitialSeqRange` | tcp.py:38 | the initial sequence number lies in [0, 65536) and determines the two random bytes it was made of |
| `Demux.InitialSeqCovers` | tcp.py:38 | every number in [0, 65536) is the initial sequence number of some pair of random bytes |
| `Demux.SynAckShape` | tcp.py:40-44 | the SYN+ACK goes from the server's port to the peer's port at the peer's address, carries SYN and ACK but not FIN, sequence ISN, acknowledgment seq+1 and no payload |
| `Tcp.Conexao.constructor` | tcp.py:56-64 | a new connection takes seqNo from the peer's sequence number, ackNo one past it, answerSeq from the ISN, an empty buffer, no receive callback and a timer pending for 0.5 |
| `Tcp.Conexao.RdtRcv` | tcp.py:79-112 | the connection's new counters, buffer and timer, the payloads passed to the callback, the segments sent and the table afterwards are those of the receive transition; the table loses exactly this connection's tuple on teardown |
| `ConnectionProps.ReceiveOutOfOrder` | tcp.py:81-83 | a segment whose seq is not ackNo changes no field, delivers nothing and sends nothing |
| `ConnectionProps.ReceivePureAck` | tcp.py:85-97 | an in-order pure ACK sets seqNo to its ack, keeps ackNo, answerSeq and the whole buffer, sends and delivers nothing, cancels the timer and re-arms it for 1 only if ack < answerSeq |
| `ConnectionProps.ReceiveInOrder` | tcp.py:100-112 | any other in-order segment sets seqNo to its ack, advances ackNo by the payload length (by 1 when empty), passes the payload, even an empty one, to a registered callback, sends exactly one empty ACK with (ack, new ackNo) to the peer, keeps buffer and timer, and tears down exactly on FIN |
| `ConnectionProps.ReceiveAnswers` | tcp.py:81-112 | at most one segment is sent; one is sent exactly for in-order segments that are not pure ACKs, teardown happens exactly for in-order FIN segments, and nothing is delivered without an answer |
| `ConnectionProps.ReceiveAckNoMonotone` | tcp.py:81-100 | the expected sequence number never decreases, and it grows exactly when the segment is answered |
| `ConnectionProps.ReceiveTwiceIsReceiveOnce` | tcp.py:79-112 | a second copy of the same segment leaves the connection state exactly as the first copy left it and is neither answered, delivered nor a teardown; after data the copy is out of order, while after a pure ACK it is in order again and repeats the cancel and re-arm |
| `ConnectionProps.ReceiveStream` | tcp.py:79-110 | a run of contiguous data segments without FIN starting at ackNo is accepted whole: the callback gets exactly the payloads in order, ackNo ends past the last byte of the run, every segment draws its own empty ACK, in order, and nothing tears the connection down |
| `ConnectionProps.AcksAt` | tcp.py:100-109 | the ACK drawn by segment k of such a run acknowledges every byte through the end of segment k |
| `Tcp.Conexao.TimerFired` | tcp.py:67-76 | run on a pending handle, the connection's new buffer and timer and the segments sent are those of the timer transition |
| `ConnectionProps.TimerOnEmptyBuffer` | tcp.py:67-69 | with an empty buffer the handler sends nothing, arms no new timer and changes no counter or buffer (the handle is left fired) |
| `ConnectionProps.TimerOnData` | tcp.py:69-76 | with a non-empty buffer it sends exactly one ACK with (seqNo, ackNo) and the first min(MSS, len) bytes to the peer, keeps the rest as the buffer, and arms a timer for 0.5 |
| `ConnectionProps.TimerDrainsBuffer` | tcp.py:67-76 | ceil(len/MSS) successive timer runs resend exactly the pieces a send of the buffer would cut, in order and all with the same seqNo, empty the buffer, keep the counters, and the next run sends nothing |
| `Tcp.Conexao.Enviar` | tcp.py:124-140 | the new counter, buffer and timer and the segments sent are those of the send transition: answerSeq grows by len(dados), the buffer becomes dados, the timer is re-armed for 1 only if its handle was cancelled and data was sent |
| `ConnectionProps.ChunkIndex` | tcp.py:130 | round k of the loop over range(0, len, MSS) runs exactly when k*MSS < len |
| `ConnectionProps.NumChunksIsCeiling` | tcp.py:130 | the number of loop rounds is the ceiling of len/MSS |
| `ConnectionProps.ChunkShape` | tcp.py:130-131 | every piece is a non-empty run of at most MSS bytes at offset k*MSS, exactly MSS unless it is the last |
| `ConnectionProps.ChunksPrefix` | tcp.py:130-138 | the first k pieces glue back to the first k*MSS bytes of the data |
| `ConnectionProps.SendSegmentAt` | tcp.py:130-135 | segment k of a send carries piece k of the data with seq answerSeq+1+k*MSS, ACK and the current ackNo, from the server's port to the peer's port, addressed to the server's own address |
| `ConnectionProps.SendCutsData` | tcp.py:128-138 | a send emits ceil(len/MSS) segments whose payloads concatenate back to the data, each non-empty and at most MSS bytes, all but the last exactly MSS |
| `ConnectionProps.SendNumbersBytes` | tcp.py:129-137 | each segment's seq is answerSeq+1 plus the bytes sent before it, so seqs strictly increase; each goes from the server's port to the peer's port at the server's own address, with ACK and the current ackNo |
| `ConnectionProps.SendAdvances` | tcp.py:128-138 | after a send answerSeq has grown by its length, the buffer is the data, seqNo and ackNo are kept, and the next send numbers its first byte right after this send's last byte |
| `ConnectionProps.AckOfAllButLastByte` | tcp.py:85-95 | a send of MSS+1 bytes from a cancelled timer arms the timer; the ACK of the first segment then leaves the timer cancelled although the 1-byte second segment is unacknowledged, and leaves the buffer whole |
| `ConnectionProps.RetransmitAfterPartialAck` | tcp.py:67-95 | after a send of 2*MSS bytes and the ACK of its first segment, the timer is armed and its run resends the first, acknowledged MSS bytes under the second segment's sequence number |
| `ConnectionProps.HandshakeThenSend` | tcp.py:56-95 | the peer's ACK of the SYN+ACK is an in-order pure ACK whatever the timer did, sets seqNo to ISN+1 and leaves the timer cancelled; the first send then numbers its first byte ISN+1 and arms the timer |
| `Tcp.Conexao.RegistrarRecebedor` | tcp.py:117-122 | after registration, received payloads are passed to the application |
| `Tcp.Conexao.Fechar` | tcp.py:149-157 | sends exactly one empty FIN with the current (seqNo, ackNo) to the peer and changes no connection field and no table entry |

## Left out

- The asyncio event loop and its scheduling (tcp.py:63, 76, 95, 140) are not modelled. A timer handle is an abstract `Pending(delay)`, `Fired` or `Cancelled`. The delays 0.5 and 1 are tags only. `Tcp.Conexao.TimerFired` stands for the loop running the handle, which it marks `Fired`.
- `read_header`, `make_header`, `fix_checksum`, `calc_checksum` and the constants `MSS`, `FLAGS_SYN`, `FLAGS_ACK` and `FLAGS_FIN` come from the tcputils module imported at tcp.py:3, which is not part of this model. Headers are abstract records. The checksum outcome is a boolean input. The flags use the standard TCP bit positions. MSS is 1460, and the proofs use only that it is positive.
- Sequence and acknowledgment numbers are unbounded integers. The 32-bit header fields that `make_header` packs them into are not modelled, and neither is its failure on values of 2^32 or more.
- `os.urandom(2)` (tcp.py:38) is not modelled. The model takes the two random bytes as parameters.
- `rede.enviar` is modelled only as an append to the network's sent log. Delivery and loss belong to the network and are not modelled.
- The network's own registration of the server's receive callback (tcp.py:12) is not modelled.
- What the application's callbacks do when called is not modelled. That includes re-entering the connection from inside a callback. Each call is recorded in a log.
- The `print` logging is not modelled.
- Tcp.Conexao.RdtRcv: requires the connection's tuple to be in the table when the FIN teardown path runs. The `del` at tcp.py:112 raises KeyError otherwise, and that exception is not modelled. The server, its only caller, always meets this requirement.
- ConnectionProps.ReceiveTwiceIsReceiveOnce: a timer is a tag, not a deadline. A duplicate pure ACK cancels the handle and arms a fresh one for 1 second (tcp.py:90-95), which postpones retransmission. The model records the same `Pending(1.0)` both times, so its statement that the copy changes nothing does not capture that delay.
- Window control, round-trip estimation, a pending buffer and Karn's rule are not modelled. tcp.py does not implement them.
