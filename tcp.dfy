/**
 * The server and its connections as objects whose fields change in place.
 * The network is an object that records, in order, every segment handed to
 * it; the application's callbacks are flags saying whether one is registered,
 * and logs of what they were called with.
 *
 * Each method is proved to do what the pure transition of the same name in
 * Connection or Demux does, so the lemmas of ConnectionProps and Demux carry
 * over to the objects.
 */
module Tcp {
  import opened Wire
  import opened Connection
  import opened Demux
  import ConnectionProps

  /** The network layer beneath the server. */
  class Network {
    /** When set, segments are admitted without checking their checksum. */
    const ignoreChecksum: bool
    /** Every segment handed to the network, in order. */
    var sent: seq<Segment>

    constructor (ignoreChecksum: bool)
      ensures this.ignoreChecksum == ignoreChecksum && sent == []
    {
      this.ignoreChecksum := ignoreChecksum;
      sent := [];
    }

    /** Hands one segment to the network. */
    method Enviar(segment: Segment)
      modifies this`sent
      ensures sent == old(sent) + [segment]
    {
      sent := sent + [segment];
    }
  }

  /** The listening side: filters segments, opens connections on SYN, and routes the rest. */
  class Servidor {
    const rede: Network
    const porta: nat
    var conexoes: map<ConnId, Conexao>
    /** Whether the application registered an accept callback. */
    var acceptRegistered: bool
    /** The connections the accept callback was called with, in order. */
    var accepted: seq<Conexao>

    /** Every connection in the table belongs to this server and is keyed by its own 4-tuple. */
    ghost predicate Valid()
      reads this
    {
      forall id | id in conexoes :: conexoes[id].servidor == this && conexoes[id].idConexao == id
    }

    constructor (rede: Network, porta: nat)
      ensures Valid()
      ensures this.rede == rede && this.porta == porta
      ensures conexoes == map[] && !acceptRegistered && accepted == []
    {
      this.rede := rede;
      this.porta := porta;
      conexoes := map[];
      acceptRegistered := false;
      accepted := [];
    }

    /** Registers the application's accept callback. */
    method RegistrarMonitorDeConexoesAceitas()
      modifies this`acceptRegistered
      ensures acceptRegistered
    {
      acceptRegistered := true;
    }

    /**
     * The network's receive callback. h is the parsed header of the raw bytes
     * segment, checksumOk says whether the checksum routine returned zero, and
     * hi, lo are the two random bytes the initial sequence number is made of.
     */
    method RdtRcv(srcAddr: Addr, dstAddr: Addr, h: Header, segment: seq<byte>, checksumOk: bool,
                  hi: byte, lo: byte)
      requires Valid()
      modifies this`conexoes, this`accepted, rede`sent, conexoes.Values
      ensures Valid()
      // dropped: nothing changes, nothing is sent
      ensures var d := Decide(porta, rede.ignoreChecksum, old(conexoes).Keys, srcAddr, dstAddr, h, segment, checksumOk);
        (d.WrongPort? || d.BadChecksum? || d.Unknown?) ==>
          && conexoes == old(conexoes) && rede.sent == old(rede.sent) && accepted == old(accepted)
          && (forall c | c in old(conexoes).Values :: unchanged(c))
      // SYN: a fresh connection replaces whatever the tuple held; one SYN+ACK goes out
      ensures var d := Decide(porta, rede.ignoreChecksum, old(conexoes).Keys, srcAddr, dstAddr, h, segment, checksumOk);
        d.Open? ==>
          var isn := InitialSeq(hi, lo);
          && d.id in conexoes && fresh(conexoes[d.id])
          && conexoes == old(conexoes)[d.id := conexoes[d.id]]
          && conexoes[d.id].State() == Init(d.clientSeq, isn)
          && !conexoes[d.id].receiverRegistered && conexoes[d.id].delivered == []
          && rede.sent == old(rede.sent) + [SynAck(d.id, isn, d.clientSeq)]
          && accepted == old(accepted) + (if acceptRegistered then [conexoes[d.id]] else [])
          && (forall c | c in old(conexoes).Values :: unchanged(c))
      // known connection: it alone handles the segment
      ensures var d := Decide(porta, rede.ignoreChecksum, old(conexoes).Keys, srcAddr, dstAddr, h, segment, checksumOk);
        d.Forward? ==>
          var c := old(conexoes)[d.id];
          var r := Receive(old(c.State()), d.id, c.receiverRegistered, d.seqNo, d.ackNo, d.flags, d.payload);
          && c.State() == r.next && c.delivered == old(c.delivered) + r.deliver
          && c.receiverRegistered == old(c.receiverRegistered)
          && rede.sent == old(rede.sent) + r.out
          && conexoes == (if r.teardown then old(conexoes) - {d.id} else old(conexoes))
          && accepted == old(accepted)
          && (forall c' | c' in old(conexoes).Values && c' != c :: unchanged(c'))
    {
      if h.dstPort != porta {
        return;
      }
      if !rede.ignoreChecksum && !checksumOk {
        return;
      }
      var payload := PayloadOf(segment, h.flags);
      var id := ConnId(srcAddr, h.srcPort, dstAddr, h.dstPort);
      if HasFlag(h.flags, FLAGS_SYN) {
        var answerSeq := InitialSeq(hi, lo);
        var conexao := new Conexao(this, id, h.seqNo, answerSeq);
        conexoes := conexoes[id := conexao];
        var ackNo := h.seqNo + 1;
        rede.Enviar(Segment(h.dstPort, h.srcPort, answerSeq, ackNo, FLAGS_SYN | FLAGS_ACK, [], srcAddr));
        if acceptRegistered {
          accepted := accepted + [conexao];
        }
      } else if id in conexoes {
        conexoes[id].RdtRcv(h.seqNo, h.ackNo, h.flags, payload);
      }
      // otherwise the segment belongs to no known connection and is dropped
    }
  }

  /** One connection: its counters, retransmission buffer and timer handle. */
  class Conexao {
    const servidor: Servidor
    const idConexao: ConnId
    var seqNo: int
    var ackNo: int
    var answerSeq: int
    var lastSentSegment: seq<byte>
    var timer: Timer
    /** Whether the application registered a receive callback. */
    var receiverRegistered: bool
    /** The payloads the receive callback was called with, in order. */
    var delivered: seq<seq<byte>>

    function State(): Conn
      reads this
    {
      Conn(seqNo, ackNo, answerSeq, lastSentSegment, timer)
    }

    constructor (servidor: Servidor, idConexao: ConnId, seqNo: int, answerSeq: int)
      ensures this.servidor == servidor && this.idConexao == idConexao
      ensures State() == Init(seqNo, answerSeq)
      ensures !receiverRegistered && delivered == []
    {
      this.servidor := servidor;
      this.idConexao := idConexao;
      this.seqNo := seqNo;
      this.answerSeq := answerSeq;
      this.ackNo := seqNo + 1;
      receiverRegistered := false;
      timer := Pending(SHORT_DELAY);
      lastSentSegment := [];
      delivered := [];
    }

    /** The timer handler: the event loop runs it when a pending handle fires. */
    method TimerFired()
      requires timer.Pending?
      modifies this`lastSentSegment, this`timer, servidor.rede`sent
      ensures var s := TimerFires(old(State()), idConexao);
        State() == s.next && servidor.rede.sent == old(servidor.rede.sent) + s.out
    {
      timer := Fired;
      if |lastSentSegment| > 0 {
        var segment := Segment(idConexao.dstPort, idConexao.srcPort, seqNo, ackNo, FLAGS_ACK,
                               SliceTo(lastSentSegment, MSS), idConexao.srcAddr);
        lastSentSegment := SliceFrom(lastSentSegment, MSS);
        servidor.rede.Enviar(segment);
        timer := Pending(SHORT_DELAY);
      }
    }

    /**
     * The handler for a segment the server routes to this connection. The
     * FIN path deletes this connection's key from the table, so the key must
     * be there when that path runs.
     */
    method RdtRcv(seqNo: int, ackNo: int, flags: Flags, payload: seq<byte>)
      requires TearsDown(State(), seqNo, flags) ==> idConexao in servidor.conexoes
      modifies this`seqNo, this`ackNo, this`lastSentSegment, this`timer, this`delivered
      modifies servidor`conexoes, servidor.rede`sent
      ensures var r := Receive(old(State()), idConexao, receiverRegistered, seqNo, ackNo, flags, payload);
        && State() == r.next && delivered == old(delivered) + r.deliver
        && servidor.rede.sent == old(servidor.rede.sent) + r.out
        && servidor.conexoes == (if r.teardown then old(servidor.conexoes) - {idConexao} else old(servidor.conexoes))
    {
      if seqNo != this.ackNo {
        return;
      }
      this.seqNo := ackNo;
      if |payload| == 0 && HasFlag(flags, FLAGS_ACK) && !HasFlag(flags, FLAGS_FIN) {
        timer := Cancelled;
        lastSentSegment := SliceFrom(lastSentSegment, ackNo - this.seqNo);
        this.seqNo := ackNo;
        if ackNo < answerSeq {
          timer := Pending(LONG_DELAY);
        }
        return;
      }
      this.ackNo := this.ackNo + if |payload| > 0 then |payload| else 1;
      if receiverRegistered {
        delivered := delivered + [payload];
      }
      servidor.rede.Enviar(Segment(idConexao.dstPort, idConexao.srcPort, this.seqNo, this.ackNo, FLAGS_ACK, [],
                                   idConexao.srcAddr));
      if HasFlag(flags, FLAGS_FIN) {
        servidor.conexoes := servidor.conexoes - {idConexao};
      }
    }

    /** Registers the application's receive callback. */
    method RegistrarRecebedor()
      modifies this`receiverRegistered
      ensures receiverRegistered
    {
      receiverRegistered := true;
    }

    /** The application's send: cuts dados into MSS-sized segments and sends them one by one. */
    method Enviar(dados: seq<byte>)
      modifies this`answerSeq, this`lastSentSegment, this`timer, servidor.rede`sent
      ensures var s := Send(old(State()), idConexao, dados);
        State() == s.next && servidor.rede.sent == old(servidor.rede.sent) + s.out
    {
      lastSentSegment := [];
      ghost var answerSeq0, timer0, sent0 := answerSeq, timer, servidor.rede.sent;
      var i := 0;
      ghost var k: nat := 0;
      ConnectionProps.ChunkIndex(|dados|, 0);
      ghost var segs := SendSegments(idConexao, answerSeq0, ackNo, dados);
      while i < |dados|
        invariant i == k * MSS && k <= NumChunks(|dados|)
        invariant i < |dados| <==> k < NumChunks(|dados|)
        invariant answerSeq == answerSeq0 + Min(i, |dados|)
        invariant lastSentSegment == dados[..Min(i, |dados|)]
        invariant timer == if k > 0 && timer0.Cancelled? then Pending(LONG_DELAY) else timer0
        invariant servidor.rede.sent == sent0 + segs[..k]
        decreases |dados| - i
      {
        var dadosParsed := Slice(dados, i, i + MSS);
        ConnectionProps.SendRoundData(dados, k, i);
        ConnectionProps.SendSegmentAt(idConexao, answerSeq0, ackNo, dados, k);
        PrefixGrows(segs, k);
        var segmento := Segment(idConexao.dstPort, idConexao.srcPort, answerSeq + 1, ackNo, FLAGS_ACK,
                                dadosParsed, idConexao.dstAddr);
        assert segmento == segs[k];
        servidor.rede.Enviar(segmento);
        answerSeq := answerSeq + |dadosParsed|;
        lastSentSegment := lastSentSegment + dadosParsed;
        if timer.Cancelled? {
          timer := Pending(LONG_DELAY);
        }
        i, k := i + MSS, k + 1;
      }
    }

    /** The application's close: sends one FIN and changes nothing else. */
    method Fechar()
      modifies servidor.rede`sent
      ensures servidor.rede.sent == old(servidor.rede.sent) + [FinSegment(State(), idConexao)]
      ensures State() == old(State()) && servidor.conexoes == old(servidor.conexoes)
    {
      servidor.rede.Enviar(Segment(idConexao.dstPort, idConexao.srcPort, seqNo, ackNo, FLAGS_FIN, [],
                                   idConexao.srcAddr));
    }
  }
}
