/** The incremental packet receiver of net/ngx_c_socket_request.cpp, proved against a
    parser that sees the whole stream at once. */
module Framing {
  import opened Bits
  import opened Common

  const HEADER_LENGTH := 8          // sizeof(COMM_PKG_HEADER)
  const MESSAGE_HEADER_LENGTH := 16 // sizeof(STRUC_MSG_HEADER)
  const MAX_LENGTH := 29000         // _PKG_MAX_LENGTH - 1000
  const HEAD_BUFFER := 20           // _DATA_BUFSIZE_

  type Packet = seq<Byte>

  datatype Stat = HeadInit | HeadReceiving | BodyInit | BodyReceiving

  /** The receive fields of a connection: `got` holds the bytes of the current packet
      received so far and `want` is irecvlen. */
  datatype Rx = Rx(stat: Stat, got: seq<Byte>, want: nat)

  const INITIAL := Rx(HeadInit, [], HEADER_LENGTH)

  function PacketLength(p: seq<Byte>): nat
    requires |p| >= 2
  {
    256 * (p[0] as int) + p[1] as int
  }

  /** The part of a packet that its length field declares; the send thread sends that many bytes. */
  function Declared(p: Packet): Packet {
    if |p| >= 2 && PacketLength(p) <= |p| then p[..PacketLength(p)] else p
  }

  /** A packet has a header and does not declare more bytes than it has. */
  predicate WellSized(p: Packet) {
    |p| >= HEADER_LENGTH && PacketLength(p) <= |p|
  }

  // ---- Reference parser over a whole stream ----

  predicate BadLength(n: nat) {
    n < HEADER_LENGTH || n > MAX_LENGTH
  }

  /** The packets of a stream: headers with a bad length are dropped and parsing resumes behind them. */
  function Packets(stream: seq<Byte>): seq<Packet> {
    if |stream| < HEADER_LENGTH then []
    else
      var n := PacketLength(stream);
      if BadLength(n) then Packets(stream[HEADER_LENGTH..])
      else if |stream| < n then []
      else [stream[..n]] + Packets(stream[n..])
  }

  /** The bytes at the end of a stream that do not yet make a packet. */
  function Residue(stream: seq<Byte>): seq<Byte> {
    if |stream| < HEADER_LENGTH then stream
    else
      var n := PacketLength(stream);
      if BadLength(n) then Residue(stream[HEADER_LENGTH..])
      else if |stream| < n then stream
      else Residue(stream[n..])
  }

  /** The receiver that holds exactly the given unfinished bytes. */
  function Holding(rest: seq<Byte>): Rx
    requires |rest| >= HEADER_LENGTH ==> |rest| < PacketLength(rest)
  {
    if rest == [] then INITIAL
    else if |rest| < HEADER_LENGTH then Rx(HeadReceiving, rest, HEADER_LENGTH - |rest|)
    else Rx(if |rest| == HEADER_LENGTH then BodyInit else BodyReceiving, rest, PacketLength(rest) - |rest|)
  }

  // ---- Incremental receiver ----

  predicate Unfinished(got: seq<Byte>) {
    |got| >= HEADER_LENGTH ==> |got| < PacketLength(got) <= MAX_LENGTH
  }

  predicate Valid(rx: Rx) {
    Unfinished(rx.got) && rx == Holding(rx.got)
  }

  predicate InBody(rx: Rx) {
    rx.stat == BodyInit || rx.stat == BodyReceiving
  }

  /** The effect of one recv that delivered `chunk`: the new fields and the packet completed, if any. */
  function Receive(rx: Rx, chunk: seq<Byte>): (Rx, Option<Packet>)
    requires Valid(rx) && 1 <= |chunk| <= rx.want
  {
    var got, want := rx.got + chunk, rx.want - |chunk|;
    match rx.stat
    case HeadInit => if |chunk| == HEADER_LENGTH then HeaderComplete(got) else (Rx(HeadReceiving, got, want), None)
    case HeadReceiving => if want == 0 then HeaderComplete(got) else (Rx(HeadReceiving, got, want), None)
    case BodyInit => if want == 0 then (INITIAL, Some(got)) else (Rx(BodyReceiving, got, want), None)
    case BodyReceiving => if want == 0 then (INITIAL, Some(got)) else (Rx(BodyReceiving, got, want), None)
  }

  /** ngx_wait_request_handler_proc_p1 */
  function HeaderComplete(head: seq<Byte>): (Rx, Option<Packet>)
    requires |head| == HEADER_LENGTH
  {
    var n := PacketLength(head);
    if n < HEADER_LENGTH then (INITIAL, None)
    else if n > MAX_LENGTH then (INITIAL, None)
    else if n == HEADER_LENGTH then (INITIAL, Some(head))
    else (Rx(BodyInit, head, n - HEADER_LENGTH), None)
  }

  /** A packet has at least 8 and at most 29000 bytes: any other header is skipped, and receiving starts anew. */
  lemma LengthDecides(head: seq<Byte>)
    requires |head| == 8
    ensures var (n, rx, out) := (256 * (head[0] as int) + head[1] as int, HeaderComplete(head).0, HeaderComplete(head).1);
            if 8 < n <= 29000 then rx == Rx(BodyInit, head, n - 8) && out == None
            else rx == INITIAL && out == if n == 8 then Some(head) else None
  {
  }

  function AsSeq(p: Option<Packet>): seq<Packet> {
    match p
    case None => []
    case Some(q) => [q]
  }

  /** Every chunk fits the length asked for when it arrives. */
  predicate Fits(rx: Rx, chunks: seq<seq<Byte>>)
    requires Valid(rx)
    decreases chunks
  {
    chunks == [] ||
    (1 <= |chunks[0]| <= rx.want &&
     (ReceiveKeepsValid(rx, chunks[0]); Fits(Receive(rx, chunks[0]).0, chunks[1..])))
  }

  function FeedAll(rx: Rx, chunks: seq<seq<Byte>>): (r: (Rx, seq<Packet>))
    requires Valid(rx) && Fits(rx, chunks)
    decreases chunks
  {
    if chunks == [] then (rx, [])
    else
      ReceiveKeepsValid(rx, chunks[0]);
      var (rx', out) := Receive(rx, chunks[0]);
      var (last, rest) := FeedAll(rx', chunks[1..]);
      (last, AsSeq(out) + rest)
  }

  lemma ReceiveKeepsValid(rx: Rx, chunk: seq<Byte>)
    requires Valid(rx) && 1 <= |chunk| <= rx.want
    ensures Valid(Receive(rx, chunk).0)
  {
  }

  lemma {:induction false} HeaderFollowsParser(head: seq<Byte>, ahead: seq<Byte>)
    requires |head| == HEADER_LENGTH
    ensures var (rx, out) := HeaderComplete(head);
            Packets(head + ahead) == AsSeq(out) + Packets(rx.got + ahead) &&
            Residue(head + ahead) == Residue(rx.got + ahead)
  {
    var stream := head + ahead;
    assert PacketLength(stream) == PacketLength(head);
    assert stream[HEADER_LENGTH..] == ahead && stream[..HEADER_LENGTH] == head && [] + ahead == ahead;
  }

  lemma {:induction false} BodyFollowsParser(got: seq<Byte>, ahead: seq<Byte>)
    requires |got| >= HEADER_LENGTH && PacketLength(got) == |got| <= MAX_LENGTH
    ensures Packets(got + ahead) == [got] + Packets(ahead) && Residue(got + ahead) == Residue(ahead)
  {
    var stream := got + ahead;
    assert PacketLength(stream) == |got| && stream[..|got|] == got && stream[|got|..] == ahead;
  }

  /** One receive moves bytes from the stream ahead to the packets behind, and loses none. */
  lemma {:induction false} ReceiveFollowsParser(rx: Rx, chunk: seq<Byte>, ahead: seq<Byte>)
    requires Valid(rx) && 1 <= |chunk| <= rx.want
    ensures var (rx', out) := Receive(rx, chunk);
            Packets(rx.got + chunk + ahead) == AsSeq(out) + Packets(rx'.got + ahead) &&
            Residue(rx.got + chunk + ahead) == Residue(rx'.got + ahead)
  {
    var got := rx.got + chunk;
    if |chunk| == rx.want {
      if InBody(rx) {
        BodyFollowsParser(got, ahead);
        assert [] + ahead == ahead;
      } else {
        HeaderFollowsParser(got, ahead);
      }
    } else {
      assert [] + Packets(got + ahead) == Packets(got + ahead);
    }
  }

  predicate WholePacket(p: seq<Byte>) {
    HEADER_LENGTH <= |p| <= MAX_LENGTH && PacketLength(p) == |p|
  }

  /** Parsing undoes concatenation. */
  lemma {:induction false} PacketsOfFlatten(ps: seq<Packet>)
    requires forall i :: 0 <= i < |ps| ==> WholePacket(ps[i])
    ensures Packets(Flatten(ps)) == ps && Residue(Flatten(ps)) == []
  {
    if ps != [] {
      PacketsOfFlatten(ps[1..]);
      BodyFollowsParser(ps[0], Flatten(ps[1..]));
      assert ps == [ps[0]] + ps[1..];
    }
  }

  /** However a stream is cut into receives, the receiver delivers the packets of the
      whole-stream parser and ends up holding its residue. */
  lemma {:induction false} FragmentationIndependent(rx: Rx, chunks: seq<seq<Byte>>)
    requires Valid(rx) && Fits(rx, chunks)
    ensures var stream := rx.got + Flatten(chunks);
            Unfinished(Residue(stream)) &&
            FeedAll(rx, chunks) == (Holding(Residue(stream)), Packets(stream))
    decreases chunks
  {
    if chunks == [] {
      assert rx.got + [] == rx.got;
    } else {
      var chunk, ahead := chunks[0], Flatten(chunks[1..]);
      ReceiveKeepsValid(rx, chunk);
      ReceiveFollowsParser(rx, chunk, ahead);
      assert rx.got + chunk + ahead == rx.got + Flatten(chunks);
      FragmentationIndependent(Receive(rx, chunk).0, chunks[1..]);
    }
  }

  /** What recv() does. */
  datatype Arrival = Arrived(data: seq<Byte>) | NothingThere | PeerClosed | RecvError

  /** Where a byte of the packet is in a message. */
  function At(offset: nat): nat { MESSAGE_HEADER_LENGTH + offset }

  /** The receive side of a connection, with the C pointers as a buffer and an offset into it. */
  class Receiver {
    var curStat: Stat
    const dataHeadInfo: array<Byte>
    var precvMemPointer: array?<Byte>  // message header, packet header, body
    var offset: nat                    // precvbuf, relative to the header buffer or to the packet in the message
    var irecvlen: nat

    ghost predicate ValidState()
      reads this, dataHeadInfo, precvMemPointer
    {
      dataHeadInfo.Length == HEAD_BUFFER &&
      (precvMemPointer != null <==> curStat == BodyInit || curStat == BodyReceiving) &&
      (precvMemPointer != null ==> precvMemPointer != dataHeadInfo) &&
      offset + irecvlen == (if precvMemPointer == null then HEADER_LENGTH else precvMemPointer.Length - MESSAGE_HEADER_LENGTH) &&
      Valid(View())
    }

    ghost function View(): Rx
      reads this, dataHeadInfo, precvMemPointer
    {
      Rx(curStat, Got(), irecvlen)
    }

    ghost function Got(): seq<Byte>
      reads this, dataHeadInfo, precvMemPointer
    {
      if precvMemPointer == null then
        if offset <= dataHeadInfo.Length then dataHeadInfo[..offset] else []
      else
        if MESSAGE_HEADER_LENGTH + offset <= precvMemPointer.Length then
          precvMemPointer[MESSAGE_HEADER_LENGTH..MESSAGE_HEADER_LENGTH + offset]
        else []
    }

    constructor ()
      ensures ValidState() && View() == INITIAL && fresh(dataHeadInfo)
    {
      curStat := HeadInit;
      dataHeadInfo := new Byte[HEAD_BUFFER](_ => 0);
      precvMemPointer := null;
      offset, irecvlen := 0, HEADER_LENGTH;
    }

    /** The current buffer holds these bytes of the current packet. */
    ghost predicate Filled(got: seq<Byte>)
      reads this, dataHeadInfo, precvMemPointer
    {
      if precvMemPointer == null then
        |got| <= HEADER_LENGTH <= dataHeadInfo.Length && dataHeadInfo[..|got|] == got
      else
        MESSAGE_HEADER_LENGTH + |got| <= precvMemPointer.Length &&
        precvMemPointer[MESSAGE_HEADER_LENGTH..MESSAGE_HEADER_LENGTH + |got|] == got
    }

    /** recv(): the kernel writes the received bytes at precvbuf, and nothing else. */
    method Recv(data: seq<Byte>)
      requires ValidState() && 1 <= |data| <= irecvlen
      modifies dataHeadInfo, precvMemPointer
      ensures Filled(old(Got()) + data)
      ensures precvMemPointer == null ==>
        dataHeadInfo[..offset] == old(dataHeadInfo[..offset]) && offset + |data| <= HEADER_LENGTH &&
        dataHeadInfo[offset + |data|..] == old(dataHeadInfo[offset + |data|..])
      ensures precvMemPointer != null ==>
        dataHeadInfo[..] == old(dataHeadInfo[..]) && At(offset) + |data| <= precvMemPointer.Length &&
        precvMemPointer[..At(offset)] == old(precvMemPointer[..At(offset)]) &&
        precvMemPointer[At(offset) + |data|..] == old(precvMemPointer[At(offset) + |data|..])
    {
      if precvMemPointer == null {
        Copy(data, dataHeadInfo, offset);
      } else {
        Copy(data, precvMemPointer, At(offset));
      }
    }

    /** recvproc: the bytes received, or -1; `kick` when the connection was closed instead. */
    method RecvProc(r: Arrival) returns (n: int, kick: bool)
      requires ValidState() && (r.Arrived? ==> 1 <= |r.data| <= irecvlen)
      modifies dataHeadInfo, precvMemPointer
      ensures n == (if r.Arrived? then |r.data| else -1) && kick == (r.PeerClosed? || r.RecvError?)
      ensures r.Arrived? ==> Filled(old(Got()) + r.data)
      ensures !r.Arrived? ==> precvMemPointer != null ==> precvMemPointer[..] == old(precvMemPointer[..])
      ensures !r.Arrived? || precvMemPointer != null ==> dataHeadInfo[..] == old(dataHeadInfo[..])
      ensures dataHeadInfo[HEADER_LENGTH..] == old(dataHeadInfo[HEADER_LENGTH..])
      ensures precvMemPointer != null ==>
        precvMemPointer[..MESSAGE_HEADER_LENGTH] == old(precvMemPointer[..MESSAGE_HEADER_LENGTH])
    {
      kick := r.PeerClosed? || r.RecvError?;
      if r.Arrived? {
        Recv(r.data);
        n := |r.data|;
        if precvMemPointer == null {
          assert dataHeadInfo[HEADER_LENGTH..] == dataHeadInfo[offset + |r.data|..][HEADER_LENGTH - offset - |r.data|..];
        } else {
          assert precvMemPointer[..MESSAGE_HEADER_LENGTH] == precvMemPointer[..At(offset)][..MESSAGE_HEADER_LENGTH];
        }
      } else {
        n := -1;
      }
    }

    /** Too few bytes arrived: keep receiving behind them. */
    method Advance(stat: Stat, n: nat, ghost got: seq<Byte>)
      requires dataHeadInfo.Length == HEAD_BUFFER && precvMemPointer != dataHeadInfo
      requires Filled(got) && |got| == offset + n && n < irecvlen
      requires Valid(Rx(stat, got, irecvlen - n))
      requires precvMemPointer != null <==> InBody(Rx(stat, got, irecvlen - n))
      requires precvMemPointer != null ==> PacketLength(got) == precvMemPointer.Length - MESSAGE_HEADER_LENGTH
      modifies this`curStat, this`offset, this`irecvlen
      ensures ValidState() && View() == Rx(stat, got, old(irecvlen) - n)
    {
      curStat := stat;
      offset, irecvlen := offset + n, irecvlen - n;
    }

    /** ngx_read_request_handler; `stamp` holds the bytes of a message header with this connection and
        its present sequence number, `flood` is the verdict of TestFlood. Returns the message for the
        receive queue, and whether the connection was closed. */
    method ReadRequestHandler(r: Arrival, flood: bool, stamp: seq<Byte>) returns (message: array?<Byte>, kick: bool)
      requires ValidState() && |stamp| == MESSAGE_HEADER_LENGTH && (r.Arrived? ==> 1 <= |r.data| <= irecvlen)
      modifies this, dataHeadInfo, precvMemPointer
      ensures ValidState()
      // what arrived decides the next state, and what is handed over
      ensures r.Arrived? ==> View() == Receive(old(View()), r.data).0
      ensures r.Arrived? ==> Handed(Receive(old(View()), r.data).1, flood, message, kick, old(PresentHeader(stamp)))
      ensures !r.Arrived? ==> View() == old(View()) && message == null && kick == !r.NothingThere?
      // the message header is the one stamped when the packet header was complete
      ensures precvMemPointer != null ==> precvMemPointer[..MESSAGE_HEADER_LENGTH] == old(PresentHeader(stamp))
      // writes stay inside the eight header bytes or the allocated body
      ensures dataHeadInfo[HEADER_LENGTH..] == old(dataHeadInfo[HEADER_LENGTH..])
      ensures old(precvMemPointer) != null ==> dataHeadInfo[..] == old(dataHeadInfo[..])
    {
      message := null;
      var reco;
      reco, kick := RecvProc(r);
      if reco <= 0 {
        return;
      }
      message, kick := Dispatch(reco, flood, stamp, old(Got()) + r.data);
    }

    /** The branches on curStat once bytes have arrived. */
    method Dispatch(reco: nat, flood: bool, stamp: seq<Byte>, ghost got: seq<Byte>) returns (message: array?<Byte>, kick: bool)
      requires dataHeadInfo.Length == HEAD_BUFFER && |stamp| == MESSAGE_HEADER_LENGTH && Filled(got)
      requires 1 <= reco <= irecvlen && |got| == offset + reco && Valid(Rx(curStat, got[..offset], irecvlen))
      requires precvMemPointer != null <==> curStat == BodyInit || curStat == BodyReceiving
      requires precvMemPointer != null ==> precvMemPointer != dataHeadInfo
      requires offset + irecvlen == (if precvMemPointer == null then HEADER_LENGTH else precvMemPointer.Length - MESSAGE_HEADER_LENGTH)
      modifies this
      ensures ValidState()
      ensures View() == Receive(Rx(old(curStat), got[..old(offset)], old(irecvlen)), got[old(offset)..]).0
      ensures Handed(Receive(Rx(old(curStat), got[..old(offset)], old(irecvlen)), got[old(offset)..]).1,
                     flood, message, kick, old(PresentHeader(stamp)))
      ensures precvMemPointer != null ==> precvMemPointer[..MESSAGE_HEADER_LENGTH] == old(PresentHeader(stamp))
    {
      message, kick := null, false;
      assert got == got[..offset] + got[offset..];
      if curStat == HeadInit {
        if reco == HEADER_LENGTH {
          message, kick := HeaderPhase(flood, stamp, got);
        } else {
          Advance(HeadReceiving, reco, got);
        }
      } else if curStat == HeadReceiving {
        if irecvlen == reco {
          message, kick := HeaderPhase(flood, stamp, got);
        } else {
          Advance(HeadReceiving, reco, got);
        }
      } else {
        message, kick := BodyPhase(reco, flood, got);
      }
    }

    method BodyPhase(reco: nat, flood: bool, ghost got: seq<Byte>) returns (message: array?<Byte>, kick: bool)
      requires dataHeadInfo.Length == HEAD_BUFFER && precvMemPointer != null && precvMemPointer != dataHeadInfo && Filled(got)
      requires 1 <= reco <= irecvlen && |got| == offset + reco && Valid(Rx(curStat, got[..offset], irecvlen))
      requires InBody(Rx(curStat, got[..offset], irecvlen))
      requires offset + irecvlen == precvMemPointer.Length - MESSAGE_HEADER_LENGTH
      modifies this
      ensures ValidState()
      ensures View() == Receive(Rx(old(curStat), got[..old(offset)], old(irecvlen)), got[old(offset)..]).0
      ensures Handed(Receive(Rx(old(curStat), got[..old(offset)], old(irecvlen)), got[old(offset)..]).1,
                     flood, message, kick, old(precvMemPointer[..MESSAGE_HEADER_LENGTH]))
      ensures precvMemPointer != null ==> precvMemPointer == old(precvMemPointer)
    {
      message, kick := null, false;
      assert got == got[..offset] + got[offset..];
      if reco == irecvlen {
        assert precvMemPointer[MESSAGE_HEADER_LENGTH..] == got;
        assert precvMemPointer[..] == precvMemPointer[..MESSAGE_HEADER_LENGTH] + got;
        message, kick := LastPhase(flood);
      } else {
        Advance(BodyReceiving, reco, got);
      }
    }

    /** The message header of the packet being received: stamped already, or with the present stamp. */
    ghost function PresentHeader(stamp: seq<Byte>): seq<Byte>
      reads this, precvMemPointer
    {
      if precvMemPointer != null && precvMemPointer.Length >= MESSAGE_HEADER_LENGTH then
        precvMemPointer[..MESSAGE_HEADER_LENGTH]
      else stamp
    }

    /** A completed packet goes to the receive queue behind its message header, or is dropped with a
        kick when it is a flood. */
    ghost predicate Handed(out: Option<Packet>, flood: bool, message: array?<Byte>, kick: bool, header: seq<Byte>)
      reads message
    {
      (kick <==> out.Some? && flood) &&
      (message != null <==> out.Some? && !flood) &&
      (message != null ==> message[..] == header + out.value)
    }

    /** ngx_wait_request_handler_proc_p1 */
    method HeaderPhase(flood: bool, stamp: seq<Byte>, ghost head: seq<Byte>) returns (message: array?<Byte>, kick: bool)
      requires dataHeadInfo.Length == HEAD_BUFFER && precvMemPointer == null && |stamp| == MESSAGE_HEADER_LENGTH
      requires |head| == HEADER_LENGTH && Filled(head)
      modifies this
      ensures ValidState() && View() == HeaderComplete(head).0
      ensures Handed(HeaderComplete(head).1, flood, message, kick, stamp)
      ensures precvMemPointer != null ==> precvMemPointer[..MESSAGE_HEADER_LENGTH] == stamp
    {
      message, kick := null, false;
      var pkgLen := 256 * (dataHeadInfo[0] as int) + dataHeadInfo[1] as int;
      if pkgLen < HEADER_LENGTH {
        curStat, offset, irecvlen := HeadInit, 0, HEADER_LENGTH;
      } else if pkgLen > MAX_LENGTH {
        curStat, offset, irecvlen := HeadInit, 0, HEADER_LENGTH;
      } else {
        precvMemPointer := Allocate(pkgLen, stamp);
        assert precvMemPointer[MESSAGE_HEADER_LENGTH..MESSAGE_HEADER_LENGTH + HEADER_LENGTH] == head;
        if pkgLen == HEADER_LENGTH {
          assert precvMemPointer[..] == stamp + head;
          message, kick := LastPhase(flood);
        } else {
          curStat, offset, irecvlen := BodyInit, HEADER_LENGTH, pkgLen - HEADER_LENGTH;
        }
      }
    }

    /** A block for message header and packet, with both headers filled in. */
    method Allocate(pkgLen: nat, stamp: seq<Byte>) returns (buffer: array<Byte>)
      requires dataHeadInfo.Length == HEAD_BUFFER && |stamp| == MESSAGE_HEADER_LENGTH && pkgLen >= HEADER_LENGTH
      ensures fresh(buffer) && buffer.Length == MESSAGE_HEADER_LENGTH + pkgLen
      ensures buffer[..MESSAGE_HEADER_LENGTH] == stamp
      ensures buffer[MESSAGE_HEADER_LENGTH..MESSAGE_HEADER_LENGTH + HEADER_LENGTH] == dataHeadInfo[..HEADER_LENGTH]
    {
      buffer := new Byte[MESSAGE_HEADER_LENGTH + pkgLen](_ => 0);
      Copy(stamp, buffer, 0);
      assert buffer[..MESSAGE_HEADER_LENGTH] == stamp;
      Copy(dataHeadInfo[..HEADER_LENGTH], buffer, MESSAGE_HEADER_LENGTH);
      assert buffer[..MESSAGE_HEADER_LENGTH] == stamp;
    }

    /** ngx_wait_request_handler_proc_plast */
    method LastPhase(flood: bool) returns (message: array?<Byte>, kick: bool)
      requires dataHeadInfo.Length == HEAD_BUFFER && precvMemPointer != null
      modifies this
      ensures ValidState() && View() == INITIAL
      ensures message == (if flood then null else old(precvMemPointer)) && kick == flood
    {
      message := if flood then null else precvMemPointer;
      kick := flood;
      precvMemPointer := null;
      curStat, offset, irecvlen := HeadInit, 0, HEADER_LENGTH;
    }
  }

  /** memcpy */
  method Copy(data: seq<Byte>, target: array<Byte>, at: nat)
    requires at + |data| <= target.Length
    modifies target
    ensures target[..] == old(target[..at]) + data + old(target[at + |data|..])
  {
    for i := 0 to |data|
      invariant target[..at + i] == old(target[..at]) + data[..i]
      invariant target[at + i..] == old(target[at + i..])
    {
      target[at + i] := data[i];
    }
  }
}
