/** The 8-byte framing between clients, master and workers, and the loops that receive it in pieces. */
module Framing {
  import opened Prelude

  type Byte = x: int | 0 <= x < 256
  type Bytes = seq<Byte>

  const VERSION: Byte := 1
  const MAX_PACKET := 1024 * 1024 * 10

  datatype Packet = Packet(opCode: Byte, payload: Bytes)

  // ----- the header: version, op code, two spare bytes, length in four -----

  function Big4(n: int): (b: Bytes)
    requires 0 <= n < 0x1_0000_0000
    ensures |b| == 4
  {
    [n / 0x100_0000, n / 0x1_0000 % 0x100, n / 0x100 % 0x100, n % 0x100]
  }

  /** readInt: two's complement. */
  function Int4(b: Bytes): (n: int)
    requires |b| == 4
    ensures -0x8000_0000 <= n < 0x8000_0000
  {
    var b0: int, b1: int, b2: int, b3: int := b[0], b[1], b[2], b[3];
    var u := ((b0 * 0x100 + b1) * 0x100 + b2) * 0x100 + b3;
    if u < 0x8000_0000 then u else u - 0x1_0000_0000
  }

  lemma Big4RoundTrip(n: int)
    requires 0 <= n < 0x8000_0000
    ensures Int4(Big4(n)) == n
  {
  }

  function Frame(p: Packet): Bytes
    requires |p.payload| < 0x8000_0000
  {
    [VERSION, p.opCode, 0, 0] + Big4(|p.payload|) + p.payload
  }

  /** TitanProtocol.read, on the bytes to come; the header is read whole before it is judged. */
  function ReadPacket(s: Bytes): (r: Result<(Packet, Bytes)>)
    ensures r.Ok? ==> |r.value.1| < |s|
  {
    if |s| < 8 then Err("EOFException")
    else if s[0] != VERSION then Err("Version Mismatch!")
    else
      var len := Int4(s[4..8]);
      if len > MAX_PACKET then Err("Packet too large")
      else if len < 0 then Err("NegativeArraySizeException")
      else if |s| < 8 + len then Err("EOFException")
      else Ok((Packet(s[1], s[8..8 + len]), s[8 + len..]))
  }

  /** On the wire: version 1, the op code, two zeros, the length with the highest byte first, and the payload. */
  lemma FrameBytes(p: Packet)
    requires |p.payload| < 0x8000_0000
    ensures var f := Frame(p);
      && |f| == 8 + |p.payload| && f[0] == 1 && f[1] == p.opCode && f[2] == 0 && f[3] == 0
      && f[4] as int * 0x100_0000 + f[5] as int * 0x1_0000 + f[6] as int * 0x100 + f[7] as int == |p.payload|
      && f[8..] == p.payload
  {
    var f := Frame(p);
    LengthBytes(|p.payload|);
    assert f[4..8] == Big4(|p.payload|);
    hide Big4;
    assert f[4] == f[4..8][0] && f[5] == f[4..8][1] && f[6] == f[4..8][2] && f[7] == f[4..8][3];
  }

  lemma LengthBytes(n: int)
    requires 0 <= n < 0x1_0000_0000
    ensures var b := Big4(n);
      b[0] as int * 0x100_0000 + b[1] as int * 0x1_0000 + b[2] as int * 0x100 + b[3] as int == n
  {
    EightBits(n);
    EightBits(n / 0x100);
    EightBits(n / 0x1_0000);
  }

  lemma EightBits(n: nat)
    ensures n / 0x100 * 0x100 + n % 0x100 == n
    ensures n / 0x100 / 0x100 == n / 0x1_0000 && n / 0x1_0000 / 0x100 == n / 0x100_0000
  {
  }

  /** What is read from these bytes, and what is refused: a short stream, another version, a length out of range. */
  lemma PacketBytes(s: Bytes)
    ensures |s| < 8 ==> ReadPacket(s) == Err("EOFException")
    ensures |s| >= 8 ==>
      var n := s[4] as int * 0x100_0000 + s[5] as int * 0x1_0000 + s[6] as int * 0x100 + s[7] as int;
      ReadPacket(s) ==
        if s[0] != 1 then Err("Version Mismatch!")
        else if n >= 0x8000_0000 then Err("NegativeArraySizeException")
        else if n > 10 * 1024 * 1024 then Err("Packet too large")
        else if |s| < 8 + n then Err("EOFException")
        else Ok((Packet(s[1], s[8..8 + n]), s[8 + n..]))
  {
  }

  /** A packet is read back exactly when its payload is at most 10 MiB; the limit is the receiver's only. */
  lemma PacketRoundTrip(p: Packet, rest: Bytes)
    requires |p.payload| < 0x8000_0000
    ensures ReadPacket(Frame(p) + rest) ==
      if |p.payload| <= MAX_PACKET then Ok((p, rest)) else Err("Packet too large")
  {
    var s := Frame(p) + rest;
    var n := |p.payload|;
    Big4RoundTrip(n);
    assert s[4..8] == Big4(n);
    assert s[8..8 + n] == p.payload && s[8 + n..] == rest;
    hide Big4, Int4;
  }

  function FrameAll(ps: seq<Packet>): Bytes
    requires forall i :: 0 <= i < |ps| ==> |ps[i].payload| < 0x8000_0000
  {
    if ps == [] then [] else Frame(ps[0]) + FrameAll(ps[1..])
  }

  /** All packets of a stream, up to its end or the first that cannot be read. */
  function ReadAll(s: Bytes): (seq<Packet>, Bytes)
    decreases |s|
  {
    match ReadPacket(s)
    case Err(_) => ([], s)
    case Ok((p, rest)) =>
      var r := ReadAll(rest);
      ([p] + r.0, r.1)
  }

  /** A stream of packets within the limit is read back packet by packet, with nothing left over. */
  lemma {:induction false} StreamRoundTrip(ps: seq<Packet>)
    requires forall i :: 0 <= i < |ps| ==> |ps[i].payload| <= MAX_PACKET
    ensures ReadAll(FrameAll(ps)) == (ps, [])
  {
    hide ReadPacket, Frame;
    if ps == [] {
      assert ReadPacket([]).Err? by { EmptyStream(); }
    } else {
      PacketRoundTrip(ps[0], FrameAll(ps[1..]));
      StreamRoundTrip(ps[1..]);
      assert ps == [ps[0]] + ps[1..];
    }
  }

  lemma EmptyStream()
    ensures ReadPacket([]).Err?
  {
  }

  /** One direction of a connection, as a data stream: bytes are written at one end and read at the other. */
  class Connection {
    var pending: Bytes

    constructor ()
      ensures pending == []
    {
      pending := [];
    }

    method WriteByte(b: Byte)
      modifies this
      ensures pending == old(pending) + [b]
    {
      pending := pending + [b];
    }

    method WriteInt(n: int)
      requires 0 <= n < 0x8000_0000
      modifies this
      ensures pending == old(pending) + Big4(n)
    {
      pending := pending + Big4(n);
    }

    /** readFully: exactly n bytes, or an exception. */
    method ReadFully(n: nat) returns (data: Option<Bytes>)
      modifies this
      ensures data.Some? <==> |old(pending)| >= n
      ensures data.Some? ==> data.value == old(pending)[..n] && pending == old(pending)[n..]
    {
      if |pending| < n {
        pending := [];
        return None;
      }
      data := Some(pending[..n]);
      pending := pending[n..];
    }

    /** TitanProtocol.send */
    method Send(opCode: Byte, payload: Bytes)
      requires |payload| < 0x8000_0000
      modifies this
      ensures pending == old(pending) + Frame(Packet(opCode, payload))
    {
      WriteByte(VERSION);
      WriteByte(opCode);
      WriteByte(0);
      WriteByte(0);
      WriteInt(|payload|);
      pending := pending + payload;
    }

    /** TitanProtocol.read */
    method ReadPacketHere() returns (r: Result<Packet>)
      modifies this
      ensures match ReadPacket(old(pending))
        case Ok((p, rest)) => r == Ok(p) && pending == rest
        case Err(e) => r == Err(e)
    {
      ghost var s := pending;
      var header := ReadFully(8);
      if header.None? {
        return Err("EOFException");
      }
      assert header.value[4..8] == s[4..8];
      var len := Int4(header.value[4..8]);
      if header.value[0] != VERSION {
        return Err("Version Mismatch!");
      }
      if len > MAX_PACKET {
        return Err("Packet too large");
      }
      if len < 0 {
        return Err("NegativeArraySizeException");
      }
      var buffer := ReadFully(len);
      if buffer.None? {
        return Err("EOFException");
      }
      assert s[8..][..len] == s[8..8 + len] && s[8..][len..] == s[8 + len..];
      r := Ok(Packet(header.value[1], buffer.value));
    }
  }

  // ----- a socket -----

  /** What recv may do: hand out some bytes, report the end of the stream, time out, or fail. */
  datatype Recv = Chunk(data: Bytes) | Closed | Timeout | Broken

  /** The results of recv calls to come; a chunk is never empty and never longer than asked for. */
  class Socket {
    var script: seq<Recv>

    constructor (script: seq<Recv>)
      ensures this.script == script
    {
      this.script := script;
    }

    /** A chunk longer than `n` is handed out in parts. A script that has run out is a closed connection. */
    method Receive(n: nat) returns (r: Recv)
      requires n > 0
      modifies this
      ensures r == First(old(script), n) && script == AfterFirst(old(script), n)
      ensures r.Chunk? ==> 1 <= |r.data| <= n
    {
      if script == [] {
        return Closed;
      }
      r := script[0];
      if r.Chunk? && r.data == [] {
        script := script[1..];
        return Closed;
      }
      if r.Chunk? && |r.data| > n {
        script := [Chunk(r.data[n..])] + script[1..];
        return Chunk(r.data[..n]);
      }
      script := script[1..];
    }
  }

  function First(script: seq<Recv>, n: nat): Recv
  {
    if script == [] || script[0] == Chunk([]) then Closed
    else if script[0].Chunk? && |script[0].data| > n then Chunk(script[0].data[..n])
    else script[0]
  }

  function AfterFirst(script: seq<Recv>, n: nat): seq<Recv>
  {
    if script == [] then []
    else if script[0].Chunk? && |script[0].data| > n then [Chunk(script[0].data[n..])] + script[1..]
    else script[1..]
  }

  /** The bytes that arrive before anything else happens, and what then happens. */
  function Incoming(script: seq<Recv>): Bytes
  {
    if script == [] || !script[0].Chunk? || script[0].data == [] then [] else script[0].data + Incoming(script[1..])
  }

  function Stop(script: seq<Recv>): Recv
  {
    if script == [] then Closed
    else if !script[0].Chunk? then script[0]
    else if script[0].data == [] then Closed
    else Stop(script[1..])
  }

  lemma ReceiveStep(script: seq<Recv>, n: nat)
    requires n > 0
    ensures var r := First(script, n);
      if r.Chunk? then
        r.data != [] && Incoming(script) == r.data + Incoming(AfterFirst(script, n)) &&
          Stop(script) == Stop(AfterFirst(script, n))
      else Incoming(script) == [] && Stop(script) == r
  {
  }

  /**
   The SDK's _recv_exact: the first n bytes, however they are cut into pieces, or, if the
   stream stops short, nothing - except that a timeout hands out the part that came.
   */
  method RecvExact(sock: Socket, n: nat) returns (data: Option<Bytes>)
    modifies sock
    ensures data == ExactResult(old(sock.script), n)
    ensures |Incoming(old(sock.script))| < n && Stop(old(sock.script)) == Timeout && Incoming(old(sock.script)) != []
      ==> data == Some(Incoming(old(sock.script)))
    ensures |Incoming(old(sock.script))| < n && (Stop(old(sock.script)) != Timeout || Incoming(old(sock.script)) == [])
      ==> data == None
    ensures |Incoming(old(sock.script))| >= n ==>
      data == Some(Incoming(old(sock.script))[..n]) && Incoming(sock.script) == Incoming(old(sock.script))[n..]
  {
    var buffer: Bytes := [];
    while |buffer| < n
      invariant |buffer| <= n && Incoming(old(sock.script)) == buffer + Incoming(sock.script)
      invariant Stop(old(sock.script)) == Stop(sock.script)
      decreases n - |buffer|
    {
      var want := if n - |buffer| < 8192 then n - |buffer| else 8192;
      ReceiveStep(sock.script, want);
      ghost var before := Incoming(sock.script);
      var packet := sock.Receive(want);
      match packet {
        case Chunk(bytes) =>
          assert buffer + (bytes + Incoming(sock.script)) == (buffer + bytes) + Incoming(sock.script);
          buffer := buffer + bytes;
        case Closed => return None;
        case Timeout =>
          assert buffer + [] == buffer;
          return if buffer == [] then None else Some(buffer);
        case Broken => return None;
      }
    }
    data := Some(buffer);
  }

  function ExactResult(script: seq<Recv>, n: nat): Option<Bytes>
  {
    if |Incoming(script)| >= n then Some(Incoming(script)[..n])
    else if Stop(script) == Timeout && Incoming(script) != [] then Some(Incoming(script))
    else None
  }

  /** All that was asked for, the end of the stream before that, or an exception. */
  datatype Received = Whole(data: Bytes) | Ended | Raised

  /** The dashboard's recv_all; a timeout or a failure is an exception there. */
  method RecvAll(sock: Socket, n: nat) returns (data: Received)
    modifies sock
    ensures data == AllResult(old(sock.script), n)
    ensures |Incoming(old(sock.script))| >= n ==> data == Whole(Incoming(old(sock.script))[..n])
    ensures |Incoming(old(sock.script))| < n ==>
      data == if Stop(old(sock.script)) == Closed then Ended else Raised
    ensures |Incoming(old(sock.script))| >= n ==> Incoming(sock.script) == Incoming(old(sock.script))[n..]
  {
    var buffer: Bytes := [];
    while |buffer| < n
      invariant |buffer| <= n && Incoming(old(sock.script)) == buffer + Incoming(sock.script)
      invariant Stop(old(sock.script)) == Stop(sock.script)
      decreases n - |buffer|
    {
      var want := n - |buffer|;
      ReceiveStep(sock.script, want);
      var packet := sock.Receive(want);
      match packet {
        case Chunk(bytes) =>
          assert buffer + (bytes + Incoming(sock.script)) == (buffer + bytes) + Incoming(sock.script);
          buffer := buffer + bytes;
        case Closed => return Ended;
        case Timeout => return Raised;
        case Broken => return Raised;
      }
    }
    data := Whole(buffer);
  }

  function AllResult(script: seq<Recv>, n: nat): Received
  {
    if |Incoming(script)| >= n then Whole(Incoming(script)[..n])
    else if Stop(script) == Closed then Ended
    else Raised
  }

  /** A stream of chunks, none of them empty. */
  predicate Pieces(script: seq<Recv>)
  {
    forall i :: 0 <= i < |script| ==> script[i].Chunk? && script[i].data != []
  }

  function Glued(script: seq<Recv>): Bytes
    requires Pieces(script)
  {
    if script == [] then [] else script[0].data + Glued(script[1..])
  }

  lemma {:induction false} PiecesArrive(script: seq<Recv>, more: seq<Recv>)
    requires Pieces(script)
    ensures Incoming(script + more) == Glued(script) + Incoming(more)
  {
    if script == [] {
      assert script + more == more;
    } else {
      PiecesArrive(script[1..], more);
      assert (script + more)[1..] == script[1..] + more;
      assert script[0].data + (Glued(script[1..]) + Incoming(more)) == Glued(script) + Incoming(more);
    }
  }

  /**
   However the network cuts up the frame of a packet, and whatever follows it: the loops get
   the 8 header bytes and then exactly the payload.
   */
  lemma FrameArrives(p: Packet, pieces: seq<Recv>, more: seq<Recv>)
    requires |p.payload| < 0x8000_0000 && Pieces(pieces) && Glued(pieces) == Frame(p)
    ensures var script := pieces + more; var n := |p.payload|;
      ExactResult(script, 8 + n) == Some(Frame(p)) && AllResult(script, 8 + n) == Whole(Frame(p))
    ensures ExactResult(pieces + more, 8).Some? && ExactResult(pieces + more, 8).value[4..8] == Big4(|p.payload|)
  {
    PiecesArrive(pieces, more);
    var s := Incoming(pieces + more);
    assert s[..|Frame(p)|] == Frame(p);
    assert s[..8] == Frame(p)[..8];
    assert Frame(p)[4..8] == Big4(|p.payload|);
  }
}
