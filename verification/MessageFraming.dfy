/** Length-prefixed messages over byte streams, and the byte stream over websocket messages. */
module MessageFraming {

  type Byte = x: int | 0 <= x < 256

  const MAX_MESSAGE_SIZE := 0x100_0000

  datatype Message = Message(messageType: Byte, payload: seq<Byte>)

  function Join(chunks: seq<seq<Byte>>): seq<Byte> {
    if chunks == [] then [] else chunks[0] + Join(chunks[1..])
  }

  // ---------------------------------------------------------------------------------------
  // The wire format.
  // ---------------------------------------------------------------------------------------

  function BigEndian(n: nat): (bytes: seq<Byte>)
    requires n < 0x1_0000_0000
    ensures |bytes| == 4 && FromBigEndian(bytes) == n
  {
    [n / 0x100_0000, n / 0x1_0000 % 0x100, n / 0x100 % 0x100, n % 0x100]
  }

  function FromBigEndian(bytes: seq<Byte>): nat
    requires |bytes| == 4
  {
    var a: int, b: int, c: int := bytes[0], bytes[1], bytes[2];
    a * 0x100_0000 + b * 0x1_0000 + c * 0x100 + bytes[3]
  }

  /** The length field has 32 bits; what does not fit is cut off. */
  function Header(m: Message): (bytes: seq<Byte>)
    ensures |bytes| == 5
  {
    [m.messageType] + BigEndian(|m.payload| % 0x1_0000_0000)
  }

  function Encode(m: Message): seq<Byte> {
    Header(m) + m.payload
  }

  datatype Reading = Got(message: Message) | TooLarge | Ended

  /** What reading one message from the bytes gives, and what it leaves unread. */
  function ReadFrame(bytes: seq<Byte>): (Reading, seq<Byte>) {
    if |bytes| < 5 then (Ended, [])
    else
      var length := FromBigEndian(bytes[1..5]);
      if length > MAX_MESSAGE_SIZE then (TooLarge, bytes[5..])
      else if |bytes| < 5 + length then (Ended, [])
      else (Got(Message(bytes[0], bytes[5..5 + length])), bytes[5 + length..])
  }

  // ---------------------------------------------------------------------------------------
  // Writers that may fail and readers that may fall short.
  // ---------------------------------------------------------------------------------------

  class Writer {
    var written: seq<Byte>
    var room: nat

    constructor (room: nat)
      ensures written == [] && this.room == room
    {
      written, this.room := [], room;
    }

    method Write(data: seq<Byte>) returns (ok: bool)
      modifies this
      ensures ok <==> |data| <= old(room)
      ensures written == old(written) + (if ok then data else data[..old(room)])
      ensures room == if ok then old(room) - |data| else 0
    {
      ok := |data| <= room;
      written := written + (if ok then data else data[..room]);
      room := if ok then room - |data| else 0;
    }
  }

  /** A message is written whole or, when the writer fails, only a proper prefix of its encoding is. */
  method WriteMessage(writer: Writer, m: Message) returns (ok: bool)
    modifies writer
    ensures ok <==> |Encode(m)| <= old(writer.room)
    ensures writer.written == old(writer.written) + (if ok then Encode(m) else Encode(m)[..old(writer.room)])
  {
    ok := writer.Write(Header(m));
    if !ok {
      assert Encode(m)[..old(writer.room)] == Header(m)[..old(writer.room)];
      return;
    }
    if |m.payload| > 0 {
      ok := writer.Write(m.payload);
      if !ok {
        assert Encode(m)[..old(writer.room)] == Header(m) + m.payload[..old(writer.room) - 5];
      }
    }
  }

  /** Every read delivers bytes of the first chunk only, so reads fall short at any place. */
  class Reader {
    var chunks: seq<seq<Byte>>

    ghost predicate Valid()
      reads this
    {
      forall i :: 0 <= i < |chunks| ==> chunks[i] != []
    }

    ghost function Contents(): seq<Byte>
      reads this
    {
      Join(chunks)
    }

    constructor (chunks: seq<seq<Byte>>)
      requires forall i :: 0 <= i < |chunks| ==> chunks[i] != []
      ensures Valid() && Contents() == Join(chunks)
    {
      this.chunks := chunks;
    }

    method Read(limit: nat) returns (data: seq<Byte>)
      requires Valid() && limit > 0
      modifies this
      ensures Valid() && data + Contents() == old(Contents()) && |data| <= limit
      ensures data == [] <==> old(Contents()) == []
    {
      if chunks == [] {
        return [];
      }
      if |chunks[0]| <= limit {
        data := chunks[0];
        chunks := chunks[1..];
      } else {
        data := chunks[0][..limit];
        ghost var first, rest := chunks[0], chunks[1..];
        chunks := [chunks[0][limit..]] + chunks[1..];
        assert chunks[1..] == rest && first == data + chunks[0];
        assert data + (chunks[0] + Join(rest)) == first + Join(rest);
      }
    }

    /** Reads on until `count` bytes are there or the stream ends. */
    method ReadFull(count: nat) returns (data: seq<Byte>, ok: bool)
      requires Valid()
      modifies this
      ensures Valid() && (ok <==> |old(Contents())| >= count)
      ensures ok ==> data == old(Contents())[..count] && Contents() == old(Contents())[count..]
      ensures !ok ==> Contents() == []
    {
      data := [];
      while |data| < count
        invariant Valid() && |data| <= count && data + Contents() == old(Contents())
        decreases count - |data|
      {
        var more := Read(count - |data|);
        if more == [] {
          return data, false;
        }
        data := data + more;
      }
      ok := true;
      assert old(Contents())[..|data|] == data;
    }

    method ReadMessage() returns (reading: Reading)
      requires Valid()
      modifies this
      ensures Valid() && (reading, Contents()) == ReadFrame(old(Contents()))
    {
      ghost var bytes := Contents();
      var header, ok := ReadFull(5);
      if !ok {
        return Ended;
      }
      assert header[1..5] == bytes[1..5];
      var length := FromBigEndian(header[1..5]);
      if length > MAX_MESSAGE_SIZE {
        return TooLarge;
      }
      var payload: seq<Byte> := [];
      if length > 0 {
        payload, ok := ReadFull(length);
        if !ok {
          return Ended;
        }
        assert bytes[5..][..length] == bytes[5..5 + length] && bytes[5..][length..] == bytes[5 + length..];
      }
      reading := Got(Message(header[0], payload));
    }
  }

  /** On the wire: the type, the length of the payload in four bytes with the highest first, the payload. */
  lemma {:induction false} FrameLayout(m: Message)
    requires |m.payload| < 0x1_0000_0000
    ensures var bytes := Encode(m);
      |bytes| == 5 + |m.payload| && bytes[0] == m.messageType && bytes[5..] == m.payload &&
      var a: int, b: int, c: int := bytes[1], bytes[2], bytes[3];
      |m.payload| == a * 0x100_0000 + b * 0x1_0000 + c * 0x100 + bytes[4]
  {
    LayoutOf(Encode(m), m.messageType, BigEndian(|m.payload|), m.payload);
  }

  lemma {:induction false} LayoutOf(bytes: seq<Byte>, first: Byte, length: seq<Byte>, payload: seq<Byte>)
    requires |length| == 4 && bytes == [first] + length + payload
    ensures bytes[0] == first && bytes[5..] == payload
    ensures forall i :: 0 <= i < 4 ==> bytes[i + 1] == length[i]
  {
  }

  // ---------------------------------------------------------------------------------------
  // Round trips.
  // ---------------------------------------------------------------------------------------

  /** A message reads back as it was written, with nothing behind it touched, if and only if its payload
      has at most 16 MiB; past that it is refused, or past 4 GiB, cut short. */
  lemma {:induction false} FrameReadsBack(m: Message, rest: seq<Byte>)
    ensures ReadFrame(Encode(m) + rest) == (Got(m), rest) <==> |m.payload| <= 16 * 1024 * 1024
    ensures MAX_MESSAGE_SIZE < |m.payload| < 0x1_0000_0000 ==> ReadFrame(Encode(m) + rest).0 == TooLarge
  {
    var bytes, length := Encode(m) + rest, |m.payload| % 0x1_0000_0000;
    assert bytes[1..5] == BigEndian(length);
    assert bytes[5..] == m.payload + rest;
    if length <= MAX_MESSAGE_SIZE {
      assert bytes[5..5 + length] == m.payload[..length];
      assert |m.payload| == length ==> bytes[5 + length..] == rest && m.payload[..length] == m.payload;
    }
  }

  /** A proper prefix of a frame, as a failed write leaves it, never reads as a message. */
  lemma {:induction false} TruncatedFrameIsNoMessage(m: Message, cut: nat)
    requires cut < |Encode(m)| && |m.payload| < 0x1_0000_0000
    ensures var reading := ReadFrame(Encode(m)[..cut]).0;
      if cut >= 5 && |m.payload| > MAX_MESSAGE_SIZE then reading == TooLarge else reading == Ended
  {
    var bytes := Encode(m)[..cut];
    if cut >= 5 { assert bytes[1..5] == BigEndian(|m.payload|); }
  }

  function EncodeAll(messages: seq<Message>): seq<Byte> {
    if messages == [] then [] else Encode(messages[0]) + EncodeAll(messages[1..])
  }

  /** Reads messages until the first that is none. */
  function ReadAll(bytes: seq<Byte>): (seq<Message>, Reading)
    decreases |bytes|
  {
    var (reading, rest) := ReadFrame(bytes);
    if !reading.Got? then ([], reading)
    else
      var (others, end) := ReadAll(rest);
      ([reading.message] + others, end)
  }

  lemma {:induction false} ReadAllFirst(m: Message, rest: seq<Byte>)
    requires |m.payload| <= MAX_MESSAGE_SIZE
    ensures ReadAll(Encode(m) + rest) == ([m] + ReadAll(rest).0, ReadAll(rest).1)
  {
    FrameReadsBack(m, rest);
  }

  lemma {:induction false} MessagesReadBack(messages: seq<Message>, tail: seq<Byte>)
    requires forall i :: 0 <= i < |messages| ==> |messages[i].payload| <= MAX_MESSAGE_SIZE
    ensures ReadAll(EncodeAll(messages) + tail) == (messages + ReadAll(tail).0, ReadAll(tail).1)
  {
    if messages == [] {
      assert EncodeAll(messages) + tail == tail && messages + ReadAll(tail).0 == ReadAll(tail).0;
    } else {
      var first, others := messages[0], messages[1..];
      MessagesReadBack(others, tail);
      ReadAllFirst(first, EncodeAll(others) + tail);
      assert Encode(first) + (EncodeAll(others) + tail) == EncodeAll(messages) + tail;
      Regrouped(first, others, ReadAll(tail).0, messages);
    }
  }

  lemma {:induction false} Regrouped(first: Message, others: seq<Message>, more: seq<Message>, messages: seq<Message>)
    requires messages == [first] + others
    ensures [first] + (others + more) == messages + more
  {
  }

  /** Whatever the reads deliver: the messages come back in order, and a frame cut off behind them gives an
      error. */
  lemma {:induction false} StreamReadsBack(messages: seq<Message>, last: Message, cut: nat)
    requires forall i :: 0 <= i < |messages| ==> |messages[i].payload| <= MAX_MESSAGE_SIZE
    requires |last.payload| <= MAX_MESSAGE_SIZE && cut < |Encode(last)|
    ensures ReadAll(EncodeAll(messages) + Encode(last)[..cut]) == (messages, Ended)
  {
    TruncatedFrameIsNoMessage(last, cut);
    var tail := Encode(last)[..cut];
    MessagesReadBack(messages, tail);
    assert ReadAll(tail) == ([], Ended);
    assert messages + [] == messages;
  }

  // ---------------------------------------------------------------------------------------
  // A byte stream over websocket messages.
  // ---------------------------------------------------------------------------------------

  datatype Socket = Socket(incoming: seq<seq<Byte>>, buffer: seq<Byte>)

  function Pending(s: Socket): seq<Byte> {
    s.buffer + Join(s.incoming)
  }

  function Least(a: nat, b: nat): nat {
    if a <= b then a else b
  }

  datatype Delivery = Delivery(data: seq<Byte>, ok: bool, socket: Socket)

  function ReadSocket(s: Socket, size: nat): Delivery {
    if s.buffer != [] then
      var count := Least(size, |s.buffer|);
      Delivery(s.buffer[..count], true, s.(buffer := s.buffer[count..]))
    else if s.incoming == [] then Delivery([], false, s)
    else
      var count := Least(size, |s.incoming[0]|);
      Delivery(s.incoming[0][..count], true, Socket(s.incoming[1..], s.incoming[0][count..]))
  }

  class WebSocketConnection {
    var incoming: seq<seq<Byte>>
    var readBuffer: seq<Byte>

    constructor (incoming: seq<seq<Byte>>)
      ensures Now() == Socket(incoming, [])
    {
      this.incoming, readBuffer := incoming, [];
    }

    function Now(): Socket
      reads this
    {
      Socket(incoming, readBuffer)
    }

    method Read(size: nat) returns (data: seq<Byte>, ok: bool)
      modifies this
      ensures Delivery(data, ok, Now()) == ReadSocket(old(Now()), size)
      ensures data + Pending(Now()) == old(Pending(Now())) && |data| <= size
    {
      ReadSocketKeepsBytes(Now(), size);
      if |readBuffer| > 0 {
        var count := Least(size, |readBuffer|);
        data, readBuffer := readBuffer[..count], readBuffer[count..];
        return data, true;
      }
      if incoming == [] {
        return [], false;
      }
      var received := incoming[0];
      incoming := incoming[1..];
      var count := Least(size, |received|);
      if count < |received| {
        readBuffer := readBuffer + received[count..];
        assert readBuffer == received[count..];
      }
      return received[..count], true;
    }
  }

  lemma {:induction false} ReadSocketKeepsBytes(s: Socket, size: nat)
    ensures var read := ReadSocket(s, size);
      read.data + Pending(read.socket) == Pending(s) && |read.data| <= size &&
      (read.ok <==> s.buffer != [] || s.incoming != []) && (!read.ok ==> Pending(s) == []) &&
      (read.ok ==>
        var next := if s.buffer != [] then s.buffer else s.incoming[0];
        read.data <= next && (read.data == next || |read.data| == size))
  {
    var read := ReadSocket(s, size);
    if s.buffer != [] {
      assert s.buffer == read.data + read.socket.buffer;
    } else if s.incoming != [] {
      assert s.incoming[0] == read.data + read.socket.buffer;
    }
  }

  function ReadMany(s: Socket, sizes: seq<nat>): (seq<Byte>, Socket)
    decreases |sizes|
  {
    if sizes == [] then ([], s)
    else
      var read := ReadSocket(s, sizes[0]);
      var others := ReadMany(read.socket, sizes[1..]);
      (read.data + others.0, others.1)
  }

  /** For any buffer sizes, what the reads deliver followed by what is still to come is what was received. */
  lemma {:induction false} ReadsDeliverTheStream(s: Socket, sizes: seq<nat>)
    ensures ReadMany(s, sizes).0 + Pending(ReadMany(s, sizes).1) == Pending(s)
    decreases |sizes|
  {
    if sizes != [] {
      var read := ReadSocket(s, sizes[0]);
      var others := ReadMany(read.socket, sizes[1..]);
      ReadSocketKeepsBytes(s, sizes[0]);
      ReadsDeliverTheStream(read.socket, sizes[1..]);
    }
  }

  /** Once a read fails, exactly the received payloads have been delivered. */
  lemma {:induction false} FailureMeansAllDelivered(incoming: seq<seq<Byte>>, sizes: seq<nat>, size: nat)
    requires !ReadSocket(ReadMany(Socket(incoming, []), sizes).1, size).ok
    ensures ReadMany(Socket(incoming, []), sizes).0 == Join(incoming)
  {
    var (data, end) := ReadMany(Socket(incoming, []), sizes);
    ReadsDeliverTheStream(Socket(incoming, []), sizes);
    ReadSocketKeepsBytes(end, size);
    assert data + [] == data;
  }
}
