/** Native-messaging frames and the loop that serves them (apps/browser-host/src/protocol.rs,
    apps/browser-host/src/main.rs). The pipe is a byte stream that ends; a frame is a four-byte
    little-endian length and that many bytes. */
module Frames {
  import opened Bytes
  import opened Wrappers

  const MAX_INBOUND: nat := 1024 * 1024
  const MAX_OUTBOUND: nat := 1024 * 1024
  const U32_RANGE: nat := 0x1_0000_0000

  type Data = seq<Byte>

  datatype Frame = Payload(data: Data) | Oversized | Eof

  /** The stream ended inside a payload. */
  datatype IoError = UnexpectedEof

  function Min(a: nat, b: nat): nat {
    if a <= b then a else b
  }

  // ----- one frame -----

  /** What reading takes from the stream and what it leaves. */
  function ReadFrom(input: Data): (r: (Result<Frame, IoError>, Data))
    ensures |r.1| <= |input|
    ensures r.0.Ok? && !r.0.value.Eof? ==> |r.1| + 4 <= |input|
  {
    if |input| < 4 then (Ok(Eof), [])
    else
      var length := FromLittleEndian(input[..4]);
      var body := input[4..];
      if length > MAX_INBOUND then (Ok(Oversized), body[Min(length, |body|)..])
      else if |body| < length then (Err(UnexpectedEof), [])
      else (Ok(Payload(body[..length])), body[length..])
  }

  /** What is written for a payload: at most the browser's cap of it. */
  function Framed(payload: Data): Data {
    LittleEndian(Min(|payload|, MAX_OUTBOUND), 4) + payload[..Min(|payload|, MAX_OUTBOUND)]
  }

  /** A frame as the browser may send it, of any length the prefix can carry. */
  function Sent(data: Data): Data
    requires |data| < U32_RANGE
  {
    LittleEndian(|data|, 4) + data
  }

  /** What a sent frame is received as. */
  function Received(data: Data): Frame {
    if |data| > MAX_INBOUND then Oversized else Payload(data)
  }

  lemma LengthReadsBack(n: nat)
    requires n < U32_RANGE
    ensures FromLittleEndian(LittleEndian(n, 4)) == n
  {
    hide LittleEndian, FromLittleEndian;
    assert Capacity(4) == U32_RANGE;
    ReadsBack(n, 4);
  }

  /** The length on the wire, its lowest byte first. */
  lemma PrefixOnWire(payload: Data)
    ensures var n := Min(|payload|, MAX_OUTBOUND);
            Framed(payload)[..4] == [n % 256, n / 0x100 % 256, n / 0x1_0000 % 256, n / 0x100_0000 % 256]
  {
    hide LittleEndian;
    var n := Min(|payload|, MAX_OUTBOUND);
    assert Capacity(0) == 1 && Capacity(1) == 0x100 && Capacity(2) == 0x1_0000 && Capacity(3) == 0x100_0000;
    PlaceValue(n, 4, 0);
    PlaceValue(n, 4, 1);
    PlaceValue(n, 4, 2);
    PlaceValue(n, 4, 3);
  }

  /** A whole frame is read as itself, an oversized one is dropped whole, and either way the next read
      starts exactly behind it. */
  lemma SentIsReceived(data: Data, rest: Data)
    requires |data| < U32_RANGE
    ensures ReadFrom(Sent(data) + rest) == (Ok(Received(data)), rest)
  {
    hide LittleEndian, FromLittleEndian;
    LengthReadsBack(|data|);
    var input := Sent(data) + rest;
    assert input[..4] == LittleEndian(|data|, 4);
    assert input[4..] == data + rest;
    assert (data + rest)[..|data|] == data && (data + rest)[|data|..] == rest;
  }

  /** Reading inverts writing up to the cap; beyond it the payload comes back cut to the cap. */
  lemma ReadInvertsWrite(payload: Data, rest: Data)
    ensures ReadFrom(Framed(payload) + rest) == (Ok(Payload(payload[..Min(|payload|, MAX_OUTBOUND)])), rest)
    ensures |payload| <= MAX_OUTBOUND ==> ReadFrom(Framed(payload) + rest) == (Ok(Payload(payload)), rest)
  {
    var cut := payload[..Min(|payload|, MAX_OUTBOUND)];
    assert Framed(payload) == Sent(cut);
    SentIsReceived(cut, rest);
    assert payload[..|payload|] == payload;
  }

  class Reader {
    var input: Data

    constructor (input: Data)
      ensures this.input == input
    {
      this.input := input;
    }

    /** Fills a buffer completely or consumes what is left and fails. */
    method ReadExact(count: nat) returns (r: Result<Data, IoError>)
      modifies this
      ensures count <= |old(input)| ==> r == Ok(old(input)[..count]) && input == old(input)[count..]
      ensures count > |old(input)| ==> r == Err(UnexpectedEof) && input == []
    {
      if |input| < count {
        input := [];
        return Err(UnexpectedEof);
      }
      r := Ok(input[..count]);
      input := input[count..];
    }

    /** Discards up to so many bytes; the end of the stream is not an error. */
    method Drain(count: nat)
      modifies this
      ensures input == old(input)[Min(count, |old(input)|)..]
    {
      input := input[Min(count, |input|)..];
    }

    method ReadFrame() returns (r: Result<Frame, IoError>)
      modifies this
      ensures (r, input) == ReadFrom(old(input))
    {
      var prefix := ReadExact(4);
      if prefix.Err? {
        return Ok(Eof);
      }
      var length := FromLittleEndian(prefix.value);
      if length > MAX_INBOUND {
        Drain(length);
        return Ok(Oversized);
      }
      var payload := ReadExact(length);
      match payload {
        case Err(e) => r := Err(e);
        case Ok(data) => r := Ok(Payload(data));
      }
    }
  }

  class Writer {
    var output: Data

    constructor ()
      ensures output == []
    {
      output := [];
    }

    method WriteFrame(payload: Data)
      modifies this
      ensures output == old(output) + Framed(payload)
    {
      var length := Min(|payload|, MAX_OUTBOUND);
      output := output + LittleEndian(length, 4);
      output := output + payload[..length];
      assert old(output) + LittleEndian(length, 4) + payload[..length] == old(output) + Framed(payload);
    }
  }

  // ----- the serving loop -----

  /** Parsing and answering requests, arbitrary; answering may change the store. */
  datatype Service<!Request, !Store> = Service(
    parse: Data -> Option<Request>,
    handle: (Request, Store) -> (Data, Store),
    oversized: Data,
    unknown: Data)

  /** The reply to one inbound frame. */
  function Reply<Request, Store>(service: Service<Request, Store>, store: Store, frame: Frame): (Data, Store) {
    if !frame.Payload? then (service.oversized, store)
    else
      match service.parse(frame.data)
      case None => (service.unknown, store)
      case Some(request) => service.handle(request, store)
  }

  datatype Served<Store> = Served(replies: seq<Data>, store: Store, ended: Result<(), IoError>)

  /** Everything the loop does with a stream. */
  function Serving<Request, Store>(service: Service<Request, Store>, store: Store, input: Data): Served<Store>
    decreases |input|
  {
    var (read, rest) := ReadFrom(input);
    match read
    case Err(e) => Served([], store, Err(e))
    case Ok(Eof) => Served([], store, Ok(()))
    case Ok(frame) =>
      var (reply, next) := Reply(service, store, frame);
      var after := Serving(service, next, rest);
      Served([reply] + after.replies, after.store, after.ended)
  }

  function Written(replies: seq<Data>): Data {
    if replies == [] then [] else Framed(replies[0]) + Written(replies[1..])
  }

  lemma {:induction false} WrittenAppend(a: seq<Data>, b: seq<Data>)
    ensures Written(a + b) == Written(a) + Written(b)
  {
    hide Framed;
    if a == [] {
      assert a + b == b;
    } else {
      assert (a + b)[1..] == a[1..] + b;
      WrittenAppend(a[1..], b);
    }
  }

  /** The frame loop: one reply per inbound frame, in order, until the stream ends. Each frame takes at
      least its prefix from the stream, so the loop ends for every input. */
  method Serve<Request, Store>(service: Service<Request, Store>, reader: Reader, writer: Writer, store: Store)
    returns (r: Result<(), IoError>, last: Store)
    requires reader as object != writer as object
    modifies reader, writer
    ensures var served := Serving(service, store, old(reader.input));
            r == served.ended && last == served.store && writer.output == old(writer.output) + Written(served.replies)
  {
    hide ReadFrom, Framed, Reply, Serving, Written;
    last := store;
    ghost var sent: seq<Data> := [];
    ghost var goal := Serving(service, store, reader.input);
    NothingWritten();
    while true
      invariant writer.output == old(writer.output) + Written(sent)
      invariant goal == Continued(sent, Serving(service, last, reader.input))
      decreases |reader.input|
    {
      ghost var input := reader.input;
      var frame := reader.ReadFrame();
      ServingEnds(service, last, input);
      assert sent + [] == sent;
      if frame.Err? {
        return Err(frame.error), last;
      }
      if frame.value.Eof? {
        return Ok(()), last;
      }
      var reply, next := Answer(service, last, frame.value);
      ServingGoesOn(service, last, input, frame.value, reader.input, sent);
      writer.WriteFrame(reply);
      last := next;
      WrittenOne(sent, reply);
      sent := sent + [reply];
    }
  }

  /** What has been served before and what is served from here on. */
  function Continued<Store>(sent: seq<Data>, now: Served<Store>): Served<Store> {
    now.(replies := sent + now.replies)
  }

  lemma NothingWritten()
    ensures Written([]) == []
  {
  }

  lemma WrittenOne(sent: seq<Data>, reply: Data)
    ensures Written(sent + [reply]) == Written(sent) + Framed(reply)
  {
    hide Framed;
    WrittenAppend(sent, [reply]);
    assert [reply][1..] == [];
  }

  lemma ServingEnds<Request, Store>(service: Service<Request, Store>, store: Store, input: Data)
    ensures ReadFrom(input).0.Err? ==> Serving(service, store, input) == Served([], store, Err(ReadFrom(input).0.error))
    ensures ReadFrom(input).0 == Ok(Eof) ==> Serving(service, store, input) == Served([], store, Ok(()))
    ensures ReadFrom(input).0.Ok? && !ReadFrom(input).0.value.Eof? ==> |ReadFrom(input).1| < |input|
  {
  }

  lemma ServingGoesOn<Request, Store>(service: Service<Request, Store>, store: Store, input: Data, frame: Frame,
                                      rest: Data, sent: seq<Data>)
    requires ReadFrom(input) == (Ok(frame), rest) && !frame.Eof?
    ensures var (reply, next) := Reply(service, store, frame);
            Continued(sent, Serving(service, store, input)) == Continued(sent + [reply], Serving(service, next, rest))
  {
    hide ReadFrom, Reply;
    var (reply, next) := Reply(service, store, frame);
    var after := Serving(service, next, rest);
    assert sent + ([reply] + after.replies) == (sent + [reply]) + after.replies;
  }

  method Answer<Request, Store>(service: Service<Request, Store>, store: Store, frame: Frame)
    returns (reply: Data, next: Store)
    ensures (reply, next) == Reply(service, store, frame)
  {
    match frame {
      case Payload(data) =>
        var request := service.parse(data);
        if request.Some? {
          var (answer, changed) := service.handle(request.value, store);
          reply, next := answer, changed;
        } else {
          reply, next := service.unknown, store;
        }
      case _ => reply, next := service.oversized, store;
    }
  }

  // ----- streams of frames -----

  predicate Sendable(frames: seq<Data>) {
    forall i :: 0 <= i < |frames| ==> |frames[i]| < U32_RANGE
  }

  function Stream(frames: seq<Data>): Data
    requires Sendable(frames)
  {
    if frames == [] then [] else Sent(frames[0]) + Stream(frames[1..])
  }

  /** The replies to frames received one after the other. */
  function Replies<Request, Store>(service: Service<Request, Store>, store: Store,
                                   frames: seq<Data>): (r: (seq<Data>, Store))
    ensures |r.0| == |frames|
    decreases |frames|
  {
    if frames == [] then ([], store)
    else
      var (reply, next) := Reply(service, store, Received(frames[0]));
      var after := Replies(service, next, frames[1..]);
      ([reply] + after.0, after.1)
  }

  /** Whatever frames arrive, oversized ones among them, each gets exactly one reply, in order, computed
      from that frame alone and the store: no frame's bytes are ever taken for another's. */
  lemma {:induction false} StreamStaysAligned<Request, Store>(service: Service<Request, Store>, store: Store,
                                                              frames: seq<Data>, tail: Data)
    requires Sendable(frames) && |tail| < 4
    ensures Serving(service, store, Stream(frames) + tail)
            == Served(Replies(service, store, frames).0, Replies(service, store, frames).1, Ok(()))
    decreases |frames|
  {
    if frames == [] {
      assert Stream(frames) + tail == tail;
    } else {
      hide Reply, Sent, Received;
      var rest := Stream(frames[1..]) + tail;
      assert Stream(frames) + tail == Sent(frames[0]) + rest;
      SentIsReceived(frames[0], rest);
      NeverEof(frames[0]);
      hide ReadFrom;
      var (reply, next) := Reply(service, store, Received(frames[0]));
      StreamStaysAligned(service, next, frames[1..], tail);
    }
  }

  lemma NeverEof(data: Data)
    ensures !Received(data).Eof?
  {
  }

  /** What a reader of the replies sees. */
  function ReadAll(input: Data): seq<Frame>
    decreases |input|
  {
    var (read, rest) := ReadFrom(input);
    match read
    case Ok(frame) => if frame.Eof? then [] else [frame] + ReadAll(rest)
    case Err(_) => []
  }

  lemma ReadsOne(input: Data, frame: Frame, rest: Data)
    requires ReadFrom(input) == (Ok(frame), rest) && !frame.Eof?
    ensures ReadAll(input) == [frame] + ReadAll(rest)
  {
  }

  lemma ReadsNothing()
    ensures ReadAll([]) == []
  {
  }

  /** The browser reads back exactly the replies, as long as each is within its own cap. */
  lemma {:induction false} RepliesReadBack(replies: seq<Data>)
    requires forall i :: 0 <= i < |replies| ==> |replies[i]| <= MAX_OUTBOUND
    ensures ReadAll(Written(replies)) == seq(|replies|, i requires 0 <= i < |replies| => Payload(replies[i]))
  {
    hide Framed, ReadFrom, ReadAll;
    if replies == [] {
      ReadsNothing();
    } else {
      var rest := Written(replies[1..]);
      ReadInvertsWrite(replies[0], rest);
      ReadsOne(Written(replies), Payload(replies[0]), rest);
      RepliesReadBack(replies[1..]);
    }
  }
}
