/**
 The control stream of a session: messages are JSON bodies behind a four-byte
 big-endian length. The sending side is `encode_control`; the receiving side is
 either `recv_msg`, which reads a stream exactly, or `take_msg` over the buffer
 that the control loop fills read by read.

 JSON itself is a parameter: a `Codec` of total functions between messages and bodies.
 */
module ControlFraming {
  import opened Prelude

  /** Longest body a receiver accepts. */
  const MAX_BODY: nat := 4 * 1024 * 1024

  /** Size of the scratch array of one read in the control loop. */
  const READ_CHUNK: nat := 16 * 1024

  /** First length that the 32-bit prefix cannot hold. */
  const U32: nat := 0x1_0000_0000

  datatype Codec<!M> = Codec(encode: M -> seq<byte>, decode: seq<byte> -> Option<M>)

  /** What serde_json gives: decoding undoes encoding, and no message has an empty text. */
  ghost predicate Lawful<M(!new)>(c: Codec<M>) {
    c.decode([]) == None && forall m :: c.decode(c.encode(m)) == Some(m)
  }

  // ----- Length prefix -----

  function ToBe32(n: nat): (b: seq<byte>)
    requires n < U32
    ensures |b| == 4
  {
    [n / 0x100_0000, n / 0x1_0000 % 0x100, n / 0x100 % 0x100, n % 0x100]
  }

  function FromBe32(b: seq<byte>): (n: nat)
    requires |b| >= 4
    ensures n < U32
  {
    (((b[0] as int) * 0x100 + b[1]) * 0x100 + b[2]) * 0x100 + b[3]
  }

  lemma PrefixRoundTrip(n: nat, rest: seq<byte>)
    requires n < U32
    ensures FromBe32(ToBe32(n) + rest) == n
  {
    var b := ToBe32(n) + rest;
    assert b[..4] == ToBe32(n);
    assert n / 0x100 / 0x100 == n / 0x1_0000;
    assert n / 0x1_0000 / 0x100 == n / 0x100_0000;
    assert (b[0] as int) * 0x100 + b[1] == n / 0x1_0000;
    assert ((b[0] as int) * 0x100 + b[1]) * 0x100 + b[2] == n / 0x100;
  }

  /** The first octet weighs most. */
  lemma PrefixIsBigEndian(n: nat)
    requires n < U32
    ensures var b := ToBe32(n); n == b[0] as int * 16_777_216 + b[1] as int * 65_536 + b[2] as int * 256 + b[3] as int
  {
    PrefixRoundTrip(n, []);
    assert ToBe32(n) + [] == ToBe32(n);
  }

  // ----- Encoding and decoding of one message -----

  /** `encode_control`: the prefix is the body length cut to 32 bits. */
  function EncodeControl<M>(c: Codec<M>, m: M): seq<byte> {
    ToBe32(|c.encode(m)| % U32) + c.encode(m)
  }

  function EncodeAll<M>(c: Codec<M>, ms: seq<M>): seq<byte> {
    if ms == [] then [] else EncodeControl(c, ms[0]) + EncodeAll(c, ms[1..])
  }

  /** `decode_control_body`. */
  function DecodeBody<M>(c: Codec<M>, body: seq<byte>): Option<M> {
    if |body| > MAX_BODY then None else c.decode(body)
  }

  /** `decode_control`: the whole input must be one frame. */
  function DecodeControl<M>(c: Codec<M>, bytes: seq<byte>): Option<M> {
    if |bytes| < 4 then None
    else if FromBe32(bytes) != |bytes| - 4 then None
    else DecodeBody(c, bytes[4..])
  }

  /** Outcome of looking for one message at the front of a buffer. */
  datatype Taken<+M> = Need | Bad | Got(msg: M, rest: seq<byte>)

  /** `take_msg`, as a function of the buffer. */
  function Take<M>(c: Codec<M>, buf: seq<byte>): (t: Taken<M>)
    ensures t.Got? ==> |t.rest| < |buf|
  {
    if |buf| < 4 then Need else
    var len := FromBe32(buf);
    if len == 0 || len > MAX_BODY then Bad else
    if |buf| < 4 + len then Need else
    match DecodeBody(c, buf[4..4 + len])
    case None => Bad
    case Some(m) => Got(m, buf[4 + len..])
  }

  /** Which buffers wait, which are cut off, and which yield a message: told by the announced length and the body. */
  lemma TakeIff<M>(c: Codec<M>, buf: seq<byte>)
    ensures var t := Take(c, buf);
            && (|buf| < 4 ==> t == Need)
            && (|buf| >= 4 ==>
                var len := FromBe32(buf[..4]);
                var whole := 0 < len <= 4_194_304 && 4 + len <= |buf|;
                && (t.Need? <==> 0 < len <= 4_194_304 && |buf| < 4 + len)
                && (t.Bad? <==> len == 0 || len > 4_194_304 || (whole && c.decode(buf[4..4 + len]).None?))
                && (t.Got? <==> whole && c.decode(buf[4..4 + len]).Some?)
                && (t.Got? ==> buf[..4] + buf[4..4 + len] + t.rest == buf && c.decode(buf[4..4 + len]) == Some(t.msg)))
  {
    if |buf| >= 4 {
      assert FromBe32(buf[..4]) == FromBe32(buf);
    }
  }

  /** More bytes never change an answer that was already given. */
  lemma TakeIsStable<M>(c: Codec<M>, a: seq<byte>, b: seq<byte>)
    ensures Take(c, a).Bad? ==> Take(c, a + b).Bad?
    ensures Take(c, a).Got? ==> Take(c, a + b) == Got(Take(c, a).msg, Take(c, a).rest + b)
  {
    if |a| >= 4 {
      assert FromBe32(a + b) == FromBe32(a);
      var len := FromBe32(a);
      if |a| >= 4 + len {
        assert (a + b)[4..4 + len] == a[4..4 + len];
        assert (a + b)[4 + len..] == a[4 + len..] + b;
      }
    }
  }

  /** A buffer without a complete frame is short: less than the largest frame. */
  lemma NeedIsShort<M>(c: Codec<M>, buf: seq<byte>)
    requires Take(c, buf).Need?
    ensures |buf| < MAX_BODY + 4
    ensures forall chunk: seq<byte> :: |chunk| <= READ_CHUNK ==> |buf + chunk| <= MAX_BODY + 3 + READ_CHUNK
  {
  }

  /** The one-frame decoder and the buffer parser accept the same whole frames. */
  lemma DecodeControlIsTake<M(!new)>(c: Codec<M>, bytes: seq<byte>)
    requires Lawful(c)
    ensures forall m :: DecodeControl(c, bytes) == Some(m) <==> Take(c, bytes) == Got(m, [])
  {
    if |bytes| >= 4 && FromBe32(bytes) == |bytes| - 4 {
      assert bytes[4..4 + FromBe32(bytes)] == bytes[4..];
      if |bytes| == 4 { assert bytes[4..] == []; }
    }
  }

  lemma TakeEncoded<M(!new)>(c: Codec<M>, m: M, rest: seq<byte>)
    requires Lawful(c) && |c.encode(m)| <= MAX_BODY
    ensures Take(c, EncodeControl(c, m) + rest) == Got(m, rest)
  {
    hide ToBe32, FromBe32;
    var body := c.encode(m);
    assert c.decode(body) == Some(m);
    assert body != [];
    var buf := EncodeControl(c, m) + rest;
    PrefixRoundTrip(|body|, body + rest);
    assert buf == ToBe32(|body|) + (body + rest);
    assert FromBe32(buf) == |body|;
    assert buf[4..4 + |body|] == body;
    assert buf[4 + |body|..] == rest;
  }

  // ----- The loop over a buffer -----

  /** What becomes of a loop: waiting for bytes, ended by a message, or cut off by a bad frame. */
  datatype Verdict = Waiting | Stopped | Broken

  /** Loop state: what the handler has made of the messages so far, and unread bytes while waiting. */
  datatype Loop<S> = Loop(state: S, verdict: Verdict, rest: seq<byte>)

  /** Hand over every complete frame in `buf`. The handler answers whether the loop goes on. */
  function Pump<S, M>(c: Codec<M>, h: (S, M) -> (S, bool), s: S, buf: seq<byte>): Loop<S>
    decreases |buf|
  {
    match Take(c, buf)
    case Need => Loop(s, Waiting, buf)
    case Bad => Loop(s, Broken, [])
    case Got(m, rest) =>
      var (s', go) := h(s, m);
      if go then Pump(c, h, s', rest) else Loop(s', Stopped, [])
  }

  /** One read of the control loop. A loop that has ended reads no more. */
  function Feed<S, M>(c: Codec<M>, h: (S, M) -> (S, bool), l: Loop<S>, chunk: seq<byte>): Loop<S> {
    if l.verdict.Waiting? then Pump(c, h, l.state, l.rest + chunk) else l
  }

  function FeedAll<S, M>(c: Codec<M>, h: (S, M) -> (S, bool), l: Loop<S>, chunks: seq<seq<byte>>): Loop<S>
    decreases |chunks|
  {
    if chunks == [] then l else FeedAll(c, h, Feed(c, h, l, chunks[0]), chunks[1..])
  }

  function Concat(chunks: seq<seq<byte>>): seq<byte> {
    if chunks == [] then [] else chunks[0] + Concat(chunks[1..])
  }

  /** Pumping a prefix first and the remainder later is pumping the whole. */
  lemma {:induction false} PumpSplits<S, M>(c: Codec<M>, h: (S, M) -> (S, bool), s: S, a: seq<byte>, b: seq<byte>)
    ensures Feed(c, h, Pump(c, h, s, a), b) == Pump(c, h, s, a + b)
    decreases |a|
  {
    TakeIsStable(c, a, b);
    match Take(c, a)
    case Need =>
    case Bad =>
    case Got(m, rest) =>
      var (s', go) := h(s, m);
      if go { PumpSplits(c, h, s', rest, b); }
  }

  /** A loop at rest has no complete frame left. */
  lemma {:induction false} PumpExhausts<S, M>(c: Codec<M>, h: (S, M) -> (S, bool), s: S, buf: seq<byte>)
    ensures var l := Pump(c, h, s, buf); l.verdict.Waiting? ==> Take(c, l.rest).Need?
    decreases |buf|
  {
    match Take(c, buf)
    case Need =>
    case Bad =>
    case Got(m, rest) =>
      var (s', go) := h(s, m);
      if go { PumpExhausts(c, h, s', rest); }
  }

  lemma {:induction false} FeedAllFrom<S, M>(c: Codec<M>, h: (S, M) -> (S, bool), s: S, a: seq<byte>, chunks: seq<seq<byte>>)
    ensures FeedAll(c, h, Pump(c, h, s, a), chunks) == Pump(c, h, s, a + Concat(chunks))
    decreases |chunks|
  {
    if chunks == [] {
      assert a + [] == a;
    } else {
      PumpSplits(c, h, s, a, chunks[0]);
      FeedAllFrom(c, h, s, a + chunks[0], chunks[1..]);
      assert a + Concat(chunks) == (a + chunks[0]) + Concat(chunks[1..]);
    }
  }

  /**
   However the bytes are cut into reads, and whatever they are, the handler ends in the same
   state with the same verdict and the same bytes left over.
   */
  lemma SplitIndependence<S, M>(c: Codec<M>, h: (S, M) -> (S, bool), s: S, one: seq<seq<byte>>, two: seq<seq<byte>>)
    requires Concat(one) == Concat(two)
    ensures FeedAll(c, h, Loop(s, Waiting, []), one) == FeedAll(c, h, Loop(s, Waiting, []), two)
  {
    FeedAllFrom(c, h, s, [], one);
    FeedAllFrom(c, h, s, [], two);
    assert Pump(c, h, s, []) == Loop(s, Waiting, []);
  }

  // ----- Streams of encoded messages -----

  /** The handler run over a list of messages, until it says stop. */
  function Handle<S, M>(h: (S, M) -> (S, bool), s: S, ms: seq<M>): (S, bool) {
    if ms == [] then (s, true) else
    var (s', go) := h(s, ms[0]);
    if go then Handle(h, s', ms[1..]) else (s', false)
  }

  lemma {:induction false} PumpEncoded<S, M(!new)>(c: Codec<M>, h: (S, M) -> (S, bool), s: S, ms: seq<M>)
    requires Lawful(c) && forall m <- ms :: |c.encode(m)| <= MAX_BODY
    ensures var (s', go) := Handle(h, s, ms);
            Pump(c, h, s, EncodeAll(c, ms)) == Loop(s', if go then Waiting else Stopped, [])
    decreases |ms|
  {
    if ms != [] {
      TakeEncoded(c, ms[0], EncodeAll(c, ms[1..]));
      var (s', go) := h(s, ms[0]);
      if go { PumpEncoded(c, h, s', ms[1..]); }
    }
  }

  /**
   Whatever follows good messages: the handler has seen exactly those when the rest waits, or when a bad
   frame cuts the loop off; and nothing matters after a message on which the handler stops.
   */
  lemma {:induction false} PumpTail<S, M(!new)>(c: Codec<M>, h: (S, M) -> (S, bool), s: S, ms: seq<M>, tail: seq<byte>)
    requires Lawful(c) && forall m <- ms :: |c.encode(m)| <= MAX_BODY
    ensures var (s', go) := Handle(h, s, ms);
            var l := Pump(c, h, s, EncodeAll(c, ms) + tail);
            && (!go ==> l == Loop(s', Stopped, []))
            && (go && Take(c, tail).Bad? ==> l == Loop(s', Broken, []))
            && (go && Take(c, tail).Need? ==> l == Loop(s', Waiting, tail))
    decreases |ms|
  {
    if ms == [] {
      assert EncodeAll(c, ms) + tail == tail;
    } else {
      var more := EncodeAll(c, ms[1..]) + tail;
      assert EncodeAll(c, ms) + tail == EncodeControl(c, ms[0]) + more;
      TakeEncoded(c, ms[0], more);
      var (s', go) := h(s, ms[0]);
      if go { PumpTail(c, h, s', ms[1..], tail); }
    }
  }

  /** A handler that only records what it is given. */
  function Recorder<M>(): (seq<M>, M) -> (seq<M>, bool) {
    (log, m) => (log + [m], true)
  }

  function Delivered<M>(c: Codec<M>, bytes: seq<byte>): Loop<seq<M>> {
    Pump(c, Recorder(), [], bytes)
  }

  lemma {:induction false} HandleRecords<M>(log: seq<M>, ms: seq<M>)
    ensures Handle(Recorder(), log, ms) == (log + ms, true)
    decreases |ms|
  {
    if ms == [] {
      assert log + ms == log;
    } else {
      HandleRecords(log + [ms[0]], ms[1..]);
      assert log + [ms[0]] + ms[1..] == log + ms;
    }
  }

  lemma DeliversAll<M(!new)>(c: Codec<M>, ms: seq<M>)
    requires Lawful(c) && forall m <- ms :: |c.encode(m)| <= MAX_BODY
    ensures Delivered(c, EncodeAll(c, ms)) == Loop(ms, Waiting, [])
  {
    PumpEncoded(c, Recorder(), [], ms);
    HandleRecords([], ms);
    assert [] + ms == ms;
  }

  /** Sent messages arrive exactly, in order, with nothing left over, under every cutting into reads. */
  lemma EncodedStreamArrives<M(!new)>(c: Codec<M>, ms: seq<M>, chunks: seq<seq<byte>>)
    requires Lawful(c) && forall m <- ms :: |c.encode(m)| <= MAX_BODY
    requires Concat(chunks) == EncodeAll(c, ms)
    ensures FeedAll(c, Recorder(), Loop([], Waiting, []), chunks) == Loop(ms, Waiting, [])
  {
    var none: seq<byte> := [];
    FeedAllFrom(c, Recorder(), [], none, chunks);
    assert none + Concat(chunks) == Concat(chunks);
    DeliversAll(c, ms);
  }

  lemma {:induction false} DeliveredAtLeast<M>(c: Codec<M>, log: seq<M>, bytes: seq<byte>)
    ensures var l := Pump(c, Recorder(), log, bytes);
            log <= l.state && (l == Loop(log, Waiting, []) ==> bytes == [])
    decreases |bytes|
  {
    match Take(c, bytes)
    case Need =>
    case Bad =>
    case Got(m, rest) => DeliveredAtLeast(c, log + [m], rest);
  }

  /**
   The sender does not check the size of a body and cuts its length to 32 bits. A single message
   arrives exactly when its body fits the receiver's limit.
   */
  lemma ArrivesIffItFits<M(!new)>(c: Codec<M>, m: M)
    requires Lawful(c)
    ensures Delivered(c, EncodeControl(c, m)) == Loop([m], Waiting, []) <==> |c.encode(m)| <= MAX_BODY
  {
    var bytes := EncodeControl(c, m);
    var body := c.encode(m);
    if |body| <= MAX_BODY {
      assert EncodeAll(c, [m]) == bytes;
      DeliversAll(c, [m]);
    } else {
      PrefixRoundTrip(|body| % U32, body);
      if Take(c, bytes).Got? {
        var first, rest := Take(c, bytes).msg, Take(c, bytes).rest;
        assert rest != [];
        DeliveredAtLeast(c, [first], rest);
        assert [] + [first] == [first];
        assert Delivered(c, bytes) == Pump(c, Recorder(), [first], rest);
        assert [first] <= [m] ==> [first] == [m];
      } else {
        assert |Delivered(c, bytes).state| == 0;
      }
    }
  }

  // ----- Exact reads -----

  datatype Received<+M> = Eof | BadFrame | Message(msg: M)

  /** The receive half of a stream whose peer has sent `data` and then gone quiet. */
  class ByteStream {
    const data: seq<byte>
    var pos: nat

    ghost predicate Valid()
      reads this
    {
      pos <= |data|
    }

    constructor (data: seq<byte>)
      ensures Valid() && this.data == data && pos == 0
    {
      this.data := data;
      pos := 0;
    }

    /** `read_exact`: all of the bytes or an end-of-stream error, which loses those already taken. */
    method ReadExact(n: nat) returns (r: Option<seq<byte>>)
      requires Valid()
      modifies this
      ensures Valid()
      ensures old(pos) + n <= |data| ==> r == Some(data[old(pos)..old(pos) + n]) && pos == old(pos) + n
      ensures old(pos) + n > |data| ==> r == None && pos == |data|
    {
      if pos + n <= |data| {
        r := Some(data[pos..pos + n]);
        pos := pos + n;
      } else {
        r := None;
        pos := |data|;
      }
    }

    /** `recv_msg`: sees in the unread part of the stream what `take_msg` sees in a buffer. */
    method RecvMsg<M>(c: Codec<M>) returns (r: Received<M>)
      requires Valid()
      modifies this
      ensures Valid()
      ensures match Take(c, data[old(pos)..])
              case Need => r == Eof
              case Bad => r == BadFrame
              case Got(m, rest) => r == Message(m) && data[pos..] == rest
    {
      ghost var unread := data[pos..];
      var prefix := ReadExact(4);
      if prefix.None? {
        return Eof;
      }
      var len := FromBe32(prefix.value);
      assert prefix.value == unread[..4];
      if len == 0 || len > MAX_BODY {
        return BadFrame;
      }
      var body := ReadExact(len);
      if body.None? {
        return Eof;
      }
      assert body.value == unread[4..4 + len];
      match DecodeBody(c, body.value) {
        case None => r := BadFrame;
        case Some(m) =>
          r := Message(m);
          assert data[pos..] == unread[4 + len..];
      }
    }
  }

  /** Repeated `recv_msg` reads give what one pass over the whole byte string gives. */
  method RecvAll<S, M>(c: Codec<M>, h: (S, M) -> (S, bool), init: S, data: seq<byte>) returns (s: S, v: Verdict)
    ensures s == Pump(c, h, init, data).state && v == Pump(c, h, init, data).verdict
  {
    var stream := new ByteStream(data);
    s, v := init, Waiting;
    var open := true;
    assert data[0..] == data;
    while open
      invariant stream.Valid() && stream.data == data
      invariant open ==> Pump(c, h, s, data[stream.pos..]) == Pump(c, h, init, data)
      invariant !open ==> s == Pump(c, h, init, data).state && v == Pump(c, h, init, data).verdict
      decreases open, |data| - stream.pos
    {
      ghost var before := stream.pos;
      var r := stream.RecvMsg(c);
      match r {
        case Eof => v := Waiting; open := false;
        case BadFrame => v := Broken; open := false;
        case Message(m) =>
          var (s', go) := h(s, m);
          s := s';
          if !go { v := Stopped; open := false; }
      }
    }
  }

  /** How many frames a drain loop would hand over. */
  function CountFrames<M>(c: Codec<M>, buf: seq<byte>): nat
    decreases |buf|
  {
    match Take(c, buf)
    case Got(_, rest) => 1 + CountFrames(c, rest)
    case _ => 0
  }

  // ----- The control loop's own buffer -----

  /** The read side of `ctrl_loop`: a buffer that grows with each read and is drained frame by frame. */
  class ControlReader<S, M> {
    const codec: Codec<M>
    const handler: (S, M) -> (S, bool)
    var inbuf: seq<byte>
    var state: S
    var verdict: Verdict

    /** At every wait point the buffer holds no complete frame. */
    ghost predicate Valid()
      reads this
    {
      verdict.Waiting? ==> Take(codec, inbuf).Need?
    }

    ghost function View(): Loop<S>
      reads this
    {
      Loop(state, verdict, if verdict.Waiting? then inbuf else [])
    }

    constructor (codec: Codec<M>, handler: (S, M) -> (S, bool), init: S)
      ensures Valid() && View() == Loop(init, Waiting, [])
      ensures this.codec == codec && this.handler == handler
    {
      this.codec, this.handler := codec, handler;
      inbuf, state, verdict := [], init, Waiting;
    }

    /** `take_msg`: a complete frame leaves the buffer even when its body does not decode. */
    method TakeMsg() returns (t: Taken<M>)
      modifies this`inbuf
      ensures t == Take(codec, old(inbuf))
      ensures t.Need? ==> inbuf == old(inbuf)
      ensures t.Got? ==> inbuf == t.rest
    {
      if |inbuf| < 4 { return Need; }
      var len := FromBe32(inbuf);
      if len == 0 || len > MAX_BODY { return Bad; }
      if |inbuf| < 4 + len { return Need; }
      var body := inbuf[4..4 + len];
      inbuf := inbuf[4 + len..];
      match DecodeBody(codec, body) {
        case None => return Bad;
        case Some(m) => return Got(m, inbuf);
      }
    }

    /** One successful read: append, then hand over every complete frame. */
    method OnRead(chunk: seq<byte>)
      requires Valid() && verdict.Waiting? && |chunk| <= READ_CHUNK
      modifies this
      ensures Valid() && View() == Feed(codec, handler, old(View()), chunk)
      ensures verdict.Waiting? ==> |inbuf| < MAX_BODY + 4
    {
      NeedIsShort(codec, inbuf);
      inbuf := inbuf + chunk;
      assert |inbuf| <= MAX_BODY + 3 + READ_CHUNK;
      var more := true;
      while more
        invariant verdict.Waiting? && more ==> Pump(codec, handler, state, inbuf) == Feed(codec, handler, old(View()), chunk)
        invariant more ==> verdict.Waiting?
        invariant !more ==> Valid() && View() == Feed(codec, handler, old(View()), chunk)
        decreases more, |inbuf|
      {
        var t := TakeMsg();
        match t {
          case Need => more := false;
          case Bad => verdict := Broken; more := false;
          case Got(m, _) =>
            var (s', go) := handler(state, m);
            state := s';
            if !go { verdict := Stopped; more := false; }
        }
      }
      if verdict.Waiting? { NeedIsShort(codec, inbuf); }
    }

    /** The drain loops after end of stream or a read error: handle whatever complete frames remain. */
    method DrainAtEnd() returns (met: nat)
      modifies this`inbuf, this`state
      ensures met == CountFrames(codec, old(inbuf))
      ensures met == 0 ==> state == old(state)
      ensures old(Valid() && verdict.Waiting?) ==> met == 0 && View() == old(View())
    {
      met := 0;
      var t := TakeMsg();
      while t.Got?
        invariant met + (if t.Got? then 1 + CountFrames(codec, t.rest) else 0) == CountFrames(codec, old(inbuf))
        invariant t.Got? ==> inbuf == t.rest
        invariant met == 0 ==> state == old(state) && (t.Need? ==> inbuf == old(inbuf))
        invariant met == 0 ==> t == Take(codec, old(inbuf))
        decreases if t.Got? then 1 + |inbuf| else 0
      {
        var (s', _) := handler(state, t.msg);
        state, met := s', met + 1;
        t := TakeMsg();
      }
    }
  }

  // ----- Chunk streams -----

  /** Little-endian digits, as `to_le_bytes` of a word of `width` bytes. */
  function ToLe(n: nat, width: nat): (b: seq<byte>)
    ensures |b| == width
  {
    if width == 0 then [] else [n % 256] + ToLe(n / 256, width - 1)
  }

  function FromLe(b: seq<byte>): nat {
    if b == [] then 0 else b[0] + 256 * FromLe(b[1..])
  }

  lemma {:induction false} LittleEndianRoundTrip(n: nat, width: nat)
    requires n < Pow256(width)
    ensures FromLe(ToLe(n, width)) == n
    decreases width
  {
    if width > 0 {
      LittleEndianRoundTrip(n / 256, width - 1);
      assert ToLe(n, width)[1..] == ToLe(n / 256, width - 1);
    }
  }

  datatype ChunkHeader = ChunkHeader(jobId: nat, chunk: nat)

  function EncodeHeader(h: ChunkHeader): seq<byte> {
    ToLe(h.jobId, 8) + ToLe(h.chunk, 4)
  }

  function DecodeHeader(b: seq<byte>): Option<ChunkHeader> {
    if |b| < 12 then None else Some(ChunkHeader(FromLe(b[..8]), FromLe(b[8..12])))
  }

  /** A header is read back from the front of any stream that starts with it. */
  lemma HeaderRoundTrip(h: ChunkHeader, payload: seq<byte>)
    requires h.jobId < Pow256(8) && h.chunk < Pow256(4)
    ensures DecodeHeader(EncodeHeader(h) + payload) == Some(h)
  {
    LittleEndianRoundTrip(h.jobId, 8);
    LittleEndianRoundTrip(h.chunk, 4);
    var b := EncodeHeader(h) + payload;
    assert b[..8] == ToLe(h.jobId, 8);
    assert b[8..12] == ToLe(h.chunk, 4);
  }

  /** Where the fields lie: eight octets of the job id, then four of the chunk number, the least weight first. */
  lemma HeaderLayout(h: ChunkHeader)
    requires h.jobId < Pow256(8) && h.chunk < Pow256(4)
    ensures var b := EncodeHeader(h);
            && |b| == 12
            && h.jobId == LowWord(b[0..4]) + 0x1_0000_0000 * LowWord(b[4..8])
            && h.chunk == LowWord(b[8..12])
  {
    var b := EncodeHeader(h);
    LittleEndianRoundTrip(h.jobId, 8);
    LittleEndianRoundTrip(h.chunk, 4);
    assert b[0..8] == ToLe(h.jobId, 8) && b[8..12] == ToLe(h.chunk, 4);
    assert b[0..8][..4] == b[0..4] && b[0..8][4..] == b[4..8];
    Lows(b[0..8]);
    Lows(b[4..8]);
    Lows(b[8..12]);
  }

  /** Four octets, the least weight first. */
  function LowWord(b: seq<byte>): nat
    requires |b| == 4
  {
    b[0] as nat + 0x100 * b[1] as nat + 0x1_0000 * b[2] as nat + 0x100_0000 * b[3] as nat
  }

  lemma Lows(b: seq<byte>)
    requires |b| >= 4
    ensures FromLe(b) == LowWord(b[..4]) + 0x1_0000_0000 * FromLe(b[4..])
  {
    var b1 := b[1..];
    var b2 := b1[1..];
    var b3 := b2[1..];
    assert b1[0] == b[1] && b2[0] == b[2] && b3[0] == b[3] && b3[1..] == b[4..];
    assert FromLe(b) == b[0] as nat + 256 * FromLe(b1);
    assert FromLe(b1) == b[1] as nat + 256 * FromLe(b2);
    assert FromLe(b2) == b[2] as nat + 256 * FromLe(b3);
    assert FromLe(b3) == b[3] as nat + 256 * FromLe(b[4..]);
  }
}
