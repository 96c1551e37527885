/**
 * WebSocket framing of the Codex app-server client (src/codex-app-server.ts):
 * the frame encoder, the decoder and the incremental parser of received bytes
 * (sections 5.2 and 5.3 of RFC 6455).  Payloads are bytes.
 */
module WebSocketFrame {
  import opened Common

  type Byte = bv8
  type Bytes = seq<Byte>

  // ---- Lengths in network byte order ----

  function Pow256(k: nat): nat { if k == 0 then 1 else 256 * Pow256(k - 1) }

  function BigEndian(n: nat, k: nat): (r: Bytes)
    ensures |r| == k
  {
    if k == 0 then [] else BigEndian(n / 256, k - 1) + [(n % 256) as Byte]
  }

  function Number(b: Bytes): nat {
    if b == [] then 0 else 256 * Number(b[..|b| - 1]) + b[|b| - 1] as nat
  }

  lemma NumberSnoc(b: Bytes, last: Byte)
    ensures Number(b + [last]) == 256 * Number(b) + last as nat
  {
    assert (b + [last])[..|b|] == b;
  }

  lemma HighPart(n: nat, power: nat)
    requires n < 256 * power
    ensures n / 256 < power && 256 * (n / 256) + ((n % 256) as Byte) as nat == n
  {
  }

  lemma {:induction false} NumberOfBigEndian(n: nat, k: nat)
    requires n < Pow256(k)
    ensures Number(BigEndian(n, k)) == n
  {
    if k > 0 {
      var high, low := n / 256, (n % 256) as Byte;
      HighPart(n, Pow256(k - 1));
      NumberOfBigEndian(high, k - 1);
      NumberSnoc(BigEndian(high, k - 1), low);
    }
  }

  /** Payload lengths fit the eight-byte form. */
  const LIMIT: nat := 0x1_0000_0000_0000_0000

  lemma Powers()
    ensures Pow256(2) == 0x1_0000 && Pow256(8) == LIMIT
  {
    assert Pow256(2) == 256 * Pow256(1) && Pow256(1) == 256;
    assert Pow256(4) == 256 * Pow256(3) && Pow256(3) == 256 * Pow256(2);
    assert Pow256(6) == 256 * Pow256(5) && Pow256(5) == 256 * Pow256(4);
    assert Pow256(8) == 256 * Pow256(7) && Pow256(7) == 256 * Pow256(6);
  }

  // ---- The frame of a text payload ----

  const TEXT_FIN: Byte := 0x81
  const MASK_BIT: Byte := 0x80

  function LengthField(length: nat, masked: bool): Bytes
    requires length < LIMIT
  {
    var bit := if masked then MASK_BIT else 0;
    if length < 126 then [bit | (length as Byte)]
    else if length <= 0xffff then [bit | 126] + BigEndian(length, 2)
    else [bit | 127] + BigEndian(length, 8)
  }

  function Masked(payload: Bytes, mask: Bytes): Bytes
    requires |mask| == 4
  {
    seq(|payload|, i requires 0 <= i < |payload| => payload[i] ^ mask[i % 4])
  }

  /** A whole frame: clients mask, servers do not. */
  function Framed(payload: Bytes, mask: Option<Bytes>): Bytes
    requires |payload| < LIMIT && (mask.Some? ==> |mask.value| == 4)
  {
    [TEXT_FIN] + LengthField(|payload|, mask.Some?)
      + (if mask.Some? then mask.value + Masked(payload, mask.value) else payload)
  }

  datatype Frame = Frame(payload: Bytes, consumed: nat)

  /** Where the mask or the payload starts, and the payload's length, once they are readable. */
  function ReadLength(buffer: Bytes): Option<(nat, nat)>
    requires |buffer| >= 2
  {
    var short := (buffer[1] & 0x7f) as nat;
    if short == 126 then if |buffer| < 4 then None else Some((4, Number(buffer[2..4])))
    else if short == 127 then if |buffer| < 10 then None else Some((10, Number(buffer[2..10])))
    else Some((2, short))
  }

  /** The mask, if there is one, and the payload, once they are all there. */
  function DecodeBody(buffer: Bytes, masked: bool, offset: nat, size: nat): Option<Frame> {
    if masked then
      if |buffer| < offset + 4 + size then None
      else
        Some(Frame(Masked(buffer[offset + 4..offset + 4 + size], buffer[offset..offset + 4]), offset + 4 + size))
    else if |buffer| < offset + size then None
    else Some(Frame(buffer[offset..offset + size], offset + size))
  }

  function Decode(buffer: Bytes): Option<Frame>
    requires |buffer| >= 2
  {
    var length := ReadLength(buffer);
    if length.None? then None
    else DecodeBody(buffer, (buffer[1] & 0x80) != 0, length.value.0, length.value.1)
  }

  lemma MaskBits(b: Byte)
    requires b < 0x80
    ensures (MASK_BIT | b) & 0x7f == b && (MASK_BIT | b) & 0x80 != 0
    ensures (0 | b) & 0x7f == b && (0 | b) & 0x80 == 0
  {
  }

  lemma Unmask(a: Byte, m: Byte)
    ensures (a ^ m) ^ m == a
  {
  }

  lemma MaskedTwice(payload: Bytes, mask: Bytes)
    requires |mask| == 4
    ensures Masked(Masked(payload, mask), mask) == payload
  {
    forall i | 0 <= i < |payload|
      ensures Masked(Masked(payload, mask), mask)[i] == payload[i]
    {
      Unmask(payload[i], mask[i % 4]);
    }
  }

  lemma Slice(head: Bytes, part: Bytes, rest: Bytes)
    ensures (head + part + rest)[|head|..|head| + |part|] == part
  {
  }

  lemma LongLengthReadsBack(length: nat, k: nat, code: Byte, rest: Bytes)
    requires length < Pow256(k) && ((k == 2 && code & 0x7f == 126) || (k == 8 && code & 0x7f == 127))
    ensures ReadLength([TEXT_FIN] + ([code] + BigEndian(length, k)) + rest) == Some((2 + k, length))
  {
    var buffer := [TEXT_FIN] + ([code] + BigEndian(length, k)) + rest;
    NumberOfBigEndian(length, k);
    assert buffer == [TEXT_FIN, code] + BigEndian(length, k) + rest;
    Slice([TEXT_FIN, code], BigEndian(length, k), rest);
  }

  lemma LengthForms(length: nat, bit: Byte)
    requires bit == MASK_BIT || bit == 0
    ensures length < 126 ==> (bit | (length as Byte)) & 0x7f == length as Byte && (((bit | (length as Byte)) & 0x80 != 0) <==> bit == MASK_BIT)
    ensures (bit | 126) & 0x7f == 126 && (((bit | 126) & 0x80 != 0) <==> bit == MASK_BIT)
    ensures (bit | 127) & 0x7f == 127 && (((bit | 127) & 0x80 != 0) <==> bit == MASK_BIT)
  {
    if length < 126 { MaskBits(length as Byte); }
    MaskBits(126);
    MaskBits(127);
  }

  lemma ShortLengthReadsBack(length: nat, code: Byte, rest: Bytes)
    requires length < 126 && code & 0x7f == length as Byte
    ensures ReadLength([TEXT_FIN] + [code] + rest) == Some((2, length))
  {
    assert ([TEXT_FIN] + [code] + rest)[1] == code;
  }

  /** The length field reads back, whatever follows it. */
  lemma LengthReadsBack(length: nat, masked: bool, rest: Bytes)
    requires length < LIMIT
    ensures ReadLength([TEXT_FIN] + LengthField(length, masked) + rest) == Some((1 + |LengthField(length, masked)|, length))
    ensures LengthField(length, masked)[0] & 0x80 != 0 <==> masked
  {
    var bit := if masked then MASK_BIT else 0;
    LengthForms(length, bit);
    if length < 126 {
      ShortLengthReadsBack(length, bit | (length as Byte), rest);
    } else {
      LongFieldReadsBack(length, masked, rest);
    }
  }

  lemma LongFieldReadsBack(length: nat, masked: bool, rest: Bytes)
    requires 126 <= length < LIMIT
    ensures ReadLength([TEXT_FIN] + LengthField(length, masked) + rest) == Some((1 + |LengthField(length, masked)|, length))
    ensures LengthField(length, masked)[0] & 0x80 != 0 <==> masked
  {
    var bit := if masked then MASK_BIT else 0;
    var k, code: Byte := if length <= 0xffff then 2 else 8, if length <= 0xffff then bit | 126 else bit | 127;
    LengthForms(length, bit);
    Powers();
    assert LengthField(length, masked) == [code] + BigEndian(length, k);
    LongLengthReadsBack(length, k, code, rest);
  }

  lemma MaskedFrameReads(head: Bytes, mask: Bytes, body: Bytes, rest: Bytes)
    requires |mask| == 4
    ensures DecodeBody(head + (mask + body + rest), true, |head|, |body|) ==
      Some(Frame(Masked(body, mask), |head| + 4 + |body|))
  {
    RoundTripBody(head, mask, body, rest);
  }

  lemma PlainFrameReads(head: Bytes, body: Bytes, rest: Bytes)
    ensures DecodeBody(head + (body + rest), false, |head|, |body|) == Some(Frame(body, |head| + |body|))
  {
    RoundTripBody(head, [], body, rest);
  }

  lemma Regroup(a: Bytes, b: Bytes, c: Bytes)
    ensures a + b + c == a + (b + c)
  {
  }

  /**
   * Framing round trip, for all three length forms, masked or not: decoding a
   * frame followed by any bytes returns its payload and its exact length.
   */
  lemma RoundTrip(payload: Bytes, mask: Option<Bytes>, rest: Bytes)
    requires |payload| < LIMIT && (mask.Some? ==> |mask.value| == 4)
    ensures Decode(Framed(payload, mask) + rest) == Some(Frame(payload, |Framed(payload, mask)|))
  {
    var field := LengthField(|payload|, mask.Some?);
    var head := [TEXT_FIN] + field;
    var tail := if mask.Some? then mask.value + Masked(payload, mask.value) else payload;
    Regroup(head, tail, rest);
    LengthReadsBack(|payload|, mask.Some?, tail + rest);
    assert (head + (tail + rest))[1] == field[0];
    if mask.Some? {
      MaskedFrameReads(head, mask.value, Masked(payload, mask.value), rest);
      MaskedTwice(payload, mask.value);
    } else {
      PlainFrameReads(head, payload, rest);
    }
  }

  lemma RoundTripBody(head: Bytes, mask: Bytes, body: Bytes, rest: Bytes)
    ensures
      var buffer := head + (mask + body + rest);
      && buffer[|head|..|head| + |mask|] == mask
      && buffer[|head| + |mask|..|head| + |mask| + |body|] == body
    ensures mask == [] ==> mask + body + rest == body + rest
  {
  }

  lemma Extends(buffer: Bytes, more: Bytes, i: nat, j: nat)
    requires i <= j <= |buffer|
    ensures (buffer + more)[i..j] == buffer[i..j]
  {
  }

  lemma LengthIsStable(buffer: Bytes, more: Bytes)
    requires |buffer| >= 2 && ReadLength(buffer).Some?
    ensures ReadLength(buffer + more) == ReadLength(buffer)
  {
    if |buffer| >= 4 { Extends(buffer, more, 2, 4); }
    if |buffer| >= 10 { Extends(buffer, more, 2, 10); }
  }

  lemma BodyIsStable(buffer: Bytes, more: Bytes, masked: bool, offset: nat, size: nat)
    requires DecodeBody(buffer, masked, offset, size).Some?
    ensures DecodeBody(buffer + more, masked, offset, size) == DecodeBody(buffer, masked, offset, size)
    ensures offset <= DecodeBody(buffer, masked, offset, size).value.consumed <= |buffer|
  {
    if masked {
      Extends(buffer, more, offset, offset + 4);
      Extends(buffer, more, offset + 4, offset + 4 + size);
    } else {
      Extends(buffer, more, offset, offset + size);
    }
  }

  /** Bytes that arrive later never change a frame that could already be decoded. */
  lemma DecodeIsStable(buffer: Bytes, more: Bytes)
    requires |buffer| >= 2 && Decode(buffer).Some?
    ensures Decode(buffer + more) == Decode(buffer)
    ensures 2 <= Decode(buffer).value.consumed <= |buffer|
  {
    LengthIsStable(buffer, more);
    var length := ReadLength(buffer).value;
    BodyIsStable(buffer, more, (buffer[1] & 0x80) != 0, length.0, length.1);
  }

  /** A proper prefix of a frame decodes to nothing. */
  lemma PrefixDecodesToNothing(payload: Bytes, mask: Option<Bytes>, k: nat)
    requires |payload| < LIMIT && (mask.Some? ==> |mask.value| == 4)
    requires 2 <= k < |Framed(payload, mask)|
    ensures Decode(Framed(payload, mask)[..k]).None?
  {
    var f := Framed(payload, mask);
    assert f[..k] + f[k..] == f + [];
    RoundTrip(payload, mask, []);
    if Decode(f[..k]).Some? { DecodeIsStable(f[..k], f[k..]); }
  }

  // ---- The bytes of a frame ----

  /** The length as the wire carries it: in byte 1, or high byte first in the next 2 or 8; the payload length is `n`. */
  predicate LengthBytes(f: Bytes, bit: Byte, n: nat, start: nat) {
    |f| >= start && (bit == 0 || bit == 0x80) &&
    if n < 126 then start == 2 && f[1] == bit | (n as Byte)
    else if n <= 0xffff then start == 4 && f[1] == bit | 126 && f[2] as nat * 256 + f[3] as nat == n
    else
      && start == 10 && f[1] == bit | 127
      && ((((((f[2] as nat * 256 + f[3] as nat) * 256 + f[4] as nat) * 256 + f[5] as nat) * 256
        + f[6] as nat) * 256 + f[7] as nat) * 256 + f[8] as nat) * 256 + f[9] as nat == n
  }

  /** Where the bytes after the length field begin. */
  function HeaderSize(n: nat): nat { if n < 126 then 2 else if n <= 0xffff then 4 else 10 }

  /** A client's text frame: final text opcode, masked length, the mask, each payload byte under its mask byte. */
  predicate ClientFrame(f: Bytes, payload: Bytes, mask: Bytes)
    requires |mask| == 4
  {
    var start := HeaderSize(|payload|);
    && |f| == start + 4 + |payload|
    && f[0] == 0x81
    && LengthBytes(f, 0x80, |payload|, start)
    && (forall j | 0 <= j < 4 :: f[start + j] == mask[j])
    && (forall i | 0 <= i < |payload| :: f[start + 4 + i] == payload[i] ^ mask[i % 4])
  }

  /** A server's text frame: no mask, the payload as it is. */
  predicate ServerFrame(f: Bytes, payload: Bytes) {
    var start := HeaderSize(|payload|);
    && |f| == start + |payload|
    && f[0] == 0x81
    && LengthBytes(f, 0, |payload|, start)
    && (forall i | 0 <= i < |payload| :: f[start + i] == payload[i])
  }

  lemma TwoBytes(b: Bytes)
    requires |b| == 2
    ensures Number(b) == b[0] as nat * 256 + b[1] as nat
  {
    assert Number(b[..1]) == b[0] as nat;
  }

  /** Two more bytes behind the ones already counted. */
  lemma TwoMore(b: Bytes, k: nat)
    requires k + 2 == |b|
    ensures Number(b) == (Number(b[..k]) * 256 + b[k] as nat) * 256 + b[k + 1] as nat
  {
    assert b[..k + 1][..k] == b[..k];
  }

  lemma FourBytes(b: Bytes)
    requires |b| == 4
    ensures Number(b) == ((b[0] as nat * 256 + b[1] as nat) * 256 + b[2] as nat) * 256 + b[3] as nat
  {
    TwoBytes(b[..2]);
    TwoMore(b, 2);
  }

  lemma SixBytes(b: Bytes)
    requires |b| == 6
    ensures Number(b) ==
      ((((b[0] as nat * 256 + b[1] as nat) * 256 + b[2] as nat) * 256 + b[3] as nat) * 256 + b[4] as nat) * 256 + b[5] as nat
  {
    FourBytes(b[..4]);
    TwoMore(b, 4);
  }

  lemma EightBytes(b: Bytes)
    requires |b| == 8
    ensures Number(b) ==
      ((((((b[0] as nat * 256 + b[1] as nat) * 256 + b[2] as nat) * 256 + b[3] as nat) * 256
        + b[4] as nat) * 256 + b[5] as nat) * 256 + b[6] as nat) * 256 + b[7] as nat
  {
    SixBytes(b[..6]);
    TwoMore(b, 6);
  }

  lemma FieldBytes(n: nat, masked: bool, rest: Bytes)
    requires n < LIMIT
    ensures 1 + |LengthField(n, masked)| == HeaderSize(n)
    ensures LengthBytes([TEXT_FIN] + LengthField(n, masked) + rest, if masked then 0x80 else 0, n, HeaderSize(n))
  {
    Powers();
    var f := [TEXT_FIN] + LengthField(n, masked) + rest;
    if n >= 126 {
      var k := if n <= 0xffff then 2 else 8;
      var b := BigEndian(n, k);
      NumberOfBigEndian(n, k);
      assert f[2..2 + k] == b;
      if k == 2 { TwoBytes(b); } else { EightBytes(b); }
    }
  }

  /** Every encoded frame has exactly these bytes. */
  lemma FrameBytes(payload: Bytes, mask: Option<Bytes>)
    requires |payload| < LIMIT && (mask.Some? ==> |mask.value| == 4)
    ensures mask.Some? ==> ClientFrame(Framed(payload, mask), payload, mask.value)
    ensures mask.None? ==> ServerFrame(Framed(payload, mask), payload)
  {
    FieldBytes(|payload|, mask.Some?, if mask.Some? then mask.value + Masked(payload, mask.value) else payload);
  }

  method EncodeHeader(length: nat) returns (header: Bytes)
    requires length < LIMIT
    ensures header == [TEXT_FIN] + LengthField(length, true)
  {
    if length < 126 {
      header := [TEXT_FIN, MASK_BIT | (length as Byte)];
    } else if length <= 0xffff {
      header := [TEXT_FIN, MASK_BIT | 126] + BigEndian(length, 2);
    } else {
      header := [TEXT_FIN, MASK_BIT | 127] + BigEndian(length, 8);
    }
  }

  lemma LeadAndBody(framed: Bytes, header: Bytes, payload: Bytes, mask: Bytes)
    requires |mask| == 4 && |payload| < LIMIT && header == [TEXT_FIN] + LengthField(|payload|, true)
    requires |framed| == |header + mask| + |payload|
    requires forall j :: 0 <= j < |header + mask| ==> framed[j] == (header + mask)[j]
    requires forall j :: 0 <= j < |payload| ==> framed[|header + mask| + j] == payload[j] ^ mask[j % 4]
    ensures framed == Framed(payload, Some(mask))
  {
    assert framed[..|header + mask|] == header + mask;
    assert framed[|header + mask|..] == Masked(payload, mask);
    Regroup(header, mask, Masked(payload, mask));
  }

  /** The encoder: header forms by payload size, then the masking loop. */
  method EncodeTextFrame(payload: Bytes, mask: Bytes) returns (framed: array<Byte>)
    requires |mask| == 4 && |payload| < LIMIT
    ensures framed[..] == Framed(payload, Some(mask))
    ensures ClientFrame(framed[..], payload, mask)
  {
    var header := EncodeHeader(|payload|);
    var lead := header + mask;
    framed := new Byte[|lead| + |payload|](i requires 0 <= i < |lead| + |payload| => if i < |lead| then lead[i] else 0);
    var i := 0;
    while i < |payload|
      invariant 0 <= i <= |payload|
      invariant forall j :: 0 <= j < |lead| ==> framed[j] == lead[j]
      invariant forall j :: 0 <= j < i ==> framed[|lead| + j] == payload[j] ^ mask[j % 4]
    {
      framed[|lead| + i] := payload[i] ^ mask[i % 4];
      i := i + 1;
    }
    LeadAndBody(framed[..], header, payload, mask);
    FrameBytes(payload, Some(mask));
  }

  // ---- The incremental parser ----

  /** A blank line (CR LF CR LF) starts at `k`. */
  predicate BlankAt(buffer: Bytes, k: nat) {
    k + 4 <= |buffer| && buffer[k] == 13 && buffer[k + 1] == 10 && buffer[k + 2] == 13 && buffer[k + 3] == 10
  }

  function IndexFrom(buffer: Bytes, from: nat): (i: Option<nat>)
    ensures i.Some? ==> BlankAt(buffer, i.value) && forall k: nat :: from <= k < i.value ==> !BlankAt(buffer, k)
    ensures i.None? ==> forall k: nat :: from <= k ==> !BlankAt(buffer, k)
    decreases |buffer| - from
  {
    if from + 4 > |buffer| then None
    else if BlankAt(buffer, from) then Some(from)
    else IndexFrom(buffer, from + 1)
  }

  function IndexOf(buffer: Bytes): Option<nat> { IndexFrom(buffer, 0) }

  datatype Drained = Drained(messages: seq<Bytes>, rest: Bytes)

  /** All complete frames at the front of a buffer, and the bytes after them. */
  function Drain(buffer: Bytes): Drained
    decreases |buffer|
  {
    if |buffer| < 2 || Decode(buffer).None? then Drained([], buffer)
    else
      var frame := Decode(buffer).value;
      DecodeIsStable(buffer, []);
      var d := Drain(buffer[frame.consumed..]);
      Drained([frame.payload] + d.messages, d.rest)
  }

  datatype Client = Client(buffer: Bytes, handshaken: bool, messages: seq<Bytes>)

  const CONNECTED: Client := Client([], false, [])

  /** A client past the handshake takes what it can decode. */
  function Deliver(messages: seq<Bytes>, body: Bytes): Client {
    var d := Drain(body);
    Client(d.rest, true, messages + d.messages)
  }

  function Parse(c: Client): Client {
    if c.handshaken then Deliver(c.messages, c.buffer)
    else
      var end := IndexOf(c.buffer);
      if end.None? then c else Deliver(c.messages, c.buffer[end.value + 4..])
  }

  function Feed(c: Client, data: Bytes): Client { Parse(c.(buffer := c.buffer + data)) }

  function FeedAll(c: Client, chunks: seq<Bytes>): Client
    decreases |chunks|
  {
    if chunks == [] then c else FeedAll(Feed(c, chunks[0]), chunks[1..])
  }

  function Concat(chunks: seq<Bytes>): Bytes {
    if chunks == [] then [] else chunks[0] + Concat(chunks[1..])
  }

  class AppServerClient {
    var buffer: Bytes
    var handshaken: bool
    var messages: seq<Bytes>

    function State(): Client
      reads this
    {
      Client(buffer, handshaken, messages)
    }

    constructor ()
      ensures State() == CONNECTED
    {
      buffer, handshaken, messages := [], false, [];
    }

    /** The receive handler; a message is the payload of one decoded frame. */
    method OnData(data: Bytes)
      modifies this
      ensures State() == Feed(old(State()), data)
    {
      buffer := buffer + data;
      if !handshaken {
        var end := IndexOf(buffer);
        if end.None? { return; }
        buffer := buffer[end.value + 4..];
        handshaken := true;
      }
      ParseFrames();
    }

    method ParseFrames()
      modifies this`buffer, this`messages
      ensures buffer == Drain(old(buffer)).rest
      ensures messages == old(messages) + Drain(old(buffer)).messages
    {
      while |buffer| >= 2
        invariant Drain(old(buffer)).rest == Drain(buffer).rest
        invariant old(messages) + Drain(old(buffer)).messages == messages + Drain(buffer).messages
        decreases |buffer|
      {
        var parsed := Decode(buffer);
        if parsed.None? { break; }
        TakeFirst(buffer, parsed.value, messages);
        buffer := buffer[parsed.value.consumed..];
        messages := messages + [parsed.value.payload];
      }
    }
  }

  lemma TakeFirst(buffer: Bytes, frame: Frame, messages: seq<Bytes>)
    requires |buffer| >= 2 && Decode(buffer) == Some(frame)
    ensures 2 <= frame.consumed <= |buffer|
    ensures Drain(buffer).rest == Drain(buffer[frame.consumed..]).rest
    ensures messages + Drain(buffer).messages == messages + [frame.payload] + Drain(buffer[frame.consumed..]).messages
  {
    DecodeIsStable(buffer, []);
  }

  /** What a drain of `a` does when it can decode a first frame: the same with more bytes behind it. */
  lemma DrainFront(a: Bytes, b: Bytes) returns (more: bool, n: nat, payload: Bytes)
    ensures !more ==> Drain(a) == Drained([], a)
    ensures more ==> 2 <= n <= |a|
    ensures more ==>
      var d, e := Drain(a[n..]), Drain(a[n..] + b);
      && Drain(a) == Drained([payload] + d.messages, d.rest)
      && Drain(a + b) == Drained([payload] + e.messages, e.rest)
  {
    more := |a| >= 2 && Decode(a).Some?;
    n, payload := 0, [];
    if more {
      DecodeIsStable(a, b);
      payload, n := Decode(a).value.payload, Decode(a).value.consumed;
      assert (a + b)[n..] == a[n..] + b;
    }
  }

  lemma {:induction false} DrainAcrossChunks(a: Bytes, b: Bytes)
    ensures
      var d := Drain(a);
      var e := Drain(d.rest + b);
      Drain(a + b).messages == d.messages + e.messages && Drain(a + b).rest == e.rest
    decreases |a|
  {
    var more, n, payload := DrainFront(a, b);
    if more {
      DrainAcrossChunks(a[n..], b);
      PrependAssoc(payload, Drain(a[n..]).messages, Drain(Drain(a[n..]).rest + b).messages);
    }
  }

  lemma PrependAssoc(x: Bytes, a: seq<Bytes>, b: seq<Bytes>)
    ensures [x] + (a + b) == [x] + a + b
  {
  }

  /** Draining leaves nothing decodable. */
  lemma {:induction false} DrainedTwice(a: Bytes)
    ensures Drain(Drain(a).rest) == Drained([], Drain(a).rest)
    decreases |a|
  {
    if |a| >= 2 && Decode(a).Some? {
      DecodeIsStable(a, []);
      DrainedTwice(a[Decode(a).value.consumed..]);
    }
  }

  /** The first blank line does not move when more bytes arrive. */
  lemma IndexOfIsStable(a: Bytes, b: Bytes)
    requires IndexOf(a).Some?
    ensures IndexOf(a + b) == IndexOf(a)
  {
    var i := IndexOf(a).value;
    forall k: nat | k <= i
      ensures BlankAt(a + b, k) <==> BlankAt(a, k)
    {
    }
    var j := IndexOf(a + b);
    assert BlankAt(a + b, i);
    assert j.Some? && j.value <= i;
    assert BlankAt(a, j.value);
  }

  lemma DeliverAcrossChunks(messages: seq<Bytes>, a: Bytes, b: Bytes)
    ensures Feed(Deliver(messages, a), b) == Deliver(messages, a + b)
  {
    DrainAcrossChunks(a, b);
    var d := Drain(a);
    var e := Drain(d.rest + b);
    assert messages + (d.messages + e.messages) == messages + d.messages + e.messages;
  }

  lemma FeedHandshakenAcross(c: Client, a: Bytes, b: Bytes)
    requires c.handshaken
    ensures Feed(Feed(c, a), b) == Feed(c, a + b)
  {
    DeliverAcrossChunks(c.messages, c.buffer + a, b);
    Regroup(c.buffer, a, b);
  }

  lemma FeedIndex(c: Client, data: Bytes)
    requires !c.handshaken
    ensures
      var all := c.buffer + data;
      Feed(c, data) ==
        if IndexOf(all).None? then c.(buffer := all) else Deliver(c.messages, all[IndexOf(all).value + 4..])
  {
  }

  lemma FeedFirstAcross(c: Client, a: Bytes, b: Bytes)
    requires !c.handshaken
    ensures Feed(Feed(c, a), b) == Feed(c, a + b)
  {
    var one := c.buffer + a;
    Regroup(c.buffer, a, b);
    FeedIndex(c, a);
    FeedIndex(c, a + b);
    if IndexOf(one).Some? {
      IndexOfIsStable(one, b);
      var n := IndexOf(one).value + 4;
      assert (one + b)[n..] == one[n..] + b;
      DeliverAcrossChunks(c.messages, one[n..], b);
    } else {
      FeedIndex(c.(buffer := one), b);
    }
  }

  /** Two chunks leave the same messages and the same left-over bytes as one. */
  lemma FeedAcrossChunks(c: Client, a: Bytes, b: Bytes)
    ensures Feed(Feed(c, a), b) == Feed(c, a + b)
  {
    if c.handshaken { FeedHandshakenAcross(c, a, b); } else { FeedFirstAcross(c, a, b); }
  }

  /** Chunk independence: any chunking of the received bytes leaves the client in the same state. */
  lemma {:induction false} ChunkIndependence(c: Client, chunks: seq<Bytes>)
    requires Feed(c, []) == c
    ensures FeedAll(c, chunks) == Feed(c, Concat(chunks))
    decreases |chunks|
  {
    if chunks != [] {
      var first, rest := chunks[0], Concat(chunks[1..]);
      FeedAcrossChunks(c, first, []);
      assert first + [] == first;
      ChunkIndependence(Feed(c, first), chunks[1..]);
      FeedAcrossChunks(c, first, rest);
    }
  }

  datatype Sent = Sent(payload: Bytes, mask: Option<Bytes>)

  predicate Sendable(s: Sent) {
    |s.payload| < LIMIT && (s.mask.Some? ==> |s.mask.value| == 4)
  }

  function Wire(frames: seq<Sent>): Bytes
    requires forall f :: f in frames ==> Sendable(f)
  {
    if frames == [] then []
    else
      assert Sendable(frames[0]);
      Framed(frames[0].payload, frames[0].mask) + Wire(frames[1..])
  }

  function Payloads(frames: seq<Sent>): seq<Bytes> {
    if frames == [] then [] else [frames[0].payload] + Payloads(frames[1..])
  }

  /** Bytes that hold no complete frame yet. */
  predicate Incomplete(tail: Bytes) { |tail| < 2 || Decode(tail).None? }

  lemma DrainFrame(sent: Sent, rest: Bytes)
    requires Sendable(sent)
    ensures Drain(Framed(sent.payload, sent.mask) + rest) == Drained([sent.payload] + Drain(rest).messages, Drain(rest).rest)
  {
    var f := Framed(sent.payload, sent.mask);
    RoundTrip(sent.payload, sent.mask, rest);
    assert |f| >= 2;
    assert (f + rest)[|f|..] == rest;
  }

  lemma {:induction false} DrainWire(frames: seq<Sent>, tail: Bytes)
    requires forall f :: f in frames ==> Sendable(f)
    requires Incomplete(tail)
    ensures Drain(Wire(frames) + tail) == Drained(Payloads(frames), tail)
    decreases |frames|
  {
    if frames == [] {
      assert Wire(frames) + tail == tail;
    } else {
      assert Sendable(frames[0]);
      Regroup(Framed(frames[0].payload, frames[0].mask), Wire(frames[1..]), tail);
      DrainFrame(frames[0], Wire(frames[1..]) + tail);
      DrainWire(frames[1..], tail);
    }
  }

  lemma AfterHandshake(handshake: Bytes, body: Bytes)
    requires |handshake| >= 4 && IndexOf(handshake) == Some(|handshake| - 4)
    ensures Feed(CONNECTED, handshake + body) == Deliver([], body)
  {
    assert [] + (handshake + body) == handshake + body;
    IndexOfIsStable(handshake, body);
    assert (handshake + body)[|handshake|..] == body;
  }

  /**
   * A session delivered in any chunking: a handshake ending in its first blank
   * line, then frames, then part of a frame.  Exactly the payloads come out,
   * in order, and exactly the unfinished bytes are kept.
   */
  lemma SessionDelivers(handshake: Bytes, frames: seq<Sent>, tail: Bytes, chunks: seq<Bytes>)
    requires |handshake| >= 4 && IndexOf(handshake) == Some(|handshake| - 4)
    requires forall f :: f in frames ==> Sendable(f)
    requires Incomplete(tail)
    requires Concat(chunks) == handshake + (Wire(frames) + tail)
    ensures FeedAll(CONNECTED, chunks) == Client(tail, true, Payloads(frames))
  {
    assert Feed(CONNECTED, []) == CONNECTED;
    ChunkIndependence(CONNECTED, chunks);
    AfterHandshake(handshake, Wire(frames) + tail);
    DrainWire(frames, tail);
    assert [] + Payloads(frames) == Payloads(frames);
  }
}
