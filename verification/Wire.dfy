/**
  The process broker's framing: length prefix, header, payload, big-endian; an
  encoder that numbers frames and writes through a sink that may take only part of
  what it is given, and a decoder that insists on the numbering.
*/
module Wire {
  import opened Wrappers
  import opened Octets

  const VERSION: Byte := 1
  const HEADER_BYTES := 12
  const MAX_PAYLOAD := 65536
  const MAX_FRAME_BYTES := HEADER_BYTES + MAX_PAYLOAD
  const WORD := 0x1_0000_0000_0000_0000

  /** A frame without its number. */
  datatype Message = Message(kind: Byte, stream: Byte, flags: Byte, payload: Bytes)

  predicate Valid(m: Message) {
    1 <= m.kind <= 13 && 1 <= m.stream <= 3 && |m.payload| <= MAX_PAYLOAD
  }

  // ---------- big-endian numbers ----------

  /** How many values fit in w bytes. */
  function Bound(w: nat): nat {
    if w == 0 then 1 else 256 * Bound(w - 1)
  }

  function BigEndian(n: nat, w: nat): (r: Bytes)
    ensures |r| == w
  {
    if w == 0 then [] else BigEndian(n / 256, w - 1) + [(n % 256) as Byte]
  }

  function Number(bs: Bytes): nat {
    if bs == [] then 0 else Number(bs[..|bs| - 1]) * 256 + bs[|bs| - 1] as nat
  }

  lemma LastByte(n: nat, w: nat)
    requires w > 0
    ensures Number(BigEndian(n, w)) == Number(BigEndian(n / 256, w - 1)) * 256 + n % 256
  {
    assert BigEndian(n, w)[..w - 1] == BigEndian(n / 256, w - 1);
  }

  lemma {:induction false} NumberReadsBack(n: nat, w: nat)
    requires n < Bound(w)
    ensures Number(BigEndian(n, w)) == n
  {
    if w > 0 {
      NumberReadsBack(n / 256, w - 1);
      LastByte(n, w);
    }
  }

  lemma {:induction false} BytesReadBack(bs: Bytes)
    ensures Number(bs) < Bound(|bs|) && BigEndian(Number(bs), |bs|) == bs
  {
    if bs != [] {
      BytesReadBack(bs[..|bs| - 1]);
      assert bs == bs[..|bs| - 1] + [bs[|bs| - 1]];
    }
  }

  lemma Bounds()
    ensures Bound(4) == 0x1_0000_0000 && Bound(8) == WORD
  {
    assert Bound(0) == 1;
    assert Bound(1) == 0x100 && Bound(2) == 0x1_0000;
    assert Bound(3) == 0x100_0000 && Bound(4) == 0x1_0000_0000;
    assert Bound(5) == 0x100_0000_0000 && Bound(6) == 0x1_0000_0000_0000;
    assert Bound(7) == 0x100_0000_0000_0000;
  }

  // ---------- one frame ----------

  function Header(m: Message, n: nat): (r: Bytes)
    ensures |r| == HEADER_BYTES
  {
    [VERSION, m.kind, m.stream, m.flags] + BigEndian(n, 8)
  }

  function Encode(m: Message, n: nat): Bytes {
    BigEndian(HEADER_BYTES + |m.payload|, 4) + Header(m, n) + m.payload
  }

  datatype Decoded = Got(message: Message, rest: Bytes) | NoMore | Violation | Exhausted

  /** What follows the length prefix. */
  function DecodeBody(body: Bytes, rest: Bytes, wanted: nat): Decoded
    requires |body| >= HEADER_BYTES
  {
    var m := Message(body[1], body[2], body[3], body[HEADER_BYTES..]);
    if body[0] != VERSION then Violation
    else if !(1 <= m.kind <= 13 && 1 <= m.stream <= 3) then Violation
    else if Number(body[4..12]) != wanted then Violation
    else Got(m, rest)
  }

  /** Reading one frame from the bytes that are there. */
  function Decode(bs: Bytes, wanted: nat): (r: Decoded)
    ensures r.Got? ==> |r.rest| < |bs|
  {
    if |bs| < 4 then NoMore
    else
      var length := Number(bs[..4]);
      if length < HEADER_BYTES then Violation
      else if length > MAX_FRAME_BYTES then Exhausted
      else if |bs| < 4 + length then Violation
      else DecodeBody(bs[4..4 + length], bs[4 + length..], wanted)
  }

  lemma BodyReadsBack(m: Message, n: nat, rest: Bytes)
    requires Valid(m) && n < WORD
    ensures DecodeBody(Header(m, n) + m.payload, rest, n) == Got(m, rest)
  {
    Bounds();
    var body := Header(m, n) + m.payload;
    assert body[4..12] == BigEndian(n, 8);
    assert body[HEADER_BYTES..] == m.payload;
    NumberReadsBack(n, 8);
    assert Message(m.kind, m.stream, m.flags, m.payload) == m;
    hide BigEndian, Number, Bound;
    assert body[0] == VERSION && body[1] == m.kind && body[2] == m.stream && body[3] == m.flags;
  }

  /** A frame that was encoded is decoded, whatever follows it. */
  lemma FrameReadsBack(m: Message, n: nat, rest: Bytes)
    requires Valid(m) && n < WORD
    ensures Decode(Encode(m, n) + rest, n) == Got(m, rest)
  {
    hide DecodeBody, Header, BigEndian, Number, Bound;
    Bounds();
    var length := HEADER_BYTES + |m.payload|;
    var prefix, body := BigEndian(length, 4), Header(m, n) + m.payload;
    var bs := Encode(m, n) + rest;
    assert bs == prefix + body + rest;
    assert bs[..4] == prefix && bs[4..4 + length] == body && bs[4 + length..] == rest;
    NumberReadsBack(length, 4);
    BodyReadsBack(m, n, rest);
  }

  lemma BodyIsEncoding(body: Bytes, rest: Bytes, wanted: nat, m: Message)
    requires HEADER_BYTES <= |body| <= MAX_FRAME_BYTES && DecodeBody(body, rest, wanted) == Got(m, rest)
    ensures Valid(m) && wanted < WORD && |m.payload| == |body| - HEADER_BYTES && body == Header(m, wanted) + m.payload
  {
    Bounds();
    BytesReadBack(body[4..12]);
    hide BigEndian, Number, Bound;
    assert body == body[..4] + body[4..12] + body[12..];
    assert body[..4] == [VERSION, m.kind, m.stream, m.flags];
  }

  /** Whatever is accepted is the encoding of what it was taken for: valid, and
      with the number that was expected. */
  lemma AcceptedIsEncoding(bs: Bytes, wanted: nat, m: Message, rest: Bytes)
    requires Decode(bs, wanted) == Got(m, rest)
    ensures Valid(m) && wanted < WORD && bs == Encode(m, wanted) + rest
  {
    hide DecodeBody, Header, BigEndian, Number, Bound, Valid;
    var length := Number(bs[..4]);
    var body, tail := bs[4..4 + length], bs[4 + length..];
    GotRest(body, tail, wanted, m, rest);
    BodyIsEncoding(body, tail, wanted, m);
    BytesReadBack(bs[..4]);
    assert bs == bs[..4] + body + tail;
  }

  lemma GotRest(body: Bytes, tail: Bytes, wanted: nat, m: Message, rest: Bytes)
    requires |body| >= HEADER_BYTES && DecodeBody(body, tail, wanted) == Got(m, rest)
    ensures rest == tail
  {
  }

  // ---------- streams ----------

  /** Numbers are 64 bits wide and start over. */
  function Next(n: nat): (r: nat)
    ensures r < WORD
  {
    (n + 1) % WORD
  }

  /** The frames numbered from n on. */
  function EncodeAll(ms: seq<Message>, n: nat): Bytes {
    if ms == [] then [] else Encode(ms[0], n) + EncodeAll(ms[1..], Next(n))
  }

  /** The frames read, and what stopped the reading where. */
  datatype Reading = Reading(messages: seq<Message>, end: Decoded, left: Bytes)

  function DecodeAll(bs: Bytes, n: nat): Reading
    decreases |bs|
  {
    match Decode(bs, n)
    case Got(m, rest) => var r := DecodeAll(rest, Next(n)); r.(messages := [m] + r.messages)
    case other => Reading([], other, bs)
  }

  /** Decoding what was encoded gives back the frames, numbered from n on. */
  lemma {:induction false} StreamReadsBack(ms: seq<Message>, n: nat)
    requires (forall m :: m in ms ==> Valid(m)) && n < WORD
    ensures DecodeAll(EncodeAll(ms, n), n) == Reading(ms, NoMore, [])
  {
    hide Encode, Decode, Valid;
    if ms == [] {
      NothingToRead(n);
    } else {
      assert ms == [ms[0]] + ms[1..];
      assert forall m :: m in ms[1..] ==> m in ms;
      FrameReadsBack(ms[0], n, EncodeAll(ms[1..], Next(n)));
      StreamReadsBack(ms[1..], Next(n));
    }
  }

  lemma NothingToRead(n: nat)
    ensures Decode([], n) == NoMore
  {
  }

  /** Re-encoding whatever was accepted reproduces exactly the bytes consumed. */
  lemma {:induction false} StreamIsEncoding(bs: Bytes, n: nat)
    ensures
      var r := DecodeAll(bs, n);
      && bs == EncodeAll(r.messages, n) + r.left
      && (forall m :: m in r.messages ==> Valid(m))
      && (r.messages != [] ==> n < WORD)
    decreases |bs|
  {
    hide Encode, Decode, Valid;
    var d, r := Decode(bs, n), DecodeAll(bs, n);
    if d.Got? {
      AcceptedIsEncoding(bs, n, d.message, d.rest);
      StreamIsEncoding(d.rest, Next(n));
      var tail := DecodeAll(d.rest, Next(n)).messages;
      assert ([d.message] + tail)[1..] == tail;
      Associate(Encode(d.message, n), EncodeAll(tail, Next(n)), r.left);
    } else {
      assert EncodeAll([], n) + bs == bs;
    }
  }

  lemma Associate(a: Bytes, b: Bytes, c: Bytes)
    ensures (a + b) + c == a + (b + c)
  {
  }

  lemma UnfinishedFrame(m: Message, n: nat, part: Bytes)
    requires Valid(m) && n < WORD && part < Encode(m, n)
    ensures Decode(part, n) == if |part| < 4 then NoMore else Violation
  {
    hide Header, BigEndian, Number, Bound;
    Bounds();
    var length := HEADER_BYTES + |m.payload|;
    NumberReadsBack(length, 4);
    if |part| >= 4 {
      assert part[..4] == Encode(m, n)[..4] == BigEndian(length, 4);
    }
  }

  /** A frame is visible only once it is complete: a reader of frames and part of
      another gets the frames, and the part is left over. */
  lemma {:induction false} UnfinishedIsInvisible(ms: seq<Message>, n: nat, m: Message, part: Bytes)
    requires (forall x :: x in ms ==> Valid(x)) && Valid(m) && n < WORD && part < Encode(m, (n + |ms|) % WORD)
    ensures DecodeAll(EncodeAll(ms, n) + part, n) == Reading(ms, if |part| < 4 then NoMore else Violation, part)
  {
    hide Encode, Decode, Valid, Next;
    if ms == [] {
      UnfinishedFrame(m, n, part);
      assert EncodeAll(ms, n) + part == part;
    } else {
      var tail := EncodeAll(ms[1..], Next(n)) + part;
      assert ms == [ms[0]] + ms[1..];
      assert forall x :: x in ms[1..] ==> x in ms;
      NextAfter(n, |ms| - 1);
      UnfinishedIsInvisible(ms[1..], Next(n), m, part);
      Associate(Encode(ms[0], n), EncodeAll(ms[1..], Next(n)), part);
      FrameReadsBack(ms[0], n, tail);
    }
  }

  // ---------- after a failed write ----------

  /** Frames in front do not change how the rest is read. */
  lemma {:induction false} ReadOn(ms: seq<Message>, n: nat, bs: Bytes)
    requires (forall m :: m in ms ==> Valid(m)) && n < WORD
    ensures
      var rest := DecodeAll(bs, (n + |ms|) % WORD);
      DecodeAll(EncodeAll(ms, n) + bs, n) == rest.(messages := ms + rest.messages)
  {
    hide Encode, Decode, Valid, Next;
    if ms == [] {
      assert EncodeAll(ms, n) + bs == bs;
      var rest := DecodeAll(bs, n);
      assert ms + rest.messages == rest.messages;
    } else {
      var tail := EncodeAll(ms[1..], Next(n)) + bs;
      assert ms == [ms[0]] + ms[1..];
      assert forall x :: x in ms[1..] ==> x in ms;
      NextAfter(n, |ms| - 1);
      ReadOn(ms[1..], Next(n), bs);
      Associate(Encode(ms[0], n), EncodeAll(ms[1..], Next(n)), bs);
      FrameReadsBack(ms[0], n, tail);
      var rest := DecodeAll(bs, (n + |ms|) % WORD);
      assert [ms[0]] + (ms[1..] + rest.messages) == ms + rest.messages;
    }
  }

  /** part is what a failed write may leave of a frame. */
  predicate PartOf(part: Bytes, m: Message, n: nat) {
    part <= Encode(m, n)
  }

  ghost predicate AllValid(ms: seq<Message>) {
    forall m :: m in ms ==> Valid(m)
  }

  /** What is read after the frames that came through, what is left of one that
      failed, and the frames that the encoder sends next, under the same number on. */
  function Received(ms: seq<Message>, n: nat, part: Bytes, later: seq<Message>): seq<Message> {
    DecodeAll(EncodeAll(ms, n) + (part + EncodeAll(later, (n + |ms|) % WORD)), n).messages
  }

  /** The start of a frame. */
  lemma FrameStarts(m: Message, n: nat)
    requires Valid(m) && n < WORD
    ensures
      var x := Encode(m, n);
      && |x| >= 16 && x[4] == VERSION && x[5] == m.kind
      && (m.payload == [] ==> x[0] == x[1] == x[2] == 0 && x[3] == 12)
  {
    hide Number;
    var x := Encode(m, n);
    assert x[4..] == Header(m, n) + m.payload;
    assert x[4] == x[4..][0] && x[5] == x[4..][1];
    assert x[..4] == BigEndian(HEADER_BYTES + |m.payload|, 4);
    if m.payload == [] {
      SmallNumber(12);
      assert x[0] == x[..4][0] && x[1] == x[..4][1] && x[2] == x[..4][2] && x[3] == x[..4][3];
    }
  }

  lemma SmallNumber(n: nat)
    requires n < 256
    ensures BigEndian(n, 4) == [0, 0, 0, n as Byte]
  {
    assert BigEndian(0, 0) == [] && BigEndian(0, 1) == [0] && BigEndian(0, 2) == [0, 0] && BigEndian(0, 3) == [0, 0, 0];
  }

  /** A frame that does not come through after such a part. */
  lemma Witness(m: Message, n: nat, part: Bytes) returns (x: Message)
    requires Valid(m) && n < WORD && part <= Encode(m, n) && part != []
    ensures Valid(x) && !(Encode(x, n) <= part + Encode(x, n))
  {
    hide Encode;
    FrameStarts(m, n);
    x := Message(if m.kind == 1 then 2 else 1, 1, 0, []);
    FrameStarts(x, n);
    var e := Encode(x, n);
    var all := part + e;
    if |part| < 4 {
      assert all[3] == e[3 - |part|];
    } else if |part| == 4 {
      assert all[4] == e[0];
    } else if |part| == 5 {
      assert all[5] == e[0];
    } else {
      assert all[5] == part[5] == m.kind;
    }
  }

  /** Whatever comes next is read after a failed write exactly if nothing of the
      frame went out. */
  lemma ReadableAfterFailure(ms: seq<Message>, n: nat, m: Message, part: Bytes)
    requires AllValid(ms) && Valid(m) && n < WORD && PartOf(part, m, (n + |ms|) % WORD)
    ensures (forall later :: AllValid(later) ==> Received(ms, n, part, later) == ms + later) <==> part == []
  {
    hide Encode, Decode, Valid, Next;
    var k := (n + |ms|) % WORD;
    if part == [] {
      forall later | AllValid(later) ensures Received(ms, n, part, later) == ms + later {
        assert part + EncodeAll(later, k) == EncodeAll(later, k);
        ReadOn(ms, n, EncodeAll(later, k));
        StreamReadsBack(later, k);
      }
    } else {
      var x := Witness(m, k, part);
      NotReceived(ms, n, part, x);
    }
  }

  lemma NotReceived(ms: seq<Message>, n: nat, part: Bytes, x: Message)
    requires AllValid(ms) && Valid(x) && n < WORD
    requires var k := (n + |ms|) % WORD; !(Encode(x, k) <= part + Encode(x, k))
    ensures AllValid([x]) && Received(ms, n, part, [x]) != ms + [x]
  {
    hide Encode, Decode, Valid, Next;
    var k := (n + |ms|) % WORD;
    OneFrame(x, k);
    var bs := part + Encode(x, k);
    ReadOn(ms, n, bs);
    StreamIsEncoding(bs, k);
    var r := DecodeAll(bs, k);
    assert (ms + r.messages)[|ms|..] == r.messages && (ms + [x])[|ms|..] == [x];
  }

  lemma OneFrame(x: Message, n: nat)
    ensures EncodeAll([x], n) == Encode(x, n)
  {
    hide Encode;
    assert [x][1..] == [];
    assert EncodeAll([], Next(n)) == [];
  }

  /** One stream of bytes, one list of frames. */
  lemma EncodingIsInjective(xs: seq<Message>, ys: seq<Message>)
    requires forall m :: m in xs || m in ys ==> Valid(m)
    requires EncodeAll(xs, 1) == EncodeAll(ys, 1)
    ensures xs == ys
  {
    StreamReadsBack(xs, 1);
    StreamReadsBack(ys, 1);
  }

  // ---------- the code ----------

  /** A writer that takes as much as it likes, or fails after part of it. */
  class Sink {
    var bytes: Bytes
    var calls: nat
    const takes: nat -> nat
    const fails: nat -> bool

    constructor (takes: nat -> nat, fails: nat -> bool)
      ensures bytes == []
    {
      bytes, calls := [], 0;
      this.takes, this.fails := takes, fails;
    }

    method Write(data: Bytes) returns (n: nat, ok: bool)
      modifies this
      ensures n <= |data| && bytes == old(bytes) + data[..n]
    {
      n := if takes(calls) <= |data| then takes(calls) else |data|;
      ok := !fails(calls);
      bytes := bytes + data[..n];
      calls := calls + 1;
    }
  }

  /** Short writes are continued; only part of the data is out if it fails. */
  method WriteFull(w: Sink, data: Bytes) returns (ok: bool)
    modifies w
    ensures ok ==> w.bytes == old(w.bytes) + data
    ensures exists n :: 0 <= n <= |data| && w.bytes == old(w.bytes) + data[..n]
  {
    var rest := data;
    ghost var done := 0;
    while |rest| > 0
      invariant 0 <= done <= |data| && rest == data[done..] && w.bytes == old(w.bytes) + data[..done]
      decreases |rest|
    {
      var n, fine := w.Write(rest);
      assert data[..done] + rest[..n] == data[..done + n];
      done := done + n;
      if !fine {
        return false;
      }
      if n <= 0 {
        return false;
      }
      rest := rest[n..];
    }
    assert data[..done] == data;
    return true;
  }

  class Encoder {
    const w: Sink
    var next: nat

    constructor (w: Sink)
      ensures this.w == w && next == 1
    {
      this.w, next := w, 1;
    }

    method Write(m: Message) returns (r: Option<nat>)
      requires next < WORD
      modifies this, w
      ensures !Valid(m) ==> r.None? && w.bytes == old(w.bytes)
      ensures r.Some? ==> r.value == old(next) && w.bytes == old(w.bytes) + Encode(m, old(next))
      ensures r.None? ==> exists n :: 0 <= n <= |Encode(m, old(next))| && w.bytes == old(w.bytes) + Encode(m, old(next))[..n]
      ensures next == if r.Some? then Next(old(next)) else old(next)
    {
      hide Encode;
      assert w.bytes == old(w.bytes) + Encode(m, next)[..0];
      if !(1 <= m.kind <= 13 && 1 <= m.stream <= 3) {
        return None;
      }
      if |m.payload| > MAX_PAYLOAD {
        return None;
      }
      var n := next;
      var ok := WriteFull(w, Encode(m, n));
      if !ok {
        return None;
      }
      next := Next(next);
      return Some(n);
    }

    /** The sink holds the frames numbered in turn; when a write fails, those before
        it and part of the one it failed on. */
    method WriteAll(ms: seq<Message>) returns (ok: bool, sent: nat)
      requires next < WORD
      modifies this, w
      ensures sent <= |ms| && (ok <==> sent == |ms|) && forall m :: m in ms[..sent] ==> Valid(m)
      ensures ok ==> w.bytes == old(w.bytes) + EncodeAll(ms, old(next))
      ensures !ok ==> exists part ::
        PartOf(part, ms[sent], next) && w.bytes == old(w.bytes) + EncodeAll(ms[..sent], old(next)) + part
      ensures next == (old(next) + sent) % WORD
    {
      hide Encode, Valid, Next;
      ghost var start := next;
      assert w.bytes + [] == w.bytes;
      sent := 0;
      while sent < |ms|
        invariant sent <= |ms| && next == (start + sent) % WORD
        invariant w.bytes == old(w.bytes) + EncodeAll(ms[..sent], start)
        invariant forall m :: m in ms[..sent] ==> Valid(m)
      {
        ghost var before := w.bytes;
        var r := Write(ms[sent]);
        if r.None? {
          assert exists part :: PartOf(part, ms[sent], next) && w.bytes == before + part;
          return false, sent;
        }
        EncodeSnoc(ms[..sent], ms[sent], start);
        assert ms[..sent + 1] == ms[..sent] + [ms[sent]];
        Associate(old(w.bytes), EncodeAll(ms[..sent], start), Encode(ms[sent], (start + sent) % WORD));
        NextAfter(start, sent);
        sent := sent + 1;
      }
      assert ms[..|ms|] == ms;
      return true, sent;
    }
  }

  lemma NextAfter(n: nat, k: nat)
    ensures Next((n + k) % WORD) == (n + k + 1) % WORD
    ensures (Next(n) + k) % WORD == (n + k + 1) % WORD
  {
    hide Next;
    NextIs((n + k) % WORD);
    NextIs(n);
    AddUnder(n + k, 1);
    AddUnder(n + 1, k);
  }

  lemma NextIs(n: nat)
    ensures Next(n) == (n + 1) % WORD
  {
  }

  /** Taking the remainder early changes nothing. */
  lemma AddUnder(a: nat, b: nat)
    ensures (a % WORD + b) % WORD == (a + b) % WORD
  {
    var q := a / WORD;
    assert a == q * WORD + a % WORD;
    Turns(a % WORD + b, q);
  }

  lemma {:induction false} Turns(x: nat, q: nat)
    ensures (x + q * WORD) % WORD == x % WORD
  {
    if q > 0 {
      Turns(x, q - 1);
      OneTurn(x + (q - 1) * WORD);
    }
  }

  lemma OneTurn(x: nat)
    ensures (x + WORD) % WORD == x % WORD
  {
  }

  lemma {:induction false} EncodeSnoc(ms: seq<Message>, m: Message, n: nat)
    requires n < WORD
    ensures EncodeAll(ms + [m], n) == EncodeAll(ms, n) + Encode(m, (n + |ms|) % WORD)
  {
    hide Encode, Next;
    if ms == [] {
      assert [m][1..] == [];
      assert EncodeAll([m], n) == Encode(m, n) + EncodeAll([], Next(n));
      assert ms + [m] == [m];
    } else {
      assert (ms + [m])[1..] == ms[1..] + [m] && (ms + [m])[0] == ms[0];
      EncodeSnoc(ms[1..], m, Next(n));
      NextAfter(n, |ms| - 1);
      Associate(Encode(ms[0], n), EncodeAll(ms[1..], Next(n)), Encode(m, (n + |ms|) % WORD));
    }
  }

  /** What a read that fails has left: it has taken what it could of the length, and of
      the frame if that length is allowed. */
  function Unread(bs: Bytes): Bytes {
    if |bs| < 4 then []
    else
      var length := Number(bs[..4]);
      if length < HEADER_BYTES || length > MAX_FRAME_BYTES then bs[4..]
      else if |bs| < 4 + length then []
      else bs[4 + length..]
  }

  /** A whole frame that is refused is taken like one that is accepted. */
  lemma UnreadAgrees(bs: Bytes, wanted: nat)
    ensures var r, u := Decode(bs, wanted), Unread(bs);
      && (r.Got? ==> u == r.rest)
      && (r == NoMore <==> |bs| < 4) && (r == NoMore ==> u == [])
      && (r == Exhausted ==> u == bs[4..])
      && (r == Violation ==>
            var n := Number(bs[..4]);
            u == if n < HEADER_BYTES then bs[4..] else if |bs| < 4 + n then [] else bs[4 + n..])
  {
    hide Number;
  }

  class Decoder {
    /** What is still to be read. */
    var input: Bytes
    var wanted: nat

    constructor (input: Bytes)
      ensures this.input == input && wanted == 1
    {
      this.input, wanted := input, 1;
    }

    method Read() returns (r: Decoded)
      modifies this
      ensures r == Decode(old(input), old(wanted))
      ensures r.Got? ==> input == r.rest && wanted == Next(old(wanted))
      ensures !r.Got? ==> input == Unread(old(input)) && wanted == old(wanted)
    {
      hide Number;
      if |input| < 4 {
        input := [];
        return NoMore;
      }
      var length := Number(input[..4]);
      input := input[4..];
      if length < HEADER_BYTES {
        return Violation;
      }
      if length > MAX_FRAME_BYTES {
        return Exhausted;
      }
      if |input| < length {
        input := [];
        return Violation;
      }
      var buf := input[..length];
      input := input[length..];
      assert buf == old(input)[4..4 + length] && input == old(input)[4 + length..];
      if buf[0] != VERSION {
        return Violation;
      }
      if !(1 <= buf[1] <= 13 && 1 <= buf[2] <= 3) {
        return Violation;
      }
      if Number(buf[4..12]) != wanted {
        return Violation;
      }
      wanted := Next(wanted);
      return Got(Message(buf[1], buf[2], buf[3], buf[HEADER_BYTES..]), input);
    }

    /** Reading until a read fails. */
    method ReadAll() returns (ms: seq<Message>, end: Decoded)
      modifies this
      ensures
        var r := DecodeAll(old(input), old(wanted));
        ms == r.messages && end == r.end && input == Unread(r.left)
    {
      hide Decode, Unread;
      ms := [];
      ghost var all := DecodeAll(input, wanted);
      end := Read();
      while end.Got?
        invariant !end.Got? ==> ms == all.messages && end == all.end && input == Unread(all.left)
        invariant end.Got? ==>
          all == var r := DecodeAll(end.rest, wanted); r.(messages := ms + [end.message] + r.messages)
        invariant end.Got? ==> input == end.rest
        decreases end.Got?, |input|
      {
        ms := ms + [end.message];
        end := Read();
      }
    }
  }
}
