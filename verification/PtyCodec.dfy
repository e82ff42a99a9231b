/** The payloads of pty-req and window-change requests: RFC 4254, sections 6.2 and 6.7, over RFC 4251, section 5. */
module PtyCodec {
  import opened Basics

  newtype uint32 = x: int | 0 <= x < 0x1_0000_0000

  datatype ReadError = Eof | UnexpectedEof

  datatype Result<+T> = Ok(value: T) | Err(error: ReadError)

  datatype PtyReqData = PtyReqData(term: seq<byte>, width: uint32, height: uint32)

  datatype WindowChange = WindowChange(width: uint32, height: uint32)

  // ----- wire format -----

  /** A uint32 on the wire: four bytes in order of decreasing significance. */
  function Uint32(v: uint32): (bs: seq<byte>)
    ensures |bs| == 4
  {
    [(v / 0x100_0000) as byte, (v / 0x1_0000 % 0x100) as byte, (v / 0x100 % 0x100) as byte, (v % 0x100) as byte]
  }

  /** The number a byte string spells, most significant byte first. */
  function Value(bs: seq<byte>): nat {
    if bs == [] then 0 else Value(bs[..|bs| - 1]) * 0x100 + bs[|bs| - 1] as nat
  }

  lemma ValueOfFour(bs: seq<byte>)
    requires |bs| == 4
    ensures Value(bs) == bs[0] as nat * 0x100_0000 + bs[1] as nat * 0x1_0000 + bs[2] as nat * 0x100 + bs[3] as nat
    ensures Value(bs) < 0x1_0000_0000
  {
    var b3, b2, b1 := bs[..3], bs[..2], bs[..1];
    assert b3[..2] == b2 && b2[..1] == b1 && b1[..0] == [];
    assert Value(b1) == bs[0] as nat;
    assert Value(b2) == Value(b1) * 0x100 + bs[1] as nat;
    assert Value(b3) == Value(b2) * 0x100 + bs[2] as nat;
  }

  lemma ValueOfUint32(v: uint32)
    ensures Value(Uint32(v)) == v as nat
  {
    var bs := Uint32(v);
    ValueOfFour(bs);
    Positions(v as int);
    hide Uint32, Value;
  }

  lemma Positions(v: int)
    requires 0 <= v
    ensures v == v / 0x100_0000 * 0x100_0000 + v / 0x1_0000 % 0x100 * 0x1_0000 + v / 0x100 % 0x100 * 0x100 + v % 0x100
  {
    assert v / 0x100 / 0x100 == v / 0x1_0000 && v / 0x1_0000 / 0x100 == v / 0x100_0000;
  }

  lemma Digits(a: int, b: int, c: int, d: int)
    requires 0 <= a < 0x100 && 0 <= b < 0x100 && 0 <= c < 0x100 && 0 <= d < 0x100
    ensures var v := a * 0x100_0000 + b * 0x1_0000 + c * 0x100 + d;
            v / 0x100_0000 == a && v / 0x1_0000 % 0x100 == b && v / 0x100 % 0x100 == c && v % 0x100 == d
  {
    var v := a * 0x100_0000 + b * 0x1_0000 + c * 0x100 + d;
    assert v / 0x100 == a * 0x1_0000 + b * 0x100 + c;
    assert v / 0x1_0000 == a * 0x100 + b;
  }

  lemma Uint32OfValue(bs: seq<byte>)
    requires |bs| == 4
    ensures Value(bs) < 0x1_0000_0000 && Uint32(Value(bs) as uint32) == bs
  {
    ValueOfFour(bs);
    Digits(bs[0] as int, bs[1] as int, bs[2] as int, bs[3] as int);
    var v := Value(bs) as uint32;
    assert (v / 0x100_0000) as int == bs[0] as int;
    assert (v / 0x1_0000 % 0x100) as int == bs[1] as int;
    assert (v / 0x100 % 0x100) as int == bs[2] as int;
    assert (v % 0x100) as int == bs[3] as int;
  }

  /** Value and Uint32 undo each other. */
  lemma Uint32Inverse(v: uint32, bs: seq<byte>)
    requires |bs| == 4
    ensures Value(Uint32(v)) == v as nat
    ensures Value(bs) < 0x1_0000_0000 && Uint32(Value(bs) as uint32) == bs
  {
    ValueOfUint32(v);
    Uint32OfValue(bs);
  }

  /** The example of section 5 of RFC 4251. */
  lemma MostSignificantFirst()
    ensures Uint32(699921578) == [0x29, 0xb7, 0xf4, 0xaa] && Value([0x29, 0xb7, 0xf4, 0xaa]) == 699921578
  {
    ValueOfFour([0x29, 0xb7, 0xf4, 0xaa]);
  }

  /** A string on the wire: its length, then its bytes. */
  function String(s: seq<byte>): seq<byte>
    requires |s| < 0x1_0000_0000
  {
    Uint32(|s| as uint32) + s
  }

  /** pty-req: TERM, character columns and rows, pixel width and height, encoded terminal modes. */
  function PtyReqPayload(d: PtyReqData, pixelWidth: uint32, pixelHeight: uint32, modes: seq<byte>): seq<byte>
    requires |d.term| < 0x1_0000_0000 && |modes| < 0x1_0000_0000
  {
    PtyReqHead(d) + Uint32(pixelWidth) + Uint32(pixelHeight) + String(modes)
  }

  function PtyReqHead(d: PtyReqData): (bs: seq<byte>)
    requires |d.term| < 0x1_0000_0000
    ensures |bs| == 12 + |d.term|
  {
    String(d.term) + Uint32(d.width) + Uint32(d.height)
  }

  /** window-change: columns, rows, pixel width, pixel height. */
  function WindowChangePayload(wc: WindowChange, pixelWidth: uint32, pixelHeight: uint32): seq<byte> {
    Uint32(wc.width) + Uint32(wc.height) + Uint32(pixelWidth) + Uint32(pixelHeight)
  }

  // ----- reading -----

  /** io.ReadFull of n bytes from offset `off`. */
  function ReadFull(data: seq<byte>, off: nat, n: nat): Result<seq<byte>>
    requires off <= |data|
  {
    if n <= |data| - off then Ok(data[off..off + n])
    else if off == |data| then Err(Eof)
    else Err(UnexpectedEof)
  }

  function ReadUint32(data: seq<byte>, off: nat): (r: Result<uint32>)
    requires off <= |data|
    ensures r.Ok? <==> off + 4 <= |data|
    ensures r.Ok? ==> Uint32(r.value) == data[off..off + 4]
    ensures r.Err? ==> r.error == if off == |data| then Eof else UnexpectedEof
  {
    match ReadFull(data, off, 4)
    case Err(e) => Err(e)
    case Ok(bs) =>
      Uint32Inverse(0, bs);
      Ok(Value(bs) as uint32)
  }

  function ParsePtyReq(payload: seq<byte>): Result<PtyReqData> {
    match ReadUint32(payload, 0)
    case Err(e) => Err(e)
    case Ok(termLen) =>
      var n := termLen as nat;
      match ReadFull(payload, 4, n)
      case Err(e) => Err(e)
      case Ok(term) =>
        match ReadUint32(payload, 4 + n)
        case Err(e) => Err(e)
        case Ok(width) =>
          match ReadUint32(payload, 8 + n)
          case Err(e) => Err(e)
          case Ok(height) => Ok(PtyReqData(term, width, height))
  }

  function ParseWindowChange(payload: seq<byte>): Result<WindowChange> {
    match ReadUint32(payload, 0)
    case Err(e) => Err(e)
    case Ok(width) =>
      match ReadUint32(payload, 4)
      case Err(e) => Err(e)
      case Ok(height) => Ok(WindowChange(width, height))
  }

  // ----- properties -----

  lemma Uint32Injective(v: uint32, w: uint32)
    requires Uint32(v) == Uint32(w)
    ensures v == w
  {
    Uint32Inverse(v, Uint32(v));
    Uint32Inverse(w, Uint32(w));
  }

  lemma ReadsBack(data: seq<byte>, off: nat, v: uint32)
    requires off + 4 <= |data| && data[off..off + 4] == Uint32(v)
    ensures ReadUint32(data, off) == Ok(v)
  {
    Uint32Injective(ReadUint32(data, off).value, v);
  }

  /** The reader accepts exactly the payloads that begin with the encoding of what it returns. */
  lemma PtyReqExactly(payload: seq<byte>, d: PtyReqData)
    ensures ParsePtyReq(payload) == Ok(d) <==> |d.term| < 0x1_0000_0000 && PtyReqHead(d) <= payload
  {
    if ParsePtyReq(payload) == Ok(d) {
      ReadMeansHead(payload, d);
    }
    if |d.term| < 0x1_0000_0000 && PtyReqHead(d) <= payload {
      HeadIsRead(payload, d);
    }
  }

  lemma ReadMeansHead(payload: seq<byte>, d: PtyReqData)
    requires ParsePtyReq(payload) == Ok(d)
    ensures |d.term| < 0x1_0000_0000 && PtyReqHead(d) <= payload
  {
    var n := |d.term|;
    assert ReadUint32(payload, 0).value as nat == n;
    hide Uint32, Value;
    assert payload[..12 + n] == payload[0..4] + payload[4..4 + n] + payload[4 + n..8 + n] + payload[8 + n..12 + n];
  }

  lemma HeadIsRead(payload: seq<byte>, d: PtyReqData)
    requires |d.term| < 0x1_0000_0000 && PtyReqHead(d) <= payload
    ensures ParsePtyReq(payload) == Ok(d)
  {
    hide Uint32, Value;
    var n, head := |d.term|, PtyReqHead(d);
    assert head == payload[..12 + n];
    assert payload[0..4] == head[0..4] == Uint32(n as uint32);
    assert payload[4..4 + n] == head[4..4 + n] == d.term;
    assert payload[4 + n..8 + n] == head[4 + n..8 + n] == Uint32(d.width);
    assert payload[8 + n..12 + n] == head[8 + n..12 + n] == Uint32(d.height);
    ReadsBack(payload, 0, n as uint32);
    ReadsBack(payload, 4 + n, d.width);
    ReadsBack(payload, 8 + n, d.height);
  }

  /** It succeeds exactly when the payload holds the announced TERM string and eight more bytes. */
  lemma PtyReqSucceeds(payload: seq<byte>)
    ensures ParsePtyReq(payload).Ok? <==> |payload| >= 4 && |payload| >= 12 + Value(payload[..4])
    ensures ParsePtyReq(payload).Err? ==>
              (ParsePtyReq(payload).error == Eof <==>
                || payload == []
                || (|payload| == 4 && Value(payload[..4]) > 0)
                || (|payload| >= 4 && (|payload| == 4 + Value(payload[..4]) || |payload| == 8 + Value(payload[..4]))))
  {
    if |payload| >= 4 {
      assert payload[0..4] == payload[..4];
      Uint32Inverse(ReadUint32(payload, 0).value, payload[..4]);
    }
  }

  /** Reading undoes the RFC 4254 encoding for every TERM, and nothing after the rows matters. */
  lemma PtyReqRoundTrip(d: PtyReqData, pixelWidth: uint32, pixelHeight: uint32, modes: seq<byte>, rest: seq<byte>)
    requires |d.term| < 0x1_0000_0000 && |modes| < 0x1_0000_0000
    ensures ParsePtyReq(PtyReqPayload(d, pixelWidth, pixelHeight, modes)) == Ok(d)
    ensures ParsePtyReq(PtyReqHead(d) + rest) == Ok(d)
  {
    var tail := Uint32(pixelWidth) + Uint32(pixelHeight) + String(modes);
    assert PtyReqPayload(d, pixelWidth, pixelHeight, modes) == PtyReqHead(d) + tail;
    PtyReqExactly(PtyReqHead(d) + tail, d);
    PtyReqExactly(PtyReqHead(d) + rest, d);
  }

  /** Bytes after an acceptable payload never change what is read. */
  lemma PtyReqIgnoresSuffix(payload: seq<byte>, suffix: seq<byte>)
    requires ParsePtyReq(payload).Ok?
    ensures ParsePtyReq(payload + suffix) == ParsePtyReq(payload)
  {
    var d := ParsePtyReq(payload).value;
    PtyReqExactly(payload, d);
    PtyReqExactly(payload + suffix, d);
  }

  /** The reader accepts exactly the payloads that begin with the columns and rows it returns. */
  lemma WindowChangeExactly(payload: seq<byte>, wc: WindowChange)
    ensures ParseWindowChange(payload) == Ok(wc) <==> Uint32(wc.width) + Uint32(wc.height) <= payload
    ensures ParseWindowChange(payload).Ok? <==> |payload| >= 8
    ensures ParseWindowChange(payload) == Err(Eof) <==> |payload| == 0 || |payload| == 4
  {
    if ParseWindowChange(payload) == Ok(wc) {
      assert payload[..8] == payload[0..4] + payload[4..8];
    }
    if Uint32(wc.width) + Uint32(wc.height) <= payload {
      var head := Uint32(wc.width) + Uint32(wc.height);
      assert payload[0..4] == head[0..4] == Uint32(wc.width);
      assert payload[4..8] == head[4..8] == Uint32(wc.height);
      ReadsBack(payload, 0, wc.width);
      ReadsBack(payload, 4, wc.height);
    }
  }

  /** Eight pixels a character cell, in 32 bit arithmetic. */
  function Pixels(cells: uint32): uint32 {
    (cells as int * 8 % 0x1_0000_0000) as uint32
  }

  /** Reading undoes serializing, for all sizes. */
  lemma WindowChangeRoundTrip(wc: WindowChange)
    ensures ParseWindowChange(WindowChangePayload(wc, Pixels(wc.width), Pixels(wc.height))) == Ok(wc)
  {
    var bytes := WindowChangePayload(wc, Pixels(wc.width), Pixels(wc.height));
    assert bytes[..8] == Uint32(wc.width) + Uint32(wc.height);
    WindowChangeExactly(bytes, wc);
  }

  /** The pixel fields spell eight pixels a cell, modulo 2^32. */
  lemma PixelFields(wc: WindowChange)
    ensures var bytes := WindowChangePayload(wc, Pixels(wc.width), Pixels(wc.height));
            && |bytes| == 16
            && Value(bytes[8..12]) == 8 * (wc.width as nat) % 0x1_0000_0000
            && Value(bytes[12..16]) == 8 * (wc.height as nat) % 0x1_0000_0000
  {
    var bytes := WindowChangePayload(wc, Pixels(wc.width), Pixels(wc.height));
    assert bytes[8..12] == Uint32(Pixels(wc.width)) && bytes[12..16] == Uint32(Pixels(wc.height));
    ValueOfUint32(Pixels(wc.width));
    ValueOfUint32(Pixels(wc.height));
    hide Uint32, Value;
  }

  // ----- the code's own shape: a reader that advances, a buffer that grows -----

  /** bytes.Reader with binary.Read on top of it. */
  class Reader {
    const data: seq<byte>
    var off: nat

    ghost predicate Valid()
      reads this
    {
      off <= |data|
    }

    constructor (payload: seq<byte>)
      ensures Valid() && data == payload && off == 0
    {
      data, off := payload, 0;
    }

    method Read(n: nat) returns (r: Result<seq<byte>>)
      requires Valid()
      modifies this
      ensures Valid() && r == ReadFull(data, old(off), n)
      ensures off == if r.Ok? then old(off) + n else |data|
    {
      var buf, i := [], off;
      while |buf| < n && i < |data|
        invariant off <= i <= |data| && |buf| <= n && buf == data[off..i]
      {
        buf := buf + [data[i]];
        i := i + 1;
      }
      r := if |buf| == n then Ok(buf) else if buf == [] then Err(Eof) else Err(UnexpectedEof);
      off := i;
    }

    method ReadNumber() returns (r: Result<uint32>)
      requires Valid()
      modifies this
      ensures Valid() && r == ReadUint32(data, old(off))
      ensures r.Ok? ==> off == old(off) + 4
    {
      var bs := Read(4);
      if bs.Err? {
        return Err(bs.error);
      }
      Uint32Inverse(0, bs.value);
      ValueOfFour(bs.value);
      var b := bs.value;
      r := Ok(b[0] as uint32 * 0x100_0000 + b[1] as uint32 * 0x1_0000 + b[2] as uint32 * 0x100 + b[3] as uint32);
    }
  }

  method InterpretPtyReq(payload: seq<byte>) returns (r: Result<PtyReqData>)
    ensures r == ParsePtyReq(payload)
    ensures r.Ok? <==> |payload| >= 4 && |payload| >= 12 + Value(payload[..4])
  {
    PtyReqSucceeds(payload);
    var reader := new Reader(payload);
    var termLen := reader.ReadNumber();
    if termLen.Err? { return Err(termLen.error); }
    var term := reader.Read(termLen.value as nat);
    if term.Err? { return Err(term.error); }
    var width := reader.ReadNumber();
    if width.Err? { return Err(width.error); }
    var height := reader.ReadNumber();
    if height.Err? { return Err(height.error); }
    r := Ok(PtyReqData(term.value, width.value, height.value));
  }

  method InterpretWindowChange(payload: seq<byte>) returns (r: Result<WindowChange>)
    ensures r == ParseWindowChange(payload)
    ensures r.Ok? ==> Uint32(r.value.width) + Uint32(r.value.height) <= payload
  {
    var reader := new Reader(payload);
    var width := reader.ReadNumber();
    if width.Err? { return Err(width.error); }
    var height := reader.ReadNumber();
    if height.Err? { return Err(height.error); }
    r := Ok(WindowChange(width.value, height.value));
    WindowChangeExactly(payload, r.value);
  }

  method Serialize(wc: WindowChange) returns (buf: seq<byte>)
    ensures buf == WindowChangePayload(wc, Pixels(wc.width), Pixels(wc.height))
    ensures |buf| == 16 && ParseWindowChange(buf) == Ok(wc)
    ensures Value(buf[8..12]) == 8 * (wc.width as nat) % 0x1_0000_0000
    ensures Value(buf[12..16]) == 8 * (wc.height as nat) % 0x1_0000_0000
  {
    WindowChangeRoundTrip(wc);
    buf := Uint32(wc.width);
    buf := buf + Uint32(wc.height);
    buf := buf + Uint32((wc.width as int * 8 % 0x1_0000_0000) as uint32);
    buf := buf + Uint32((wc.height as int * 8 % 0x1_0000_0000) as uint32);
    PixelFields(wc);
  }
}
