/**
 TCP segments on the wire: the header codec and its round trip.
 */
module TcpSegment {
  import opened SeqSpace
  import opened TcpOptions

  datatype Segment = Segment(
    srcPort: u16, dstPort: u16, seqno: u32, ack: u32, flags: byte, window: u16,
    checksum: u16, urgent: u16, options: seq<TcpOption>, payload: seq<byte>)

  datatype Error = TooShort | BadOffset

  datatype Result<+T> = Ok(value: T) | Err(error: Error)

  // ---------------------------------------------------------------- specification

  function HeaderLen(s: Segment): nat { 20 + |Build(s.options)| }

  /** The data-offset byte: the word count shifted up four bits within a byte, the rest cut off. */
  function OffsetByte(hdrLen: nat): byte { hdrLen / 4 * 16 % 256 }

  /** The fixed twenty bytes; the checksum is left zero. */
  function Fixed(s: Segment): seq<byte> {
    Be16(s.srcPort) + Be16(s.dstPort) + Be32(s.seqno) + Be32(s.ack)
    + [OffsetByte(HeaderLen(s)), s.flags] + Be16(s.window) + [0, 0] + Be16(s.urgent)
  }

  function Marshalled(s: Segment): seq<byte> { Fixed(s) + Build(s.options) + s.payload }

  function Parsed(raw: seq<byte>): Result<Segment> {
    if |raw| < 20 then Err(TooShort)
    else
      var off := raw[12] / 16 * 4;
      if off < 20 || off > |raw| then Err(BadOffset)
      else Ok(Segment(FromBe16(raw), FromBe16(raw[2..]), FromBe32(raw[4..]), FromBe32(raw[8..]), raw[13],
                      FromBe16(raw[14..]), FromBe16(raw[16..]), FromBe16(raw[18..]),
                      Parse(raw[20..off]), raw[off..]))
  }

  // -------------------------------------------------------------------- round trip

  /** The fixed fields survive, whatever follows them. */
  lemma FixedBack(s: Segment, rest: seq<byte>)
    ensures |Fixed(s)| == 20
    ensures var raw := Fixed(s) + rest;
            && FromBe16(raw) == s.srcPort && FromBe16(raw[2..]) == s.dstPort
            && FromBe32(raw[4..]) == s.seqno && FromBe32(raw[8..]) == s.ack
            && raw[12] == OffsetByte(HeaderLen(s)) && raw[13] == s.flags
            && FromBe16(raw[14..]) == s.window && FromBe16(raw[16..]) == 0 && FromBe16(raw[18..]) == s.urgent
            && raw[20..] == rest
  {
    hide OffsetByte, HeaderLen, Be32, FromBe32;
    var raw := Fixed(s) + rest;
    Be32Len(s.seqno);
    Be32Len(s.ack);
    Be32Read(raw, 4, s.seqno);
    Be32Read(raw, 8, s.ack);
  }

  /** Four bytes read at i are the word written there. */
  lemma Be32Read(raw: seq<byte>, i: nat, x: u32)
    requires i + 4 <= |raw| && raw[i..i + 4] == Be32(x)
    ensures FromBe32(raw[i..]) == x
  {
    hide Be32, FromBe32;
    assert raw[i..] == Be32(x) + raw[i + 4..];
    Be32Back(x, raw[i + 4..]);
  }

  /**
   For options that can be on the wire, parsing undoes marshalling - checksum zeroed -
   exactly when the header fits the sixty bytes its offset field can say.
   */
  lemma MarshalParse(s: Segment)
    requires AllFormed(s.options)
    ensures Parsed(Marshalled(s)) == Ok(s.(checksum := 0)) <==> HeaderLen(s) <= 60
  {
    hide Fixed, FromBe16, FromBe32, Parse, Build;
    var opts := Build(s.options);
    var raw := Marshalled(s);
    assert raw == Fixed(s) + (opts + s.payload);
    FixedBack(s, opts + s.payload);
    WholeWords(s);
    if HeaderLen(s) <= 60 {
      assert raw[20..HeaderLen(s)] == opts && raw[HeaderLen(s)..] == s.payload;
      BuildParse(s.options);
    } else if Parsed(raw).Ok? {
      assert |Parsed(raw).value.payload| != |s.payload|;
    }
  }

  /** The offset field gives the header length back exactly up to fifteen words. */
  lemma WholeWords(s: Segment)
    ensures OffsetByte(HeaderLen(s)) / 16 * 4 == HeaderLen(s) <==> HeaderLen(s) <= 60
  {
    hide EncodeAll, Padding;
    var w := HeaderLen(s) / 4;
    assert HeaderLen(s) == 4 * w;
    WordCount(w);
  }

  lemma WordCount(w: nat)
    ensures OffsetByte(4 * w) / 16 == w % 16
  {
    var k, r := w / 16, w % 16;
    assert w * 16 == 256 * k + 16 * r;
    assert (256 * k + 16 * r) % 256 == 16 * r;
  }

  // ------------------------------------------------------------- the codec as it runs

  method PutUint16(buf: array<byte>, i: nat, x: u16)
    requires i + 2 <= buf.Length
    modifies buf
    ensures buf[..i + 2] == old(buf[..i]) + Be16(x)
    ensures forall j :: i + 2 <= j < buf.Length ==> buf[j] == old(buf[j])
  {
    buf[i], buf[i + 1] := x / 256, x % 256;
  }

  method PutUint32(buf: array<byte>, i: nat, x: u32)
    requires i + 4 <= buf.Length
    modifies buf
    ensures buf[..i + 4] == old(buf[..i]) + Be32(x)
    ensures forall j :: i + 4 <= j < buf.Length ==> buf[j] == old(buf[j])
  {
    buf[i], buf[i + 1] := x / 0x100_0000, x / 0x1_0000 % 256;
    buf[i + 2], buf[i + 3] := x / 256 % 256, x % 256;
  }

  /** The fixed part, field by field in place; the two checksum bytes stay zero. */
  method PutFixed(buf: array<byte>, s: Segment)
    requires buf.Length == HeaderLen(s) && forall j :: 0 <= j < buf.Length ==> buf[j] == 0
    modifies buf
    ensures buf[..20] == Fixed(s)
  {
    hide Be32, Build;
    Be32Len(s.seqno);
    Be32Len(s.ack);
    PutUint16(buf, 0, s.srcPort);
    PutUint16(buf, 2, s.dstPort);
    PutUint32(buf, 4, s.seqno);
    PutUint32(buf, 8, s.ack);
    ghost var front := buf[..12];
    assert front == Be16(s.srcPort) + Be16(s.dstPort) + Be32(s.seqno) + Be32(s.ack);
    buf[12] := buf.Length / 4 * 16 % 256;
    buf[13] := s.flags;
    assert buf[..14] == front + [OffsetByte(HeaderLen(s)), s.flags];
    PutUint16(buf, 14, s.window);
    assert buf[..18] == buf[..16] + [0, 0];
    PutUint16(buf, 18, s.urgent);
  }

  method MarshalHeader(s: Segment) returns (hdr: seq<byte>)
    ensures hdr == Fixed(s) + Build(s.options)
  {
    hide Fixed, EncodeAll;
    var optBytes: seq<byte> := [];
    if |s.options| > 0 { optBytes := BuildOptions(s.options); } else { BuildNothing(); }
    var buf := new byte[20 + |optBytes|](i => 0);
    PutFixed(buf, s);
    Copy(buf, 20, optBytes);
    hdr := buf[..];
    assert hdr == buf[..20] + buf[20..];
  }

  lemma BuildNothing()
    ensures Build([]) == []
  {
  }

  method Copy(buf: array<byte>, i: nat, src: seq<byte>)
    requires i + |src| == buf.Length
    modifies buf
    ensures buf[..i] == old(buf[..i]) && buf[i..] == src
  {
    for k := 0 to |src|
      invariant buf[..i] == old(buf[..i]) && buf[i..i + k] == src[..k]
    {
      buf[i + k] := src[k];
    }
  }

  method Marshal(s: Segment) returns (pkt: seq<byte>)
    ensures pkt == Marshalled(s)
  {
    var hdr := MarshalHeader(s);
    if |s.payload| == 0 { return hdr; }
    pkt := hdr + s.payload;
  }

  method ParseSegment(raw: seq<byte>) returns (r: Result<Segment>)
    ensures r == Parsed(raw)
  {
    if |raw| < 20 { return Err(TooShort); }
    var dataOff := raw[12] / 16 * 4;
    if dataOff < 20 || dataOff > |raw| { return Err(BadOffset); }
    var options: seq<TcpOption> := [];
    if dataOff > 20 { options := ParseOptions(raw[20..dataOff]); }
    var payload: seq<byte> := [];
    if dataOff < |raw| { payload := raw[dataOff..]; }
    assert dataOff == 20 ==> raw[20..dataOff] == [];
    assert payload == raw[dataOff..];
    r := Ok(Segment(FromBe16(raw), FromBe16(raw[2..]), FromBe32(raw[4..]), FromBe32(raw[8..]), raw[13],
                    FromBe16(raw[14..]), FromBe16(raw[16..]), FromBe16(raw[18..]), options, payload));
  }
}
