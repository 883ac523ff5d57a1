/**
 The bytes themselves: which number stands where in a segment and in each option, most
 significant byte first, stated on the bytes alone.
 */
module WireFormat {
  import opened SeqSpace
  import opened TcpOptions
  import opened TcpSegment

  /** The number that bytes stand for, most significant first. */
  function Number(s: seq<byte>): nat {
    if s == [] then 0 else 256 * Number(s[..|s| - 1]) + s[|s| - 1]
  }

  lemma Number2(s: seq<byte>)
    requires |s| == 2
    ensures Number(s) == s[0] as int * 256 + s[1]
  {
    assert s[..1][..0] == [];
    assert Number(s[..1]) == s[0];
  }

  lemma Number4(s: seq<byte>)
    requires |s| == 4
    ensures Number(s) == s[0] as int * 0x100_0000 + s[1] as int * 0x1_0000 + s[2] as int * 0x100 + s[3]
  {
    assert s[..3][..2] == s[..2];
    Number2(s[..2]);
    assert Number(s[..3]) == 256 * Number(s[..2]) + s[2];
  }

  lemma Word16(x: u16)
    ensures |Be16(x)| == 2 && Number(Be16(x)) == x
  {
    Number2(Be16(x));
  }

  lemma Word32(x: u32)
    ensures |Be32(x)| == 4 && Number(Be32(x)) == x
  {
    Number4(Be32(x));
    assert x / 0x1_0000 == (x / 0x100_0000) * 256 + x / 0x1_0000 % 256;
    assert x / 256 == (x / 0x1_0000) * 256 + x / 256 % 256;
  }

  lemma Read16(s: seq<byte>)
    requires |s| >= 2
    ensures FromBe16(s) == Number(s[..2])
  {
    Number2(s[..2]);
  }

  lemma Read32(s: seq<byte>)
    requires |s| >= 4
    ensures FromBe32(s) == Number(s[..4])
  {
    Number4(s[..4]);
  }

  // ------------------------------------------------------------------------ segments

  /** Where every field of a segment stands in a packet. */
  ghost predicate LaidOut(s: Segment, raw: seq<byte>) {
    && |raw| == HeaderLen(s) + |s.payload|
    && Number(raw[0..2]) == s.srcPort && Number(raw[2..4]) == s.dstPort
    && Number(raw[4..8]) == s.seqno && Number(raw[8..12]) == s.ack
    && raw[12] / 16 == HeaderLen(s) / 4 % 16 && raw[12] % 16 == 0 && raw[13] == s.flags
    && Number(raw[14..16]) == s.window && raw[16] == raw[17] == 0 && Number(raw[18..20]) == s.urgent
    && raw[20..HeaderLen(s)] == Build(s.options) && raw[HeaderLen(s)..] == s.payload
  }

  lemma MarshalLayout(s: Segment)
    ensures LaidOut(s, Marshalled(s))
  {
    hide OffsetByte, Build, Be16, Be32, Number;
    var raw := Marshalled(s);
    Word16(s.srcPort);
    Word16(s.dstPort);
    Word32(s.seqno);
    Word32(s.ack);
    Word16(s.window);
    Word16(s.urgent);
    assert raw[0..2] == Be16(s.srcPort) && raw[2..4] == Be16(s.dstPort);
    assert raw[4..8] == Be32(s.seqno) && raw[8..12] == Be32(s.ack);
    assert raw[12] == OffsetByte(HeaderLen(s)) && raw[13] == s.flags;
    assert raw[14..16] == Be16(s.window) && raw[16] == 0 && raw[17] == 0 && raw[18..20] == Be16(s.urgent);
    OffsetNibble(s);
  }

  lemma OffsetNibble(s: Segment)
    ensures OffsetByte(HeaderLen(s)) / 16 == HeaderLen(s) / 4 % 16 && OffsetByte(HeaderLen(s)) % 16 == 0
  {
    hide EncodeAll, Padding;
    var w := HeaderLen(s) / 4;
    assert HeaderLen(s) == 4 * w;
    WordCount(w);
    var k, r := w / 16, w % 16;
    assert w * 16 == 256 * k + 16 * r;
  }

  /**
   Parsing reads the same places: it fails exactly on fewer than twenty bytes or a header length
   outside the packet, and otherwise every field is the number that stands there.
   */
  lemma ParseLayout(raw: seq<byte>)
    ensures Parsed(raw) == Err(TooShort) <==> |raw| < 20
    ensures |raw| >= 20 ==> (Parsed(raw) == Err(BadOffset) <==> !(20 <= raw[12] / 16 * 4 <= |raw|))
    ensures Parsed(raw).Ok? ==>
      var s, off := Parsed(raw).value, raw[12] / 16 * 4;
      && Number(raw[0..2]) == s.srcPort && Number(raw[2..4]) == s.dstPort
      && Number(raw[4..8]) == s.seqno && Number(raw[8..12]) == s.ack && raw[13] == s.flags
      && Number(raw[14..16]) == s.window && Number(raw[16..18]) == s.checksum && Number(raw[18..20]) == s.urgent
      && s.options == Parse(raw[20..off]) && s.payload == raw[off..]
  {
    hide FromBe16, FromBe32, Number, Parse;
    if |raw| >= 20 {
      forall i | i in {0, 2, 14, 16, 18} ensures FromBe16(raw[i..]) == Number(raw[i..i + 2]) {
        Read16(raw[i..]);
        assert raw[i..][..2] == raw[i..i + 2];
      }
      forall i | i in {4, 8} ensures FromBe32(raw[i..]) == Number(raw[i..i + 4]) {
        Read32(raw[i..]);
        assert raw[i..][..4] == raw[i..i + 4];
      }
      assert raw[0..] == raw;
    }
  }

  // ------------------------------------------------------------------------- options

  /** Kind, length and value of each option a connection builds. */
  lemma OptionLayout(mss: u16, shift: byte, val: u32, ecr: u32)
    ensures var o := Encode(MSSOption(mss)); o[..2] == [2, 4] && |o| == 4 && Number(o[2..4]) == mss
    ensures Encode(WScaleOption(shift)) == [3, 3, shift] && Encode(SACKPermOption()) == [4, 2]
    ensures var o := Encode(TimestampOption(val, ecr));
            o[..2] == [8, 10] && |o| == 10 && Number(o[2..6]) == val && Number(o[6..10]) == ecr
  {
    hide Be16, Be32, Number;
    Word16(mss);
    Word32(val);
    Word32(ecr);
    assert Encode(MSSOption(mss))[2..4] == Be16(mss);
    var o := Encode(TimestampOption(val, ecr));
    assert o == [8, 10] + (Be32(val) + Be32(ecr));
    assert o[2..6] == Be32(val) && o[6..10] == Be32(ecr);
  }

  /** A SACK option: kind 5, and eight bytes for each block, left edge first. */
  lemma SackLayout(blocks: seq<(u32, u32)>, i: nat)
    requires i < |blocks|
    ensures SACKOption(blocks).kind == 5 && |SACKOption(blocks).data| == 8 * |blocks|
    ensures var d := SACKOption(blocks).data;
            Number(d[8 * i..8 * i + 4]) == blocks[i].0 && Number(d[8 * i + 4..8 * i + 8]) == blocks[i].1
  {
    hide Be32, Number;
    BlocksBack(blocks);
    EdgesAt(blocks, i);
    Word32(blocks[i].0);
    Word32(blocks[i].1);
  }

  lemma {:induction false} EdgesAt(blocks: seq<(u32, u32)>, i: nat)
    requires i < |blocks| && |Edges(blocks)| == 8 * |blocks|
    ensures var d := Edges(blocks);
            d[8 * i..8 * i + 4] == Be32(blocks[i].0) && d[8 * i + 4..8 * i + 8] == Be32(blocks[i].1)
    decreases i
  {
    hide Be32;
    var b := blocks[0];
    Be32Len(b.0);
    Be32Len(b.1);
    if i > 0 {
      EdgesAt(blocks[1..], i - 1);
      var d, t := Edges(blocks), Edges(blocks[1..]);
      assert d == Be32(b.0) + Be32(b.1) + t;
      assert d[8 * i..8 * i + 4] == t[8 * (i - 1)..8 * (i - 1) + 4];
      assert d[8 * i + 4..8 * i + 8] == t[8 * (i - 1) + 4..8 * (i - 1) + 8];
    }
  }

  /** The first option of a kind and size; the value its getter gives. */
  ghost predicate FirstOf(opts: seq<TcpOption>, i: nat, kind: byte, least: nat, most: nat) {
    && i < |opts| && opts[i].kind == kind && least <= |opts[i].data| <= most
    && forall j :: 0 <= j < i ==> !(opts[j].kind == kind && least <= |opts[j].data| <= most)
  }

  lemma FirstBack(opts: seq<TcpOption>, i: nat, kind: byte, least: nat, most: nat)
    requires FirstOf(opts, i, kind, least, most) && i > 0
    ensures FirstOf(opts[1..], i - 1, kind, least, most) && !(opts[0].kind == kind && least <= |opts[0].data| <= most)
  {
    assert opts[1..][i - 1] == opts[i];
    assert forall j :: 0 <= j < i - 1 ==> opts[1..][j] == opts[j + 1];
  }

  lemma {:induction false} MSSFound(opts: seq<TcpOption>, i: nat)
    requires FirstOf(opts, i, 2, 2, 2)
    ensures GetMSS(opts) == Number(opts[i].data)
    decreases i
  {
    hide FromBe16, Number;
    if i > 0 { FirstBack(opts, i, 2, 2, 2); MSSFound(opts[1..], i - 1); }
    else { Read16(opts[0].data); assert opts[0].data[..2] == opts[0].data; }
  }

  lemma {:induction false} ScaleFound(opts: seq<TcpOption>, i: nat)
    requires FirstOf(opts, i, 3, 1, 1)
    ensures GetWScale(opts) == Some(opts[i].data[0])
    decreases i
  {
    if i > 0 { FirstBack(opts, i, 3, 1, 1); ScaleFound(opts[1..], i - 1); }
  }

  lemma {:induction false} TimestampFound(opts: seq<TcpOption>, i: nat)
    requires FirstOf(opts, i, 8, 8, 8)
    ensures GetTimestamp(opts) == Some((Number(opts[i].data[..4]), Number(opts[i].data[4..])))
    decreases i
  {
    hide FromBe32, Number;
    if i > 0 { FirstBack(opts, i, 8, 8, 8); TimestampFound(opts[1..], i - 1); }
    else {
      Read32(opts[0].data);
      Read32(opts[0].data[4..]);
      assert opts[0].data[4..][..4] == opts[0].data[4..];
    }
  }

  /** The SACK getter: as many whole blocks as the data holds, each from its own eight bytes. */
  lemma {:induction false} SackFound(opts: seq<TcpOption>, i: nat, k: nat)
    requires i < |opts| && opts[i].kind == 5 && forall j :: 0 <= j < i ==> opts[j].kind != 5 || |opts[j].data| < 8
    requires k < |opts[i].data| / 8
    ensures var d := opts[i].data;
            && |GetSACKBlocks(opts)| == |d| / 8
            && GetSACKBlocks(opts)[k] == (Number(d[8 * k..8 * k + 4]), Number(d[8 * k + 4..8 * k + 8]))
    decreases i
  {
    hide Blocks, Number;
    if i > 0 {
      assert opts[1..][i - 1] == opts[i] && forall j :: 0 <= j < i - 1 ==> opts[1..][j] == opts[j + 1];
      SackFound(opts[1..], i - 1, k);
    } else {
      BlocksAt(opts[0].data, k);
    }
  }

  lemma {:induction false} BlocksAt(d: seq<byte>, k: nat)
    requires k < |d| / 8
    ensures |Blocks(d)| == |d| / 8
    ensures Blocks(d)[k] == (Number(d[8 * k..8 * k + 4]), Number(d[8 * k + 4..8 * k + 8]))
    decreases |d|
  {
    hide FromBe32, Number;
    if |d| >= 16 {
      BlocksAt(d[8..], if k > 0 then k - 1 else 0);
      if k > 0 {
        var t := d[8..];
        assert t[8 * (k - 1)..8 * (k - 1) + 4] == d[8 * k..8 * k + 4];
        assert t[8 * (k - 1) + 4..8 * (k - 1) + 8] == d[8 * k + 4..8 * k + 8];
      }
    } else {
      assert Blocks(d[8..]) == [];
    }
    Read32(d);
    Read32(d[4..]);
    assert d[4..][..4] == d[4..8] && d[..4] == d[0..4];
  }

  /** Without such an option the getters give nothing. */
  lemma {:induction false} NoneFound(opts: seq<TcpOption>)
    ensures (forall o :: o in opts ==> !(o.kind == 2 && |o.data| == 2)) ==> GetMSS(opts) == 0
    ensures (forall o :: o in opts ==> !(o.kind == 3 && |o.data| == 1)) <==> GetWScale(opts) == None
    ensures (forall o :: o in opts ==> !(o.kind == 8 && |o.data| == 8)) <==> GetTimestamp(opts) == None
    ensures (forall o :: o in opts ==> !(o.kind == 5 && |o.data| >= 8)) ==> GetSACKBlocks(opts) == []
    ensures HasSACKPerm(opts) <==> exists o :: o in opts && o.kind == 4
    decreases opts
  {
    hide FromBe16, FromBe32, Blocks;
    if opts != [] {
      NoneFound(opts[1..]);
      assert forall o :: o in opts <==> o == opts[0] || o in opts[1..];
    }
  }

  /** Options stand one after another, each with its kind and length, and zeros fill the last word. */
  lemma BuildLayout(opts: seq<TcpOption>)
    ensures |Build(opts)| % 4 == 0 && EncodeAll(opts) <= Build(opts) && |Build(opts)| < |EncodeAll(opts)| + 4
    ensures forall i :: |EncodeAll(opts)| <= i < |Build(opts)| ==> Build(opts)[i] == 0
    ensures EncodeAll([]) == []
    ensures opts != [] ==> EncodeAll(opts) == Encode(opts[0]) + EncodeAll(opts[1..])
  {
    hide Encode;
  }

  lemma EncodeLayout(o: TcpOption)
    requires Formed(o)
    ensures Encode(o) == if o.kind == 1 then [1] else [o.kind, 2 + |o.data|] + o.data
  {
  }

  /** Reading options: a zero ends them, a one stands alone, anything else is kind, length and data, or ends them. */
  lemma ParseOptionLayout(raw: seq<byte>)
    ensures raw == [] || raw[0] == 0 ==> Parse(raw) == []
    ensures raw != [] && raw[0] == 1 ==> Parse(raw) == [TcpOption(1, [])] + Parse(raw[1..])
    ensures raw != [] && raw[0] > 1 ==>
              if |raw| >= 2 && 2 <= raw[1] <= |raw|
              then Parse(raw) == [TcpOption(raw[0], raw[2..raw[1]])] + Parse(raw[raw[1]..])
              else Parse(raw) == []
  {
  }
}
