/**
 TCP options on the wire: the parsing and building loops, each proved against a
 function on byte sequences, and the round trips between the two.
 */
module TcpOptions {
  import opened SeqSpace

  const OPT_END: byte := 0
  const OPT_NOP: byte := 1
  const OPT_MSS: byte := 2
  const OPT_WSCALE: byte := 3
  const OPT_SACK_PERM: byte := 4
  const OPT_SACK: byte := 5
  const OPT_TIMESTAMP: byte := 8

  type u16 = x: int | 0 <= x < 0x1_0000

  datatype TcpOption = TcpOption(kind: byte, data: seq<byte>)

  // ------------------------------------------------------------------ big endian

  function Be16(x: u16): seq<byte> { [x / 256, x % 256] }

  function FromBe16(s: seq<byte>): u16
    requires |s| >= 2
  {
    s[0] as int * 256 + s[1]
  }

  function Be32(x: u32): seq<byte> { [x / 0x100_0000, x / 0x1_0000 % 256, x / 256 % 256, x % 256] }

  function FromBe32(s: seq<byte>): u32
    requires |s| >= 4
  {
    s[0] as int * 0x100_0000 + s[1] as int * 0x1_0000 + s[2] as int * 256 + s[3]
  }

  lemma Be16Back(x: u16, rest: seq<byte>)
    ensures FromBe16(Be16(x) + rest) == x
  {
  }

  lemma Be32Back(x: u32, rest: seq<byte>)
    ensures FromBe32(Be32(x) + rest) == x
  {
    var s := Be32(x) + rest;
    assert s[0] == x / 0x100_0000 && s[1] == x / 0x1_0000 % 256 && s[2] == x / 256 % 256 && s[3] == x % 256;
    assert x / 0x1_0000 == (x / 0x100_0000) * 256 + x / 0x1_0000 % 256;
    assert x / 256 == (x / 0x1_0000) * 256 + x / 256 % 256;
  }

  // -------------------------------------------------------- parsing and building

  /** The options in raw, up to an end marker or the first malformed one. */
  function Parse(raw: seq<byte>): (opts: seq<TcpOption>)
    ensures forall o :: o in opts ==> Formed(o)
  {
    if raw == [] || raw[0] == OPT_END then []
    else if raw[0] == OPT_NOP then [TcpOption(OPT_NOP, [])] + Parse(raw[1..])
    else if |raw| < 2 || raw[1] < 2 || raw[1] > |raw| then []
    else [TcpOption(raw[0], raw[2..raw[1]])] + Parse(raw[raw[1]..])
  }

  /** An option that parsing can produce: no end marker, no data on a NOP, a length that fits its byte. */
  predicate Formed(o: TcpOption) {
    o.kind != OPT_END && |o.data| <= 253 && (o.kind == OPT_NOP ==> o.data == [])
  }

  predicate AllFormed(opts: seq<TcpOption>) { forall o :: o in opts ==> Formed(o) }

  /** One option on the wire; the length byte is truncated as the source truncates it. */
  function Encode(o: TcpOption): seq<byte> {
    if o.kind == OPT_NOP then [OPT_NOP] else [o.kind, (2 + |o.data|) % 256] + o.data
  }

  function EncodeAll(opts: seq<TcpOption>): seq<byte> {
    if opts == [] then [] else Encode(opts[0]) + EncodeAll(opts[1..])
  }

  /** Zero bytes up to a multiple of four. */
  function Padding(n: nat): (p: seq<byte>)
    ensures (n + |p|) % 4 == 0 && |p| < 4 && forall i :: 0 <= i < |p| ==> p[i] == OPT_END
  {
    if n % 4 == 0 then [] else if n % 4 == 1 then [0, 0, 0] else if n % 4 == 2 then [0, 0] else [0]
  }

  function Build(opts: seq<TcpOption>): seq<byte> { EncodeAll(opts) + Padding(|EncodeAll(opts)|) }

  /** Parsing takes one encoded option off the front. */
  lemma ParseOne(o: TcpOption, rest: seq<byte>)
    requires Formed(o)
    ensures Parse(Encode(o) + rest) == [o] + Parse(rest)
  {
    var raw := Encode(o) + rest;
    if o.kind == OPT_NOP {
      assert raw[1..] == rest;
    } else {
      assert raw[0] == o.kind && raw[1] == 2 + |o.data|;
      assert raw[2..2 + |o.data|] == o.data;
      assert raw[2 + |o.data|..] == rest;
    }
  }

  /** Parsing undoes encoding, whatever follows that parses to nothing. */
  lemma {:induction false} ParseEncoded(opts: seq<TcpOption>, tail: seq<byte>)
    requires AllFormed(opts) && Parse(tail) == []
    ensures Parse(EncodeAll(opts) + tail) == opts
  {
    if opts == [] {
      assert EncodeAll(opts) + tail == tail;
    } else {
      var rest := EncodeAll(opts[1..]) + tail;
      assert EncodeAll(opts) + tail == Encode(opts[0]) + rest;
      ParseOne(opts[0], rest);
      ParseEncoded(opts[1..], tail);
    }
  }

  /** Parsing undoes building exactly for the lists parsing can produce. */
  lemma BuildParse(opts: seq<TcpOption>)
    ensures Parse(Build(opts)) == opts <==> AllFormed(opts)
  {
    if AllFormed(opts) { ParseEncoded(opts, Padding(|EncodeAll(opts)|)); }
  }

  /** For any bytes at all, parse, build and parse again equals parse. */
  lemma ParseBuildParse(raw: seq<byte>)
    ensures Parse(Build(Parse(raw))) == Parse(raw)
  {
    BuildParse(Parse(raw));
  }

  // ----------------------------------------------------------- the loops as they run

  /** What Parse does at position i of raw, in the loop's terms. */
  lemma ParseAt(raw: seq<byte>, i: nat)
    requires i < |raw|
    ensures raw[i] == OPT_END ==> Parse(raw[i..]) == []
    ensures raw[i] == OPT_NOP ==> Parse(raw[i..]) == [TcpOption(OPT_NOP, [])] + Parse(raw[i + 1..])
    ensures raw[i] != OPT_END && raw[i] != OPT_NOP ==>
              if i + 1 < |raw| && raw[i + 1] >= 2 && i + raw[i + 1] <= |raw|
              then Parse(raw[i..]) == [TcpOption(raw[i], raw[i + 2..i + raw[i + 1]])] + Parse(raw[i + raw[i + 1]..])
              else Parse(raw[i..]) == []
  {
    var rest := raw[i..];
    assert rest[0] == raw[i];
    if raw[i] == OPT_NOP { assert rest[1..] == raw[i + 1..]; }
    if i + 1 < |raw| && raw[i + 1] >= 2 && i + raw[i + 1] <= |raw| {
      var l := raw[i + 1];
      assert rest[1] == l && rest[2..l] == raw[i + 2..i + l] && rest[l..] == raw[i + l..];
    }
  }

  method ParseOptions(raw: seq<byte>) returns (opts: seq<TcpOption>)
    ensures opts == Parse(raw)
  {
    hide Parse;
    opts := [];
    var i := 0;
    assert raw[0..] == raw;
    while i < |raw|
      invariant 0 <= i <= |raw|
      invariant Parse(raw) == opts + Parse(raw[i..])
    {
      ParseAt(raw, i);
      var kind := raw[i];
      if kind == OPT_END { return; }
      if kind == OPT_NOP {
        opts := opts + [TcpOption(OPT_NOP, [])];
        i := i + 1;
        continue;
      }
      if i + 1 >= |raw| { return; }
      var l := raw[i + 1];
      if l < 2 || i + l > |raw| { return; }
      opts := opts + [TcpOption(kind, raw[i + 2..i + l])];
      i := i + l;
    }
    assert raw[i..] == [];
    ParseNothing();
  }

  lemma ParseNothing()
    ensures Parse([]) == []
  {
  }

  method BuildOptions(opts: seq<TcpOption>) returns (buf: seq<byte>)
    ensures buf == Build(opts)
  {
    hide Encode;
    buf := [];
    ghost var rest := opts;
    var i := 0;
    while i < |opts|
      invariant 0 <= i <= |opts| && rest == opts[i..]
      invariant EncodeAll(opts) == buf + EncodeAll(rest)
    {
      ghost var sofar := buf;
      buf := AppendOption(buf, opts[i]);
      assert sofar + (Encode(rest[0]) + EncodeAll(rest[1..])) == buf + EncodeAll(rest[1..]);
      rest := rest[1..];
      i := i + 1;
    }
    buf := PadToWord(buf);
  }

  method AppendOption(buf0: seq<byte>, o: TcpOption) returns (buf: seq<byte>)
    ensures buf == buf0 + Encode(o)
  {
    if o.kind == OPT_NOP { return buf0 + [OPT_NOP]; }
    buf := buf0 + [o.kind, (2 + |o.data|) % 256];
    buf := buf + o.data;
  }

  method PadToWord(raw: seq<byte>) returns (buf: seq<byte>)
    ensures buf == raw + Padding(|raw|)
  {
    buf := raw;
    ghost var k := 0;
    while |buf| % 4 != 0
      invariant 0 <= k <= |Padding(|raw|)| && buf == raw + Padding(|raw|)[..k]
      decreases 4 - k
    {
      buf := buf + [OPT_END];
      k := k + 1;
    }
  }

  // ------------------------------------------------------- options and their values

  function MSSOption(mss: u16): TcpOption { TcpOption(OPT_MSS, Be16(mss)) }

  function WScaleOption(shift: byte): TcpOption { TcpOption(OPT_WSCALE, [shift]) }

  function SACKPermOption(): TcpOption { TcpOption(OPT_SACK_PERM, []) }

  function TimestampOption(val: u32, ecr: u32): TcpOption { TcpOption(OPT_TIMESTAMP, Be32(val) + Be32(ecr)) }

  /** Pairs of edges, eight bytes each. */
  function Edges(blocks: seq<(u32, u32)>): seq<byte> {
    if blocks == [] then [] else Be32(blocks[0].0) + Be32(blocks[0].1) + Edges(blocks[1..])
  }

  function SACKOption(blocks: seq<(u32, u32)>): TcpOption { TcpOption(OPT_SACK, Edges(blocks)) }

  function GetMSS(opts: seq<TcpOption>): u16 {
    if opts == [] then 0
    else if opts[0].kind == OPT_MSS && |opts[0].data| == 2 then FromBe16(opts[0].data)
    else GetMSS(opts[1..])
  }

  function GetWScale(opts: seq<TcpOption>): Option<byte> {
    if opts == [] then None
    else if opts[0].kind == OPT_WSCALE && |opts[0].data| == 1 then Some(opts[0].data[0])
    else GetWScale(opts[1..])
  }

  function GetTimestamp(opts: seq<TcpOption>): Option<(u32, u32)> {
    if opts == [] then None
    else if opts[0].kind == OPT_TIMESTAMP
        && |opts[0].data| == 8 then Some((FromBe32(opts[0].data), FromBe32(opts[0].data[4..])))
    else GetTimestamp(opts[1..])
  }

  function Blocks(data: seq<byte>): seq<(u32, u32)> {
    if |data| < 8 then [] else [(FromBe32(data), FromBe32(data[4..]))] + Blocks(data[8..])
  }

  function GetSACKBlocks(opts: seq<TcpOption>): seq<(u32, u32)> {
    if opts == [] then []
    else if opts[0].kind == OPT_SACK && |opts[0].data| >= 8 then Blocks(opts[0].data)
    else GetSACKBlocks(opts[1..])
  }

  predicate HasSACKPerm(opts: seq<TcpOption>) {
    opts != [] && (opts[0].kind == OPT_SACK_PERM || HasSACKPerm(opts[1..]))
  }

  /** SACK blocks survive their encoding. */
  lemma {:induction false} BlocksBack(blocks: seq<(u32, u32)>)
    ensures Blocks(Edges(blocks)) == blocks && |Edges(blocks)| == 8 * |blocks|
  {
    if blocks != [] {
      var data, b := Edges(blocks), blocks[0];
      hide Be32, FromBe32;
      Be32Len(b.0);
      Be32Len(b.1);
      BlocksBack(blocks[1..]);
      Be32Back(b.0, Be32(b.1) + Edges(blocks[1..]));
      Be32Back(b.1, Edges(blocks[1..]));
      assert data == Be32(b.0) + (Be32(b.1) + Edges(blocks[1..]));
      assert data[4..] == Be32(b.1) + Edges(blocks[1..]);
      assert data[8..] == Edges(blocks[1..]);
      assert [b] + blocks[1..] == blocks;
    }
  }

  lemma Be32Len(x: u32)
    ensures |Be32(x)| == 4
  {
  }

  lemma TimestampBack(val: u32, ecr: u32)
    ensures GetTimestamp([TimestampOption(val, ecr)]) == Some((val, ecr))
  {
    Be32Len(val);
    Be32Len(ecr);
    Be32Back(val, Be32(ecr));
    Be32Back(ecr, []);
    assert (Be32(val) + Be32(ecr))[4..] == Be32(ecr) + [];
  }
}
