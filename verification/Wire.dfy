/** The two packet headers, their velocity sign code, and their big-endian wire format. */
module Wire {
  import opened Machine

  /** `MyprotocolHeader`: one node's advertised position, velocity magnitudes, sign code and second. */
  datatype ControlHeader = ControlHeader(
    x: u16, y: u16, z: u16, vx: u16, vy: u16, vz: u16, sign: u16, ts: u16, addr: Address, uid: u64)

  /** `DataHeader`: what a data packet carries about its destination, its recovery entry point and its hops. */
  datatype DataHeader = DataHeader(
    dstX: u16, dstY: u16, dstZ: u16, dstVx: u16, dstVy: u16, dstVz: u16, dstSign: u16, dstTs: u16,
    recX: u16, recY: u16, recZ: u16, inRec: u16, uid: u64, hop: u16, error: u16)

  // ---------------------------------------------------------------- velocity sign code

  /** A velocity triple as the decoder returns it, before it is stored in a table entry. */
  datatype Velocity = Velocity(x: int, y: int, z: int)

  /** Sign code of a velocity: 0 none negative, 1 x, 2 y, 3 z, 4 xy, 5 xz, 6 yz, 7 all. */
  function SetRightVelocity(vx: i16, vy: i16, vz: i16): (sign: u16)
    ensures sign <= 7
  {
    if vx >= 0 && vy >= 0 && vz >= 0 then 0
    else if vx < 0 && vy >= 0 && vz >= 0 then 1
    else if vx >= 0 && vy < 0 && vz >= 0 then 2
    else if vx >= 0 && vy >= 0 && vz < 0 then 3
    else if vx < 0 && vy < 0 && vz >= 0 then 4
    else if vx < 0 && vy >= 0 && vz < 0 then 5
    else if vx >= 0 && vy < 0 && vz < 0 then 6
    else 7
  }

  function GetRightVelocity(vx: u16, vy: u16, vz: u16, sign: u16): Velocity {
    var x: int, y: int, z: int := vx, vy, vz;
    match sign
    case 0 => Velocity(x, y, z)
    case 1 => Velocity(-x, y, z)
    case 2 => Velocity(x, -y, z)
    case 3 => Velocity(x, y, -z)
    case 4 => Velocity(-x, -y, z)
    case 5 => Velocity(-x, y, -z)
    case 6 => Velocity(x, -y, -z)
    case 7 => Velocity(-x, -y, -z)
    case _ => Velocity(0, 0, 0)
  }

  // ---------------------------------------------------------------- bytes

  type byte = x: int | 0 <= x < 256

  function Pow256(n: nat): (p: nat)
    ensures p >= 1
  {
    if n == 0 then 1 else 256 * Pow256(n - 1)
  }

  /** The `n` low-order bytes of `v`, most significant first (`WriteHtonU16`, `WriteHtonU64`, `WriteTo`). */
  function BigEndian(v: nat, n: nat): (bs: seq<byte>)
    ensures |bs| == n
  {
    if n == 0 then [] else BigEndian(v / 256, n - 1) + [v % 256]
  }

  /** The number a big-endian byte string stands for. */
  function Value(bs: seq<byte>): (v: nat)
    ensures v < Pow256(|bs|)
  {
    if bs == [] then 0 else Value(bs[..|bs| - 1]) * 256 + bs[|bs| - 1]
  }

  lemma Split256(q: nat, r: nat)
    requires r < 256
    ensures (q * 256 + r) / 256 == q && (q * 256 + r) % 256 == r
  {
  }

  lemma {:induction false} ValueOfBigEndian(v: nat, n: nat)
    requires v < Pow256(n)
    ensures Value(BigEndian(v, n)) == v
  {
    if n != 0 {
      var q, r := v / 256, v % 256;
      assert v == q * 256 + r;
      assert q < Pow256(n - 1);
      ValueOfBigEndian(q, n - 1);
      ValueSnoc(BigEndian(q, n - 1), r);
    }
  }

  lemma ValueSnoc(bs: seq<byte>, b: byte)
    ensures Value(bs + [b]) == Value(bs) * 256 + b
  {
    assert (bs + [b])[..|bs + [b]| - 1] == bs;
  }

  lemma {:induction false} BigEndianOfValue(bs: seq<byte>)
    ensures BigEndian(Value(bs), |bs|) == bs
  {
    if bs != [] {
      var init, last := bs[..|bs| - 1], bs[|bs| - 1];
      BigEndianOfValue(init);
      Split256(Value(init), last);
      assert bs == init + [last];
    }
  }

  lemma Widths()
    ensures Pow256(2) == 0x1_0000
    ensures Pow256(4) == 0x1_0000_0000
    ensures Pow256(8) == 0x1_0000_0000_0000_0000
  {
    assert Pow256(0) == 1;
    assert Pow256(1) == 256 * Pow256(0);
    assert Pow256(2) == 256 * Pow256(1);
    assert Pow256(3) == 256 * Pow256(2);
    assert Pow256(4) == 256 * Pow256(3);
    assert Pow256(5) == 256 * Pow256(4);
    assert Pow256(6) == 256 * Pow256(5);
    assert Pow256(7) == 256 * Pow256(6);
    assert Pow256(8) == 256 * Pow256(7);
  }

  // ---------------------------------------------------------------- layouts

  /** A value together with the number of bytes it takes on the wire. */
  datatype Field = Field(value: nat, width: nat)

  ghost predicate Fits(fs: seq<Field>) {
    forall i :: 0 <= i < |fs| ==> fs[i].value < Pow256(fs[i].width)
  }

  function Size(widths: seq<nat>): nat {
    if widths == [] then 0 else Size(widths[..|widths| - 1]) + widths[|widths| - 1]
  }

  function WidthsOf(fs: seq<Field>): seq<nat> {
    seq(|fs|, i requires 0 <= i < |fs| => fs[i].width)
  }

  function ValuesOf(fs: seq<Field>): seq<nat> {
    seq(|fs|, i requires 0 <= i < |fs| => fs[i].value)
  }

  /** The fields one after the other, each big-endian. */
  function Encode(fs: seq<Field>): seq<byte> {
    if fs == [] then [] else Encode(fs[..|fs| - 1]) + BigEndian(fs[|fs| - 1].value, fs[|fs| - 1].width)
  }

  /** The values of consecutive fields of the given widths. */
  function Decode(bs: seq<byte>, widths: seq<nat>): (vs: seq<nat>)
    requires |bs| == Size(widths)
    ensures |vs| == |widths|
    ensures forall i :: 0 <= i < |vs| ==> vs[i] < Pow256(widths[i])
    decreases |widths|
  {
    if widths == [] then []
    else
      var n := |widths| - 1;
      var cut := |bs| - widths[n];
      Decode(bs[..cut], widths[..n]) + [Value(bs[cut..])]
  }

  lemma {:induction false} EncodeSize(fs: seq<Field>)
    ensures |Encode(fs)| == Size(WidthsOf(fs))
  {
    if fs != [] {
      EncodeSize(fs[..|fs| - 1]);
      assert WidthsOf(fs)[..|fs| - 1] == WidthsOf(fs[..|fs| - 1]);
    }
  }

  lemma {:induction false} DecodeOfEncode(fs: seq<Field>)
    requires Fits(fs)
    ensures |Encode(fs)| == Size(WidthsOf(fs))
    ensures Decode(Encode(fs), WidthsOf(fs)) == ValuesOf(fs)
  {
    hide Value, BigEndian, Pow256;
    EncodeSize(fs);
    if fs != [] {
      var init, last := fs[..|fs| - 1], fs[|fs| - 1];
      DecodeOfEncode(init);
      ValueOfBigEndian(last.value, last.width);
      var widths, cut := WidthsOf(fs), |Encode(init)|;
      assert widths[..|fs| - 1] == WidthsOf(init) && widths[|fs| - 1] == last.width;
      assert Encode(fs) == Encode(init) + BigEndian(last.value, last.width);
      assert Encode(fs)[..cut] == Encode(init) && Encode(fs)[cut..] == BigEndian(last.value, last.width);
      assert cut == |Encode(fs)| - widths[|widths| - 1];
      assert Decode(Encode(fs), widths) == Decode(Encode(init), WidthsOf(init)) + [last.value];
      assert ValuesOf(fs) == ValuesOf(init) + [last.value];
    }
  }

  function Pair(vs: seq<nat>, widths: seq<nat>): seq<Field>
    requires |vs| == |widths|
  {
    seq(|vs|, i requires 0 <= i < |vs| => Field(vs[i], widths[i]))
  }

  lemma {:induction false} EncodeOfDecode(bs: seq<byte>, widths: seq<nat>)
    requires |bs| == Size(widths)
    ensures Encode(Pair(Decode(bs, widths), widths)) == bs
    decreases |widths|
  {
    hide Value, BigEndian, Pow256;
    if widths != [] {
      var n := |widths| - 1;
      var cut := |bs| - widths[n];
      EncodeOfDecode(bs[..cut], widths[..n]);
      BigEndianOfValue(bs[cut..]);
      var fs := Pair(Decode(bs, widths), widths);
      assert fs[..n] == Pair(Decode(bs[..cut], widths[..n]), widths[..n]);
      assert fs[n] == Field(Value(bs[cut..]), widths[n]);
      assert bs == bs[..cut] + bs[cut..];
    }
  }

  // ---------------------------------------------------------------- the two headers on the wire

  const CONTROL_LAYOUT: seq<nat> := [2, 2, 2, 2, 2, 2, 2, 2, 8, 4]
  const DATA_LAYOUT: seq<nat> := [2, 2, 2, 2, 2, 2, 2, 2, 2, 2, 2, 2, 8, 2, 2]
  const CONTROL_SIZE: nat := 28
  const DATA_SIZE: nat := 36

  /** The fields `MyprotocolHeader::Serialize` writes, in its order: the uid precedes the address. */
  function ControlFields(h: ControlHeader): seq<Field> {
    [Field(h.x, 2), Field(h.y, 2), Field(h.z, 2), Field(h.vx, 2), Field(h.vy, 2), Field(h.vz, 2),
     Field(h.sign, 2), Field(h.ts, 2), Field(h.uid, 8), Field(h.addr, 4)]
  }

  function DataFields(h: DataHeader): seq<Field> {
    [Field(h.dstX, 2), Field(h.dstY, 2), Field(h.dstZ, 2), Field(h.dstVx, 2), Field(h.dstVy, 2), Field(h.dstVz, 2),
     Field(h.dstSign, 2), Field(h.dstTs, 2), Field(h.recX, 2), Field(h.recY, 2), Field(h.recZ, 2),
     Field(h.inRec, 2), Field(h.uid, 8), Field(h.hop, 2), Field(h.error, 2)]
  }

  function ControlWire(h: ControlHeader): seq<byte> {
    Encode(ControlFields(h))
  }

  function DataWire(h: DataHeader): seq<byte> {
    Encode(DataFields(h))
  }

  lemma LayoutSizes()
    ensures Size(CONTROL_LAYOUT) == CONTROL_SIZE
    ensures Size(DATA_LAYOUT) == DATA_SIZE
  {
    SizeOfCounts(CONTROL_LAYOUT, 8);
    assert CONTROL_LAYOUT[..9][..8] == CONTROL_LAYOUT[..8];
    assert Size(CONTROL_LAYOUT) == Size(CONTROL_LAYOUT[..9]) + 4;
    SizeOfCounts(DATA_LAYOUT, 12);
    assert DATA_LAYOUT[..14][..13] == DATA_LAYOUT[..13] && DATA_LAYOUT[..13][..12] == DATA_LAYOUT[..12];
    assert Size(DATA_LAYOUT) == Size(DATA_LAYOUT[..14]) + 2;
    assert Size(DATA_LAYOUT[..14]) == Size(DATA_LAYOUT[..13]) + 2;
  }

  lemma {:induction false} SizeOfCounts(widths: seq<nat>, n: nat)
    requires n <= |widths|
    requires forall i :: 0 <= i < n ==> widths[i] == 2
    ensures Size(widths[..n]) == 2 * n
  {
    if n != 0 {
      SizeOfCounts(widths, n - 1);
      assert widths[..n][..n - 1] == widths[..n - 1];
    }
  }

  function ParseControl(bs: seq<byte>): ControlHeader
    requires |bs| == CONTROL_SIZE
  {
    LayoutSizes();
    Widths();
    var v := Decode(bs, CONTROL_LAYOUT);
    ControlHeader(v[0], v[1], v[2], v[3], v[4], v[5], v[6], v[7], v[9], v[8])
  }

  function ParseData(bs: seq<byte>): DataHeader
    requires |bs| == DATA_SIZE
  {
    LayoutSizes();
    Widths();
    var v := Decode(bs, DATA_LAYOUT);
    DataHeader(v[0], v[1], v[2], v[3], v[4], v[5], v[6], v[7], v[8], v[9], v[10], v[11], v[12], v[13], v[14])
  }

  /** Every control header survives the wire. */
  lemma ControlRoundTrip(h: ControlHeader)
    ensures |ControlWire(h)| == CONTROL_SIZE && ParseControl(ControlWire(h)) == h
  {
    LayoutSizes();
    Widths();
    assert WidthsOf(ControlFields(h)) == CONTROL_LAYOUT;
    DecodeOfEncode(ControlFields(h));
  }

  lemma DataDecoded(h: DataHeader)
    ensures |DataWire(h)| == Size(DATA_LAYOUT)
    ensures Decode(DataWire(h), DATA_LAYOUT) == ValuesOf(DataFields(h))
  {
    Widths();
    assert WidthsOf(DataFields(h)) == DATA_LAYOUT;
    DecodeOfEncode(DataFields(h));
  }

  /** Every data header survives the wire. */
  lemma DataRoundTrip(h: DataHeader)
    ensures |DataWire(h)| == DATA_SIZE && ParseData(DataWire(h)) == h
  {
    LayoutSizes();
    DataDecoded(h);
  }

  /** Every 28-byte string is the encoding of the control header it parses to. */
  lemma ControlBytesRoundTrip(bs: seq<byte>)
    requires |bs| == CONTROL_SIZE
    ensures ControlWire(ParseControl(bs)) == bs
  {
    LayoutSizes();
    EncodeOfDecode(bs, CONTROL_LAYOUT);
    assert ControlFields(ParseControl(bs)) == Pair(Decode(bs, CONTROL_LAYOUT), CONTROL_LAYOUT);
  }

  /** Every 36-byte string is the encoding of the data header it parses to. */
  lemma DataBytesRoundTrip(bs: seq<byte>)
    requires |bs| == DATA_SIZE
    ensures DataWire(ParseData(bs)) == bs
  {
    LayoutSizes();
    EncodeOfDecode(bs, DATA_LAYOUT);
    assert DataFields(ParseData(bs)) == Pair(Decode(bs, DATA_LAYOUT), DATA_LAYOUT);
  }

  /** For every int16 triple, -32768 included: magnitudes and sign code, sent over the wire, decode to the triple. */
  lemma VelocityRoundTrip(h: ControlHeader, vx: i16, vy: i16, vz: i16)
    requires h.vx == Abs(vx) && h.vy == Abs(vy) && h.vz == Abs(vz)
    requires h.sign == SetRightVelocity(vx, vy, vz)
    ensures |ControlWire(h)| == CONTROL_SIZE
    ensures var got := ParseControl(ControlWire(h));
            GetRightVelocity(got.vx, got.vy, got.vz, got.sign) == Velocity(vx, vy, vz)
  {
    ControlRoundTrip(h);
  }

  /** The sign code: single negative axes are 1, 2, 3, and opposite sign patterns have codes that add up to 7. */
  lemma SignCodes(vx: i16, vy: i16, vz: i16)
    ensures var code := SetRightVelocity(vx, vy, vz);
            && (code == 1 <==> vx < 0 && vy >= 0 && vz >= 0)
            && (code == 2 <==> vx >= 0 && vy < 0 && vz >= 0)
            && (code == 3 <==> vx >= 0 && vy >= 0 && vz < 0)
            && (code == 0 <==> vx >= 0 && vy >= 0 && vz >= 0)
            && code + SetRightVelocity(-1 - vx, -1 - vy, -1 - vz) == 7
  {
  }

  /** A code that no sender uses is read as no motion at all. */
  lemma BadSignStandsStill(vx: u16, vy: u16, vz: u16, sign: u16)
    requires sign > 7
    ensures GetRightVelocity(vx, vy, vz, sign) == Velocity(0, 0, 0)
  {
  }

  /** Bytes `at` and `at + 1` of `bs` are `v`, the high-order byte first. */
  predicate Short(bs: seq<byte>, at: nat, v: nat) {
    at + 2 <= |bs| && bs[at] == v / 256 && bs[at + 1] == v % 256
  }

  /** The four bytes of `bs` from `at` on are `v`, the high-order byte first. */
  predicate Word(bs: seq<byte>, at: nat, v: nat) {
    Short(bs, at, v / 0x1_0000) && Short(bs, at + 2, v % 0x1_0000)
  }

  lemma {:induction false} EncodePrefix(fs: seq<Field>, n: nat)
    requires n <= |fs|
    ensures |Encode(fs[..n])| == Size(WidthsOf(fs)[..n]) && Encode(fs[..n]) <= Encode(fs)
    decreases |fs| - n
  {
    EncodeSize(fs[..n]);
    assert WidthsOf(fs[..n]) == WidthsOf(fs)[..n];
    if n == |fs| {
      assert fs[..n] == fs;
    } else {
      EncodePrefix(fs, n + 1);
      assert fs[..n + 1][..n] == fs[..n];
    }
  }

  /** Where field `n` of a layout lies on the wire. */
  lemma FieldAt(fs: seq<Field>, n: nat, at: nat)
    requires n < |fs| && at == Size(WidthsOf(fs)[..n])
    ensures at + fs[n].width <= |Encode(fs)|
    ensures Encode(fs)[at..at + fs[n].width] == BigEndian(fs[n].value, fs[n].width)
  {
    EncodePrefix(fs, n);
    EncodePrefix(fs, n + 1);
    assert fs[..n + 1][..n] == fs[..n];
    assert Encode(fs[..n + 1]) == Encode(fs[..n]) + BigEndian(fs[n].value, fs[n].width);
  }

  lemma ShortIs(v: u16)
    ensures Short(BigEndian(v, 2), 0, v)
  {
    assert BigEndian(v, 2) == BigEndian(v / 256, 1) + [v % 256];
    assert BigEndian(v / 256, 1) == BigEndian(v / 256 / 256, 0) + [v / 256 % 256];
  }

  lemma {:induction false} BigEndianSplits(v: nat, n: nat)
    ensures BigEndian(v, n + 2) == BigEndian(v / 0x1_0000, n) + BigEndian(v % 0x1_0000, 2)
  {
    hide Pow256;
    Halves(v);
    assert BigEndian(v, n + 2) == BigEndian(v / 256, n + 1) + [v % 256];
    assert BigEndian(v / 256, n + 1) == BigEndian(v / 256 / 256, n) + [v / 256 % 256];
    ShortIs(v % 0x1_0000);
  }

  lemma Halves(v: nat)
    ensures v / 256 / 256 == v / 0x1_0000
    ensures v % 0x1_0000 / 256 == v / 256 % 256 && v % 0x1_0000 % 256 == v % 256
  {
  }

  lemma WordIs(v: nat)
    requires v < 0x1_0000_0000
    ensures Word(BigEndian(v, 4), 0, v)
  {
    BigEndianSplits(v, 2);
    ShortIs(v / 0x1_0000);
    ShortIs(v % 0x1_0000);
  }

  lemma LongIs(v: u64)
    ensures Word(BigEndian(v, 8), 0, v / 0x1_0000_0000) && Word(BigEndian(v, 8), 4, v % 0x1_0000_0000)
  {
    var w := v / 0x1_0000;
    BigEndianSplits(v, 6);
    BigEndianSplits(w, 4);
    Quarters(v);
    WordIs(w / 0x1_0000);
    ShortIs(w % 0x1_0000);
    ShortIs(v % 0x1_0000);
  }

  lemma Quarters(v: u64)
    ensures v / 0x1_0000 / 0x1_0000 == v / 0x1_0000_0000 < 0x1_0000_0000
    ensures v % 0x1_0000_0000 / 0x1_0000 == v / 0x1_0000 % 0x1_0000
    ensures v % 0x1_0000_0000 % 0x1_0000 == v % 0x1_0000
  {
  }

  /** A 16-bit field with only such fields before it lies at twice its number. */
  lemma ShortField(fs: seq<Field>, n: nat)
    requires n < |fs| && fs[n].value < 0x1_0000 && forall i :: 0 <= i <= n ==> fs[i].width == 2
    ensures Short(Encode(fs), 2 * n, fs[n].value)
  {
    hide BigEndian, Encode, Size;
    assert forall i :: 0 <= i < n ==> WidthsOf(fs)[i] == 2;
    SizeOfCounts(WidthsOf(fs), n);
    FieldAt(fs, n, 2 * n);
    ShortIs(fs[n].value);
    assert Encode(fs)[2 * n] == Encode(fs)[2 * n..2 * n + 2][0] && Encode(fs)[2 * n + 1] == Encode(fs)[2 * n..2 * n + 2][1];
  }

  lemma WordMoves(bs: seq<byte>, at: nat, part: seq<byte>, off: nat, v: nat)
    requires at + |part| <= |bs| && bs[at..at + |part|] == part && Word(part, off, v)
    ensures Word(bs, at + off, v)
  {
    assert forall i :: 0 <= i < |part| ==> bs[at + i] == part[i];
  }

  /** A control header on the wire, byte by byte: eight shorts, the 64-bit uid, the address. */
  lemma ControlOnWire(h: ControlHeader)
    ensures var bs := ControlWire(h);
            && |bs| == 28
            && Short(bs, 0, h.x) && Short(bs, 2, h.y) && Short(bs, 4, h.z)
            && Short(bs, 6, h.vx) && Short(bs, 8, h.vy) && Short(bs, 10, h.vz)
            && Short(bs, 12, h.sign) && Short(bs, 14, h.ts)
            && Word(bs, 16, h.uid / 0x1_0000_0000) && Word(bs, 20, h.uid % 0x1_0000_0000) && Word(bs, 24, h.addr)
  {
    hide BigEndian, Encode, Size, Word, Short, Value, Decode;
    ControlRoundTrip(h);
    var fs := ControlFields(h);
    ShortField(fs, 0);
    ShortField(fs, 1);
    ShortField(fs, 2);
    ShortField(fs, 3);
    ShortField(fs, 4);
    ShortField(fs, 5);
    ShortField(fs, 6);
    ShortField(fs, 7);
    ControlTail(h);
  }

  lemma ControlTail(h: ControlHeader)
    ensures var bs := ControlWire(h);
            Word(bs, 16, h.uid / 0x1_0000_0000) && Word(bs, 20, h.uid % 0x1_0000_0000) && Word(bs, 24, h.addr)
  {
    hide BigEndian, Encode, Word, Short;
    var fs := ControlFields(h);
    var widths := WidthsOf(fs);
    assert widths == CONTROL_LAYOUT;
    SizeOfCounts(widths, 8);
    assert widths[..9][..8] == widths[..8];
    LongIs(h.uid);
    WordIs(h.addr);
    FieldAt(fs, 8, 16);
    FieldAt(fs, 9, 24);
    WordMoves(ControlWire(h), 16, BigEndian(h.uid, 8), 0, h.uid / 0x1_0000_0000);
    WordMoves(ControlWire(h), 16, BigEndian(h.uid, 8), 4, h.uid % 0x1_0000_0000);
    WordMoves(ControlWire(h), 24, BigEndian(h.addr, 4), 0, h.addr);
  }

  /** A data header on the wire, byte by byte: twelve shorts, the 64-bit uid, the hop count, the error field. */
  lemma DataOnWire(h: DataHeader)
    ensures var bs := DataWire(h);
            && |bs| == 36
            && Short(bs, 0, h.dstX) && Short(bs, 2, h.dstY) && Short(bs, 4, h.dstZ)
            && Short(bs, 6, h.dstVx) && Short(bs, 8, h.dstVy) && Short(bs, 10, h.dstVz)
            && Short(bs, 12, h.dstSign) && Short(bs, 14, h.dstTs)
            && Short(bs, 16, h.recX) && Short(bs, 18, h.recY) && Short(bs, 20, h.recZ) && Short(bs, 22, h.inRec)
            && Word(bs, 24, h.uid / 0x1_0000_0000) && Word(bs, 28, h.uid % 0x1_0000_0000)
            && Short(bs, 32, h.hop) && Short(bs, 34, h.error)
  {
    hide BigEndian, Encode, Size, Word, Short, Value, Decode;
    DataRoundTrip(h);
    var fs := DataFields(h);
    ShortField(fs, 0);
    ShortField(fs, 1);
    ShortField(fs, 2);
    ShortField(fs, 3);
    ShortField(fs, 4);
    ShortField(fs, 5);
    ShortField(fs, 6);
    ShortField(fs, 7);
    ShortField(fs, 8);
    ShortField(fs, 9);
    ShortField(fs, 10);
    ShortField(fs, 11);
    DataTail(h);
  }

  lemma DataTail(h: DataHeader)
    ensures var bs := DataWire(h);
            && Word(bs, 24, h.uid / 0x1_0000_0000) && Word(bs, 28, h.uid % 0x1_0000_0000)
            && Short(bs, 32, h.hop) && Short(bs, 34, h.error)
  {
    hide BigEndian, Encode, Word;
    var fs := DataFields(h);
    var widths := WidthsOf(fs);
    assert widths == DATA_LAYOUT;
    SizeOfCounts(widths, 12);
    assert widths[..13][..12] == widths[..12] && widths[..14][..13] == widths[..13];
    assert Size(widths[..13]) == Size(widths[..12]) + 8;
    assert Size(widths[..14]) == Size(widths[..13]) + 2;
    LongIs(h.uid);
    ShortIs(h.hop);
    ShortIs(h.error);
    FieldAt(fs, 12, 24);
    FieldAt(fs, 13, 32);
    FieldAt(fs, 14, 34);
    WordMoves(DataWire(h), 24, BigEndian(h.uid, 8), 0, h.uid / 0x1_0000_0000);
    WordMoves(DataWire(h), 24, BigEndian(h.uid, 8), 4, h.uid % 0x1_0000_0000);
    assert forall i :: 0 <= i < 2 ==> DataWire(h)[32 + i] == BigEndian(h.hop, 2)[i];
    assert forall i :: 0 <= i < 2 ==> DataWire(h)[34 + i] == BigEndian(h.error, 2)[i];
  }

  // ---------------------------------------------------------------- Serialize and Deserialize

  /**
   * `Buffer::Iterator`: a position in a byte buffer that advances as fields are written or read.
   * `passed` records the fields between `start` and the position.
   */
  class Iterator {
    const start: nat
    var bytes: seq<byte>
    var at: nat
    ghost var passed: seq<Field>

    constructor (bytes: seq<byte>, start: nat)
      requires start <= |bytes|
      ensures Valid()
      ensures this.bytes == bytes && this.start == at == start && passed == []
    {
      this.bytes := bytes;
      this.start := start;
      at := start;
      passed := [];
    }

    ghost predicate Valid()
      reads this
    {
      start <= at <= |bytes| && bytes[start..at] == Encode(passed)
    }

    method WriteHtonU16(v: u16)
      requires Valid() && at + 2 <= |bytes|
      modifies this
      ensures Valid() && at == old(at) + 2 && |bytes| == old(|bytes|)
      ensures passed == old(passed) + [Field(v, 2)]
      ensures forall k :: 0 <= k < |bytes| && !(old(at) <= k < at) ==> bytes[k] == old(bytes)[k]
    {
      WriteHton(v, 2);
    }

    method ReadNtohU16() returns (v: u16)
      requires Valid() && at + 2 <= |bytes|
      modifies this`at, this`passed
      ensures Valid() && at == old(at) + 2
      ensures passed == old(passed) + [Field(v, 2)]
    {
      Widths();
      v := ReadNtoh(2);
    }

    method ReadNtohU64() returns (v: u64)
      requires Valid() && at + 8 <= |bytes|
      modifies this`at, this`passed
      ensures Valid() && at == old(at) + 8
      ensures passed == old(passed) + [Field(v, 8)]
    {
      Widths();
      v := ReadNtoh(8);
    }

    method ReadAddress() returns (v: Address)
      requires Valid() && at + 4 <= |bytes|
      modifies this`at, this`passed
      ensures Valid() && at == old(at) + 4
      ensures passed == old(passed) + [Field(v, 4)]
    {
      Widths();
      v := ReadNtoh(4);
    }

    method WriteHton(v: nat, n: nat)
      requires Valid() && at + n <= |bytes|
      modifies this
      ensures Valid() && at == old(at) + n && |bytes| == old(|bytes|)
      ensures passed == old(passed) + [Field(v, n)]
      ensures forall k :: 0 <= k < |bytes| && !(old(at) <= k < at) ==> bytes[k] == old(bytes)[k]
    {
      hide BigEndian;
      bytes := bytes[..at] + BigEndian(v, n) + bytes[at + n..];
      at := at + n;
      passed := passed + [Field(v, n)];
      assert bytes[start..at] == old(bytes[start..at]) + BigEndian(v, n);
      assert passed[..|passed| - 1] == old(passed);
    }

    method ReadNtoh(n: nat) returns (v: nat)
      requires Valid() && at + n <= |bytes|
      modifies this`at, this`passed
      ensures Valid() && at == old(at) + n && v < Pow256(n)
      ensures passed == old(passed) + [Field(v, n)]
    {
      hide Value, BigEndian, Pow256;
      v := Value(bytes[at..at + n]);
      BigEndianOfValue(bytes[at..at + n]);
      at := at + n;
      passed := passed + [Field(v, n)];
      assert bytes[start..at] == old(bytes[start..at]) + BigEndian(v, n);
      assert passed[..|passed| - 1] == old(passed);
    }
  }

  /** The eight fields both headers start with. */
  function MotionFields(x: u16, y: u16, z: u16, vx: u16, vy: u16, vz: u16, sign: u16, ts: u16): seq<Field> {
    [Field(x, 2), Field(y, 2), Field(z, 2), Field(vx, 2), Field(vy, 2), Field(vz, 2), Field(sign, 2), Field(ts, 2)]
  }

  method WriteMotion(x: u16, y: u16, z: u16, vx: u16, vy: u16, vz: u16, sign: u16, ts: u16, i: Iterator)
    requires i.Valid() && i.at + 16 <= |i.bytes|
    modifies i
    ensures i.Valid() && i.at == old(i.at) + 16 && |i.bytes| == old(|i.bytes|)
    ensures i.passed == old(i.passed) + MotionFields(x, y, z, vx, vy, vz, sign, ts)
    ensures forall k :: 0 <= k < |i.bytes| && !(old(i.at) <= k < i.at) ==> i.bytes[k] == old(i.bytes)[k]
  {
    hide Encode;
    i.WriteHtonU16(x);
    i.WriteHtonU16(y);
    i.WriteHtonU16(z);
    i.WriteHtonU16(vx);
    assert i.passed == old(i.passed) + [Field(x, 2), Field(y, 2), Field(z, 2), Field(vx, 2)];
    i.WriteHtonU16(vy);
    i.WriteHtonU16(vz);
    i.WriteHtonU16(sign);
    i.WriteHtonU16(ts);
    assert i.passed == old(i.passed) + MotionFields(x, y, z, vx, vy, vz, sign, ts);
  }

  method ReadMotion(i: Iterator) returns (x: u16, y: u16, z: u16, vx: u16, vy: u16, vz: u16, sign: u16, ts: u16)
    requires i.Valid() && i.at + 16 <= |i.bytes|
    modifies i`at, i`passed
    ensures i.Valid() && i.at == old(i.at) + 16
    ensures i.passed == old(i.passed) + MotionFields(x, y, z, vx, vy, vz, sign, ts)
  {
    hide Encode;
    x := i.ReadNtohU16();
    y := i.ReadNtohU16();
    z := i.ReadNtohU16();
    vx := i.ReadNtohU16();
    assert i.passed == old(i.passed) + [Field(x, 2), Field(y, 2), Field(z, 2), Field(vx, 2)];
    vy := i.ReadNtohU16();
    vz := i.ReadNtohU16();
    sign := i.ReadNtohU16();
    ts := i.ReadNtohU16();
    assert i.passed == old(i.passed) + MotionFields(x, y, z, vx, vy, vz, sign, ts);
  }

  method SerializeControl(h: ControlHeader, i: Iterator)
    requires i.Valid() && i.passed == [] && i.at + CONTROL_SIZE <= |i.bytes|
    modifies i
    ensures i.at == i.start + CONTROL_SIZE <= |i.bytes| == old(|i.bytes|)
    ensures i.bytes[i.start..i.at] == ControlWire(h)
    ensures forall k :: 0 <= k < |i.bytes| && !(i.start <= k < i.at) ==> i.bytes[k] == old(i.bytes)[k]
  {
    WriteMotion(h.x, h.y, h.z, h.vx, h.vy, h.vz, h.sign, h.ts, i);
    i.WriteHton(h.uid, 8);
    i.WriteHton(h.addr, 4);
    assert i.passed == ControlFields(h);
  }

  method DeserializeControl(i: Iterator) returns (h: ControlHeader, dist: nat)
    requires i.Valid() && i.passed == [] && i.at + CONTROL_SIZE <= |i.bytes|
    modifies i`at, i`passed
    ensures dist == CONTROL_SIZE && i.at == i.start + dist
    ensures ControlWire(h) == i.bytes[i.start..i.at]
  {
    var x, y, z, vx, vy, vz, sign, ts := ReadMotion(i);
    var uid := i.ReadNtohU64();
    var addr := i.ReadAddress();
    h := ControlHeader(x, y, z, vx, vy, vz, sign, ts, addr, uid);
    dist := i.at - i.start;
    assert i.passed == ControlFields(h);
  }

  method SerializeData(h: DataHeader, i: Iterator)
    requires i.Valid() && i.passed == [] && i.at + DATA_SIZE <= |i.bytes|
    modifies i
    ensures i.at == i.start + DATA_SIZE <= |i.bytes| == old(|i.bytes|)
    ensures i.bytes[i.start..i.at] == DataWire(h)
    ensures forall k :: 0 <= k < |i.bytes| && !(i.start <= k < i.at) ==> i.bytes[k] == old(i.bytes)[k]
  {
    WriteMotion(h.dstX, h.dstY, h.dstZ, h.dstVx, h.dstVy, h.dstVz, h.dstSign, h.dstTs, i);
    i.WriteHtonU16(h.recX);
    i.WriteHtonU16(h.recY);
    i.WriteHtonU16(h.recZ);
    i.WriteHtonU16(h.inRec);
    i.WriteHton(h.uid, 8);
    i.WriteHtonU16(h.hop);
    i.WriteHtonU16(h.error);
    assert i.passed == DataFields(h);
  }

  method DeserializeData(i: Iterator) returns (h: DataHeader, dist: nat)
    requires i.Valid() && i.passed == [] && i.at + DATA_SIZE <= |i.bytes|
    modifies i`at, i`passed
    ensures dist == DATA_SIZE && i.at == i.start + dist
    ensures DataWire(h) == i.bytes[i.start..i.at]
  {
    var dstX, dstY, dstZ, dstVx, dstVy, dstVz, dstSign, dstTs := ReadMotion(i);
    var recX := i.ReadNtohU16();
    var recY := i.ReadNtohU16();
    var recZ := i.ReadNtohU16();
    var inRec := i.ReadNtohU16();
    var uid := i.ReadNtohU64();
    var hop := i.ReadNtohU16();
    var error := i.ReadNtohU16();
    h := DataHeader(dstX, dstY, dstZ, dstVx, dstVy, dstVz, dstSign, dstTs, recX, recY, recZ, inRec, uid, hop, error);
    dist := i.at - i.start;
    assert i.passed == DataFields(h);
  }
}
