/** The CH9329 serial frame codec (CH9329Protocol in protocol.py).

    Every frame is [0x57, 0xAB, address 0x00, command, len(data), data..., checksum]
    where the checksum is the sum of every earlier byte masked to eight bits.
    The builders take unbounded integers, as the Python static methods do; the
    final bytes() conversion raises ValueError for an element outside 0..255,
    which is the Err(ByteOutOfRange) path here. */
module Protocol {
  import opened Wrappers

  type byte = b: int | 0 <= b < 256

  /** A frame as it is handed to the transport. */
  type Packet = seq<byte>

  const Header0: byte := 0x57
  const Header1: byte := 0xAB
  const Address: byte := 0x00

  const CmdKeyboard: byte := 0x02
  const CmdMedia: byte := 0x03
  const CmdMouseAbs: byte := 0x04
  const CmdMouseRel: byte := 0x05

  /** Largest absolute coordinate the chip accepts on either axis. */
  const MaxAbsCoordinate := 4095

  predicate IsByte(v: int) { 0 <= v < 256 }

  predicate AllBytes(s: seq<int>) { forall i :: 0 <= i < |s| ==> IsByte(s[i]) }

  /** The sum of the elements; a sequence of bytes sums to at most 255 per element. */
  function Sum(s: seq<int>): (total: int)
    ensures AllBytes(s) ==> 0 <= total <= 255 * |s|
  {
    if s == [] then 0 else s[0] + Sum(s[1..])
  }

  lemma {:induction false} SumAppend(a: seq<int>, b: seq<int>)
    ensures Sum(a + b) == Sum(a) + Sum(b)
  {
    if a == [] {
      assert a + b == b;
    } else {
      assert (a + b)[1..] == a[1..] + b;
      SumAppend(a[1..], b);
    }
  }

  lemma SumHeader(command: int, length: int)
    ensures Sum([Header0, Header1, Address, command, length]) == 0x57 + 0xAB + command + length
  {
    assert [length][1..] == [];
    assert [command, length][1..] == [length];
    assert [Address, command, length][1..] == [command, length];
    assert [Header1, Address, command, length][1..] == [Address, command, length];
    assert [Header0, Header1, Address, command, length][1..] == [Header1, Address, command, length];
    assert Sum([length]) == length;
    assert Sum([command, length]) == command + length;
    assert Sum([Address, command, length]) == command + length;
    assert Sum([Header1, Address, command, length]) == 0xAB + command + length;
  }

  /** _calculate_checksum: sum(data) & 0xFF. Masking with 0xFF is the
      remainder modulo 256 that is never negative, which is Dafny's %. */
  function Checksum(s: seq<int>): (c: byte)
    ensures (Sum(s) - c) % 256 == 0
  {
    Sum(s) % 256
  }

  /** A well-formed frame: header, address, a length byte that matches the
      data section, and a last byte that is the checksum of all the others. */
  predicate WellFormed(p: seq<int>)
  {
    && |p| >= 6 && AllBytes(p)
    && p[0] == Header0 && p[1] == Header1 && p[2] == Address
    && p[4] == |p| - 6
    && p[|p| - 1] == Checksum(p[..|p| - 1])
  }

  /** p is a well-formed frame carrying command cmd and data section data. */
  predicate IsFrameOf(p: seq<int>, cmd: int, data: seq<int>)
  {
    WellFormed(p) && p[3] == cmd && p[5..|p| - 1] == data
  }

  /** _build_packet once every element is known to be a byte. */
  function Frame(command: byte, data: seq<byte>): (p: Packet)
    requires |data| < 256
    ensures |p| == 6 + |data|
    ensures IsFrameOf(p, command, data)
    ensures p[|p| - 1] == (0x57 + 0xAB + command + |data| + Sum(data)) % 256
  {
    var head: seq<byte> := [Header0, Header1, Address, command, |data|] + data;
    assert head == (head + [Checksum(head)])[..|head|];
    SumAppend([Header0, Header1, Address, command, |data|], data);
    SumHeader(command, |data|);
    head + [Checksum(head)]
  }

  /** Command and data section determine the whole frame: nothing else in a
      well-formed frame is free. */
  lemma FrameDeterminedByContent(p: seq<int>, cmd: byte, data: seq<byte>)
    requires IsFrameOf(p, cmd, data)
    ensures |data| < 256 && p == Frame(cmd, data)
  {
    var f := Frame(cmd, data);
    assert p[..5] == f[..5];
    assert p[..|p| - 1] == p[..5] + p[5..|p| - 1];
    assert f[..|f| - 1] == f[..5] + f[5..|f| - 1];
    assert p[..|p| - 1] == f[..|f| - 1];
    assert p == p[..|p| - 1] + [p[|p| - 1]];
    assert f == f[..|f| - 1] + [f[|f| - 1]];
  }

  /** _build_packet(command, data): bytes() of the list with its checksum
      appended; it fails when some element is not a byte. */
  function BuildPacket(command: byte, data: seq<int>): (r: Result<Packet>)
    ensures r.Ok? <==> |data| < 256 && AllBytes(data)
    ensures r.Err? ==> r.error == ByteOutOfRange
    ensures r.Ok? ==> IsFrameOf(r.value, command, data) && |r.value| == 6 + |data|
  {
    if |data| < 256 && AllBytes(data) then Ok(Frame(command, data)) else Err(ByteOutOfRange)
  }

  /** build_keyboard_press_packet: the 8-byte boot keyboard report with the
      modifier byte, a reserved zero, and the key in the first of six slots. */
  function BuildKeyboardPress(modifier: int, keycode: int): (r: Result<Packet>)
    ensures r.Ok? <==> IsByte(modifier) && IsByte(keycode)
    ensures r.Err? ==> r.error == ByteOutOfRange
    ensures r.Ok? ==> |r.value| == 14 && IsFrameOf(r.value, CmdKeyboard, [modifier, 0, keycode, 0, 0, 0, 0, 0])
  {
    var data := [modifier, 0x00, keycode, 0x00, 0x00, 0x00, 0x00, 0x00];
    assert data[0] == modifier && data[2] == keycode;
    BuildPacket(CmdKeyboard, data)
  }

  /** build_keyboard_release_packet: eight zero data bytes, releasing every key. */
  function BuildKeyboardRelease(): (p: Packet)
    ensures p == [0x57, 0xAB, 0x00, 0x02, 0x08, 0, 0, 0, 0, 0, 0, 0, 0, 0x0C]
    ensures IsFrameOf(p, CmdKeyboard, [0, 0, 0, 0, 0, 0, 0, 0])
  {
    Frame(CmdKeyboard, [0x00, 0x00, 0x00, 0x00, 0x00, 0x00, 0x00, 0x00])
  }

  /** max(lo, min(hi, v)). */
  function Clamp(v: int, lo: int, hi: int): (c: int)
    requires lo <= hi
    ensures lo <= c <= hi
    ensures lo <= v <= hi ==> c == v
    ensures v < lo ==> c == lo
    ensures hi < v ==> c == hi
  {
    if v < lo then lo else if hi < v then hi else v
  }

  lemma ClampIdempotent(v: int, lo: int, hi: int)
    requires lo <= hi
    ensures Clamp(Clamp(v, lo, hi), lo, hi) == Clamp(v, lo, hi)
  {
  }

  /** v & 0xFF and (v >> 8) & 0xFF for a clamped, non-negative coordinate. */
  function LowByte(v: nat): byte { v % 256 }
  function HighByte(v: nat): byte { (v / 256) % 256 }

  /** build_mouse_abs_packet: x and y clamped to 0..4095 and written little-endian. */
  function BuildMouseAbs(button: int, x: int, y: int): (r: Result<Packet>)
    ensures r.Ok? <==> IsByte(button)
    ensures r.Err? ==> r.error == ByteOutOfRange
    ensures r.Ok? ==>
      var p, cx, cy := r.value, Clamp(x, 0, MaxAbsCoordinate), Clamp(y, 0, MaxAbsCoordinate);
      && |p| == 13 && WellFormed(p) && p[3] == CmdMouseAbs
      && p[5] == 0x02 && p[6] == button && p[11] == 0
      && (p[7] as int) + 256 * (p[8] as int) == cx && (p[9] as int) + 256 * (p[10] as int) == cy
      && p[8] < 16 && p[10] < 16
  {
    var cx := Clamp(x, 0, MaxAbsCoordinate);
    var cy := Clamp(y, 0, MaxAbsCoordinate);
    var data := [0x02, button, LowByte(cx), HighByte(cx), LowByte(cy), HighByte(cy), 0x00];
    assert data[1] == button;
    BuildPacket(CmdMouseAbs, data)
  }

  /** The byte for a value in -128..127: itself when non-negative, else 0x100 + v. */
  function ToTwosComplement(v: int): (b: byte)
    requires -128 <= v <= 127
    ensures FromTwosComplement(b) == v
    ensures (v >= 0) == (b < 128)
  {
    if v >= 0 then v else 0x100 + v
  }

  /** Reading a data byte back as a signed 8-bit value. */
  function FromTwosComplement(b: byte): (v: int)
    ensures -128 <= v <= 127
  {
    if b < 128 then b else b - 256
  }

  /** The encoding is a bijection between -128..127 and the bytes. */
  lemma TwosComplementBijective(b: byte)
    ensures ToTwosComplement(FromTwosComplement(b)) == b
  {
  }

  /** build_mouse_rel_packet: x and y clamped to -128..127, scroll to -127..127,
      each written as an 8-bit two's-complement byte. */
  function BuildMouseRel(button: int, x: int, y: int, scroll: int): (r: Result<Packet>)
    ensures r.Ok? <==> IsByte(button)
    ensures r.Err? ==> r.error == ByteOutOfRange
    ensures r.Ok? ==>
      var p := r.value;
      && |p| == 11 && WellFormed(p) && p[3] == CmdMouseRel
      && p[5] == 0x01 && p[6] == button
      && FromTwosComplement(p[7]) == Clamp(x, -128, 127)
      && FromTwosComplement(p[8]) == Clamp(y, -128, 127)
      && FromTwosComplement(p[9]) == Clamp(scroll, -127, 127)
  {
    var xByte := ToTwosComplement(Clamp(x, -128, 127));
    var yByte := ToTwosComplement(Clamp(y, -128, 127));
    var scrollByte := ToTwosComplement(Clamp(scroll, -127, 127));
    var data := [0x01, button, xByte, yByte, scrollByte];
    assert data[1] == button;
    BuildPacket(CmdMouseRel, data)
  }

  /** build_media_press_packet: the four arguments verbatim under command 0x03. */
  function BuildMediaPress(data0: int, data1: int, data2: int, data3: int): (r: Result<Packet>)
    ensures r.Ok? <==> IsByte(data0) && IsByte(data1) && IsByte(data2) && IsByte(data3)
    ensures r.Err? ==> r.error == ByteOutOfRange
    ensures r.Ok? ==> |r.value| == 10 && IsFrameOf(r.value, CmdMedia, [data0, data1, data2, data3])
  {
    var data := [data0, data1, data2, data3];
    assert data[0] == data0 && data[1] == data1 && data[2] == data2 && data[3] == data3;
    BuildPacket(CmdMedia, data)
  }

  /** build_media_release_packet: report id 0x02 with no key bit set. */
  function BuildMediaRelease(): (p: Packet)
    ensures p == [0x57, 0xAB, 0x00, 0x03, 0x04, 0x02, 0x00, 0x00, 0x00, 0x0B]
    ensures IsFrameOf(p, CmdMedia, [0x02, 0, 0, 0])
  {
    Frame(CmdMedia, [0x02, 0x00, 0x00, 0x00])
  }

  /** Shift+A: 57 AB 00 02 08 02 00 04 00 00 00 00 00 12. */
  lemma KeyboardPressExample()
    ensures BuildKeyboardPress(0x02, 0x04) == Ok([0x57, 0xAB, 0x00, 0x02, 0x08, 0x02, 0x00, 0x04, 0, 0, 0, 0, 0, 0x12])
  {
    var data: seq<byte> := [0x02, 0x00, 0x04, 0x00, 0x00, 0x00, 0x00, 0x00];
    assert Sum(data) == 6;
    var p := Frame(CmdKeyboard, data);
    assert p[13] == 0x12;
    assert p == [0x57, 0xAB, 0x00, 0x02, 0x08] + data + [0x12];
    assert p == [0x57, 0xAB, 0x00, 0x02, 0x08, 0x02, 0x00, 0x04, 0, 0, 0, 0, 0, 0x12];
  }

  /** A move of (-10, -20): 57 AB 00 05 05 01 00 F6 EC 00 EF. */
  lemma MouseRelExample()
    ensures BuildMouseRel(0x00, -10, -20, 0) == Ok([0x57, 0xAB, 0x00, 0x05, 0x05, 0x01, 0x00, 0xF6, 0xEC, 0x00, 0xEF])
    ensures BuildMouseRel(0x00, 0, 0, -5).Ok? && BuildMouseRel(0x00, 0, 0, -5).value[9] == 0xFB
  {
    var data: seq<byte> := [0x01, 0x00, 0xF6, 0xEC, 0x00];
    assert Sum(data) == 0x1E3;
    var p := Frame(CmdMouseRel, data);
    assert p[10] == 0xEF;
    assert p == [0x57, 0xAB, 0x00, 0x05, 0x05] + data + [0xEF];
    assert p == [0x57, 0xAB, 0x00, 0x05, 0x05, 0x01, 0x00, 0xF6, 0xEC, 0x00, 0xEF];
  }
}
