/**
 * The stateless ESC/POS command encoders of EscPosPrinter.cpp: each printer
 * operation becomes a short, fixed-shape byte sequence that the driver hands
 * to the serial port.  Bytes are `bv8` so that the masks and shifts of the
 * C++ code can be written as they are.
 */
module Commands {

  // Control characters named in EscPosPrinter.cpp (lines 22-34).
  const EOT: bv8 := 0x04
  const CR: bv8 := 0x0D
  const DLE: bv8 := 0x10
  const ESC: bv8 := 0x1B
  const GS: bv8 := 0x1D

  /** DLE EOT n: Epson's "transmit real-time status" request for status kind n. */
  function RealTimeStatus(n: bv8): seq<bv8> { [DLE, EOT, n] }

  /** The three real-time queries issued by the status poller. */
  const OnlineQuery: seq<bv8> := RealTimeStatus(0x01)
  const ErrorQuery: seq<bv8> := RealTimeStatus(0x02)
  const ChuteQuery: seq<bv8> := RealTimeStatus(0x05)

  /** GS r 1: transmit the paper-sensor status. */
  const PaperQuery: seq<bv8> := [GS, 0x72, 0x01]

  /** ESC - 0: underline off. */
  const UnderlineOff: seq<bv8> := [ESC, 0x2D, 0x00]

  /** What one call of write(uint8_t) produces: the bytes sent and the count it returns. */
  datatype Emitted = Emitted(bytes: seq<bv8>, count: nat)

  /**
   * write(c) as written: every byte except 0x13 goes to the port, and the
   * call always reports one byte consumed.
   */
  function Write(c: bv8): (r: Emitted)
    ensures r.count == 1
    ensures r.bytes == [] <==> c == 0x13
    ensures r.bytes != [] ==> r.bytes == [c]
  {
    if c != 0x13 then Emitted([c], 1) else Emitted([], 1)
  }

  /**
   * The filter write(c) evidently means to apply: drop carriage returns
   * (decimal 13, 0x0D) and pass every other byte through.
   */
  function WriteStrippingCr(c: bv8): (r: Emitted)
    ensures r.count == 1
    ensures r.bytes == [] <==> c == CR
    ensures r.bytes != [] ==> r.bytes == [c]
  {
    if c != CR then Emitted([c], 1) else Emitted([], 1)
  }

  /** The as-written filter lets a carriage return through and drops DC3 instead. */
  lemma WriteKeepsCarriageReturn()
    ensures Write(CR).bytes == [CR]
    ensures Write(0x13).bytes == []
    ensures WriteStrippingCr(CR).bytes == []
    ensures WriteStrippingCr(0x13).bytes == [0x13]
  {
  }

  /** toupper in the C locale: only 'a'..'z' change. */
  function ToUpper(c: char): (u: char)
    ensures 'a' <= c <= 'z' ==> 'A' <= u <= 'Z' && u as int == c as int - 32
    ensures !('a' <= c <= 'z') ==> u == c
  {
    if 'a' <= c <= 'z' then (c as int - 32) as char else c
  }

  /** ESC a n: select justification; L/C/R in either case, anything else left. */
  function Justify(value: char): (r: seq<bv8>)
    ensures |r| == 3 && r[0] == ESC && r[1] == 0x61
    ensures r[2] == 1 <==> value == 'c' || value == 'C'
    ensures r[2] == 2 <==> value == 'r' || value == 'R'
    ensures r[2] == 0 <==> !(value in "cCrR")
  {
    var pos: bv8 :=
      match ToUpper(value)
      case 'L' => 0
      case 'C' => 1
      case 'R' => 2
      case _ => 0;
    [ESC, 0x61, pos]
  }

  /** GS ! n with one of the four named presets of setSize(char). */
  function SetSizePreset(value: char): (r: seq<bv8>)
    ensures |r| == 3 && r[0] == GS && r[1] == 0x21
    ensures r[2] == 0x01 <==> value == 'm' || value == 'M'
    ensures r[2] == 0x11 <==> value == 'l' || value == 'L'
    ensures r[2] == 0x22 <==> value == 'x' || value == 'X'
    ensures r[2] == 0x00 <==> !(value in "mMlLxX")
  {
    var size: bv8 :=
      match ToUpper(value)
      case 'M' => 0x01
      case 'L' => 0x11
      case 'X' => 0x22
      case _ => 0x00;
    [GS, 0x21, size]
  }

  /**
   * setSize(height, width) as written: the low three bits of the height in
   * bits 0-2 and the low three bits of the width in bits 3-5.
   */
  function SetSize(height: bv8, width: bv8): (r: seq<bv8>)
    ensures |r| == 3 && r[0] == GS && r[1] == 0x21
    ensures r[2] < 64
    ensures r[2] & 0x07 == height & 0x07
    ensures r[2] >> 3 == width & 0x07
  {
    [GS, 0x21, ((width & 0x07) << 3) | (height & 0x07)]
  }

  /**
   * The layout GS ! defines and the presets use: height magnification in
   * bits 0-3, width magnification in bits 4-7.
   */
  function SetSizeEpson(height: bv8, width: bv8): (r: seq<bv8>)
    ensures |r| == 3 && r[0] == GS && r[1] == 0x21
    ensures r[2] & 0x0F == height & 0x07
    ensures r[2] >> 4 == width & 0x07
  {
    [GS, 0x21, ((width & 0x07) << 4) | (height & 0x07)]
  }

  /** The presets of setSize(char) are exactly GS ! layouts with height in the low nibble. */
  lemma PresetsUseEpsonLayout()
    ensures SetSizePreset('S') == SetSizeEpson(0, 0)
    ensures SetSizePreset('M') == SetSizeEpson(1, 0)
    ensures SetSizePreset('L') == SetSizeEpson(1, 1)
    ensures SetSizePreset('X') == SetSizeEpson(2, 2)
  {
  }

  /**
   * The three-bit shift puts an odd width into the height field: width 1
   * alone yields height field 8 and width field 0, and (1, 1) disagrees
   * with the 'L' preset.
   */
  lemma SetSizeMisplacesWidth()
    ensures SetSize(0, 1)[2] == 0x08
    ensures SetSize(0, 1)[2] & 0x0F == 0x08 && SetSize(0, 1)[2] >> 4 == 0
    ensures SetSize(1, 1) != SetSizePreset('L')
    ensures SetSizeEpson(1, 1) == SetSizePreset('L')
  {
  }

  /** ESC - n: underline with weight n, clamped to 2 (thick). */
  function UnderlineOn(weight: bv8): (r: seq<bv8>)
    ensures |r| == 3 && r[0] == ESC && r[1] == 0x2D
    ensures r[2] <= 2
    ensures weight <= 2 ==> r[2] == weight
    ensures weight > 2 ==> r[2] == 2
  {
    var w := if weight > 2 then 2 else weight;
    [ESC, 0x2D, w]
  }

  /**
   * The paper check of hasPaper: paper is present when neither bit of the
   * paper-end sensor (bits 2 and 3 of the GS r 1 reply) is set.
   */
  function PaperPresent(status: bv8): (r: bool)
    ensures r <==> status & 0x04 == 0 && status & 0x08 == 0
  {
    status & 0x0C == 0
  }
}
