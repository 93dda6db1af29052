/**
 * Decoding of the SpaceMouse translation report
 * (`SpaceMouseThread._parse_spacemouse_data` in spacemouse_plugin.py).
 *
 * A report is the byte list returned by one HID read. Report kind 1 carries
 * the X, Y and Z translation as three little-endian 16-bit two's-complement
 * values at bytes 1-2, 3-4 and 5-6; each is divided by 350 to land roughly in
 * [-1, 1]. Short reports and reports of any other kind decode to the zero vector.
 */
module ReportParser {

  newtype byte = x: int | 0 <= x < 256

  /** Number of bytes a translation report needs: the tag and three axis pairs. */
  const MinReportLength: nat := 7

  /** Report kind tag of a translation report. */
  const TranslationReport: byte := 1

  /** Divisor that brings raw axis counts to roughly [-1, 1]. */
  const Scale: real := 350.0

  const MinRaw: int := -32768
  const MaxRaw: int := 32767

  datatype MotionVector = MotionVector(x: real, y: real, z: real)

  const Zero: MotionVector := MotionVector(0.0, 0.0, 0.0)

  /** Python's `abs` on a real. */
  function Abs(r: real): real
  {
    if r < 0.0 then -r else r
  }

  /** The unsigned value of a little-endian pair, `(high << 8) | low`. */
  function Unsigned16(low: byte, high: byte): (u: int)
    ensures 0 <= u < 65536
    ensures u % 256 == low as int && u / 256 == high as int
  {
    high as int * 256 + low as int
  }

  /** The same 16 bits read as a two's-complement number. */
  function Signed16(low: byte, high: byte): (v: int)
    ensures MinRaw <= v <= MaxRaw
    ensures (Unsigned16(low, high) - v) % 65536 == 0
  {
    var u := Unsigned16(low, high);
    if u >= 32768 then u - 65536 else u
  }

  /** One axis: the signed value divided by the scale. */
  function Axis(low: byte, high: byte): (a: real)
    ensures a * Scale == Signed16(low, high) as real
  {
    Signed16(low, high) as real / Scale
  }

  /** Decodes one report into a motion vector. */
  function Parse(data: seq<byte>): (v: MotionVector)
    ensures |data| < MinReportLength || data[0] != TranslationReport ==> v == Zero
    ensures MinRaw as real / Scale <= v.x <= MaxRaw as real / Scale
    ensures MinRaw as real / Scale <= v.y <= MaxRaw as real / Scale
    ensures MinRaw as real / Scale <= v.z <= MaxRaw as real / Scale
  {
    if |data| < MinReportLength then Zero
    else if data[0] != TranslationReport then Zero
    else MotionVector(Axis(data[1], data[2]), Axis(data[3], data[4]), Axis(data[5], data[6]))
  }

  /** The little-endian two's-complement encoding of a signed 16-bit value. */
  function Encode16(v: int): (pair: (byte, byte))
    requires MinRaw <= v <= MaxRaw
  {
    var u := if v < 0 then v + 65536 else v;
    ((u % 256) as byte, (u / 256) as byte)
  }

  /** A translation report carrying the three raw axis values. */
  function TranslationBytes(vx: int, vy: int, vz: int): (data: seq<byte>)
    requires MinRaw <= vx <= MaxRaw && MinRaw <= vy <= MaxRaw && MinRaw <= vz <= MaxRaw
  {
    var (xl, xh) := Encode16(vx);
    var (yl, yh) := Encode16(vy);
    var (zl, zh) := Encode16(vz);
    [TranslationReport, xl, xh, yl, yh, zl, zh]
  }

  /** Decoding inverts encoding for every signed 16-bit value. */
  lemma DecodeEncode16(v: int)
    requires MinRaw <= v <= MaxRaw
    ensures Signed16(Encode16(v).0, Encode16(v).1) == v
  {
  }

  /** Encoding inverts decoding for every byte pair. */
  lemma EncodeDecode16(low: byte, high: byte)
    ensures Encode16(Signed16(low, high)) == (low, high)
  {
  }

  /** A report built from three raw values decodes to those values over the scale. */
  lemma ParseTranslationBytes(vx: int, vy: int, vz: int)
    requires MinRaw <= vx <= MaxRaw && MinRaw <= vy <= MaxRaw && MinRaw <= vz <= MaxRaw
    ensures Parse(TranslationBytes(vx, vy, vz))
         == MotionVector(vx as real / Scale, vy as real / Scale, vz as real / Scale)
  {
  }

  /** The X-slot round trip: a value encoded at bytes 1-2 of an otherwise zero report. */
  lemma ParseXSlot(v: int)
    requires MinRaw <= v <= MaxRaw
    ensures Parse([TranslationReport, Encode16(v).0, Encode16(v).1, 0, 0, 0, 0])
         == MotionVector(v as real / Scale, 0.0, 0.0)
  {
  }

  /**
   * The converse direction: every translation report's first seven bytes are
   * the encoding of the raw values it decodes to.
   */
  lemma TranslationBytesOfParse(data: seq<byte>)
    requires |data| >= MinReportLength && data[0] == TranslationReport
    ensures TranslationBytes(Signed16(data[1], data[2]), Signed16(data[3], data[4]), Signed16(data[5], data[6]))
         == data[..MinReportLength]
  {
  }

  /** Whatever follows byte 6 never changes the decoded vector. */
  lemma ParseIgnoresTail(data: seq<byte>, tail: seq<byte>)
    requires |data| >= MinReportLength
    ensures Parse(data + tail) == Parse(data)
  {
  }

  /** Every nonzero raw value gives an axis whose magnitude exceeds 0.001; zero gives 0. */
  lemma AxisMagnitude(low: byte, high: byte)
    ensures Signed16(low, high) == 0 ==> Axis(low, high) == 0.0
    ensures Signed16(low, high) != 0 ==> Axis(low, high) >= 1.0 / Scale || Axis(low, high) <= -1.0 / Scale
  {
  }

  /** Scenario: a zero translation report decodes to the zero vector. */
  lemma ParseAllZeroReport()
    ensures Parse([1, 0, 0, 0, 0, 0, 0]) == Zero
  {
  }

  /** Scenario: 0x64 at the X slot decodes to 100/350 on X only. */
  lemma ParseHundredOnX()
    ensures Parse([1, 0x64, 0x00, 0x00, 0x00, 0x00, 0x00]) == MotionVector(100.0 / 350.0, 0.0, 0.0)
  {
  }
}
