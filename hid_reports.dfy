/**
 * The force-feedback output reports the joystick driver writes, and their packed
 * little-endian byte layouts (the Set Effect, Effect Operation, Set Constant Force,
 * Set Periodic and Set Condition reports of the USB HID Physical Interface Device
 * class, PID 1.0, section 5). Fields hold the integers the driver assigns; as in a
 * ctypes structure, writing one into an unsigned field keeps it modulo 2^8 or 2^16,
 * and a signed 16-bit field keeps its two's-complement low 16 bits.
 */
module HidReports {
  import opened Wrappers

  type Byte = x: int | 0 <= x < 256

  const ReportIdSetEffect := 101
  const ReportIdEffectOperation := 110
  const ReportIdSetConstantForce := 105
  const ReportIdSetPeriodic := 104
  const ReportIdSetCondition := 103

  const EffectConstant := 1
  const EffectSquare := 3
  const EffectSine := 4
  const EffectSawtoothUp := 6
  const EffectSawtoothDown := 7

  const OpStart := 1
  const OpStop := 3

  const AxisEnableX := 1
  const AxisEnableY := 2
  const AxisEnableDir := 4

  datatype Report =
    | SetEffect(effectBlockIndex: int, effectType: int, duration: int, triggerRepeatInterval: int,
                samplePeriod: int, gain: int, triggerButton: int, axesEnable: int,
                directionX: int, directionY: int, startDelay: int)
    | EffectOperation(effectBlockIndex: int, operation: int, loopCount: int)
    | SetConstantForce(effectBlockIndex: int, magnitude: int)
    | SetPeriodic(effectBlockIndex: int, magnitude: int, offset: int, phase: int, period: int)
    | SetCondition(effectBlockIndex: int, parameterBlockOffset: int, cpOffset: int,
                   positiveCoefficient: int, negativeCoefficient: int,
                   positiveSaturation: int, negativeSaturation: int, deadBand: int)

  /** `FFBReport_SetEffect(effectBlockIndex=…, effectType=…, axesEnable=…, directionX=…)`: gain 4096, everything else 0. */
  function SetEffectHeader(block: int, effectType: int, axesEnable: int, directionX: int): (r: Report)
    ensures r.SetEffect? && r.gain == 4096 && r.effectBlockIndex == block && r.effectType == effectType
    ensures r.axesEnable == axesEnable && r.directionX == directionX
    ensures r.duration == 0 && r.triggerRepeatInterval == 0 && r.samplePeriod == 0
    ensures r.triggerButton == 0 && r.directionY == 0 && r.startDelay == 0
  {
    SetEffect(block, effectType, 0, 0, 0, 4096, 0, axesEnable, directionX, 0, 0)
  }

  /** `start_effect`: operation Start with loop count 1 (with duration 0 the device repeats it indefinitely). */
  function Start(block: int): (r: Report)
    ensures r == EffectOperation(block, OpStart, 1)
  {
    EffectOperation(block, OpStart, 1)
  }

  /** `stop_effect`: operation Stop, loop count left at its default 0. */
  function Stop(block: int): (r: Report)
    ensures r == EffectOperation(block, OpStop, 0)
  {
    EffectOperation(block, OpStop, 0)
  }

  /** A symmetric Set Condition block: both coefficients equal, saturation 4096 both ways, dead band 0. */
  function Condition(block: int, parameterBlockOffset: int, cpOffset: int, coefficient: int): (r: Report)
    ensures r.SetCondition? && r.positiveCoefficient == r.negativeCoefficient == coefficient
    ensures r.positiveSaturation == r.negativeSaturation == 4096 && r.deadBand == 0
    ensures r.effectBlockIndex == block && r.parameterBlockOffset == parameterBlockOffset && r.cpOffset == cpOffset
  {
    SetCondition(block, parameterBlockOffset, cpOffset, coefficient, coefficient, 4096, 4096, 0)
  }

  function ReportId(r: Report): int {
    match r
    case SetEffect(_, _, _, _, _, _, _, _, _, _, _) => ReportIdSetEffect
    case EffectOperation(_, _, _) => ReportIdEffectOperation
    case SetConstantForce(_, _) => ReportIdSetConstantForce
    case SetPeriodic(_, _, _, _, _) => ReportIdSetPeriodic
    case SetCondition(_, _, _, _, _, _, _, _) => ReportIdSetCondition
  }

  /** Packed sizes (`_pack_ = 1`). */
  function ReportLength(r: Report): nat {
    match r
    case SetEffect(_, _, _, _, _, _, _, _, _, _, _) => 17
    case EffectOperation(_, _, _) => 4
    case SetConstantForce(_, _) => 4
    case SetPeriodic(_, _, _, _, _) => 9
    case SetCondition(_, _, _, _, _, _, _, _) => 15
  }

  // ---------------------------------------------------------------- field codecs

  function U8(x: int): Byte { x % 256 }

  /** Little-endian bytes of a 16-bit field; signed and unsigned fields share them. */
  function Le16(x: int): (b: seq<Byte>)
    ensures |b| == 2
  {
    var u := x % 65536;
    [u % 256, u / 256]
  }

  function ReadU16(lo: Byte, hi: Byte): (u: int)
    ensures 0 <= u < 65536
  {
    lo + 256 * hi
  }

  /** Two's-complement reading of a 16-bit pattern. */
  function Signed16(u: int): (s: int)
    requires 0 <= u < 65536
    ensures -32768 <= s < 32768
    ensures s % 65536 == u
  {
    if u < 32768 then u else u - 65536
  }

  function ReadI16(lo: Byte, hi: Byte): (s: int)
    ensures -32768 <= s < 32768
  {
    Signed16(ReadU16(lo, hi))
  }

  /** The value a ctypes field of each width holds after an integer is assigned to it. */
  function WrapU8(x: int): int { x % 256 }
  function WrapU16(x: int): int { x % 65536 }
  function WrapI16(x: int): int { Signed16(x % 65536) }

  lemma Le16Read(x: int)
    ensures ReadU16(Le16(x)[0], Le16(x)[1]) == WrapU16(x)
    ensures ReadI16(Le16(x)[0], Le16(x)[1]) == WrapI16(x)
  {
  }

  lemma Le16Wrap(x: int)
    ensures Le16(WrapU16(x)) == Le16(x)
    ensures Le16(WrapI16(x)) == Le16(x)
  {
    var u := x % 65536;
    assert WrapU16(x) % 65536 == u;
    assert WrapI16(x) % 65536 == u;
  }

  // ---------------------------------------------------------------- reports

  /** What the structure holds once every field is assigned: each field wrapped to its ctypes width. */
  function Stored(r: Report): Report {
    match r
    case SetEffect(b, t, d, tri, sp, g, tb, ax, dx, dy, sd) =>
      SetEffect(WrapU8(b), WrapU8(t), WrapU16(d), WrapU16(tri), WrapU16(sp), WrapU16(g), WrapU8(tb),
                WrapU8(ax), WrapU8(dx), WrapU8(dy), WrapU16(sd))
    case EffectOperation(b, op, lc) => EffectOperation(WrapU8(b), WrapU8(op), WrapU8(lc))
    case SetConstantForce(b, m) => SetConstantForce(WrapU8(b), WrapI16(m))
    case SetPeriodic(b, m, o, ph, p) => SetPeriodic(WrapU8(b), WrapU16(m), WrapI16(o), WrapU8(ph), WrapU16(p))
    case SetCondition(b, pbo, cp, pc, nc, ps, ns, db) =>
      SetCondition(WrapU8(b), WrapU8(pbo), WrapI16(cp), WrapI16(pc), WrapI16(nc), WrapU16(ps), WrapU16(ns), WrapU16(db))
  }

  /** Every field already lies in its ctypes range, so nothing wraps. */
  predicate InRange(r: Report) {
    match r
    case SetEffect(b, t, d, tri, sp, g, tb, ax, dx, dy, sd) =>
      IsU8(b) && IsU8(t) && IsU16(d) && IsU16(tri) && IsU16(sp) && IsU16(g) && IsU8(tb)
      && IsU8(ax) && IsU8(dx) && IsU8(dy) && IsU16(sd)
    case EffectOperation(b, op, lc) => IsU8(b) && IsU8(op) && IsU8(lc)
    case SetConstantForce(b, m) => IsU8(b) && IsI16(m)
    case SetPeriodic(b, m, o, ph, p) => IsU8(b) && IsU16(m) && IsI16(o) && IsU8(ph) && IsU16(p)
    case SetCondition(b, pbo, cp, pc, nc, ps, ns, db) =>
      IsU8(b) && IsU8(pbo) && IsI16(cp) && IsI16(pc) && IsI16(nc) && IsU16(ps) && IsU16(ns) && IsU16(db)
  }

  predicate IsU8(x: int) { 0 <= x < 256 }
  predicate IsU16(x: int) { 0 <= x < 65536 }
  predicate IsI16(x: int) { -32768 <= x < 32768 }

  /** `bytes(report)`: the packed little-endian layout, report id first. */
  function Encode(r: Report): (b: seq<Byte>)
    ensures |b| == ReportLength(r)
    ensures b[0] == ReportId(r)
  {
    match r
    case SetEffect(blk, t, d, tri, sp, g, tb, ax, dx, dy, sd) =>
      [ReportIdSetEffect, U8(blk), U8(t)] + Le16(d) + Le16(tri) + Le16(sp) + Le16(g)
      + [U8(tb), U8(ax), U8(dx), U8(dy)] + Le16(sd)
    case EffectOperation(blk, op, lc) => [ReportIdEffectOperation, U8(blk), U8(op), U8(lc)]
    case SetConstantForce(blk, m) => [ReportIdSetConstantForce, U8(blk)] + Le16(m)
    case SetPeriodic(blk, m, o, ph, p) =>
      [ReportIdSetPeriodic, U8(blk)] + Le16(m) + Le16(o) + [U8(ph)] + Le16(p)
    case SetCondition(blk, pbo, cp, pc, nc, ps, ns, db) =>
      [ReportIdSetCondition, U8(blk), U8(pbo)] + Le16(cp) + Le16(pc) + Le16(nc) + Le16(ps) + Le16(ns) + Le16(db)
  }

  /** Reads a packed report back; `None` for an unknown id or a wrong length. */
  function Decode(b: seq<Byte>): (r: Option<Report>)
    ensures r.Some? ==> |b| == ReportLength(r.value) && b[0] == ReportId(r.value)
  {
    if |b| == 17 && b[0] == ReportIdSetEffect then
      Some(SetEffect(b[1], b[2], ReadU16(b[3], b[4]), ReadU16(b[5], b[6]), ReadU16(b[7], b[8]),
                     ReadU16(b[9], b[10]), b[11], b[12], b[13], b[14], ReadU16(b[15], b[16])))
    else if |b| == 4 && b[0] == ReportIdEffectOperation then
      Some(EffectOperation(b[1], b[2], b[3]))
    else if |b| == 4 && b[0] == ReportIdSetConstantForce then
      Some(SetConstantForce(b[1], ReadI16(b[2], b[3])))
    else if |b| == 9 && b[0] == ReportIdSetPeriodic then
      Some(SetPeriodic(b[1], ReadU16(b[2], b[3]), ReadI16(b[4], b[5]), b[6], ReadU16(b[7], b[8])))
    else if |b| == 15 && b[0] == ReportIdSetCondition then
      Some(SetCondition(b[1], b[2], ReadI16(b[3], b[4]), ReadI16(b[5], b[6]), ReadI16(b[7], b[8]),
                        ReadU16(b[9], b[10]), ReadU16(b[11], b[12]), ReadU16(b[13], b[14])))
    else None
  }

  /** Decoding the bytes of a report gives back what the structure held. */
  lemma DecodeEncode(r: Report)
    ensures Decode(Encode(r)) == Some(Stored(r))
  {
    var b := Encode(r);
    match r
    case SetEffect(blk, t, d, tri, sp, g, tb, ax, dx, dy, sd) =>
      Le16Read(d); Le16Read(tri); Le16Read(sp); Le16Read(g); Le16Read(sd);
      assert b[3..5] == Le16(d) && b[5..7] == Le16(tri) && b[7..9] == Le16(sp);
      assert b[9..11] == Le16(g) && b[15..17] == Le16(sd);
    case EffectOperation(blk, op, lc) =>
    case SetConstantForce(blk, m) =>
      Le16Read(m);
      assert b[2..4] == Le16(m);
    case SetPeriodic(blk, m, o, ph, p) =>
      Le16Read(m); Le16Read(o); Le16Read(p);
      assert b[2..4] == Le16(m) && b[4..6] == Le16(o) && b[7..9] == Le16(p);
    case SetCondition(blk, pbo, cp, pc, nc, ps, ns, db) =>
      Le16Read(cp); Le16Read(pc); Le16Read(nc); Le16Read(ps); Le16Read(ns); Le16Read(db);
      assert b[3..5] == Le16(cp) && b[5..7] == Le16(pc) && b[7..9] == Le16(nc);
      assert b[9..11] == Le16(ps) && b[11..13] == Le16(ns) && b[13..15] == Le16(db);
  }

  lemma Le16OfRead(lo: Byte, hi: Byte)
    ensures Le16(ReadU16(lo, hi)) == [lo, hi]
    ensures Le16(ReadI16(lo, hi)) == [lo, hi]
  {
    var u := lo + 256 * hi;
    assert u % 65536 == u;
    assert u % 256 == lo && u / 256 == hi;
  }

  lemma U8Byte(x: Byte)
    ensures U8(x) == x
  {
  }

  lemma U8Wrap(x: int)
    ensures U8(WrapU8(x)) == U8(x)
    ensures IsU8(x) ==> WrapU8(x) == x
    ensures IsU16(x) ==> WrapU16(x) == x
  {
  }

  lemma I16Wrap(x: int)
    ensures IsI16(x) ==> WrapI16(x) == x
  {
    if 0 <= x < 32768 {
      assert x % 65536 == x;
    } else if -32768 <= x < 0 {
      assert x % 65536 == x + 65536;
    }
  }

  /** Every byte string that decodes is the encoding of what it decodes to. */
  lemma EncodeDecode(b: seq<Byte>)
    requires Decode(b).Some?
    ensures Encode(Decode(b).value) == b
  {
    if |b| == 17 && b[0] == ReportIdSetEffect {
      Le16OfRead(b[3], b[4]); Le16OfRead(b[5], b[6]); Le16OfRead(b[7], b[8]);
      Le16OfRead(b[9], b[10]); Le16OfRead(b[15], b[16]);
      U8Byte(b[1]); U8Byte(b[2]); U8Byte(b[11]); U8Byte(b[12]); U8Byte(b[13]); U8Byte(b[14]);
      assert b == [b[0], b[1], b[2]] + [b[3], b[4]] + [b[5], b[6]] + [b[7], b[8]] + [b[9], b[10]]
        + [b[11], b[12], b[13], b[14]] + [b[15], b[16]];
    } else if |b| == 4 && b[0] == ReportIdEffectOperation {
      U8Byte(b[1]); U8Byte(b[2]); U8Byte(b[3]);
      assert b == [b[0], b[1], b[2], b[3]];
    } else if |b| == 4 && b[0] == ReportIdSetConstantForce {
      Le16OfRead(b[2], b[3]);
      U8Byte(b[1]);
      assert b == [b[0], b[1]] + [b[2], b[3]];
    } else if |b| == 9 && b[0] == ReportIdSetPeriodic {
      Le16OfRead(b[2], b[3]); Le16OfRead(b[4], b[5]); Le16OfRead(b[7], b[8]);
      U8Byte(b[1]); U8Byte(b[6]);
      assert b == [b[0], b[1]] + [b[2], b[3]] + [b[4], b[5]] + [b[6]] + [b[7], b[8]];
    } else {
      Le16OfRead(b[3], b[4]); Le16OfRead(b[5], b[6]); Le16OfRead(b[7], b[8]);
      Le16OfRead(b[9], b[10]); Le16OfRead(b[11], b[12]); Le16OfRead(b[13], b[14]);
      U8Byte(b[1]); U8Byte(b[2]);
      assert b == [b[0], b[1], b[2]] + [b[3], b[4]] + [b[5], b[6]] + [b[7], b[8]] + [b[9], b[10]]
        + [b[11], b[12]] + [b[13], b[14]];
    }
  }

  /** The bytes depend on the stored (wrapped) fields only, and in-range fields are stored as given. */
  lemma EncodeStored(r: Report)
    ensures Encode(Stored(r)) == Encode(r)
    ensures InRange(r) ==> Stored(r) == r
  {
    match r
    case SetEffect(blk, t, d, tri, sp, g, tb, ax, dx, dy, sd) =>
      Le16Wrap(d); Le16Wrap(tri); Le16Wrap(sp); Le16Wrap(g); Le16Wrap(sd);
      U8Wrap(blk); U8Wrap(t); U8Wrap(tb); U8Wrap(ax); U8Wrap(dx); U8Wrap(dy);
      U8Wrap(d); U8Wrap(tri); U8Wrap(sp); U8Wrap(g); U8Wrap(sd);
    case EffectOperation(blk, op, lc) =>
      U8Wrap(blk); U8Wrap(op); U8Wrap(lc);
    case SetConstantForce(blk, m) =>
      Le16Wrap(m); U8Wrap(blk); I16Wrap(m);
    case SetPeriodic(blk, m, o, ph, p) =>
      Le16Wrap(m); Le16Wrap(o); Le16Wrap(p); U8Wrap(blk); U8Wrap(ph);
      U8Wrap(m); I16Wrap(o); U8Wrap(p);
    case SetCondition(blk, pbo, cp, pc, nc, ps, ns, db) =>
      Le16Wrap(cp); Le16Wrap(pc); Le16Wrap(nc); Le16Wrap(ps); Le16Wrap(ns); Le16Wrap(db);
      U8Wrap(blk); U8Wrap(pbo);
      I16Wrap(cp); I16Wrap(pc); I16Wrap(nc); U8Wrap(ps); U8Wrap(ns); U8Wrap(db);
  }
}
