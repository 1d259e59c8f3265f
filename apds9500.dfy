/**
 * The APDS9500 gesture-sensor driver: its two constant tables, the fixed
 * sequence of register writes its constructor issues, and the two readers
 * of gesture results.
 */
module Apds9500 {
  import opened Bytes
  import opened Registers
  import opened ConstantTables

  // Bank 0 registers written by the constructor.
  const CursorClampLeft: Byte := 0x37
  const CursorClampRight: Byte := 0x38
  const CursorClampUp: Byte := 0x39
  const Int2En: Byte := 0x42
  const AELedOffUB: Byte := 0x46
  const AELedOffLB: Byte := 0x47
  const AEExposureUBL: Byte := 0x48
  const AEExposureUBH: Byte := 0x49
  const AEExposureLBL: Byte := 0x4A
  const AEGainLB: Byte := 0x4D
  const Manual: Byte := 0x51
  const Unknown1: Byte := 0x5E
  const Unknown2: Byte := 0x60
  const InputModeGpio01: Byte := 0x80
  const InputModeGpio23: Byte := 0x81
  const InputModeInt: Byte := 0x82
  const CursorObjectSizeTh: Byte := 0x8B
  const NoMotionCountThd: Byte := 0x90
  const ZDirectionThd: Byte := 0x95
  const ZDirectionXYThd: Byte := 0x96
  const ZDirectionAngleThd: Byte := 0x97
  const RotateXYThd: Byte := 0x9A
  const Filter: Byte := 0x9C
  const FilterImage: Byte := 0xA5
  const YtoZSum: Byte := 0xCC
  const YtoZFactor: Byte := 0xCD
  const FilterLength: Byte := 0xCE
  const WaveThd: Byte := 0xCF
  const AbortCountThd: Byte := 0xD0

  // Bank 1 registers written by the constructor.
  const CmdHStart: Byte := 0x02
  const CmdVStart: Byte := 0x03
  const CmdHV: Byte := 0x04
  const LensShadingCompEnH: Byte := 0x25
  const OffestY: Byte := 0x27
  const Lsc: Byte := 0x28
  const Lsft: Byte := 0x29
  const CursorClampCenterYH: Byte := 0x3E
  const IdleTimeL: Byte := 0x65
  const IdleTimeSleep1L: Byte := 0x67
  const IdleTimeSleep2L: Byte := 0x69
  const IdleTimeSleep2H: Byte := 0x6A
  const ObjectTime2L: Byte := 0x6D
  const ObjectTime2H: Byte := 0x6E
  const TGEnH: Byte := 0x72
  const AutoSleepMode: Byte := 0x73
  const WakeUpSigSel: Byte := 0x74
  const SramReadEnH: Byte := 0x77

  // Registers the readers use.
  const IntFlag1: Byte := 0x43
  const GestureResultReg: Byte := 0xB6

  // ---------------------------------------------------------------------------
  // The two constant tables

  /** The tuples given to `GestureResult.add_values`: discrete result codes 1..9. */
  const GestureResultEntries: seq<Entry> := [
    Entry("UP", 1, "Up", None),
    Entry("DOWN", 2, "Down", None),
    Entry("LEFT", 3, "Left", None),
    Entry("RIGHT", 4, "Right", None),
    Entry("FORWARD", 5, "Forward", None),
    Entry("BACKWARD", 6, "Backward", None),
    Entry("CLOCKWISE", 7, "Clockwise", None),
    Entry("COUNTERCLOCKWISE", 8, "Counterclockwise", None),
    Entry("WAVE", 9, "Wave", None)
  ]

  /** The tuples given to `Gesture.add_values`: one single-bit mask per gesture. */
  const GestureEntries: seq<Entry> := [
    Entry("UP", 0x01, "Up", None),
    Entry("DOWN", 0x02, "Down", None),
    Entry("LEFT", 0x04, "Left", None),
    Entry("RIGHT", 0x08, "Right", None),
    Entry("FORWARD", 0x10, "Forward", None),
    Entry("BACKWARD", 0x20, "Backward", None),
    Entry("CLOCKWISE", 0x40, "Clockwise", None),
    Entry("COUNTERCLOCKWISE", 0x80, "Counterclockwise", None)
  ]

  /** `class GestureResult(CV)` followed by its `add_values` call. */
  method DefineGestureResult() returns (cv: CV)
    ensures fresh(cv)
    ensures cv.defined && cv.labels == Labels(GestureResultEntries) && cv.lsb == Lsbs(GestureResultEntries)
    ensures cv.attrs == Bind(map[], GestureResultEntries)
  {
    cv := new CV();
    cv.AddValues(GestureResultEntries);
  }

  /** `class Gesture(CV)` followed by its `add_values` call. */
  method DefineGesture() returns (cv: CV)
    ensures fresh(cv)
    ensures cv.defined && cv.labels == Labels(GestureEntries) && cv.lsb == Lsbs(GestureEntries)
    ensures cv.attrs == Bind(map[], GestureEntries)
  {
    cv := new CV();
    cv.AddValues(GestureEntries);
  }

  /** A byte with exactly one bit set. */
  predicate SingleBit(b: Byte) {
    b != 0 && b & (b - 1) == 0
  }

  /** The `Gesture` values: one mask per bit of a byte. */
  const GestureMasks: set<int> := {0x01, 0x02, 0x04, 0x08, 0x10, 0x20, 0x40, 0x80}

  /** The values of the `Gesture` table are the eight masks. */
  lemma GestureValues()
    ensures Labels(GestureEntries).Keys == GestureMasks
  {
    assert forall i | 0 <= i < |GestureEntries| :: GestureEntries[i].value in GestureMasks;
    forall v | v in GestureMasks
      ensures v in Labels(GestureEntries)
    {
      var i := if v == 0x01 then 0 else if v == 0x02 then 1 else if v == 0x04 then 2 else if v == 0x08 then 3
        else if v == 0x10 then 4 else if v == 0x20 then 5 else if v == 0x40 then 6 else 7;
      assert GestureEntries[i].value == v;
    }
  }

  /** Every `Gesture` value is a byte with exactly one bit set. */
  lemma GestureTableSound()
    ensures forall b: Byte | b as int in Labels(GestureEntries) :: SingleBit(b)
  {
    GestureValues();
    GestureMasksSingleBit();
  }

  /** Every `Gesture` value is a byte; 0x05, which has two bits set, is not one. */
  lemma GestureTableBytes()
    ensures forall v | v in Labels(GestureEntries) :: 0 <= v < 256
    ensures !SingleBit(0x05) && 0x05 !in Labels(GestureEntries)
  {
    assert forall i | 0 <= i < |GestureEntries| :: GestureEntries[i].value in GestureMasks;
  }

  /** Every byte with exactly one bit set is a `Gesture` value. */
  lemma GestureTableComplete()
    ensures forall b: Byte | SingleBit(b) :: b as int in Labels(GestureEntries)
  {
    GestureValues();
    SingleBitMasks();
  }

  /** Every byte with exactly one bit set is one of the eight masks. */
  lemma SingleBitMasks()
    ensures forall b: Byte | SingleBit(b) :: b as int in GestureMasks
  {
    forall b: Byte | SingleBit(b)
      ensures b as int in GestureMasks
    {
      assert b == 0x01 || b == 0x02 || b == 0x04 || b == 0x08 || b == 0x10 || b == 0x20 || b == 0x40 || b == 0x80;
    }
  }

  /** Each of the eight masks is a byte with exactly one bit set. */
  lemma GestureMasksSingleBit()
    ensures forall b: Byte | b as int in GestureMasks :: SingleBit(b)
  {
  }

  /** The eight `Gesture` masks are pairwise distinct. */
  lemma GestureMasksDistinct()
    ensures forall i, j | 0 <= i < j < |GestureEntries| :: GestureEntries[i].value != GestureEntries[j].value
  {
  }

  /** The `GestureResult` values are exactly 1..9: 0 and 10..15 are not valid. */
  lemma GestureResultTable()
    ensures forall v :: v in Labels(GestureResultEntries) <==> 1 <= v <= 9
  {
    GestureResultCodes();
    forall v | 1 <= v <= 9
      ensures v in Labels(GestureResultEntries)
    {
      assert GestureResultEntries[v - 1].value == v;
    }
  }

  /** The tuple at position `i` of the `GestureResult` table has code `i + 1`. */
  lemma GestureResultCodes()
    ensures forall i | 0 <= i < |GestureResultEntries| :: GestureResultEntries[i].value == i + 1
  {
  }

  // ---------------------------------------------------------------------------
  // The gesture decoder

  const Up := 0x01
  const Down := 0x02
  const Left := 0x04
  const Right := 0x08
  const Forward := 0x10
  const Backward := 0x20
  const Clockwise := 0x40
  const CounterClockwise := 0x80

  /** The masks the decoder tests: every `Gesture` mask but COUNTERCLOCKWISE. */
  const TestedMasks: set<int> := {Up, Down, Left, Right, Forward, Backward, Clockwise}

  /** Python's truth value of `flag & mask`, for a byte `flag` and a mask in 0..255. */
  predicate BitSet(flag: Byte, mask: int) {
    0 <= mask < 256 && flag & mask as Byte != 0
  }

  /** The `Gesture` names are pairwise distinct, so no tuple rebinds another's name. */
  lemma GestureNamesDistinct()
    ensures forall i, j | 0 <= i < j < |GestureEntries| :: GestureEntries[i].name != GestureEntries[j].name
  {
    forall i, j | 0 <= i < j < |GestureEntries|
      ensures GestureEntries[i].name != GestureEntries[j].name
    {
      var a, b := GestureEntries[i].name, GestureEntries[j].name;
      assert |a| != |b| || a[0] != b[0];
    }
  }

  /** The names `Gesture.add_values` binds are the masks the decoder tests,
      and COUNTERCLOCKWISE. */
  lemma GestureBindings()
    ensures var attrs := Bind(map[], GestureEntries);
      && "UP" in attrs && attrs["UP"] == Up && "DOWN" in attrs && attrs["DOWN"] == Down
      && "LEFT" in attrs && attrs["LEFT"] == Left && "RIGHT" in attrs && attrs["RIGHT"] == Right
      && "FORWARD" in attrs && attrs["FORWARD"] == Forward && "BACKWARD" in attrs && attrs["BACKWARD"] == Backward
      && "CLOCKWISE" in attrs && attrs["CLOCKWISE"] == Clockwise
      && "COUNTERCLOCKWISE" in attrs && attrs["COUNTERCLOCKWISE"] == CounterClockwise
  {
    assert GestureEntries[0].name == "UP" && GestureEntries[0].value == Up;
    assert GestureEntries[1].name == "DOWN" && GestureEntries[1].value == Down;
    assert GestureEntries[2].name == "LEFT" && GestureEntries[2].value == Left;
    assert GestureEntries[3].name == "RIGHT" && GestureEntries[3].value == Right;
    assert GestureEntries[4].name == "FORWARD" && GestureEntries[4].value == Forward;
    assert GestureEntries[5].name == "BACKWARD" && GestureEntries[5].value == Backward;
    assert GestureEntries[6].name == "CLOCKWISE" && GestureEntries[6].value == Clockwise;
    assert GestureEntries[7].name == "COUNTERCLOCKWISE" && GestureEntries[7].value == CounterClockwise;
    GestureNamesDistinct();
    BindDistinct(map[], GestureEntries);
  }

  /** One `if gesture_flag & mask: detected_gestures[mask] = True` step. */
  function Insert(detected: map<int, bool>, flag: Byte, mask: int): (r: map<int, bool>)
    ensures forall m :: m in r <==> m in detected || (m == mask && BitSet(flag, mask))
    ensures (forall m | m in detected :: detected[m]) ==> forall m | m in r :: r[m]
  {
    if BitSet(flag, mask) then detected[mask := true] else detected
  }

  /**
   * The `gesture` property applied to the byte read from `Int_Flag_1`: one
   * key per tested mask whose bit is set, every value `True`. The
   * COUNTERCLOCKWISE bit is never tested.
   */
  function DecodeFlags(flag: Byte): (detected: map<int, bool>)
    ensures forall m :: m in detected <==> m in TestedMasks && BitSet(flag, m)
    ensures forall m | m in detected :: detected[m]
    ensures CounterClockwise !in detected
  {
    var d0: map<int, bool> := map[];
    var d1 := Insert(d0, flag, Up);
    var d2 := Insert(d1, flag, Down);
    var d3 := Insert(d2, flag, Left);
    var d4 := Insert(d3, flag, Right);
    var d5 := Insert(d4, flag, Forward);
    var d6 := Insert(d5, flag, Backward);
    Insert(d6, flag, Clockwise)
  }

  /** The decoder against the `Gesture` table: it reports exactly the table's
      masks, less COUNTERCLOCKWISE, whose bit is set in the flag byte. */
  lemma DecodeMatchesTable(flag: Byte)
    ensures forall m :: m in DecodeFlags(flag) <==>
      m in Labels(GestureEntries) && m != CounterClockwise && BitSet(flag, m)
  {
    GestureValues();
  }

  /** Flag bytes with no tested bit set decode to no gesture: 0x00, and
      0x80, the COUNTERCLOCKWISE bit alone. */
  lemma DecodeNothing()
    ensures DecodeFlags(0x00) == map[]
    ensures DecodeFlags(0x80) == map[]
  {
    assert !BitSet(0x00, Up) && !BitSet(0x00, Down) && !BitSet(0x00, Left) && !BitSet(0x00, Right);
    assert !BitSet(0x00, Forward) && !BitSet(0x00, Backward) && !BitSet(0x00, Clockwise);
    assert DecodeFlags(0x00).Keys == {};
    assert !BitSet(0x80, Up) && !BitSet(0x80, Down) && !BitSet(0x80, Left) && !BitSet(0x80, Right);
    assert !BitSet(0x80, Forward) && !BitSet(0x80, Backward) && !BitSet(0x80, Clockwise);
    assert DecodeFlags(0x80).Keys == {};
  }

  /** 0x05 has the UP and LEFT bits set and decodes to exactly those two. */
  lemma DecodeUpLeft()
    ensures DecodeFlags(0x05) == map[Up := true, Left := true]
  {
    assert BitSet(0x05, Up) && !BitSet(0x05, Down) && BitSet(0x05, Left) && !BitSet(0x05, Right);
    assert !BitSet(0x05, Forward) && !BitSet(0x05, Backward) && !BitSet(0x05, Clockwise);
    assert DecodeFlags(0x05).Keys == {Up, Left};
  }

  /** 0xFF decodes to seven gestures: all but COUNTERCLOCKWISE. */
  lemma DecodeAll()
    ensures DecodeFlags(0xFF).Keys == TestedMasks && |DecodeFlags(0xFF)| == 7
  {
    assert BitSet(0xFF, Up) && BitSet(0xFF, Down) && BitSet(0xFF, Left) && BitSet(0xFF, Right);
    assert BitSet(0xFF, Forward) && BitSet(0xFF, Backward) && BitSet(0xFF, Clockwise);
    assert DecodeFlags(0xFF).Keys == TestedMasks;
    TestedMasksCount();
  }

  /** Seven masks are tested. */
  lemma TestedMasksCount()
    ensures |TestedMasks| == 7
  {
  }

  /** `gesture_result`: bits 3..0 of the `GestureResult` register. */
  function LowNibble(v: Byte): (code: int)
    ensures 0 <= code < 16
    ensures code == v as int % 16
  {
    (v & 0x0F) as int
  }

  // ---------------------------------------------------------------------------
  // The initialization sequence

  /** Three writes of bank 0 to the bank-select register. */
  const BankResets: seq<Write> := [Write(RegBankSet, 0x00), Write(RegBankSet, 0x00), Write(RegBankSet, 0x00)]

  // The payload of the constructor, one constant per paragraph of its body.

  /** Cursor clamp window, lines 365-367. */
  const CursorClampSetup: seq<Write> :=
    [Write(CursorClampLeft, 0x07), Write(CursorClampRight, 0x17), Write(CursorClampUp, 0x06)]
  /** Interrupt enable, line 369. */
  const InterruptSetup: seq<Write> := [Write(Int2En, 0x01)]
  /** Auto-exposure limits, lines 371-376. */
  const ExposureSetup: seq<Write> := [
    Write(AELedOffUB, 0x2D), Write(AELedOffLB, 0x0F), Write(AEExposureUBL, 0x3C),
    Write(AEExposureUBH, 0x00), Write(AEExposureLBL, 0x1E), Write(AEGainLB, 0x20)]
  /** Manual mode and `unknown_2`, lines 378-380; the misspelled `unkown_1`
      of line 379 is not a register, so it issues no write. */
  const ManualSetup: seq<Write> := [Write(Manual, 0x10), Write(Unknown2, 0x27)]
  /** Input modes, lines 382-384. */
  const InputModeSetup: seq<Write> :=
    [Write(InputModeGpio01, 0x42), Write(InputModeGpio23, 0x44), Write(InputModeInt, 0x04)]
  /** Cursor object size threshold, line 386. */
  const ObjectSizeSetup: seq<Write> := [Write(CursorObjectSizeTh, 0x01)]
  /** No-motion count threshold, line 388. */
  const NoMotionSetup: seq<Write> := [Write(NoMotionCountThd, 0x06)]
  /** Z-direction thresholds, lines 390-392. */
  const ZDirectionSetup: seq<Write> :=
    [Write(ZDirectionThd, 0x0A), Write(ZDirectionXYThd, 0x0C), Write(ZDirectionAngleThd, 0x05)]
  /** Rotation threshold, line 394. */
  const RotateSetup: seq<Write> := [Write(RotateXYThd, 0x14)]
  /** Filters, lines 396-397. */
  const FilterSetup: seq<Write> := [Write(Filter, 0x3F), Write(FilterImage, 0x19)]
  /** Y-to-Z conversion, lines 399-400. */
  const YtoZSetup: seq<Write> := [Write(YtoZSum, 0x19), Write(YtoZFactor, 0x0B)]
  /** Filter length, line 402. */
  const FilterLengthSetup: seq<Write> := [Write(FilterLength, 0x03)]
  /** Wave and abort thresholds, lines 404-405. */
  const WaveSetup: seq<Write> := [Write(WaveThd, 0x64), Write(AbortCountThd, 0x21)]

  /** Command window, lines 408-410. */
  const WindowSetup: seq<Write> := [Write(CmdHStart, 0x0F), Write(CmdVStart, 0x10), Write(CmdHV, 0x02)]
  /** Lens shading, cursor centre and `unknown_1`, lines 412-417. */
  const LensSetup: seq<Write> := [
    Write(LensShadingCompEnH, 0x01), Write(OffestY, 0x39), Write(Lsc, 0x7F),
    Write(Lsft, 0x08), Write(CursorClampCenterYH, 0xFF), Write(Unknown1, 0x3D)]
  /** Idle times, lines 419-422. */
  const IdleSetup: seq<Write> := [
    Write(IdleTimeL, 0x96), Write(IdleTimeSleep1L, 0x97), Write(IdleTimeSleep2L, 0xCD), Write(IdleTimeSleep2H, 0x01)]
  /** Object time, lines 424-425. */
  const ObjectTimeSetup: seq<Write> := [Write(ObjectTime2L, 0x2C), Write(ObjectTime2H, 0x01)]
  /** Timing generator, sleep and SRAM, lines 427-430. */
  const SleepSetup: seq<Write> := [
    Write(TGEnH, 0x01), Write(AutoSleepMode, 0x35), Write(WakeUpSigSel, 0x00), Write(SramReadEnH, 0x01)]

  /** The payload writes issued while bank 0 is selected, lines 365-405. */
  const Bank0Setup: seq<Write> :=
    CursorClampSetup + InterruptSetup + ExposureSetup + ManualSetup + InputModeSetup + ObjectSizeSetup
    + NoMotionSetup + ZDirectionSetup + RotateSetup + FilterSetup + YtoZSetup + FilterLengthSetup + WaveSetup

  /** The payload writes issued while bank 1 is selected, lines 408-430. */
  const Bank1Setup: seq<Write> := WindowSetup + LensSetup + IdleSetup + ObjectTimeSetup + SleepSetup

  /** Every write the constructor issues, in order. */
  const InitWrites: seq<Write> := Layout(BankResets, Bank0Setup, Bank1Setup)

  /** Position of the single bank-1 select in `InitWrites`. */
  const Bank1SelectAt: nat := |BankResets| + |Bank0Setup|

  /** The writes to the bank-select register, in order: three to bank 0, one
      to bank 1 (the only one, at `Bank1SelectAt`), and a last one to bank 0. */
  lemma InitBankSelects()
    ensures InitWrites[..3] == [Write(RegBankSet, 0x00), Write(RegBankSet, 0x00), Write(RegBankSet, 0x00)]
    ensures InitWrites[Bank1SelectAt] == Write(RegBankSet, 0x01)
    ensures InitWrites[|InitWrites| - 1] == Write(RegBankSet, 0x00)
    ensures WritesTo(InitWrites, RegBankSet) == [0x00, 0x00, 0x00, 0x01, 0x00]
    ensures forall i | 0 <= i < |InitWrites| && InitWrites[i] == Write(RegBankSet, 0x01) :: i == Bank1SelectAt
  {
    SetupSelectsNoBank();
    var select0, select1 := Write(RegBankSet, 0x00), Write(RegBankSet, 0x01);
    assert BankResets == [select0] + [select0] + [select0];
    WritesToAppend([select0] + [select0], [select0], RegBankSet);
    WritesToAppend([select0], [select0], RegBankSet);
    WritesToNone(Bank0Setup, RegBankSet);
    WritesToNone(Bank1Setup, RegBankSet);
    WritesToAppend(BankResets, Bank0Setup, RegBankSet);
    WritesToAppend(BankResets + Bank0Setup, [select1], RegBankSet);
    WritesToAppend(BankResets + Bank0Setup + [select1], Bank1Setup, RegBankSet);
    WritesToAppend(BankResets + Bank0Setup + [select1] + Bank1Setup, [select0], RegBankSet);
  }

  /** Neither payload block writes to the bank-select register. */
  lemma SetupSelectsNoBank()
    ensures NoBankSelect(Bank0Setup) && NoBankSelect(Bank1Setup)
  {
  }

  /** The layout of the sequence: some writes ending in a select of bank 0,
      a block without bank selects, a select of bank 1, another block without
      bank selects, and a select of bank 0. */
  function Layout(resets: seq<Write>, block0: seq<Write>, block1: seq<Write>): seq<Write>
  {
    resets + block0 + [Write(RegBankSet, 0x01)] + block1 + [Write(RegBankSet, 0x00)]
  }

  /** In such a layout, the first block lands in bank 0, the second in bank 1,
      and the chip is left with bank 0 selected. */
  lemma {:induction false} LayoutBanks(c: Chip, resets: seq<Write>, block0: seq<Write>, block1: seq<Write>)
    requires |resets| > 0 && resets[|resets| - 1] == Write(RegBankSet, 0x00)
    requires NoBankSelect(block0) && NoBankSelect(block1)
    ensures var ws := Layout(resets, block0, block1);
      && (forall i | |resets| <= i < |resets| + |block0| :: Banks(c, ws)[i] == 0x00)
      && (forall i | |resets| + |block0| < i < |ws| - 1 :: Banks(c, ws)[i] == 0x01)
      && Run(c, ws).bank == 0x00
  {
    var select0, select1 := Write(RegBankSet, 0x00), Write(RegBankSet, 0x01);
    var p1 := resets + block0;
    var p2 := p1 + [select1];
    var p3 := p2 + block1;
    var c1 := Run(c, resets);
    var c2 := Run(c1, block0);
    var c3 := Step(c2, select1);
    var c4 := Run(c3, block1);
    assert [select1][..0] == [] && [select0][..0] == [];
    SteadyBank(c1, block0);
    SteadyBank(c3, block1);
    RunAppend(c, resets, block0);
    RunAppend(c, p1, [select1]);
    RunAppend(c, p2, block1);
    RunAppend(c, p3, [select0]);
    BanksAppend(c, resets, block0);
    BanksAppend(c, p1, [select1]);
    BanksAppend(c, p2, block1);
    BanksAppend(c, p3, [select0]);
    assert Banks(c, Layout(resets, block0, block1)) ==
      Banks(c, resets) + Banks(c1, block0) + [c2.bank] + Banks(c3, block1) + [c4.bank];
  }

  /** In such a layout, when the resets only select banks, the first block
      never writes to offset `o` and the second block writes `v` to it exactly
      once, the bank-1 cell at `o` ends holding `v`, the bank-0 cell at `o`
      keeps its value, and `v` is the only value the layout writes to `o`. */
  lemma {:induction false} LayoutCell(c: Chip, resets: seq<Write>, block0: seq<Write>, block1: seq<Write>, o: Byte, v: Byte)
    requires Complete(c.regs)
    requires |resets| > 0 && resets[|resets| - 1] == Write(RegBankSet, 0x00)
    requires NoBankSelect(block0) && NoBankSelect(block1)
    requires o != RegBankSet && Untouched(resets, o) && Untouched(block0, o)
    requires WritesTo(block1, o) == [v]
    ensures var r := Run(c, Layout(resets, block0, block1));
      && (0x01, o) in r.regs && r.regs[(0x01, o)] == v
      && (0x00, o) in r.regs && r.regs[(0x00, o)] == c.regs[(0x00, o)]
    ensures WritesTo(Layout(resets, block0, block1), o) == [v]
  {
    var select0, select1 := Write(RegBankSet, 0x00), Write(RegBankSet, 0x01);
    var p1 := resets + block0;
    var p2 := p1 + [select1];
    var p3 := p2 + block1;
    var c1 := Run(c, resets);
    var c2 := Run(c1, block0);
    var c3 := Step(c2, select1);
    var c4 := Run(c3, block1);
    assert [select1][..0] == [] && [select0][..0] == [];
    RunAppend(c, resets, block0);
    RunAppend(c, p1, [select1]);
    RunAppend(c, p2, block1);
    RunAppend(c, p3, [select0]);
    SteadyBank(c1, block0);
    RunComplete(c, p2);
    forall b: Byte | b == 0x00 || b == 0x01
      ensures (b, o) in c4.regs && c4.regs[(b, o)] == if b == 0x01 then v else c.regs[(b, o)]
    {
      RunKeeps(c, resets, b, o);
      RunKeeps(c1, block0, b, o);
      RunCell(c3, block1, b, o);
    }
    WritesToNone(resets, o);
    WritesToNone(block0, o);
    WritesToNone([select1], o);
    WritesToNone([select0], o);
    WritesToAppend(resets, block0, o);
    WritesToAppend(p1, [select1], o);
    WritesToAppend(p2, block1, o);
    WritesToAppend(p3, [select0], o);
  }

  /** Whatever bank the chip starts in, every payload write of lines 365-405
      lands in bank 0, every one of lines 408-430 in bank 1, and the chip is
      left with bank 0 selected. */
  lemma InitBanks(c: Chip)
    ensures forall i | |BankResets| <= i < Bank1SelectAt :: Banks(c, InitWrites)[i] == 0x00
    ensures forall i | Bank1SelectAt < i < |InitWrites| - 1 :: Banks(c, InitWrites)[i] == 0x01
    ensures Run(c, InitWrites).bank == 0x00
  {
    SetupSelectsNoBank();
    LayoutBanks(c, BankResets, Bank0Setup, Bank1Setup);
  }

  /** The bank-0 payload never writes to offsets 0x3E and 0x5E. */
  lemma Bank0Untouched()
    ensures Untouched(Bank0Setup, CursorClampCenterYH) && Untouched(Bank0Setup, Unknown1)
  {
  }

  /** A register written once in the lens paragraph, and nowhere else in the
      bank-1 payload, receives exactly that one value from the payload. */
  lemma {:induction false} LensWriteOnce(o: Byte, k: nat)
    requires k < |LensSetup| && LensSetup[k].offset == o
    requires forall i | 0 <= i < |LensSetup| && LensSetup[i].offset == o :: i == k
    requires Untouched(WindowSetup, o) && Untouched(IdleSetup, o)
    requires Untouched(ObjectTimeSetup, o) && Untouched(SleepSetup, o)
    ensures WritesTo(Bank1Setup, o) == [LensSetup[k].value]
  {
    WritesToNone(WindowSetup, o);
    WritesToOnce(LensSetup, o, k);
    WritesToNone(IdleSetup, o);
    WritesToNone(ObjectTimeSetup, o);
    WritesToNone(SleepSetup, o);
    WritesToAppend(WindowSetup, LensSetup, o);
    WritesToAppend(WindowSetup + LensSetup, IdleSetup, o);
    WritesToAppend(WindowSetup + LensSetup + IdleSetup, ObjectTimeSetup, o);
    WritesToAppend(WindowSetup + LensSetup + IdleSetup + ObjectTimeSetup, SleepSetup, o);
  }

  /** After the sequence, whatever the chip held before: `cursor_clamp_center_y_h`
      (0x3E) and `unknown_1` (0x5E) hold 0xFF and 0x3D in bank 1, and the
      bank-0 registers at those offsets are untouched; 0x5E is written once
      only, because the misspelled `unkown_1` store never reaches the bus. */
  lemma InitCells(c: Chip)
    requires Complete(c.regs)
    ensures var r := Run(c, InitWrites);
      && (0x01, CursorClampCenterYH) in r.regs && r.regs[(0x01, CursorClampCenterYH)] == 0xFF
      && (0x01, Unknown1) in r.regs && r.regs[(0x01, Unknown1)] == 0x3D
      && (0x00, CursorClampCenterYH) in r.regs && r.regs[(0x00, CursorClampCenterYH)] == c.regs[(0x00, CursorClampCenterYH)]
      && (0x00, Unknown1) in r.regs && r.regs[(0x00, Unknown1)] == c.regs[(0x00, Unknown1)]
    ensures WritesTo(InitWrites, Unknown1) == [0x3D]
  {
    SetupSelectsNoBank();
    Bank0Untouched();
    LensWriteOnce(CursorClampCenterYH, 4);
    LensWriteOnce(Unknown1, 5);
    LayoutCell(c, BankResets, Bank0Setup, Bank1Setup, CursorClampCenterYH, 0xFF);
    LayoutCell(c, BankResets, Bank0Setup, Bank1Setup, Unknown1, 0x3D);
  }

  // ---------------------------------------------------------------------------
  // The driver

  /** Appending `c` after `a + b` is appending `b + c` after `a`. */
  lemma AppendAssociates(a: seq<Write>, b: seq<Write>, c: seq<Write>)
    ensures a + b + c == a + (b + c)
  {
  }

  /** The whole sequence is the log of its parts, issued one after the other. */
  lemma LayoutParts(log: seq<Write>, resets: seq<Write>, block0: seq<Write>, block1: seq<Write>)
    ensures log + Layout(resets, block0, block1) ==
      log + resets + block0 + [Write(RegBankSet, 0x01)] + block1 + [Write(RegBankSet, 0x00)]
  {
  }

  /** The paragraph of the constructor at lines 365-367: issues the writes of `CursorClampSetup`. */
  method WriteCursorClamp(device: Device)
    requires device.Valid()
    modifies device
    ensures device.Valid() && device.log == old(device.log) + CursorClampSetup
  {
    device.WriteByte(CursorClampLeft, 0x07);
    device.WriteByte(CursorClampRight, 0x17);
    device.WriteByte(CursorClampUp, 0x06);
  }

  /** The paragraph of the constructor at line 369: issues the writes of `InterruptSetup`. */
  method WriteInterrupt(device: Device)
    requires device.Valid()
    modifies device
    ensures device.Valid() && device.log == old(device.log) + InterruptSetup
  {
    device.WriteByte(Int2En, 0x01);
  }

  /** The paragraph of the constructor at lines 371-376: issues the writes of `ExposureSetup`. */
  method WriteExposure(device: Device)
    requires device.Valid()
    modifies device
    ensures device.Valid() && device.log == old(device.log) + ExposureSetup
  {
    device.WriteByte(AELedOffUB, 0x2D);
    device.WriteByte(AELedOffLB, 0x0F);
    device.WriteByte(AEExposureUBL, 0x3C);
    device.WriteByte(AEExposureUBH, 0x00);
    device.WriteByte(AEExposureLBL, 0x1E);
    device.WriteByte(AEGainLB, 0x20);
  }

  /** The paragraph of the constructor at lines 378-380: issues the writes of `ManualSetup`. */
  method WriteManual(device: Device)
    requires device.Valid()
    modifies device
    ensures device.Valid() && device.log == old(device.log) + ManualSetup
  {
    device.WriteByte(Manual, 0x10);
    device.WriteByte(Unknown2, 0x27);
  }

  /** The paragraph of the constructor at lines 382-384: issues the writes of `InputModeSetup`. */
  method WriteInputMode(device: Device)
    requires device.Valid()
    modifies device
    ensures device.Valid() && device.log == old(device.log) + InputModeSetup
  {
    device.WriteByte(InputModeGpio01, 0x42);
    device.WriteByte(InputModeGpio23, 0x44);
    device.WriteByte(InputModeInt, 0x04);
  }

  /** The paragraph of the constructor at line 386: issues the writes of `ObjectSizeSetup`. */
  method WriteObjectSize(device: Device)
    requires device.Valid()
    modifies device
    ensures device.Valid() && device.log == old(device.log) + ObjectSizeSetup
  {
    device.WriteByte(CursorObjectSizeTh, 0x01);
  }

  /** The paragraph of the constructor at line 388: issues the writes of `NoMotionSetup`. */
  method WriteNoMotion(device: Device)
    requires device.Valid()
    modifies device
    ensures device.Valid() && device.log == old(device.log) + NoMotionSetup
  {
    device.WriteByte(NoMotionCountThd, 0x06);
  }

  /** The paragraph of the constructor at lines 390-392: issues the writes of `ZDirectionSetup`. */
  method WriteZDirection(device: Device)
    requires device.Valid()
    modifies device
    ensures device.Valid() && device.log == old(device.log) + ZDirectionSetup
  {
    device.WriteByte(ZDirectionThd, 0x0A);
    device.WriteByte(ZDirectionXYThd, 0x0C);
    device.WriteByte(ZDirectionAngleThd, 0x05);
  }

  /** The paragraph of the constructor at line 394: issues the writes of `RotateSetup`. */
  method WriteRotate(device: Device)
    requires device.Valid()
    modifies device
    ensures device.Valid() && device.log == old(device.log) + RotateSetup
  {
    device.WriteByte(RotateXYThd, 0x14);
  }

  /** The paragraph of the constructor at lines 396-397: issues the writes of `FilterSetup`. */
  method WriteFilter(device: Device)
    requires device.Valid()
    modifies device
    ensures device.Valid() && device.log == old(device.log) + FilterSetup
  {
    device.WriteByte(Filter, 0x3F);
    device.WriteByte(FilterImage, 0x19);
  }

  /** The paragraph of the constructor at lines 399-400: issues the writes of `YtoZSetup`. */
  method WriteYtoZ(device: Device)
    requires device.Valid()
    modifies device
    ensures device.Valid() && device.log == old(device.log) + YtoZSetup
  {
    device.WriteByte(YtoZSum, 0x19);
    device.WriteByte(YtoZFactor, 0x0B);
  }

  /** The paragraph of the constructor at line 402: issues the writes of `FilterLengthSetup`. */
  method WriteFilterLength(device: Device)
    requires device.Valid()
    modifies device
    ensures device.Valid() && device.log == old(device.log) + FilterLengthSetup
  {
    device.WriteByte(FilterLength, 0x03);
  }

  /** The paragraph of the constructor at lines 404-405: issues the writes of `WaveSetup`. */
  method WriteWave(device: Device)
    requires device.Valid()
    modifies device
    ensures device.Valid() && device.log == old(device.log) + WaveSetup
  {
    device.WriteByte(WaveThd, 0x64);
    device.WriteByte(AbortCountThd, 0x21);
  }

  /** The paragraph of the constructor at lines 408-410: issues the writes of `WindowSetup`. */
  method WriteWindow(device: Device)
    requires device.Valid()
    modifies device
    ensures device.Valid() && device.log == old(device.log) + WindowSetup
  {
    device.WriteByte(CmdHStart, 0x0F);
    device.WriteByte(CmdVStart, 0x10);
    device.WriteByte(CmdHV, 0x02);
  }

  /** The paragraph of the constructor at lines 412-417: issues the writes of `LensSetup`. */
  method WriteLens(device: Device)
    requires device.Valid()
    modifies device
    ensures device.Valid() && device.log == old(device.log) + LensSetup
  {
    device.WriteByte(LensShadingCompEnH, 0x01);
    device.WriteByte(OffestY, 0x39);
    device.WriteByte(Lsc, 0x7F);
    device.WriteByte(Lsft, 0x08);
    device.WriteByte(CursorClampCenterYH, 0xFF);
    device.WriteByte(Unknown1, 0x3D);
  }

  /** The paragraph of the constructor at lines 419-422: issues the writes of `IdleSetup`. */
  method WriteIdle(device: Device)
    requires device.Valid()
    modifies device
    ensures device.Valid() && device.log == old(device.log) + IdleSetup
  {
    device.WriteByte(IdleTimeL, 0x96);
    device.WriteByte(IdleTimeSleep1L, 0x97);
    device.WriteByte(IdleTimeSleep2L, 0xCD);
    device.WriteByte(IdleTimeSleep2H, 0x01);
  }

  /** The paragraph of the constructor at lines 424-425: issues the writes of `ObjectTimeSetup`. */
  method WriteObjectTime(device: Device)
    requires device.Valid()
    modifies device
    ensures device.Valid() && device.log == old(device.log) + ObjectTimeSetup
  {
    device.WriteByte(ObjectTime2L, 0x2C);
    device.WriteByte(ObjectTime2H, 0x01);
  }

  /** The paragraph of the constructor at lines 427-430: issues the writes of `SleepSetup`. */
  method WriteSleep(device: Device)
    requires device.Valid()
    modifies device
    ensures device.Valid() && device.log == old(device.log) + SleepSetup
  {
    device.WriteByte(TGEnH, 0x01);
    device.WriteByte(AutoSleepMode, 0x35);
    device.WriteByte(WakeUpSigSel, 0x00);
    device.WriteByte(SramReadEnH, 0x01);
  }

  /** Lines 365-405: the payload written while bank 0 is selected, one
      paragraph after the other. */
  method WriteBank0(device: Device)
    requires device.Valid()
    modifies device
    ensures device.Valid() && device.log == old(device.log) + Bank0Setup
  {
    ghost var base := device.log;
    WriteCursorClamp(device);
    ghost var done := CursorClampSetup;
    WriteInterrupt(device);
    AppendAssociates(base, done, InterruptSetup);
    done := done + InterruptSetup;
    WriteExposure(device);
    AppendAssociates(base, done, ExposureSetup);
    done := done + ExposureSetup;
    WriteManual(device);
    AppendAssociates(base, done, ManualSetup);
    done := done + ManualSetup;
    WriteInputMode(device);
    AppendAssociates(base, done, InputModeSetup);
    done := done + InputModeSetup;
    WriteObjectSize(device);
    AppendAssociates(base, done, ObjectSizeSetup);
    done := done + ObjectSizeSetup;
    WriteNoMotion(device);
    AppendAssociates(base, done, NoMotionSetup);
    done := done + NoMotionSetup;
    WriteZDirection(device);
    AppendAssociates(base, done, ZDirectionSetup);
    done := done + ZDirectionSetup;
    WriteRotate(device);
    AppendAssociates(base, done, RotateSetup);
    done := done + RotateSetup;
    WriteFilter(device);
    AppendAssociates(base, done, FilterSetup);
    done := done + FilterSetup;
    WriteYtoZ(device);
    AppendAssociates(base, done, YtoZSetup);
    done := done + YtoZSetup;
    WriteFilterLength(device);
    AppendAssociates(base, done, FilterLengthSetup);
    done := done + FilterLengthSetup;
    WriteWave(device);
    AppendAssociates(base, done, WaveSetup);
    done := done + WaveSetup;
  }

  /** Lines 408-430: the payload written while bank 1 is selected, one
      paragraph after the other. */
  method WriteBank1(device: Device)
    requires device.Valid()
    modifies device
    ensures device.Valid() && device.log == old(device.log) + Bank1Setup
  {
    ghost var base := device.log;
    WriteWindow(device);
    ghost var done := WindowSetup;
    WriteLens(device);
    AppendAssociates(base, done, LensSetup);
    done := done + LensSetup;
    WriteIdle(device);
    AppendAssociates(base, done, IdleSetup);
    done := done + IdleSetup;
    WriteObjectTime(device);
    AppendAssociates(base, done, ObjectTimeSetup);
    done := done + ObjectTimeSetup;
    WriteSleep(device);
    AppendAssociates(base, done, SleepSetup);
    done := done + SleepSetup;
  }

  /** The `APDS9500` driver object, bound to the bus device it was opened on. */
  class APDS9500 {
    const device: Device
    /** The instance attribute that the misspelled assignment `self.unkown_1 = 0x10` creates. */
    var unkown1: int

    /** The constructor: issues the fixed sequence of register writes, one
        paragraph of its body at a time, leaving bank 0 selected. */
    constructor (device: Device)
      requires device.Valid()
      modifies device
      ensures this.device == device && device.Valid()
      ensures device.log == old(device.log) + InitWrites
      ensures device.State() == Run(old(device.State()), InitWrites)
      ensures device.State().bank == 0x00
      ensures unkown1 == 0x10
    {
      this.device := device;
      unkown1 := 0;
      new;
      ghost var log0 := device.log;

      device.WriteByte(RegBankSet, 0x00);
      device.WriteByte(RegBankSet, 0x00);
      device.WriteByte(RegBankSet, 0x00);
      assert device.log == log0 + BankResets;

      WriteBank0(device);
      unkown1 := 0x10;  // line 379: a misspelled attribute, stored on the driver and never sent to the bus

      device.WriteByte(RegBankSet, 0x01);

      WriteBank1(device);

      device.WriteByte(RegBankSet, 0x00);

      LayoutParts(log0, BankResets, Bank0Setup, Bank1Setup);
      RunAppend(device.power, log0, InitWrites);
    }

    /** The `gesture` property: decodes the byte read from `Int_Flag_1` in the
        selected bank; reads nothing else and changes nothing. */
    method Gesture() returns (detected: map<int, bool>)
      requires device.Valid()
      ensures detected == DecodeFlags(device.Current(IntFlag1))
    {
      var flag := device.ReadByte(IntFlag1);
      detected := DecodeFlags(flag);
    }

    /** The `gesture_result` field: the low nibble of the `GestureResult` register. */
    method GestureResult() returns (code: int)
      requires device.Valid()
      ensures 0 <= code < 16
      ensures code == LowNibble(device.Current(GestureResultReg))
    {
      var v := device.ReadByte(GestureResultReg);
      code := LowNibble(v);
    }
  }
}
