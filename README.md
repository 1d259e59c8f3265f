# APDS9500 gesture-sensor driver — a Dafny model

This project models the logic of the CircuitPython driver for the APDS9500 gesture sensor.
The driver module is `adafruit_apds9500.py`. The model covers four pieces of it:

- **The `CV` constant-table helper** and its two instances. `add_values` fills a value-to-label
  table and a value-to-lsb table, and binds each name as a class attribute. `is_valid` tests
  membership in the label table. `Gesture` holds eight single-bit masks. `GestureResult` holds
  the codes 1..9.
  - Modelled as `ConstantTables.CV`, a class whose loop-based `AddValues` is proved against the
    functions `Labels`, `Lsbs` and `Bind`.
- **The register bank protocol of the chip.** The chip has two register banks and a bank-select
  register at 0xEF.
  - A one-byte write to 0xEF selects a bank.
  - Any other one-byte write lands in the cell (selected bank, offset).
  - `Registers.Device` is the bus device. It holds the chip as opened and the log of every write
    since. The chip's current bank and register file are that log replayed by `Run`.
- **The constructor's write sequence.** This is a fixed, ordered series of one-byte writes.
  - It starts with three selects of bank 0.
  - Then comes the bank-0 payload, then a select of bank 1, then the bank-1 payload.
  - It ends with a select of bank 0.
  - Each paragraph of the constructor's body is one constant (`CursorClampSetup`, …) and one method
    that issues exactly those writes.
  - Lemmas prove which bank each write lands in, the final bank, and what ends up in registers 0x3E
    and 0x5E of bank 1.
  - The misspelled `self.unkown_1 = 0x10` at line 379 creates a plain attribute. It issues no bus
    write, so register 0x5E receives exactly one value, 0x3D.
- **The two readers.**
  - `gesture` decodes the byte of `Int_Flag_1` (0x43) into a map with one `True` entry per set
    mask. It never tests the COUNTERCLOCKWISE bit 0x80.
  - `gesture_result` is the low nibble of register 0xB6.

Bytes are `bv8` values (`Bytes.Byte`). Every register offset and every written value is therefore
in 0..255 by its type, which is what the `">B"` format demands.

Three consequences of the code are worth stating plainly:

- `gesture` never tests 0x80, so a flag byte of 0xFF decodes to seven gestures;
- 0x05 has the UP and LEFT bits set and decodes to those two;
- the driver switches banks only by explicit writes to 0xEF, and it defines no error type of its own.

## Model

| member | source | states |
|---|---|---|
| ConstantTables.Labels | adafruit_apds9500.py:234-241 | the keys of the label table a loop over the tuples leaves are exactly the tuples' values |
| ConstantTables.Lsbs | adafruit_apds9500.py:235-241 | the keys of the lsb table are exactly the tuples' values |
| ConstantTables.Bind | adafruit_apds9500.py:237-239 | the attributes after binding are the earlier ones plus every tuple's name |
| ConstantTables.LabelsLast | adafruit_apds9500.py:237-240 | a value's label is the label of the last tuple carrying that value |
| ConstantTables.LsbsLast | adafruit_apds9500.py:237-241 | a value's lsb is that of the last tuple carrying that value |
| ConstantTables.BindLast | adafruit_apds9500.py:237-239 | a name is bound to the value of the last tuple carrying that name |
| ConstantTables.BindDistinct | adafruit_apds9500.py:237-239 | with pairwise distinct names, every name is bound to its own tuple's value |
| ConstantTables.BindKeeps | adafruit_apds9500.py:237-239 | an attribute that no tuple names keeps its earlier value |
| ConstantTables.CV.constructor | adafruit_apds9500.py:228-229 | a freshly declared subclass has no tables yet, so `is_valid` cannot be asked of it, and no names bound |
| ConstantTables.CV.IsValid | adafruit_apds9500.py:244-246 | membership in the label table, callable only once the table exists; its meaning after `add_values` is stated by `CV.AddValues` |
| ConstantTables.CV.AddValues | adafruit_apds9500.py:232-246 | the tables exist afterwards and are replaced (not merged) by those of the tuples; names are bound on top of the old attributes; `is_valid(v)` holds iff some tuple has value v; a tuple named `string` or `lsb`, which would make the table stores fail, is not admitted |
| Registers.Step | adafruit_apds9500.py:361-432 | device side: the chip's response to one one-byte store the constructor issues; its effect is stated by `StepEffect` |
| Registers.Run | adafruit_apds9500.py:361-432 | device side: the chip after a series of stores issued in order; its laws are `RunAppend`, `RunCell`, `RunKeeps` and `RunComplete` |
| Registers.StepEffect | adafruit_apds9500.py:361-432 | device side: a write to 0xEF selects its value as the bank and changes no cell; any other write stores its value at (selected bank, offset); every other cell is unchanged |
| Registers.Banks | adafruit_apds9500.py:361-432 | there is one bank in effect per write; the bank of each write is stated by `BanksAt` and `BanksAppend` |
| Registers.WritesTo | adafruit_apds9500.py:361-432 | an offset receives at most as many values as there are writes; which values, in order, is stated by `WritesToAppend`, `WritesToNone` and `WritesToOnce` |
| Registers.RunAppend | adafruit_apds9500.py:358-432 | replaying a concatenation of writes is replaying its parts in turn |
| Registers.BanksAppend | adafruit_apds9500.py:358-432 | the banks in effect over a concatenation are those of each part, the second part starting where the first one left the chip |
| Registers.BanksAt | adafruit_apds9500.py:361-432 | the bank in effect for write i is the bank after the writes before it |
| Registers.WritesToAppend | adafruit_apds9500.py:358-432 | the values written to an offset over a concatenation are those of each part, in order |
| Registers.SteadyBank | adafruit_apds9500.py:361-432 | writes with no bank select leave the bank as it was, for every write and afterwards |
| Registers.WritesToNone | adafruit_apds9500.py:361-432 | writes that never target an offset write nothing there |
| Registers.WritesToOnce | adafruit_apds9500.py:361-432 | writes that target an offset once write exactly that one value there |
| Registers.RunComplete | adafruit_apds9500.py:361-432 | every (bank, offset) cell still holds a value after any writes |
| Registers.RunKeeps | adafruit_apds9500.py:361-432 | a cell whose offset no write targets keeps its value in every bank, whatever banks are selected |
| Registers.RunCell | adafruit_apds9500.py:361-432 | without bank selects, a cell of the selected bank holds the last value written to its offset, and cells of other banks keep theirs |
| Registers.Device.constructor | adafruit_apds9500.py:359 | a device just opened has an empty write log, and its state is the chip as found |
| Registers.Device.WriteByte | adafruit_apds9500.py:296 | a `UnaryStruct` store appends one write to the log, and the chip's new state is that write applied to the old state |
| Registers.Device.Current | adafruit_apds9500.py:355 | device side: the byte a one-byte load of an offset returns, the register at that offset in the selected bank |
| Registers.Device.ReadByte | adafruit_apds9500.py:355 | a `UnaryStruct` load returns the register at that offset in the selected bank and changes nothing |
| Apds9500.DefineGestureResult | adafruit_apds9500.py:248-262 | `GestureResult` ends with the tables and attribute bindings of its nine tuples |
| Apds9500.DefineGesture | adafruit_apds9500.py:265-278 | `Gesture` ends with the tables and attribute bindings of its eight tuples |
| Apds9500.GestureValues | adafruit_apds9500.py:269-278 | the values of the `Gesture` table are the eight masks 0x01 … 0x80 |
| Apds9500.GestureTableSound | adafruit_apds9500.py:269-278 | every `Gesture` value is a byte with exactly one bit set |
| Apds9500.GestureTableBytes | adafruit_apds9500.py:269-278 | every `Gesture` value is in 0..255; 0x05 has two bits set and is not a valid `Gesture` value |
| Apds9500.GestureTableComplete | adafruit_apds9500.py:269-278 | every byte with exactly one bit set is a `Gesture` value |
| Apds9500.SingleBitMasks | adafruit_apds9500.py:269-278 | every byte with exactly one bit set is one of the eight masks the table lists |
| Apds9500.GestureMasksDistinct | adafruit_apds9500.py:269-278 | the eight `Gesture` values are pairwise distinct |
| Apds9500.GestureMasksSingleBit | adafruit_apds9500.py:269-278 | each of the eight masks is a byte with exactly one bit set |
| Apds9500.GestureResultTable | adafruit_apds9500.py:252-262 | a value is a valid `GestureResult` iff it is in 1..9, so 0 and 10..15 are not |
| Apds9500.GestureResultCodes | adafruit_apds9500.py:252-262 | the i-th `GestureResult` tuple has code i + 1 |
| Apds9500.GestureNamesDistinct | adafruit_apds9500.py:269-278 | the `Gesture` names are pairwise distinct |
| Apds9500.GestureBindings | adafruit_apds9500.py:269-278 | `Gesture.UP` … `Gesture.COUNTERCLOCKWISE` are bound to 0x01 … 0x80: the seven masks the decoder tests, plus COUNTERCLOCKWISE (0x80), which it never tests |
| Apds9500.BitSet | adafruit_apds9500.py:440-452 | the truth value of `gesture_flag & mask` for a byte and a mask in 0..255; the decoder's contracts are stated in its terms |
| Apds9500.Insert | adafruit_apds9500.py:440-441 | one test inserts the mask iff its bit is set in the flag byte, keeps every earlier key, and keeps every value `True` |
| Apds9500.DecodeFlags | adafruit_apds9500.py:436-455 | the keys are exactly the tested masks (0x01 … 0x40) whose bit is set; every value is `True`; COUNTERCLOCKWISE is never a key |
| Apds9500.DecodeMatchesTable | adafruit_apds9500.py:269-278 | the decoded keys are exactly the `Gesture` values other than COUNTERCLOCKWISE whose bit is set |
| Apds9500.DecodeNothing | adafruit_apds9500.py:440-453 | flag bytes 0x00 and 0x80 decode to no gesture |
| Apds9500.DecodeUpLeft | adafruit_apds9500.py:440-445 | flag byte 0x05 decodes to exactly UP and LEFT |
| Apds9500.DecodeAll | adafruit_apds9500.py:440-453 | flag byte 0xFF decodes to exactly the seven tested masks |
| Apds9500.TestedMasksCount | adafruit_apds9500.py:440-453 | the decoder tests seven masks |
| Apds9500.LowNibble | adafruit_apds9500.py:351-353 | the 4-bit field at bit 0 of the result register is the register's value modulo 16, in 0..15 |
| Apds9500.InitBankSelects | adafruit_apds9500.py:361-432 | the sequence begins with three selects of bank 0, selects bank 1 exactly once (line 406), and ends with a select of bank 0; these five are its only writes to 0xEF |
| Apds9500.SetupSelectsNoBank | adafruit_apds9500.py:365-430 | neither payload block writes to the bank-select register |
| Apds9500.LayoutBanks | adafruit_apds9500.py:361-432 | in a sequence shaped like the constructor's, the first block lands in bank 0, the second in bank 1, and bank 0 is selected at the end |
| Apds9500.LayoutCell | adafruit_apds9500.py:406-432 | in such a sequence, a value written once by the second block to an offset untouched before it ends in bank 1 at that offset, is the only value written there, and the bank-0 cell keeps its value |
| Apds9500.InitBanks | adafruit_apds9500.py:361-432 | whatever bank the chip starts in, every write of lines 365-405 lands in bank 0, every write of lines 408-430 in bank 1, and bank 0 is selected at the end |
| Apds9500.Bank0Untouched | adafruit_apds9500.py:365-405 | the bank-0 payload never writes to offsets 0x3E and 0x5E |
| Apds9500.LensWriteOnce | adafruit_apds9500.py:408-430 | a register written once in the lens paragraph and nowhere else in the bank-1 payload gets exactly that value from the payload |
| Apds9500.InitCells | adafruit_apds9500.py:379-417 | after the sequence, bank 1 holds 0xFF at 0x3E and 0x3D at 0x5E, bank 0 at those offsets is unchanged, and 0x5E is written exactly once, with 0x3D |
| Apds9500.WriteCursorClamp | adafruit_apds9500.py:365-367 | issues exactly the writes of the cursor clamp paragraph |
| Apds9500.WriteInterrupt | adafruit_apds9500.py:369 | issues exactly the interrupt-enable write |
| Apds9500.WriteExposure | adafruit_apds9500.py:371-376 | issues exactly the auto-exposure writes |
| Apds9500.WriteManual | adafruit_apds9500.py:378-380 | issues exactly the `manual` and `unknown_2` writes; the misspelled attribute between them issues none |
| Apds9500.WriteInputMode | adafruit_apds9500.py:382-384 | issues exactly the input-mode writes |
| Apds9500.WriteObjectSize | adafruit_apds9500.py:386 | issues exactly the object-size-threshold write |
| Apds9500.WriteNoMotion | adafruit_apds9500.py:388 | issues exactly the no-motion-count write |
| Apds9500.WriteZDirection | adafruit_apds9500.py:390-392 | issues exactly the z-direction writes |
| Apds9500.WriteRotate | adafruit_apds9500.py:394 | issues exactly the rotation-threshold write |
| Apds9500.WriteFilter | adafruit_apds9500.py:396-397 | issues exactly the filter writes |
| Apds9500.WriteYtoZ | adafruit_apds9500.py:399-400 | issues exactly the Y-to-Z writes |
| Apds9500.WriteFilterLength | adafruit_apds9500.py:402 | issues exactly the filter-length write |
| Apds9500.WriteWave | adafruit_apds9500.py:404-405 | issues exactly the wave and abort threshold writes |
| Apds9500.WriteWindow | adafruit_apds9500.py:408-410 | issues exactly the command-window writes |
| Apds9500.WriteLens | adafruit_apds9500.py:412-417 | issues exactly the lens-shading, cursor-centre and `unknown_1` writes |
| Apds9500.WriteIdle | adafruit_apds9500.py:419-422 | issues exactly the idle-time writes |
| Apds9500.WriteObjectTime | adafruit_apds9500.py:424-425 | issues exactly the object-time writes |
| Apds9500.WriteSleep | adafruit_apds9500.py:427-430 | issues exactly the timing-generator, sleep and SRAM writes |
| Apds9500.WriteBank0 | adafruit_apds9500.py:365-405 | issues the whole bank-0 payload, paragraph after paragraph |
| Apds9500.WriteBank1 | adafruit_apds9500.py:408-430 | issues the whole bank-1 payload, paragraph after paragraph |
| Apds9500.APDS9500.constructor | adafruit_apds9500.py:358-432 | the device's log grows by exactly the constructor's write sequence; the chip's new state is that sequence replayed on the old state; bank 0 is selected at the end; the misspelled attribute holds 0x10 |
| Apds9500.APDS9500.Gesture | adafruit_apds9500.py:435-455 | the result is the decoding of the byte at 0x43 in the selected bank; nothing else is read and nothing changes |
| Apds9500.APDS9500.GestureResult | adafruit_apds9500.py:351-353 | the result is the low nibble of register 0xB6 in the selected bank, in 0..15 |

## Left out

- The two-wire transport is not part of this model: the bus, the device address 0x73 (line 226)
  and `i2c_device.I2CDevice` (line 359). The driver object is given a `Registers.Device` instead.
- `UnaryStruct` and `ROBits` from the register library (lines 46-47) are not part of this model. A
  `UnaryStruct(addr, ">B")` store is one `WriteByte`, a load is one `ReadByte`, and
  `ROBits(4, 0xB6, 0)` is the low nibble of one read.
- Bus errors are left out. They are whatever the foreign library raises; the driver defines none.
- Apds9500.DecodeFlags: returns an unordered map. The order of keys in the driver's dictionary
  (insertion order, UP first and CLOCKWISE last) is not modelled.
- The chip itself changing its flag and result registers is left out. Between reads, the model's
  registers change only through the driver's writes.
- The bank-select semantics (`Registers.Step` and the lemmas about it) describe the chip the driver
  talks to. The driver's text states no bank semantics of its own; it only issues the stores at lines
  361-432 whose effect these lemmas describe.
- ConstantTables.CV.AddValues: the class attributes are kept apart from the tables and from the
  methods, so a tuple named `add_values` or `is_valid`, which in Python would replace that method for
  later calls, is not modelled; no table in the driver uses such a name.
- Registers.Device: stores the writes issued and derives the bank and register file by replaying them
  on the chip as it was opened. It does not keep them as separately updated fields; the observable
  state after each write is the same.
- Apds9500.APDS9500.constructor: the assignment of the misspelled attribute is placed after the
  bank-0 payload rather than between two of its writes. The attribute is not on the bus, so the order
  of bus writes and the final state are the same.
- Only the register-address constants the model uses are declared (lines 58-226). The descriptors
  `gestures_enabled`, `gesture_result_register` and `int_flag_2` (lines 349-356) are left out, because
  nothing in the driver uses them.
- The repeated descriptor definitions are left out, since Python keeps the later binding of each and
  both bindings name the same register (`reg_bank_set` at 296 and 326, `unknown_1` at 308 and 336).
- The example program `examples/apds9500_simpletest.py` is not part of this model. It is an endless
  polling loop that prints.
