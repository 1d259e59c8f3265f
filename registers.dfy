/**
 * The device side of the two-wire bus: a chip with two register banks and a
 * bank-select register at a fixed, bank-independent address. A one-byte write
 * to the bank-select register changes the selected bank; any other one-byte
 * write lands in the cell (selected bank, offset). Nothing on the driver side
 * tracks or switches banks on its own: the bank in effect is whatever value
 * was written last to the bank-select register.
 */
module Registers {
  import opened Bytes

  /** Address of the bank-select register (`APDS9500_R_RegBankSet`). */
  const RegBankSet: Byte := 0xEF

  /** One one-byte register write as it goes out on the bus. */
  datatype Write = Write(offset: Byte, value: Byte)

  /** The chip: the last value written to the bank-select register, and the
      register file indexed by (bank, offset). */
  datatype Chip = Chip(bank: Byte, regs: map<(Byte, Byte), Byte>)

  /** Every (bank, offset) pair holds a value. */
  ghost predicate Complete(regs: map<(Byte, Byte), Byte>) {
    forall b: Byte, o: Byte :: (b, o) in regs
  }

  /** No write of `ws` selects a bank. */
  ghost predicate NoBankSelect(ws: seq<Write>) {
    forall i | 0 <= i < |ws| :: ws[i].offset != RegBankSet
  }

  /** No write of `ws` goes to `offset`. */
  ghost predicate Untouched(ws: seq<Write>, offset: Byte) {
    forall i | 0 <= i < |ws| :: ws[i].offset != offset
  }

  /** The effect of one write on the chip: a bank select changes the bank and
      no cell; any other write changes exactly the cell (bank, offset). */
  function Step(c: Chip, w: Write): (r: Chip)
  {
    if w.offset == RegBankSet then c.(bank := w.value)
    else c.(regs := c.regs[(c.bank, w.offset) := w.value])
  }

  /** A write to the bank-select register selects `value` as the bank and
      changes no cell; any other write stores `value` in the cell at
      (selected bank, offset), and every other cell keeps its value. */
  lemma StepEffect(c: Chip, w: Write)
    ensures Step(c, w).bank == if w.offset == RegBankSet then w.value else c.bank
    ensures w.offset != RegBankSet ==>
      (c.bank, w.offset) in Step(c, w).regs && Step(c, w).regs[(c.bank, w.offset)] == w.value
    ensures forall b: Byte, o: Byte | (b, o) in c.regs && (w.offset == RegBankSet || (b, o) != (c.bank, w.offset)) ::
      (b, o) in Step(c, w).regs && Step(c, w).regs[(b, o)] == c.regs[(b, o)]
  {
  }

  /** The chip after the writes of `ws`, issued in order. */
  function Run(c: Chip, ws: seq<Write>): Chip
  {
    if ws == [] then c else Step(Run(c, ws[..|ws| - 1]), ws[|ws| - 1])
  }

  /** The bank in effect when each write of `ws` is issued. */
  function Banks(c: Chip, ws: seq<Write>): (r: seq<Byte>)
    ensures |r| == |ws|
  {
    if ws == [] then [] else Banks(c, ws[..|ws| - 1]) + [Run(c, ws[..|ws| - 1]).bank]
  }

  /** The values written to `offset`, in the order they are written. */
  function WritesTo(ws: seq<Write>, offset: Byte): (r: seq<Byte>)
    ensures |r| <= |ws|
  {
    if ws == [] then []
    else WritesTo(ws[..|ws| - 1], offset) + (if ws[|ws| - 1].offset == offset then [ws[|ws| - 1].value] else [])
  }

  /** Replaying a concatenation is replaying its parts one after the other. */
  lemma {:induction false} RunAppend(c: Chip, a: seq<Write>, b: seq<Write>)
    ensures Run(c, a + b) == Run(Run(c, a), b)
    decreases |b|
  {
    if b == [] {
      assert a + b == a;
    } else {
      assert (a + b)[..|a + b| - 1] == a + b[..|b| - 1];
      RunAppend(c, a, b[..|b| - 1]);
    }
  }

  /** The banks in effect over a concatenation: those of the first part, then
      those of the second part started from where the first part left off. */
  lemma {:induction false} BanksAppend(c: Chip, a: seq<Write>, b: seq<Write>)
    ensures Banks(c, a + b) == Banks(c, a) + Banks(Run(c, a), b)
    decreases |b|
  {
    if b == [] {
      assert a + b == a;
    } else {
      assert (a + b)[..|a + b| - 1] == a + b[..|b| - 1];
      BanksAppend(c, a, b[..|b| - 1]);
      RunAppend(c, a, b[..|b| - 1]);
    }
  }

  /** The bank in effect for write `i` is the bank after replaying the writes before it. */
  lemma {:induction false} BanksAt(c: Chip, ws: seq<Write>, i: nat)
    requires i < |ws|
    ensures Banks(c, ws)[i] == Run(c, ws[..i]).bank
    decreases |ws|
  {
    if i < |ws| - 1 {
      BanksAt(c, ws[..|ws| - 1], i);
      assert ws[..|ws| - 1][..i] == ws[..i];
    }
  }

  /** The values written to `offset` over a concatenation. */
  lemma {:induction false} WritesToAppend(a: seq<Write>, b: seq<Write>, offset: Byte)
    ensures WritesTo(a + b, offset) == WritesTo(a, offset) + WritesTo(b, offset)
    decreases |b|
  {
    if b == [] {
      assert a + b == a;
    } else {
      assert (a + b)[..|a + b| - 1] == a + b[..|b| - 1];
      WritesToAppend(a, b[..|b| - 1], offset);
    }
  }

  /** Writes that select no bank leave the bank alone: every one of them, and
      the chip afterwards, sees the bank the chip started in. */
  lemma {:induction false} SteadyBank(c: Chip, ws: seq<Write>)
    requires NoBankSelect(ws)
    ensures Run(c, ws).bank == c.bank
    ensures forall i | 0 <= i < |ws| :: Banks(c, ws)[i] == c.bank
    decreases |ws|
  {
    if ws != [] {
      SteadyBank(c, ws[..|ws| - 1]);
    }
  }

  /** A sequence with no write to `offset` has written nothing there. */
  lemma {:induction false} WritesToNone(ws: seq<Write>, offset: Byte)
    requires Untouched(ws, offset)
    ensures WritesTo(ws, offset) == []
    decreases |ws|
  {
    if ws != [] {
      WritesToNone(ws[..|ws| - 1], offset);
    }
  }

  /** A sequence whose only write to `offset` is write `k` has written exactly its value there. */
  lemma {:induction false} WritesToOnce(ws: seq<Write>, offset: Byte, k: nat)
    requires k < |ws| && ws[k].offset == offset
    requires forall i | 0 <= i < |ws| && ws[i].offset == offset :: i == k
    ensures WritesTo(ws, offset) == [ws[k].value]
    decreases |ws|
  {
    if k < |ws| - 1 {
      WritesToOnce(ws[..|ws| - 1], offset, k);
    } else {
      WritesToNone(ws[..|ws| - 1], offset);
    }
  }

  /** Replaying writes keeps the register file complete. */
  lemma {:induction false} RunComplete(c: Chip, ws: seq<Write>)
    requires Complete(c.regs)
    ensures Complete(Run(c, ws).regs)
    decreases |ws|
  {
    if ws != [] {
      RunComplete(c, ws[..|ws| - 1]);
    }
  }

  /** A cell whose offset no write targets keeps its value, whatever banks are selected meanwhile. */
  lemma {:induction false} RunKeeps(c: Chip, ws: seq<Write>, b: Byte, o: Byte)
    requires (b, o) in c.regs && Untouched(ws, o)
    ensures (b, o) in Run(c, ws).regs && Run(c, ws).regs[(b, o)] == c.regs[(b, o)]
    decreases |ws|
  {
    if ws != [] {
      RunKeeps(c, ws[..|ws| - 1], b, o);
    }
  }

  /** Without bank selects, a cell of the selected bank holds the last value
      written to its offset, and a cell of any other bank keeps its value. */
  lemma {:induction false} RunCell(c: Chip, ws: seq<Write>, b: Byte, o: Byte)
    requires Complete(c.regs) && NoBankSelect(ws)
    ensures (b, o) in Run(c, ws).regs
    ensures var written := WritesTo(ws, o);
      Run(c, ws).regs[(b, o)] == if b == c.bank && written != [] then written[|written| - 1] else c.regs[(b, o)]
    decreases |ws|
  {
    RunComplete(c, ws);
    if ws != [] {
      RunCell(c, ws[..|ws| - 1], b, o);
      SteadyBank(c, ws[..|ws| - 1]);
    }
  }

  /**
   * The bus device the driver talks to: the chip as it was when the device was
   * opened, and every one-byte write issued to it since, in order. The chip's
   * current bank and registers are those writes replayed on the opening state.
   */
  class Device {
    const power: Chip
    var log: seq<Write>

    function State(): Chip
      reads this
    {
      Run(power, log)
    }

    ghost predicate Valid()
      reads this
    {
      Complete(power.regs)
    }

    /** The byte a one-byte read of `offset` returns: the register at `offset`
        in the selected bank. */
    function Current(offset: Byte): Byte
      requires Valid()
      reads this
    {
      RunComplete(power, log);
      State().regs[(State().bank, offset)]
    }

    constructor (power: Chip)
      requires Complete(power.regs)
      ensures Valid() && this.power == power && log == [] && State() == power
    {
      this.power := power;
      log := [];
    }

    /** One one-byte write of `value` to `offset` (a `UnaryStruct(offset, ">B")` store). */
    method WriteByte(offset: Byte, value: Byte)
      requires Valid()
      modifies this
      ensures Valid()
      ensures log == old(log) + [Write(offset, value)]
      ensures State() == Step(old(State()), Write(offset, value))
    {
      log := log + [Write(offset, value)];
      assert log[..|log| - 1] == old(log);
    }

    /** One one-byte read of `offset` in the selected bank (a `UnaryStruct(offset, ">B")` load):
        it issues no write, so the chip is unchanged. */
    method ReadByte(offset: Byte) returns (v: Byte)
      requires Valid()
      ensures v == Current(offset)
    {
      v := Current(offset);
    }
  }
}
