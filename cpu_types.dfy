/**
 * The constant data of the CPU header: the eight status-flag masks and the
 * 256-entry instruction dispatch table. Nothing here changes at run time.
 */
module CpuTypes {

  import opened FixedWidth

  /** The named bits of the 8-bit status register. */
  datatype Flag = C | Z | I | D | B | U | V | N

  /** Every flag, in bit order from bit 0 (carry) to bit 7 (negative). */
  const AllFlags: seq<Flag> := [C, Z, I, D, B, U, V, N]

  /** Position of a flag's bit within the status byte. */
  function BitIndex(f: Flag): (k: nat)
    ensures k < 8
    ensures AllFlags[k] == f
  {
    match f
    case C => 0
    case Z => 1
    case I => 2
    case D => 3
    case B => 4
    case U => 5
    case V => 6
    case N => 7
  }

  /** The mask the header assigns to each flag, written as in the header: a single bit. */
  function Mask(f: Flag): (m: bv8)
    ensures m != 0 && m & (m - 1) == 0
  {
    match f
    case C => 0x01  // carry
    case Z => 0x02  // zero
    case I => 0x04  // disable interrupts
    case D => 0x08  // decimal mode, carried but inert
    case B => 0x10  // break
    case U => 0x20  // unused
    case V => 0x40  // overflow
    case N => 0x80  // negative
  }

  /** Each mask is the bit at the flag's position: C is bit 0 (0x01) up to N, bit 7 (0x80). */
  lemma MaskIsSingleBit(f: Flag)
    ensures Mask(f) == (1 as bv8) << BitIndex(f)
  {
  }

  /** Two different flags never share a bit. */
  lemma MasksDisjoint(f: Flag, g: Flag)
    ensures f != g <==> Mask(f) & Mask(g) == 0
  {
  }

  /** The eight masks together cover the whole status byte, each bit exactly once. */
  lemma MasksCover()
    ensures Mask(C) | Mask(Z) | Mask(I) | Mask(D) | Mask(B) | Mask(U) | Mask(V) | Mask(N) == 0xFF
    ensures Mask(C) + Mask(Z) + Mask(I) + Mask(D) + Mask(B) + Mask(U) + Mask(V) + Mask(N) == 0xFF
  {
  }

  /** Addressing-mode handlers that exist in this snapshot. */
  datatype AddressMode = IMP | ACC

  /** Opcode handlers that exist in this snapshot. */
  datatype Opcode = ILL

  /**
   * One entry of the dispatch table: addressing-mode handler, opcode handler
   * and base cycle cost. The mnemonic string is diagnostic and not modelled.
   */
  datatype Instruction = Instruction(mode: AddressMode, op: Opcode, cycles: u8)

  /** The one descriptor this snapshot uses: illegal opcode, implied mode, 7 cycles. */
  const Illegal: Instruction := Instruction(IMP, ILL, 7)

  /** One row of the table: sixteen illegal entries. */
  const Row: seq<Instruction> :=
    [Illegal, Illegal, Illegal, Illegal, Illegal, Illegal, Illegal, Illegal,
     Illegal, Illegal, Illegal, Illegal, Illegal, Illegal, Illegal, Illegal]

  /** The dispatch table, laid out as the header does: sixteen rows, 0x0 to 0xF. */
  const Instructions: seq<Instruction> := RowsUpTo(16)

  /** Each row holds sixteen copies of the illegal descriptor. */
  lemma RowShape()
    ensures |Row| == 16
    ensures forall j :: 0 <= j < |Row| ==> Row[j] == Illegal
  {
  }

  /**
   * The table has 16 x 16 = 256 entries, so any 8-bit opcode indexes it, and
   * every entry is the illegal descriptor.
   */
  lemma TableShape()
    ensures |Instructions| == 256
    ensures forall i :: 0 <= i < |Instructions| ==> Instructions[i] == Illegal
  {
    RowShape();
    forall i | 0 <= i < |Instructions|
      ensures Instructions[i] == Illegal
    {
      RowsIndex(16, i);
    }
  }

  /** Rows 0 to k - 1 of the table, concatenated in the header's order. */
  function RowsUpTo(k: nat): (rows: seq<Instruction>)
    requires 1 <= k <= 16
    ensures |rows| == 16 * k
  {
    if k == 1 then Row else RowsUpTo(k - 1) + Row
  }

  /** Entry i of the first k rows is entry i % 16 of a row. */
  lemma {:induction false} RowsIndex(k: nat, i: int)
    requires 1 <= k <= 16 && 0 <= i < 16 * k
    ensures RowsUpTo(k)[i] == Row[i % 16]
  {
    RowShape();
    if k > 1 && i < 16 * (k - 1) {
      RowsIndex(k - 1, i);
    }
  }

  /**
   * The table as a total function of the opcode byte: every opcode decodes to
   * implied addressing, the illegal-opcode handler and a base cost of 7.
   */
  function Lookup(opcode: u8): (e: Instruction)
    ensures e.mode == IMP && e.op == ILL && e.cycles == 7
  {
    TableShape();
    Instructions[opcode]
  }
}
