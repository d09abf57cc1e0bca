/**
 * The instruction set of the virtual CPU: six opcodes, each encoded as one
 * byte, with the values 0x10 through 0x15 in declaration order.
 */
module Opcodes {
  import opened Wrappers

  datatype Instruction =
    | MovLitReg   // literal:16, register:8
    | MovRegReg   // from:8, to:8
    | MovRegMem   // from:8, address:16
    | MovMemReg   // address:16, to:8
    | AddRegReg   // register1:8, register2:8
    | JmpNotEql   // value:16, address:16

  /** The opcodes in declaration order. */
  const AllInstructions: seq<Instruction> :=
    [MovLitReg, MovRegReg, MovRegMem, MovMemReg, AddRegReg, JmpNotEql]

  /** The opcode byte of an instruction. */
  function Encode(op: Instruction): (b: int)
    ensures 0x10 <= b <= 0x15
    ensures Decode(b) == Some(op)
  {
    match op
    case MovLitReg => 0x10
    case MovRegReg => 0x11
    case MovRegMem => 0x12
    case MovMemReg => 0x13
    case AddRegReg => 0x14
    case JmpNotEql => 0x15
  }

  /** The instruction a value names, or None for a value outside the enumeration. */
  function Decode(b: int): (r: Option<Instruction>)
    ensures r.Some? <==> 0x10 <= b <= 0x15
  {
    if b == 0x10 then Some(MovLitReg)
    else if b == 0x11 then Some(MovRegReg)
    else if b == 0x12 then Some(MovRegMem)
    else if b == 0x13 then Some(MovMemReg)
    else if b == 0x14 then Some(AddRegReg)
    else if b == 0x15 then Some(JmpNotEql)
    else None
  }

  /** Every value that decodes is the encoding of what it decodes to. */
  lemma DecodeThenEncode(b: int)
    requires Decode(b).Some?
    ensures Encode(Decode(b).value) == b
  {
  }

  /** Distinct opcodes have distinct bytes. */
  lemma EncodeInjective(a: Instruction, b: Instruction)
    ensures Encode(a) == Encode(b) ==> a == b
  {
    if Encode(a) == Encode(b) {
      assert Some(a) == Decode(Encode(a)) == Decode(Encode(b)) == Some(b);
    }
  }

  /**
   * There are exactly six opcodes, every one is listed once, and the i-th
   * in declaration order is encoded as 0x10 + i, which fits in one byte.
   */
  lemma DeclarationOrder()
    ensures |AllInstructions| == 6
    ensures forall op: Instruction :: op in AllInstructions
    ensures forall i :: 0 <= i < |AllInstructions| ==> Encode(AllInstructions[i]) == 0x10 + i < 0x100
  {
    forall op: Instruction ensures op in AllInstructions {
      assert AllInstructions[Encode(op) - 0x10] == op;
    }
  }
}
