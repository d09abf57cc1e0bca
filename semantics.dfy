/**
 * Reference semantics of the CPU at the level of register values: the
 * register file is a sequence of ten words (`ip` first, `acc` second), the
 * memory a sequence of bytes. Each operation yields None exactly when the
 * source would read or write outside memory; that case is not modelled.
 */
module Semantics {
  import opened Wrappers
  import opened BigEndian
  import opened Registers
  import opened Opcodes

  /** The two kinds of error the CPU throws, with their payloads. */
  datatype Error =
    | UnknownRegister(name: string)
    | UnknownInstruction(instruction: int)

  datatype Machine = Machine(regs: seq<Word>, mem: seq<Byte>)

  predicate WellFormed(m: Machine) {
    |m.regs| == |RegisterNames|
  }

  /** The operand widths a fetch accepts, in bits. */
  type BatchSize = n: int | n == 8 || n == 16 witness 8

  /** A fetched value and the machine after the fetch advanced `ip`. */
  datatype Fetched = Fetched(value: Word, after: Machine)

  /** The machine an instruction leaves behind and the error it threw, if any. */
  datatype Outcome = Outcome(after: Machine, raised: Option<Error>)

  function Completed(m: Machine): Outcome {
    Outcome(m, None)
  }

  /** Reads `batchSize` bits big-endian at `ip`, then advances `ip` by as many bytes. */
  function Fetch(m: Machine, batchSize: BatchSize): (r: Option<Fetched>)
    requires WellFormed(m)
    ensures r.Some? ==> WellFormed(r.value.after)
  {
    var ip := m.regs[IP];
    if ip + batchSize / 8 > |m.mem| then None
    else
      var value := if batchSize == 8 then m.mem[ip] else Get16(m.mem, ip);
      Some(Fetched(value, m.(regs := m.regs[IP := ToUint16(ip + batchSize / 8)])))
  }

  /** Stores `v`, truncated to 16 bits, in register `k`. */
  function WriteRegister(m: Machine, k: RegIndex, v: int): (r: Machine)
    requires WellFormed(m)
    ensures WellFormed(r) && r.mem == m.mem
    ensures r.regs[k] == ToUint16(v)
    ensures forall j :: 0 <= j < |r.regs| && j != k ==> r.regs[j] == m.regs[j]
  {
    m.(regs := m.regs[k := ToUint16(v)])
  }

  /** MOV_LIT_REG: literal:16, then register:8; the register receives the literal. */
  function ExecMovLitReg(m: Machine): (r: Option<Machine>)
    requires WellFormed(m)
    ensures r.Some? ==> WellFormed(r.value)
  {
    var literal :- Fetch(m, 16);
    var register :- Fetch(literal.after, 8);
    Some(WriteRegister(register.after, RegisterSlot(register.value), literal.value))
  }

  /** MOV_REG_REG: from:8, then to:8; the source is read after both fetches. */
  function ExecMovRegReg(m: Machine): (r: Option<Machine>)
    requires WellFormed(m)
    ensures r.Some? ==> WellFormed(r.value)
  {
    var from :- Fetch(m, 8);
    var to :- Fetch(from.after, 8);
    var s := to.after;
    Some(WriteRegister(s, RegisterSlot(to.value), s.regs[RegisterSlot(from.value)]))
  }

  /** MOV_REG_MEM: from:8, then address:16; the register is stored big-endian at the address. */
  function ExecMovRegMem(m: Machine): (r: Option<Machine>)
    requires WellFormed(m)
    ensures r.Some? ==> WellFormed(r.value)
  {
    var from :- Fetch(m, 8);
    var address :- Fetch(from.after, 16);
    var s := address.after;
    if address.value + 2 > |s.mem| then None
    else Some(s.(mem := Set16(s.mem, address.value, s.regs[RegisterSlot(from.value)])))
  }

  /** MOV_MEM_REG: address:16, then to:8; the register receives the word at the address. */
  function ExecMovMemReg(m: Machine): (r: Option<Machine>)
    requires WellFormed(m)
    ensures r.Some? ==> WellFormed(r.value)
  {
    var address :- Fetch(m, 16);
    var to :- Fetch(address.after, 8);
    var s := to.after;
    if address.value + 2 > |s.mem| then None
    else Some(WriteRegister(s, RegisterSlot(to.value), Get16(s.mem, address.value)))
  }

  /** ADD_REG_REG: register1:8, then register2:8; `acc` receives the sum, truncated to 16 bits. */
  function ExecAddRegReg(m: Machine): (r: Option<Machine>)
    requires WellFormed(m)
    ensures r.Some? ==> WellFormed(r.value)
  {
    var register1 :- Fetch(m, 8);
    var register2 :- Fetch(register1.after, 8);
    var s := register2.after;
    Some(WriteRegister(s, ACC, (s.regs[RegisterSlot(register1.value)] as int) + s.regs[RegisterSlot(register2.value)]))
  }

  /** JMP_NOT_EQL: value:16, then address:16; `ip` becomes the address when the value differs from `acc`. */
  function ExecJmpNotEql(m: Machine): (r: Option<Machine>)
    requires WellFormed(m)
    ensures r.Some? ==> WellFormed(r.value)
  {
    var value :- Fetch(m, 16);
    var address :- Fetch(value.after, 16);
    var s := address.after;
    Some(if value.value != s.regs[ACC] then WriteRegister(s, IP, address.value) else s)
  }

  /** Decodes the operands of `instruction` and applies its effect. */
  function Execute(m: Machine, instruction: int): (r: Option<Outcome>)
    requires WellFormed(m)
    ensures r.Some? ==> WellFormed(r.value.after)
  {
    match Decode(instruction)
    case None => Some(Outcome(m, Some(UnknownInstruction(instruction))))
    case Some(op) =>
      var after :- match op
        case MovLitReg => ExecMovLitReg(m)
        case MovRegReg => ExecMovRegReg(m)
        case MovRegMem => ExecMovRegMem(m)
        case MovMemReg => ExecMovMemReg(m)
        case AddRegReg => ExecAddRegReg(m)
        case JmpNotEql => ExecJmpNotEql(m);
      Some(Completed(after))
  }

  /** Fetches one opcode byte and executes it. */
  function Step(m: Machine): (r: Option<Outcome>)
    requires WellFormed(m)
    ensures r.Some? ==> WellFormed(r.value.after)
  {
    var opcode :- Fetch(m, 8);
    Execute(opcode.after, opcode.value)
  }

  // Closed forms of each instruction, stated in terms of the machine before it.

  /** A fetch reads big-endian at `ip` and moves `ip` on by the width in bytes, modulo 2^16. */
  lemma FetchEffect(m: Machine, batchSize: BatchSize)
    requires WellFormed(m)
    ensures Fetch(m, batchSize).Some? <==> m.regs[IP] + batchSize / 8 <= |m.mem|
    ensures Fetch(m, batchSize).Some? ==>
              var ip: int := m.regs[IP];
              var f := Fetch(m, batchSize).value;
              && f.value == (if batchSize == 8 then m.mem[ip] else (m.mem[ip] as int) * 0x100 + m.mem[ip + 1])
              && f.after.mem == m.mem
              && f.after.regs[IP] == (ip + batchSize / 8) % 0x1_0000
              && forall k :: 0 <= k < |m.regs| && k != IP ==> f.after.regs[k] == m.regs[k]
  {
  }

  /**
   * MOV_LIT_REG writes the literal into the register its third operand byte
   * designates and moves `ip` three bytes on; when that register is `ip`
   * itself, the instruction is a jump to the literal.
   */
  lemma MovLitRegEffect(m: Machine)
    requires WellFormed(m) && Execute(m, Encode(MovLitReg)).Some?
    ensures var ip: int := m.regs[IP];
            && ToUint16(ip + 2) < |m.mem|
            && var k := RegisterSlot(m.mem[ToUint16(ip + 2)]);
               Execute(m, Encode(MovLitReg))
                 == Some(Completed(m.(regs := m.regs[IP := ToUint16(ip + 3)][k := Get16(m.mem, ip)])))
  {
    var ip: int := m.regs[IP];
    assert Decode(Encode(MovLitReg)) == Some(MovLitReg);
    var first := Fetch(m, 16);
    assert first.Some?;
    var second := Fetch(first.value.after, 8);
    assert second.Some?;
    ToUint16Add(ip + 2, 1);
    assert second.value.after.regs == m.regs[IP := ToUint16(ip + 3)];
  }

  /** MOV_LIT_REG whose register byte designates `ip` is an unconditional jump to the literal. */
  lemma MovLitRegIntoIpJumps(m: Machine)
    requires WellFormed(m) && Execute(m, Encode(MovLitReg)).Some?
    requires ToUint16(m.regs[IP] as int + 2) < |m.mem| && RegisterSlot(m.mem[ToUint16(m.regs[IP] as int + 2)]) == IP
    ensures Execute(m, Encode(MovLitReg)) == Some(Completed(m.(regs := m.regs[IP := Get16(m.mem, m.regs[IP])])))
  {
    var ip: int := m.regs[IP];
    MovLitRegEffect(m);
    assert m.regs[IP := ToUint16(ip + 3)][IP := Get16(m.mem, ip)] == m.regs[IP := Get16(m.mem, ip)];
  }

  /**
   * MOV_REG_REG copies one register into another. Both operand bytes are
   * fetched first, so a copy from `ip` sees `ip` already two bytes on.
   */
  lemma MovRegRegEffect(m: Machine)
    requires WellFormed(m) && Execute(m, Encode(MovRegReg)).Some?
    ensures var ip: int := m.regs[IP];
            && ToUint16(ip + 1) < |m.mem|
            && var live := m.regs[IP := ToUint16(ip + 2)];
               var from := RegisterSlot(m.mem[ip]);
               var to := RegisterSlot(m.mem[ToUint16(ip + 1)]);
               Execute(m, Encode(MovRegReg)) == Some(Completed(m.(regs := live[to := live[from]])))
  {
    var ip: int := m.regs[IP];
    assert Decode(Encode(MovRegReg)) == Some(MovRegReg);
    var first := Fetch(m, 8);
    assert first.Some?;
    var second := Fetch(first.value.after, 8);
    assert second.Some?;
    ToUint16Add(ip + 1, 1);
    assert second.value.after.regs == m.regs[IP := ToUint16(ip + 2)];
  }

  /**
   * MOV_REG_REG whose two register bytes designate the same register changes
   * no register value: only `ip` moves, two bytes on.
   */
  lemma MovRegRegSameSlotOnlyAdvancesIp(m: Machine)
    requires WellFormed(m) && Execute(m, Encode(MovRegReg)).Some?
    requires ToUint16(m.regs[IP] as int + 1) < |m.mem|
    requires RegisterSlot(m.mem[m.regs[IP]]) == RegisterSlot(m.mem[ToUint16(m.regs[IP] as int + 1)])
    ensures Execute(m, Encode(MovRegReg)) == Some(Completed(m.(regs := m.regs[IP := ToUint16(m.regs[IP] as int + 2)])))
  {
    var ip: int := m.regs[IP];
    MovRegRegEffect(m);
    var live := m.regs[IP := ToUint16(ip + 2)];
    var k := RegisterSlot(m.mem[ip]);
    assert live[k := live[k]] == live;
  }

  /**
   * MOV_REG_MEM stores a register big-endian at the 16-bit address operand:
   * of memory only the bytes at `address` and `address + 1` change, and of
   * the registers only `ip`, which moves three bytes on.
   */
  lemma MovRegMemEffect(m: Machine)
    requires WellFormed(m) && Execute(m, Encode(MovRegMem)).Some?
    ensures var ip: int := m.regs[IP];
            && ToUint16(ip + 1) + 2 <= |m.mem|
            && var address := Get16(m.mem, ToUint16(ip + 1));
               var live := m.regs[IP := ToUint16(ip + 3)];
               var from := RegisterSlot(m.mem[ip]);
               && address + 2 <= |m.mem|
               && Execute(m, Encode(MovRegMem)) == Some(Completed(Machine(live, Set16(m.mem, address, live[from]))))
  {
    var ip: int := m.regs[IP];
    assert Decode(Encode(MovRegMem)) == Some(MovRegMem);
    var first := Fetch(m, 8);
    assert first.Some?;
    var second := Fetch(first.value.after, 16);
    assert second.Some?;
    ToUint16Add(ip + 1, 2);
    assert second.value.after.regs == m.regs[IP := ToUint16(ip + 3)];
  }

  /**
   * MOV_MEM_REG loads the big-endian word at the address operand into the
   * register its third operand byte designates; memory does not change.
   */
  lemma MovMemRegEffect(m: Machine)
    requires WellFormed(m) && Execute(m, Encode(MovMemReg)).Some?
    ensures var ip: int := m.regs[IP];
            && ToUint16(ip + 2) < |m.mem|
            && var address := Get16(m.mem, ip);
               var to := RegisterSlot(m.mem[ToUint16(ip + 2)]);
               && address + 2 <= |m.mem|
               && Execute(m, Encode(MovMemReg))
                    == Some(Completed(m.(regs := m.regs[IP := ToUint16(ip + 3)][to := Get16(m.mem, address)])))
  {
    var ip: int := m.regs[IP];
    assert Decode(Encode(MovMemReg)) == Some(MovMemReg);
    var first := Fetch(m, 16);
    assert first.Some?;
    var second := Fetch(first.value.after, 8);
    assert second.Some?;
    ToUint16Add(ip + 2, 1);
    assert second.value.after.regs == m.regs[IP := ToUint16(ip + 3)];
  }

  /**
   * ADD_REG_REG puts the sum of two registers, modulo 2^16, into `acc`, after
   * moving `ip` past its two operand bytes.
   */
  lemma AddRegRegEffect(m: Machine)
    requires WellFormed(m) && Execute(m, Encode(AddRegReg)).Some?
    ensures var ip: int := m.regs[IP];
            && ToUint16(ip + 1) < |m.mem|
            && var live := m.regs[IP := ToUint16(ip + 2)];
               var k1 := RegisterSlot(m.mem[ip]);
               var k2 := RegisterSlot(m.mem[ToUint16(ip + 1)]);
               Execute(m, Encode(AddRegReg))
                 == Some(Completed(m.(regs := live[ACC := (live[k1] as int + live[k2]) % 0x1_0000])))
  {
    var ip: int := m.regs[IP];
    assert Decode(Encode(AddRegReg)) == Some(AddRegReg);
    var first := Fetch(m, 8);
    assert first.Some?;
    var second := Fetch(first.value.after, 8);
    assert second.Some?;
    ToUint16Add(ip + 1, 1);
    assert second.value.after.regs == m.regs[IP := ToUint16(ip + 2)];
  }

  /**
   * JMP_NOT_EQL always consumes both 16-bit operands, moving `ip` four bytes
   * on, and then jumps to the address exactly when the value differs from `acc`.
   */
  lemma JmpNotEqlEffect(m: Machine)
    requires WellFormed(m) && Execute(m, Encode(JmpNotEql)).Some?
    ensures var ip: int := m.regs[IP];
            && ToUint16(ip + 2) + 2 <= |m.mem|
            && var value := Get16(m.mem, ip);
               var address := Get16(m.mem, ToUint16(ip + 2));
               var live := m.regs[IP := ToUint16(ip + 4)];
               Execute(m, Encode(JmpNotEql))
                 == Some(Completed(m.(regs := if value != m.regs[ACC] then live[IP := address] else live)))
  {
    var ip: int := m.regs[IP];
    assert Decode(Encode(JmpNotEql)) == Some(JmpNotEql);
    var first := Fetch(m, 16);
    assert first.Some?;
    var second := Fetch(first.value.after, 16);
    assert second.Some?;
    ToUint16Add(ip + 2, 2);
    assert second.value.after.regs == m.regs[IP := ToUint16(ip + 4)];
  }

  /**
   * An instruction throws exactly when its value is outside 0x10..0x15; it
   * then throws UnknownInstruction with that value and changes nothing.
   */
  lemma RaisesOnlyUnknownInstruction(m: Machine, instruction: int)
    requires WellFormed(m) && Execute(m, instruction).Some?
    ensures Execute(m, instruction).value.raised.Some? <==> !(0x10 <= instruction <= 0x15)
    ensures Execute(m, instruction).value.raised.Some? ==>
              Execute(m, instruction).value == Outcome(m, Some(UnknownInstruction(instruction)))
  {
  }

  /** MOV_REG_MEM is the only instruction that writes memory. */
  lemma OnlyMovRegMemWritesMemory(m: Machine, instruction: int)
    requires WellFormed(m) && Execute(m, instruction).Some?
    requires instruction != Encode(MovRegMem)
    ensures Execute(m, instruction).value.after.mem == m.mem
  {
  }

  /** A step on an unknown opcode throws after the opcode fetch, and changes nothing else. */
  lemma StepUnknownInstruction(m: Machine)
    requires WellFormed(m) && m.regs[IP] < |m.mem| && Decode(m.mem[m.regs[IP]]).None?
    ensures var ip: int := m.regs[IP];
            Step(m) == Some(Outcome(m.(regs := m.regs[IP := ToUint16(ip + 1)]), Some(UnknownInstruction(m.mem[ip]))))
  {
  }

  // Worked runs of one step from `ip` = 0.

  /** `10 12 34 02`: r1 (register byte 2) receives 0x1234 and `ip` ends at 4. */
  lemma MovLitRegRun()
    ensures var m := Machine([0, 0, 0, 0, 0, 0, 0, 0, 0, 0], [0x10, 0x12, 0x34, 0x02]);
            Step(m) == Some(Completed(m.(regs := [4, 0, 0x1234, 0, 0, 0, 0, 0, 0, 0])))
  {
    var m := Machine([0, 0, 0, 0, 0, 0, 0, 0, 0, 0], [0x10, 0x12, 0x34, 0x02]);
    var m1 := m.(regs := m.regs[IP := 1]);
    var m3 := m.(regs := m.regs[IP := 3]);
    var m4 := m.(regs := m.regs[IP := 4]);
    assert Fetch(m, 8) == Some(Fetched(0x10, m1));
    assert m1.regs[IP := 3] == m3.regs;
    assert Fetch(m1, 16) == Some(Fetched(0x1234, m3));
    assert m3.regs[IP := 4] == m4.regs;
    assert Fetch(m3, 8) == Some(Fetched(0x02, m4));
    var after := m.(regs := [4, 0, 0x1234, 0, 0, 0, 0, 0, 0, 0]);
    assert WriteRegister(m4, 2, 0x1234) == after;
    assert ExecMovLitReg(m1) == Some(after);
    assert Decode(0x10) == Some(MovLitReg);
  }

  /** `14 02 03` with r1 = 0xFFFF and r2 = 2: `acc` wraps to 1. */
  lemma AddRegRegOverflowRun()
    ensures var m := Machine([0, 0, 0xFFFF, 2, 0, 0, 0, 0, 0, 0], [0x14, 0x02, 0x03]);
            Step(m) == Some(Completed(m.(regs := [3, 1, 0xFFFF, 2, 0, 0, 0, 0, 0, 0])))
  {
    var m := Machine([0, 0, 0xFFFF, 2, 0, 0, 0, 0, 0, 0], [0x14, 0x02, 0x03]);
    var m1 := m.(regs := m.regs[IP := 1]);
    var m2 := m.(regs := m.regs[IP := 2]);
    var m3 := m.(regs := m.regs[IP := 3]);
    assert Fetch(m, 8) == Some(Fetched(0x14, m1));
    assert m1.regs[IP := 2] == m2.regs;
    assert Fetch(m1, 8) == Some(Fetched(0x02, m2));
    assert m2.regs[IP := 3] == m3.regs;
    assert Fetch(m2, 8) == Some(Fetched(0x03, m3));
    var after := m.(regs := [3, 1, 0xFFFF, 2, 0, 0, 0, 0, 0, 0]);
    assert WriteRegister(m3, ACC, 0xFFFF + 2) == after;
    assert ExecAddRegReg(m1) == Some(after);
    assert Decode(0x14) == Some(AddRegReg);
  }

  /**
   * `14 02 04` with r1 = 0xFFFF and r2 = 2: register byte 4 is position 4,
   * which is r3 (still 0), not r2, so `acc` receives 0xFFFF.
   */
  lemma AddRegRegByteFourIsR3Run()
    ensures RegisterNames[4] == "r3"
    ensures var m := Machine([0, 0, 0xFFFF, 2, 0, 0, 0, 0, 0, 0], [0x14, 0x02, 0x04]);
            Step(m) == Some(Completed(m.(regs := [3, 0xFFFF, 0xFFFF, 2, 0, 0, 0, 0, 0, 0])))
  {
    var m := Machine([0, 0, 0xFFFF, 2, 0, 0, 0, 0, 0, 0], [0x14, 0x02, 0x04]);
    var m1 := m.(regs := m.regs[IP := 1]);
    var m2 := m.(regs := m.regs[IP := 2]);
    var m3 := m.(regs := m.regs[IP := 3]);
    assert Fetch(m, 8) == Some(Fetched(0x14, m1));
    assert m1.regs[IP := 2] == m2.regs;
    assert Fetch(m1, 8) == Some(Fetched(0x02, m2));
    assert m2.regs[IP := 3] == m3.regs;
    assert Fetch(m2, 8) == Some(Fetched(0x04, m3));
    var after := m.(regs := [3, 0xFFFF, 0xFFFF, 2, 0, 0, 0, 0, 0, 0]);
    assert WriteRegister(m3, ACC, 0xFFFF + 0) == after;
    assert ExecAddRegReg(m1) == Some(after);
    assert Decode(0x14) == Some(AddRegReg);
  }

  /** `15 00 0A 00 00` with `acc` = 5: the jump to 0 is taken. */
  lemma JmpNotEqlTakenRun()
    ensures var m := Machine([0, 5, 0, 0, 0, 0, 0, 0, 0, 0], [0x15, 0x00, 0x0A, 0x00, 0x00]);
            Step(m) == Some(Completed(m))
  {
    var m := Machine([0, 5, 0, 0, 0, 0, 0, 0, 0, 0], [0x15, 0x00, 0x0A, 0x00, 0x00]);
    var m1 := m.(regs := m.regs[IP := 1]);
    var m3 := m.(regs := m.regs[IP := 3]);
    var m5 := m.(regs := m.regs[IP := 5]);
    assert Fetch(m, 8) == Some(Fetched(0x15, m1));
    assert m1.regs[IP := 3] == m3.regs;
    assert Fetch(m1, 16) == Some(Fetched(0x0A, m3));
    assert m3.regs[IP := 5] == m5.regs;
    assert Fetch(m3, 16) == Some(Fetched(0x00, m5));
    assert m5.regs[IP := 0] == m.regs;
    assert ExecJmpNotEql(m1) == Some(m);
    assert Decode(0x15) == Some(JmpNotEql);
  }

  /** The same bytes with `acc` = 10: no jump, and `ip` ends past both operands, at 5. */
  lemma JmpNotEqlNotTakenRun()
    ensures var m := Machine([0, 10, 0, 0, 0, 0, 0, 0, 0, 0], [0x15, 0x00, 0x0A, 0x00, 0x00]);
            Step(m) == Some(Completed(m.(regs := m.regs[IP := 5])))
  {
    var m := Machine([0, 10, 0, 0, 0, 0, 0, 0, 0, 0], [0x15, 0x00, 0x0A, 0x00, 0x00]);
    var m1 := m.(regs := m.regs[IP := 1]);
    var m3 := m.(regs := m.regs[IP := 3]);
    var m5 := m.(regs := m.regs[IP := 5]);
    assert Fetch(m, 8) == Some(Fetched(0x15, m1));
    assert m1.regs[IP := 3] == m3.regs;
    assert Fetch(m1, 16) == Some(Fetched(0x0A, m3));
    assert m3.regs[IP := 5] == m5.regs;
    assert Fetch(m3, 16) == Some(Fetched(0x00, m5));
    assert ExecJmpNotEql(m1) == Some(m5);
    assert Decode(0x15) == Some(JmpNotEql);
  }
}
