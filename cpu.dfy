/**
 * The CPU object: a 20-byte register bank it owns and a byte memory it is
 * given, both updated in place. Every method is specified against the
 * reference semantics applied to the state before the call.
 */
module Cpu {
  import opened Wrappers
  import opened BigEndian
  import opened Registers
  import opened Opcodes
  import opened Semantics

  /** The words of a register bank: word i is stored big-endian at byte offset 2 * i. */
  ghost function WordsOf(bank: seq<Byte>): seq<Word>
    requires |bank| % 2 == 0
  {
    seq(|bank| / 2, i requires 0 <= i < |bank| / 2 => Get16(bank, 2 * i))
  }

  /** A 16-bit store at byte offset 2 * k changes word k of the bank and no other. */
  lemma WordsOfSet16(bank: seq<Byte>, k: nat, v: int)
    requires |bank| % 2 == 0 && k < |bank| / 2
    ensures WordsOf(Set16(bank, 2 * k, v)) == WordsOf(bank)[k := ToUint16(v)]
  {
    var after := Set16(bank, 2 * k, v);
    forall i | 0 <= i < |bank| / 2 && i != k
      ensures Get16(after, 2 * i) == Get16(bank, 2 * i)
    {
      assert after[2 * i] == bank[2 * i] && after[2 * i + 1] == bank[2 * i + 1];
    }
  }

  class CPU {
    const memory: array<Byte>
    const registerNames: seq<string>
    const registers: array<Byte>
    const registerMap: map<string, nat>

    /**
     * The bank holds two bytes per named register, is not the memory, and the
     * map sends each register name, and nothing else, to twice its position.
     */
    ghost predicate Valid() {
      && registerNames == RegisterNames
      && registers.Length == 2 * |registerNames|
      && registers != memory
      && (forall n :: n in registerMap <==> n in registerNames)
      && (forall i :: 0 <= i < |registerNames| ==> registerNames[i] in registerMap && registerMap[registerNames[i]] == 2 * i)
    }

    /** The ten register values, `ip` first. */
    ghost function RegisterValues(): (regs: seq<Word>)
      reads registers
      requires Valid()
      ensures |regs| == |RegisterNames|
    {
      WordsOf(registers[..])
    }

    /** The whole machine state: register values and memory bytes. */
    ghost function Abs(): (m: Machine)
      reads registers, memory
      requires Valid()
      ensures WellFormed(m)
    {
      Machine(RegisterValues(), memory[..])
    }

    /** A CPU over `memory`, with a fresh zeroed bank: every register starts at 0. */
    constructor (memory: array<Byte>)
      ensures Valid() && fresh(registers) && this.memory == memory
      ensures forall i :: 0 <= i < |RegisterNames| ==> registerMap[RegisterNames[i]] == 2 * i
      ensures forall i :: 0 <= i < |RegisterNames| ==> RegisterValues()[i] == 0
    {
      this.memory := memory;
      registerNames := RegisterNames;
      registers := new Byte[2 * |RegisterNames|](_ => 0);
      var offsets := BuildRegisterMap(RegisterNames);
      RegisterOffsetTable(offsets);
      registerMap := offsets;
    }

    /** The value of the register called `name`; throws UnknownRegister for any other name. */
    function GetRegister(name: string): (r: Result<Word, Error>)
      reads registers
      requires Valid()
      ensures r.Ok? <==> name in RegisterNames
      ensures r.Err? ==> r.error == UnknownRegister(name)
      ensures forall i :: 0 <= i < |RegisterNames| && RegisterNames[i] == name ==> r == Ok(RegisterValues()[i])
    {
      if name !in registerMap then Err(UnknownRegister(name))
      else Ok(Get16(registers[..], registerMap[name]))
    }

    /**
     * Stores `value` modulo 2^16 in the register called `name` and returns
     * what a read now gives; throws UnknownRegister, changing nothing, for
     * any other name. Memory is untouched.
     */
    method SetRegister(name: string, value: int) returns (r: Result<Word, Error>)
      requires Valid()
      modifies registers
      ensures Valid() && unchanged(memory)
      ensures name !in RegisterNames ==> r == Err(UnknownRegister(name)) && unchanged(registers)
      ensures forall i :: 0 <= i < |RegisterNames| && RegisterNames[i] == name ==>
                r == Ok(ToUint16(value)) && RegisterValues() == old(RegisterValues())[i := ToUint16(value)]
    {
      if name !in registerMap {
        return Err(UnknownRegister(name));
      }
      ghost var k :| 0 <= k < |RegisterNames| && RegisterNames[k] == name;
      ghost var before := registers[..];
      assert |before| == 2 * |RegisterNames| && registerMap[name] == 2 * k;
      WordsOfSet16(before, k, value);
      SetUint16(registers, registerMap[name], value);
      assert RegisterValues() == WordsOf(before)[k := ToUint16(value)];
      r := GetRegister(name);
    }

    /** Reads the next 8- or 16-bit operand at `ip` and advances `ip` past it. */
    method Fetch(batchSize: BatchSize) returns (instruction: Word)
      requires Valid()
      requires RegisterValues()[IP] + batchSize / 8 <= memory.Length
      modifies registers
      ensures Valid()
      ensures Semantics.Fetch(old(Abs()), batchSize) == Some(Fetched(instruction, Abs()))
    {
      ghost var m := Abs();
      assert RegisterNames[IP] == "ip";
      var nextInstructionAddress := GetRegister("ip").value;
      assert nextInstructionAddress == m.regs[IP];
      instruction := if batchSize == 8 then memory[nextInstructionAddress] else Get16(memory[..], nextInstructionAddress);
      assert Semantics.Fetch(m, batchSize) == Some(Fetched(instruction, m.(regs := m.regs[IP := ToUint16(nextInstructionAddress + batchSize / 8)])));
      var stored := SetRegister("ip", nextInstructionAddress + batchSize / 8);
      assert Abs() == m.(regs := m.regs[IP := ToUint16(nextInstructionAddress + batchSize / 8)]);
    }

    /**
     * Decodes the operands of `instruction` by successive fetches, in the
     * instruction's fixed order, and applies its effect; throws
     * UnknownInstruction, changing nothing, for a value outside the set.
     */
    method Execute(instruction: int) returns (raised: Option<Error>)
      requires Valid()
      requires Semantics.Execute(Abs(), instruction).Some?
      modifies registers, memory
      ensures Valid()
      ensures Semantics.Execute(old(Abs()), instruction) == Some(Outcome(Abs(), raised))
    {
      raised := None;
      match Decode(instruction)
      case None =>
        raised := Some(UnknownInstruction(instruction));
      case Some(MovLitReg) =>
        MovLitReg();
      case Some(MovRegReg) =>
        MovRegReg();
      case Some(MovRegMem) =>
        MovRegMem();
      case Some(MovMemReg) =>
        MovMemReg();
      case Some(AddRegReg) =>
        AddRegReg();
      case Some(JmpNotEql) =>
        JmpNotEql();
    }

    // One method per opcode: the body of the corresponding case of Execute.

    /** MOV_LIT_REG: literal:16, then register:8; the register receives the literal. */
    method MovLitReg()
      requires Valid()
      requires ExecMovLitReg(Abs()).Some?
      modifies registers
      ensures Valid()
      ensures ExecMovLitReg(old(Abs())) == Some(Abs())
    {
      ghost var m := Abs();
      var literal := Fetch(16);
      ghost var m1 := Abs();
      assert Semantics.Fetch(m1, 8).Some?;
      var b := Fetch(8);
      ghost var s := Abs();
      var register := (b % |registerNames|) * 2;
      assert ExecMovLitReg(m) == Some(WriteRegister(s, RegisterSlot(b), literal));
      WordsOfSet16(registers[..], RegisterSlot(b), literal);
      SetUint16(registers, register, literal);
      assert Abs() == WriteRegister(s, RegisterSlot(b), literal);
    }

    /** MOV_REG_REG: from:8, then to:8; the source register is read after both fetches. */
    method MovRegReg()
      requires Valid()
      requires ExecMovRegReg(Abs()).Some?
      modifies registers
      ensures Valid()
      ensures ExecMovRegReg(old(Abs())) == Some(Abs())
    {
      ghost var m := Abs();
      var b1 := Fetch(8);
      ghost var m1 := Abs();
      assert Semantics.Fetch(m1, 8).Some?;
      var b2 := Fetch(8);
      ghost var s := Abs();
      var registerFrom := (b1 % |registerNames|) * 2;
      var registerTo := (b2 % |registerNames|) * 2;
      var value := Get16(registers[..], registerFrom);
      assert value == s.regs[RegisterSlot(b1)];
      assert ExecMovRegReg(m) == Some(WriteRegister(s, RegisterSlot(b2), value));
      WordsOfSet16(registers[..], RegisterSlot(b2), value);
      SetUint16(registers, registerTo, value);
      assert Abs() == WriteRegister(s, RegisterSlot(b2), value);
    }

    /** MOV_REG_MEM: from:8, then address:16; the register is stored big-endian at the address. */
    method MovRegMem()
      requires Valid()
      requires ExecMovRegMem(Abs()).Some?
      modifies registers, memory
      ensures Valid()
      ensures ExecMovRegMem(old(Abs())) == Some(Abs())
    {
      ghost var m := Abs();
      var b := Fetch(8);
      ghost var m1 := Abs();
      assert Semantics.Fetch(m1, 16).Some?;
      var address := Fetch(16);
      ghost var s := Abs();
      var registerFrom := (b % |registerNames|) * 2;
      var value := Get16(registers[..], registerFrom);
      assert value == s.regs[RegisterSlot(b)];
      assert ExecMovRegMem(m) == Some(s.(mem := Set16(s.mem, address, value)));
      SetUint16(memory, address, value);
      assert Abs() == s.(mem := Set16(s.mem, address, value));
    }

    /** MOV_MEM_REG: address:16, then to:8; the register receives the word at the address. */
    method MovMemReg()
      requires Valid()
      requires ExecMovMemReg(Abs()).Some?
      modifies registers
      ensures Valid()
      ensures ExecMovMemReg(old(Abs())) == Some(Abs())
    {
      ghost var m := Abs();
      var address := Fetch(16);
      ghost var m1 := Abs();
      assert Semantics.Fetch(m1, 8).Some?;
      var b := Fetch(8);
      ghost var s := Abs();
      var registerTo := (b % |registerNames|) * 2;
      var value := Get16(memory[..], address);
      assert ExecMovMemReg(m) == Some(WriteRegister(s, RegisterSlot(b), value));
      WordsOfSet16(registers[..], RegisterSlot(b), value);
      SetUint16(registers, registerTo, value);
      assert Abs() == WriteRegister(s, RegisterSlot(b), value);
    }

    /** ADD_REG_REG: register1:8, then register2:8; `acc` receives their sum through SetRegister. */
    method AddRegReg()
      requires Valid()
      requires ExecAddRegReg(Abs()).Some?
      modifies registers
      ensures Valid()
      ensures ExecAddRegReg(old(Abs())) == Some(Abs())
    {
      ghost var m := Abs();
      var b1 := Fetch(8);
      ghost var m1 := Abs();
      assert Semantics.Fetch(m1, 8).Some?;
      var b2 := Fetch(8);
      ghost var s := Abs();
      var register1 := (b1 % |registerNames|) * 2;
      var register2 := (b2 % |registerNames|) * 2;
      var value1 := Get16(registers[..], register1);
      var value2 := Get16(registers[..], register2);
      assert value1 == s.regs[RegisterSlot(b1)] && value2 == s.regs[RegisterSlot(b2)];
      ghost var after := WriteRegister(s, ACC, value1 as int + value2);
      assert ExecAddRegReg(m) == Some(after);
      assert RegisterNames[ACC] == "acc";
      var stored := SetRegister("acc", value1 as int + value2);
      assert RegisterValues() == after.regs;
      assert memory[..] == after.mem;
    }

    /**
     * JMP_NOT_EQL: value:16, then address:16; jumps when the value differs
     * from `acc`, reading `acc` through GetRegister and writing `ip` through
     * SetRegister.
     */
    method JmpNotEql()
      requires Valid()
      requires ExecJmpNotEql(Abs()).Some?
      modifies registers
      ensures Valid()
      ensures ExecJmpNotEql(old(Abs())) == Some(Abs())
    {
      ghost var m := Abs();
      var value := Fetch(16);
      ghost var m1 := Abs();
      assert Semantics.Fetch(m1, 16).Some?;
      var address := Fetch(16);
      ghost var s := Abs();
      assert RegisterNames[IP] == "ip" && RegisterNames[ACC] == "acc";
      var acc := GetRegister("acc").value;
      assert acc == s.regs[ACC];
      if value != acc {
        assert ExecJmpNotEql(m) == Some(WriteRegister(s, IP, address));
        var stored := SetRegister("ip", address);
        assert Abs() == WriteRegister(s, IP, address);
      } else {
        assert ExecJmpNotEql(m) == Some(s);
      }
    }

    /** Fetches one opcode byte at `ip` and executes it. */
    method Step() returns (raised: Option<Error>)
      requires Valid()
      requires Semantics.Step(Abs()).Some?
      modifies registers, memory
      ensures Valid()
      ensures Semantics.Step(old(Abs())) == Some(Outcome(Abs(), raised))
    {
      var instruction := Fetch(8);
      raised := Execute(instruction);
    }
  }
}
