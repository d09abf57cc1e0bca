# LLTSVM CPU in Dafny

A model of the virtual CPU of LLTSVM. The CPU has:

- ten 16-bit registers (`ip`, `acc`, `r1` to `r8`), stored big-endian in a 20-byte register bank;
- a byte memory supplied by the caller;
- a fetch–decode–execute cycle over six one-byte opcodes (0x10 to 0x15).

The model has two layers:

- **Reference semantics** (`semantics.dfy`, module `Semantics`). A machine is a sequence of ten register words plus a sequence of memory bytes. `Fetch`, one `Exec…` function per opcode, `Execute` and `Step` are pure functions. Each returns `None` exactly when the original program would read or write outside memory.
- **The CPU object** (`cpu.dfy`, module `Cpu`). A `class CPU` holds the register bank as an `array` that its methods update in place, the caller's memory `array`, the register name table and the name-to-offset map. Every method's postcondition ties the new state, seen through `Abs()`, to the reference semantics applied to the state before the call.

Supporting modules:

- `opcodes.dfy` holds the instruction enumeration with `Encode`/`Decode`.
- `big_endian.dfy` holds big-endian 16-bit access and the truncating 16-bit store.
- `registers.dfy` holds the register name table, the construction of the offset map, and the operand-byte wrap rule (`b % 10`).
- `wrappers.dfy` holds `Option`/`Result`.

Numbers follow the source's conversions:

- Every 16-bit store takes its value modulo 2^16 (`ToUint16`). So `ip` advances modulo 2^16 and the `ADD_REG_REG` sum wraps.
- A register operand byte `b` designates register `b % 10` and is never rejected.

## Model

| member | source | states |
|---|---|---|
| Opcodes.Encode | src/enums.ts:1-8 | every opcode is a value in 0x10..0x15, and decoding that value gives the opcode back |
| Opcodes.Decode | src/enums.ts:1-8 | a value names an opcode exactly when it lies in 0x10..0x15; every other value is unknown |
| Opcodes.DecodeThenEncode | src/enums.ts:2-7 | every value that decodes is the encoding of what it decodes to |
| Opcodes.EncodeInjective | src/enums.ts:2-7 | distinct opcodes have distinct values |
| Opcodes.DeclarationOrder | src/enums.ts:1-8 | there are exactly six opcodes; the i-th in declaration order is 0x10 + i, and every one fits in a byte |
| BigEndian.ToUint16 | src/cpu.ts:43 | a 16-bit store keeps its value modulo 2^16: the result is congruent to the input and equals it when the input already fits |
| BigEndian.ToUint16Add | src/cpu.ts:52 | advancing an already truncated `ip` and truncating again is the same as adding once and truncating |
| BigEndian.Get16 | src/cpu.ts:36 | a 16-bit read returns the first byte as the high byte and the second as the low byte (big-endian) |
| BigEndian.Set16 | src/cpu.ts:43 | a 16-bit store keeps the length, makes a read at the offset return the truncated value, and changes no byte outside the two written |
| BigEndian.SetUint16 | src/cpu.ts:61 | the in-place array store leaves the array equal to `Set16` of its old contents |
| Registers.RegisterNamesDistinct | src/cpu.ts:12-23 | there are ten register names, pairwise different, with `ip` first and `acc` second |
| Registers.IndexOf | src/cpu.ts:28-29 | the table position the map's offsets are measured against: a name is found exactly when it is in the table, at a position holding that name and no earlier occurrence |
| Registers.IndexOfDistinct | src/cpu.ts:12-23 | in a table without repeats, the i-th name is found at position i |
| Registers.RegisterSlot | src/cpu.ts:60 | an operand byte designates the register whose position is congruent to it modulo 10; a byte below 10 designates its own position |
| Registers.BuildRegisterMap | src/cpu.ts:28-29 | the map built by visiting the names in order has exactly the names as keys, each sent to twice a position holding that name |
| Registers.OffsetTableOfDistinct | src/cpu.ts:28-29 | for distinct names, such a map sends the i-th name to 2 * i, that is, to twice its first position |
| Registers.RegisterOffsetTable | src/cpu.ts:12-29 | for the ten register names the map sends `registerNames[i]` to byte offset 2 * i |
| Semantics.Fetch | src/cpu.ts:47-54 | a fetch yields a well-formed machine; by `FetchEffect` it is defined exactly when `ip + width/8` is within memory, returns the byte or big-endian word at `ip`, and changes only `ip`, to `(ip + width/8) mod 2^16` |
| Semantics.WriteRegister | src/cpu.ts:61 | a register store keeps the machine well-formed; the register receives the value modulo 2^16 and nothing else changes |
| Semantics.ExecMovLitReg | src/cpu.ts:58-63 | MOV_LIT_REG keeps the machine well-formed; its closed form is `MovLitRegEffect` |
| Semantics.ExecMovRegReg | src/cpu.ts:65-71 | MOV_REG_REG keeps the machine well-formed; its closed form is `MovRegRegEffect` |
| Semantics.ExecMovRegMem | src/cpu.ts:73-79 | MOV_REG_MEM keeps the machine well-formed; its closed form is `MovRegMemEffect` |
| Semantics.ExecMovMemReg | src/cpu.ts:81-87 | MOV_MEM_REG keeps the machine well-formed; its closed form is `MovMemRegEffect` |
| Semantics.ExecAddRegReg | src/cpu.ts:89-96 | ADD_REG_REG keeps the machine well-formed; its closed form is `AddRegRegEffect` |
| Semantics.ExecJmpNotEql | src/cpu.ts:98-106 | JMP_NOT_EQL keeps the machine well-formed; its closed form is `JmpNotEqlEffect` |
| Semantics.Execute | src/cpu.ts:56-113 | execute keeps the machine well-formed; by the six closed forms and `RaisesOnlyUnknownInstruction` it applies the opcode's effect, or throws UnknownInstruction and changes nothing for a value outside 0x10..0x15 |
| Semantics.Step | src/cpu.ts:115-118 | a step keeps the machine well-formed; it fetches one opcode byte and executes it, and `StepUnknownInstruction` gives the unknown-opcode case |
| Semantics.FetchEffect | src/cpu.ts:47-54 | a fetch succeeds exactly when `ip + width/8` is within memory; it returns the byte, or the big-endian word, at `ip`; `ip` becomes `(ip + width/8) mod 2^16`; memory and the other registers do not change |
| Semantics.MovLitRegEffect | src/cpu.ts:58-63 | MOV_LIT_REG moves `ip` three bytes on, then writes the 16-bit literal into register `b % 10`, where `b` is the third operand byte |
| Semantics.MovLitRegIntoIpJumps | src/cpu.ts:58-63 | a MOV_LIT_REG whose register byte designates `ip` leaves `ip` equal to the literal: it is a jump |
| Semantics.MovRegRegEffect | src/cpu.ts:65-71 | MOV_REG_REG moves `ip` two bytes on, then copies register `from % 10` into register `to % 10`; a copy from `ip` sees the advanced `ip` |
| Semantics.MovRegRegSameSlotOnlyAdvancesIp | src/cpu.ts:65-71 | a MOV_REG_REG whose two register bytes designate the same register changes no register value; only `ip` moves, two bytes on |
| Semantics.MovRegMemEffect | src/cpu.ts:73-79 | MOV_REG_MEM moves `ip` three bytes on and stores register `from % 10` big-endian at the address operand; no other register changes, and only memory bytes `address` and `address + 1` change |
| Semantics.MovMemRegEffect | src/cpu.ts:81-87 | MOV_MEM_REG moves `ip` three bytes on and loads the big-endian word at the address operand into register `to % 10`; memory does not change |
| Semantics.AddRegRegEffect | src/cpu.ts:89-96 | ADD_REG_REG moves `ip` two bytes on and sets `acc` to the sum of registers `b1 % 10` and `b2 % 10`, modulo 2^16 |
| Semantics.JmpNotEqlEffect | src/cpu.ts:98-106 | JMP_NOT_EQL always consumes both 16-bit operands, moving `ip` four bytes on; it then sets `ip` to the address exactly when the value differs from `acc` |
| Semantics.RaisesOnlyUnknownInstruction | src/cpu.ts:108-111 | execute throws exactly for a value outside 0x10..0x15; it then throws UnknownInstruction with that value and changes nothing |
| Semantics.OnlyMovRegMemWritesMemory | src/cpu.ts:56-113 | every instruction other than MOV_REG_MEM, including an unknown one, leaves memory unchanged |
| Semantics.StepUnknownInstruction | src/cpu.ts:115-118 | a step on an unknown opcode byte throws UnknownInstruction after the opcode fetch; nothing changes except `ip`, which has advanced by one |
| Semantics.MovLitRegRun | src/cpu.ts:58-63 | from `ip` = 0, bytes `10 12 34 02` put 0x1234 in r1 and leave `ip` at 4 |
| Semantics.AddRegRegOverflowRun | src/cpu.ts:89-96 | with r1 = 0xFFFF and r2 = 2, bytes `14 02 03` set `acc` to 1: the sum wraps |
| Semantics.AddRegRegByteFourIsR3Run | src/cpu.ts:89-96 | register byte 4 designates r3, not r2: with r1 = 0xFFFF and r2 = 2, bytes `14 02 04` set `acc` to 0xFFFF |
| Semantics.JmpNotEqlTakenRun | src/cpu.ts:98-106 | with `acc` = 5, bytes `15 00 0A 00 00` jump back to 0 |
| Semantics.JmpNotEqlNotTakenRun | src/cpu.ts:98-106 | with `acc` = 10, the same bytes do not jump, and `ip` ends at 5, past both operands |
| Cpu.CPU.constructor | src/cpu.ts:9-30 | the CPU keeps the given memory and gets a fresh bank of 2 bytes per register; name i maps to offset 2 * i; every register starts at 0 |
| Cpu.CPU.GetRegister | src/cpu.ts:32-37 | a read succeeds exactly for the ten names, returning the word of that register; any other name gives UnknownRegister with that name |
| Cpu.CPU.SetRegister | src/cpu.ts:39-45 | for a known name, the register becomes the value modulo 2^16, that value is returned, no other register changes and memory is untouched; any other name gives UnknownRegister and changes nothing |
| Cpu.CPU.Fetch | src/cpu.ts:47-54 | the returned operand and the new state are exactly those of the reference fetch on the old state |
| Cpu.CPU.Execute | src/cpu.ts:56-113 | the new state and the error thrown, if any, are exactly those of the reference `Execute` on the old state |
| Cpu.CPU.MovLitReg | src/cpu.ts:58-63 | the new state is the reference MOV_LIT_REG applied to the old one |
| Cpu.CPU.MovRegReg | src/cpu.ts:65-71 | the new state is the reference MOV_REG_REG applied to the old one |
| Cpu.CPU.MovRegMem | src/cpu.ts:73-79 | the new state, memory included, is the reference MOV_REG_MEM applied to the old one |
| Cpu.CPU.MovMemReg | src/cpu.ts:81-87 | the new state is the reference MOV_MEM_REG applied to the old one |
| Cpu.CPU.AddRegReg | src/cpu.ts:89-96 | the new state is the reference ADD_REG_REG applied to the old one |
| Cpu.CPU.JmpNotEql | src/cpu.ts:98-106 | the new state is the reference JMP_NOT_EQL applied to the old one |
| Cpu.CPU.Step | src/cpu.ts:115-118 | the new state and the error thrown, if any, are exactly those of the reference `Step` on the old state |

Register byte 4 designates r3, because the table is `ip, acc, r1, r2, r3, …`. With r1 = 0xFFFF and r2 = 2, the bytes `14 02 04` leave `acc` = 0xFFFF; `Semantics.AddRegRegByteFourIsR3Run` proves it.

## Left out

- `createMemory` (src/create-memory.ts) is not part of this model. The register bank is a fresh zero-filled array of 20 bytes, and memory is any caller-supplied byte array.
- Accesses outside memory are not modelled. The original's DataView throws a RangeError there, and the code never checks for this case. Where such an access could happen, the reference functions return `None`, and the CPU methods require the reference result to be defined.
- Cpu.CPU.Fetch: requires `ip + width/8` to be within memory, instead of modelling the RangeError.
- Cpu.CPU.Execute: requires the reference result to be defined, that is, no operand fetch or memory access past the end of memory. The same holds for Cpu.CPU.Step and the six per-opcode methods.
- The exceptions thrown by `getRegister`, `setRegister` and `execute` become return values:
  - `GetRegister` and `SetRegister` return a `Result` whose error is `UnknownRegister(name)`;
  - `Execute` and `Step` return `Some(UnknownInstruction(value))`;
  - the state is left exactly as it was at the throw.
  - The message strings are not modelled.
- Cpu.CPU.SetRegister: takes an integer value. The original accepts any JavaScript number, and non-integer, negative-zero and NaN inputs are not modelled.
- Cpu.CPU.SetRegister: its postcondition states the returned value and the new register contents. It does not state that the final `getRegister` call returns that value; that follows from `GetRegister`'s contract on the new contents.
- The six cases of `execute` are separate methods (`MovLitReg` … `JmpNotEql`) that `Execute` calls. Each has the same statements as its case.
- The driver that calls `step` repeatedly lives outside the repository and is not modelled.
