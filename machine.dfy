/**
  The state of the 8-bit computer: the `Computer` record of 8_Bit.c, its
  sizes and the opcode values of its instruction set.
 */
module Machine {

  /** An unsigned 8-bit value (C's `uint8_t`). */
  newtype u8 = x: int | 0 <= x < 256

  const MemorySize: nat := 256
  const StackSize: nat := 16

  /** Operands of the load and store instructions are offsets from this base. */
  const DataBase: nat := 0x80

  const LDA: u8 := 0x01  // accumulator := memory[operand + 0x80]
  const STA: u8 := 0x02  // memory[operand + 0x80] := accumulator
  const LDB: u8 := 0x03  // b register := memory[operand + 0x80]
  const STB: u8 := 0x04  // memory[operand + 0x80] := b register
  const ADD: u8 := 0x05  // accumulator := accumulator + b register
  const SUB: u8 := 0x06  // declared, but the dispatcher has no case for it
  const JMP: u8 := 0x07  // program counter := operand
  const JZ:  u8 := 0x08  // program counter := operand when the zero flag is set
  const HLT: u8 := 0xFF  // stop

  /** The opcodes the dispatcher has a case for and that keep the machine running. */
  predicate IsExecuting(opcode: u8) {
    opcode == LDA || opcode == STA || opcode == LDB || opcode == STB ||
    opcode == ADD || opcode == JMP || opcode == JZ
  }

  /** The opcodes whose operand is an offset into the data area. */
  predicate IsDataAccess(opcode: u8) {
    opcode == LDA || opcode == STA || opcode == LDB || opcode == STB
  }

  /** Assignment of an `int` result back into a `uint8_t`: reduction modulo 256. */
  function Wrap(x: int): (r: u8) {
    (x % 256) as u8
  }

  type Memory = m: seq<u8> | |m| == MemorySize witness seq(MemorySize, _ => 0)
  type Stack = s: seq<u8> | |s| == StackSize witness seq(StackSize, _ => 0)

  /**
    One snapshot of the machine. The C fields `zero_flag` and `running` are
    bytes that the program only ever sets to 0 or 1, so they are booleans here.
    `stack` and `stackPointer` are carried but no instruction uses them.
   */
  datatype State = State(
    memory: Memory,
    accumulator: u8,
    bRegister: u8,
    programCounter: u8,
    stack: Stack,
    stackPointer: u8,
    zeroFlag: bool,
    running: bool)

  /** The fields of a state other than the stack, which no operation writes. */
  datatype Field = Cells | Accumulator | BRegister | ProgramCounter | ZeroFlag | Running

  /** `t` agrees with `s` on every field outside `changed`, and on the stack. */
  ghost predicate SameExcept(s: State, t: State, changed: set<Field>) {
    (Cells !in changed ==> t.memory == s.memory) &&
    (Accumulator !in changed ==> t.accumulator == s.accumulator) &&
    (BRegister !in changed ==> t.bRegister == s.bRegister) &&
    (ProgramCounter !in changed ==> t.programCounter == s.programCounter) &&
    (ZeroFlag !in changed ==> t.zeroFlag == s.zeroFlag) &&
    (Running !in changed ==> t.running == s.running) &&
    t.stack == s.stack && t.stackPointer == s.stackPointer
  }
}
