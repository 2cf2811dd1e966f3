/**
  The execution engine of 8_Bit.c as pure functions over `Machine.State`:
  the reset (`init_computer`), one fetch-decode-execute step
  (`execute_instruction`) and the fuel-bounded run loop (`run_computer`).

  Two reads and writes of the C code can leave the 256-byte memory: the
  operand fetch `memory[pc + 1]` when `pc == 255`, and the data-area index
  `operand + 0x80` (computed in `int`) when `operand >= 0x80`. C leaves both
  undefined. The model does not guess a value for them: such a step yields
  `Undefined(fault)` and changes nothing.
 */
module Engine {
  import opened Machine

  /** Why a step has no defined behaviour. */
  datatype Fault =
    | OperandFetchOutOfBounds            // memory[pc + 1] with pc == 255
    | DataIndexOutOfBounds(index: nat)   // memory[operand + 0x80] with operand >= 0x80

  datatype Outcome = Stepped(next: State) | Undefined(fault: Fault)

  /** `init_computer`: memory and registers cleared, running set; the stack is not cleared. */
  function Init(s: State): (r: State)
    ensures forall i :: 0 <= i < MemorySize ==> r.memory[i] == 0
    ensures r.accumulator == 0 && r.bRegister == 0
    ensures r.programCounter == 0 && r.stackPointer == 0
    ensures !r.zeroFlag && r.running
    ensures r.stack == s.stack
  {
    State(seq(MemorySize, _ => 0), 0, 0, 0, s.stack, 0, false, true)
  }

  /** LDA: load the accumulator from the data area. */
  function LoadA(s: State, operand: u8): (r: Outcome)
    ensures r.Undefined? <==> operand as int + DataBase >= MemorySize
    ensures r.Undefined? ==> r.fault == DataIndexOutOfBounds(operand as int + DataBase)
    ensures r.Stepped? ==> SameExcept(s, r.next, {Accumulator, ProgramCounter})
    ensures r.Stepped? ==> r.next.accumulator == s.memory[operand as int + DataBase]
    ensures r.Stepped? ==> r.next.programCounter as int == (s.programCounter as int + 2) % 256
  {
    var index := operand as int + DataBase;
    if index >= MemorySize then Undefined(DataIndexOutOfBounds(index))
    else Stepped(s.(accumulator := s.memory[index], programCounter := Wrap(s.programCounter as int + 2)))
  }

  /** STA: store the accumulator into the data area. */
  function StoreA(s: State, operand: u8): (r: Outcome)
    ensures r.Undefined? <==> operand as int + DataBase >= MemorySize
    ensures r.Undefined? ==> r.fault == DataIndexOutOfBounds(operand as int + DataBase)
    ensures r.Stepped? ==> SameExcept(s, r.next, {Cells, ProgramCounter})
    ensures r.Stepped? ==> r.next.memory[operand as int + DataBase] == s.accumulator
    ensures r.Stepped? ==> forall i :: 0 <= i < MemorySize && i != operand as int + DataBase ==>
                             r.next.memory[i] == s.memory[i]
    ensures r.Stepped? ==> r.next.programCounter as int == (s.programCounter as int + 2) % 256
  {
    var index := operand as int + DataBase;
    if index >= MemorySize then Undefined(DataIndexOutOfBounds(index))
    else Stepped(s.(memory := s.memory[index := s.accumulator], programCounter := Wrap(s.programCounter as int + 2)))
  }

  /** LDB: load the b register from the data area. */
  function LoadB(s: State, operand: u8): (r: Outcome)
    ensures r.Undefined? <==> operand as int + DataBase >= MemorySize
    ensures r.Undefined? ==> r.fault == DataIndexOutOfBounds(operand as int + DataBase)
    ensures r.Stepped? ==> SameExcept(s, r.next, {BRegister, ProgramCounter})
    ensures r.Stepped? ==> r.next.bRegister == s.memory[operand as int + DataBase]
    ensures r.Stepped? ==> r.next.programCounter as int == (s.programCounter as int + 2) % 256
  {
    var index := operand as int + DataBase;
    if index >= MemorySize then Undefined(DataIndexOutOfBounds(index))
    else Stepped(s.(bRegister := s.memory[index], programCounter := Wrap(s.programCounter as int + 2)))
  }

  /** STB: store the b register into the data area. */
  function StoreB(s: State, operand: u8): (r: Outcome)
    ensures r.Undefined? <==> operand as int + DataBase >= MemorySize
    ensures r.Undefined? ==> r.fault == DataIndexOutOfBounds(operand as int + DataBase)
    ensures r.Stepped? ==> SameExcept(s, r.next, {Cells, ProgramCounter})
    ensures r.Stepped? ==> r.next.memory[operand as int + DataBase] == s.bRegister
    ensures r.Stepped? ==> forall i :: 0 <= i < MemorySize && i != operand as int + DataBase ==>
                             r.next.memory[i] == s.memory[i]
    ensures r.Stepped? ==> r.next.programCounter as int == (s.programCounter as int + 2) % 256
  {
    var index := operand as int + DataBase;
    if index >= MemorySize then Undefined(DataIndexOutOfBounds(index))
    else Stepped(s.(memory := s.memory[index := s.bRegister], programCounter := Wrap(s.programCounter as int + 2)))
  }

  /** ADD: 8-bit wrapping sum into the accumulator; the zero flag reports a zero sum. */
  function Add(s: State): (r: State)
    ensures SameExcept(s, r, {Accumulator, ZeroFlag, ProgramCounter})
    ensures r.accumulator as int == (s.accumulator as int + s.bRegister as int) % 256
    ensures r.zeroFlag <==> s.accumulator as int + s.bRegister as int in {0, 256}
    ensures r.programCounter as int == (s.programCounter as int + 1) % 256
  {
    var sum := Wrap(s.accumulator as int + s.bRegister as int);
    s.(accumulator := sum, zeroFlag := sum == 0, programCounter := Wrap(s.programCounter as int + 1))
  }

  /** JMP: unconditional absolute jump. */
  function Jump(s: State, operand: u8): (r: State)
    ensures SameExcept(s, r, {ProgramCounter})
    ensures r.programCounter == operand
  {
    s.(programCounter := operand)
  }

  /** JZ: jump when the zero flag is set, otherwise skip the two instruction bytes. */
  function JumpIfZero(s: State, operand: u8): (r: State)
    ensures SameExcept(s, r, {ProgramCounter})
    ensures s.zeroFlag ==> r.programCounter == operand
    ensures !s.zeroFlag ==> r.programCounter as int == (s.programCounter as int + 2) % 256
  {
    if s.zeroFlag then s.(programCounter := operand)
    else s.(programCounter := Wrap(s.programCounter as int + 2))
  }

  /** HLT, and the `default` branch taken by every opcode without a case (SUB among them). */
  function Halt(s: State): (r: State)
    ensures SameExcept(s, r, {Running})
    ensures !r.running
  {
    s.(running := false)
  }

  /** `execute_instruction`: fetch the opcode and the following byte, then dispatch. */
  function Step(s: State): (r: Outcome)
    ensures r.Undefined? <==>
              s.programCounter as int == MemorySize - 1 ||
              (IsDataAccess(s.memory[s.programCounter]) &&
               s.memory[s.programCounter as int + 1] as int + DataBase >= MemorySize)
    ensures r.Undefined? && s.programCounter as int == MemorySize - 1 ==>
              r.fault == OperandFetchOutOfBounds
    ensures r.Undefined? && s.programCounter as int < MemorySize - 1 ==>
              r.fault == DataIndexOutOfBounds(s.memory[s.programCounter as int + 1] as int + DataBase)
    ensures r.Stepped? ==> (r.next.running <==> s.running && IsExecuting(s.memory[s.programCounter]))
    ensures r.Stepped? && !IsExecuting(s.memory[s.programCounter]) ==>
              SameExcept(s, r.next, {Running})
    ensures r.Stepped? && s.memory[s.programCounter] != ADD ==> r.next.zeroFlag == s.zeroFlag
    ensures r.Stepped? && s.memory[s.programCounter] != STA && s.memory[s.programCounter] != STB ==>
              r.next.memory == s.memory
    ensures r.Stepped? ==> r.next.stack == s.stack && r.next.stackPointer == s.stackPointer
  {
    if s.programCounter as int == MemorySize - 1 then Undefined(OperandFetchOutOfBounds)
    else
      var opcode := s.memory[s.programCounter];
      var operand := s.memory[s.programCounter as int + 1];
      if opcode == LDA then LoadA(s, operand)
      else if opcode == STA then StoreA(s, operand)
      else if opcode == LDB then LoadB(s, operand)
      else if opcode == STB then StoreB(s, operand)
      else if opcode == ADD then Stepped(Add(s))
      else if opcode == JMP then Stepped(Jump(s, operand))
      else if opcode == JZ then Stepped(JumpIfZero(s, operand))
      else Stepped(Halt(s))
  }

  datatype Status = Halted | OutOfFuel | Faulted(fault: Fault)

  /** How a run ended, and the state it ended in. */
  datatype RunResult = RunResult(status: Status, final: State)

  /**
    `run_computer`: step while the machine is running. The C loop has no bound,
    so at most `fuel` steps are taken here.
   */
  function Run(s: State, fuel: nat): (r: RunResult)
    ensures r.final.running <==> !r.status.Halted?
    ensures !s.running ==> r == RunResult(Halted, s)
    ensures r.status.Faulted? ==> Step(r.final) == Undefined(r.status.fault)
    ensures r.final.stack == s.stack && r.final.stackPointer == s.stackPointer
    decreases fuel
  {
    if !s.running then RunResult(Halted, s)
    else if fuel == 0 then RunResult(OutOfFuel, s)
    else
      match Step(s)
      case Stepped(t) => Run(t, fuel - 1)
      case Undefined(f) => RunResult(Faulted(f), s)
  }
}
