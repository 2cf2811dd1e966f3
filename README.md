# 8-bit virtual CPU — a Dafny model of its execution engine

The program models a small stored-program computer. It has 256 bytes of memory and two 8-bit registers: the accumulator and the b register. It also has an 8-bit program counter, a zero flag and a running flag. One step fetches the opcode at the program counter, then unconditionally fetches the byte after it as the operand, and dispatches on the opcode:

- LDA, STA, LDB and STB move a register to or from data cell `operand + 0x80`.
- ADD adds the b register into the accumulator modulo 256 and sets the zero flag.
- JMP and JZ jump, JZ only when the zero flag is set.
- HLT and every opcode without a case (SUB, 0x06, among them) clear the running flag.

The run loop steps while the machine is running.

Files:

- `machine.dfy` (module `Machine`): the byte type `u8`, the sizes, the opcode values and the state record `State`. `SameExcept` says which fields an operation may change.
- `engine.dfy` (module `Engine`): the reset `Init`, one function per instruction, the dispatcher `Step` and the fuel-bounded `Run`, all pure functions on `State`.
- `computer.dfy` (module `Cpu`): class `Computer`, the mutable record. Its memory is an `array<u8>`. Its methods `Init`, `ExecuteInstruction` and `Run` update the fields in place. Each is proved to produce exactly the state that the matching `Engine` function gives for the state before the call.
- `run_properties.dfy` (module `RunProperties`): reset idempotence, SUB, ADD overflow, LDA-then-STA, and how runs compose as fuel is added.
- `programs.dfy` (module `Programs`): whole programs on a freshly reset machine.

**Undefined accesses.** The C code can index past the 256-byte memory in two places:

- The operand fetch `memory[pc + 1]` when `pc == 255`. This happens for every opcode, because the read comes before the dispatch.
- The data index `operand + 0x80`, computed in `int`, when `operand >= 0x80`.

C gives these accesses no meaning. The model does not pick a value for them. Such a step returns `Undefined(fault)` and changes nothing, and a run that reaches one stops with status `Faulted(fault)`. This is a deliberate deviation: the C code neither wraps these indices nor halts on them. The program-counter updates do wrap modulo 256, as assignments to a `uint8_t` do.

The code has only offset addressing, with base 0x80, and its indices can leave the memory as described above. SUB (0x06) has no case, so it halts.

## Model

| member | source | states |
|---|---|---|
| Engine.Init | 8_Bit.c:29-37 | every memory cell, both registers, the program counter and the stack pointer are 0, the zero flag is clear, the machine is running; the stack is kept as it was |
| Engine.LoadA | 8_Bit.c:44-47 | undefined exactly when operand + 0x80 is past the memory; otherwise the accumulator becomes that data cell, the program counter advances by 2 mod 256, and memory, b register, zero flag and running are unchanged |
| Engine.StoreA | 8_Bit.c:49-52 | undefined exactly when operand + 0x80 is past the memory; otherwise that cell becomes the accumulator, every other cell is unchanged, registers, zero flag and running are unchanged, and the program counter advances by 2 mod 256 |
| Engine.LoadB | 8_Bit.c:54-57 | as LoadA, for the b register; the accumulator is unchanged |
| Engine.StoreB | 8_Bit.c:59-62 | as StoreA, writing the b register |
| Engine.Add | 8_Bit.c:64-68 | accumulator = (accumulator + b register) mod 256; zero flag set exactly when the true sum is 0 or 256; program counter + 1 mod 256; memory, b register and running unchanged |
| Engine.Jump | 8_Bit.c:70-72 | program counter := operand whatever the zero flag; nothing else changes |
| Engine.JumpIfZero | 8_Bit.c:74-80 | program counter := operand when the zero flag is set, otherwise + 2 mod 256; nothing else changes |
| Engine.Halt | 8_Bit.c:82-87 | running becomes false; memory, registers, program counter and zero flag are unchanged |
| Engine.Step | 8_Bit.c:39-89 | undefined exactly at pc 255 (operand-fetch fault) or for a load/store whose data index is past memory (data-index fault naming that index); afterwards running holds exactly when it held before and the opcode is one of LDA, STA, LDB, STB, ADD, JMP, JZ; any other opcode changes only running; only ADD changes the zero flag; only STA and STB change memory; the stack is never touched |
| Engine.Run | 8_Bit.c:91-95 | the final state is running exactly when the status is not Halted; a run from a halted state is the identity; a Faulted run stops at the state whose step is undefined with that fault; the stack is kept |
| Cpu.Computer.constructor | 8_Bit.c:18-27 | allocates a 256-byte memory and a 16-byte stack, distinct arrays, with arbitrary contents until Init, as for a C local before `init_computer` |
| Cpu.Computer.Init | 8_Bit.c:29-37 | the object's contents become Engine.Init of its old contents |
| Cpu.Computer.ExecuteInstruction | 8_Bit.c:39-89 | the object's contents become the next state of Engine.Step and no fault is returned, or the step is undefined, its fault is returned and nothing changes |
| Cpu.Computer.Run | 8_Bit.c:91-95 | status and final contents are those of Engine.Run on the old contents; the status is Halted exactly when the machine is no longer running |
| RunProperties.InitIdempotent | 8_Bit.c:29-37 | resetting twice gives the same state as resetting once |
| RunProperties.SubHalts | 8_Bit.c:86-87 | SUB (0x06) only clears the running flag |
| RunProperties.AddOverflowSetsZeroFlag | 8_Bit.c:64-68 | 0xFF + 0x01 gives accumulator 0x00 with the zero flag set |
| RunProperties.LoadThenStoreCopies | 8_Bit.c:44-52 | LDA a then STA b copies data cell a into data cell b, leaves every other cell alone, and moves the program counter 4 bytes mod 256 |
| RunProperties.RunAdditive | 8_Bit.c:91-95 | a run with m + n fuel is the run with m fuel, resumed with n fuel if it ran out |
| RunProperties.RunStable | 8_Bit.c:91-95 | once a run halts or faults, more fuel does not change its result |
| RunProperties.HaltedRunIsFinal | 8_Bit.c:91-95 | running again from the final state of a halted run returns that run's result |
| Programs.Load | 8_Bit.c:115-119 | the program occupies the cells from 0, the data the cells from 0x80, every other cell and every register is unchanged |
| Programs.ExampleProgramStoresSum | 8_Bit.c:39-95 | from any reset machine, [LDA 0, LDB 1, ADD, STA 2, HLT] with data [5, 3, 0] halts within 5 steps with 8 at 0x82 and in the accumulator |
| Programs.DemoProgramWritesPastMemory | 8_Bit.c:102-107 | the program of `main` as written reaches, within 4 steps, an STA whose data index is 0x17F, with 0x82 still 0 |

## Left out

- `main`'s `printf` of the result (8_Bit.c:124-125) is output and is not modelled. Its `memcpy` loading is modelled only as `Programs.Load`.
- Engine.Run: takes at most `fuel` steps. The C loop has no bound and a program with no halting opcode runs forever. This appears as status `OutOfFuel`.
- Cpu.Computer.Run: bounded by `fuel` in the same way.
- Engine.Step: an access outside the 256-byte memory is undefined in C. It is modelled as a fault that changes nothing, not as whatever the compiled program might read or overwrite next to the array.
- The stack and stack pointer are carried as inert fields. No instruction uses them, and the reset clears the pointer but not the stack.
- A direct-addressing mode and an implemented SUB do not exist in the code, so they are not modelled.
- `zero_flag` and `running` are bytes in C that the code only ever sets to 0 or 1. They are booleans here.

## Findings

| source | as written | input that shows it | evidently intended | confidence | as-written member | corrected member |
|---|---|---|---|---|---|---|
| 8_Bit.c:102-107 | the demo program writes `ADD, 0x01` although ADD is one byte wide, so decoding falls out of step: byte 3 runs as LDA, byte 5 as STA with operand 0xFF, a write to index 0x17F past the memory | program [LDA 0, ADD 1, STA 2, HLT] at 0, data [5, 3, 0] at 0x80 | load the b register first and use a one-byte ADD: [LDA 0, LDB 1, ADD, STA 2, HLT], which stores 8 at 0x82 | not executed | Programs.DemoProgramWritesPastMemory | Programs.ExampleProgramStoresSum |
