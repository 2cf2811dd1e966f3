/**
  The `Computer` record of 8_Bit.c as a mutable object. The memory and the
  stack are arrays embedded in the record, so their identity never changes;
  every method updates the fields in place and is proved against the pure
  functions of `Engine`.
 */
module Cpu {
  import opened Machine
  import Engine

  datatype Option<T> = None | Some(value: T)

  class Computer {
    const memory: array<u8>
    var accumulator: u8
    var bRegister: u8
    var programCounter: u8
    const stack: array<u8>
    var stackPointer: u8
    var zeroFlag: bool
    var running: bool

    ghost predicate Valid()
      reads this
    {
      memory.Length == MemorySize && stack.Length == StackSize && memory != stack
    }

    /** The object's current contents as a value. */
    function Snapshot(): (s: State)
      requires Valid()
      reads this, memory, stack
    {
      State(memory[..], accumulator, bRegister, programCounter, stack[..], stackPointer, zeroFlag, running)
    }

    /** A fresh record: its contents are arbitrary until `Init`, as for a C local before `init_computer`. */
    constructor ()
      ensures Valid() && fresh(memory) && fresh(stack)
    {
      memory := new u8[MemorySize];
      stack := new u8[StackSize];
    }

    /** `init_computer`. */
    method Init()
      requires Valid()
      modifies this, memory
      ensures Valid()
      ensures Snapshot() == Engine.Init(old(Snapshot()))
    {
      forall i | 0 <= i < memory.Length {
        memory[i] := 0;
      }
      accumulator := 0;
      bRegister := 0;
      programCounter := 0;
      stackPointer := 0;
      zeroFlag := false;
      running := true;
    }

    /**
      `execute_instruction`. Returns the fault, and leaves the object as it
      was, when the C code would access memory out of bounds.
     */
    method ExecuteInstruction() returns (fault: Option<Engine.Fault>)
      requires Valid()
      modifies this, memory
      ensures Valid()
      ensures match Engine.Step(old(Snapshot()))
              case Stepped(t) => fault == None && Snapshot() == t
              case Undefined(f) => fault == Some(f) && Snapshot() == old(Snapshot())
    {
      if programCounter as int == MemorySize - 1 {
        return Some(Engine.OperandFetchOutOfBounds);
      }
      var opcode := memory[programCounter];
      var operand := memory[programCounter as int + 1];
      var index := operand as int + DataBase;
      fault := None;
      if opcode == LDA {
        if index >= MemorySize {
          return Some(Engine.DataIndexOutOfBounds(index));
        }
        accumulator := memory[index];
        programCounter := Wrap(programCounter as int + 2);
      } else if opcode == STA {
        if index >= MemorySize {
          return Some(Engine.DataIndexOutOfBounds(index));
        }
        memory[index] := accumulator;
        programCounter := Wrap(programCounter as int + 2);
      } else if opcode == LDB {
        if index >= MemorySize {
          return Some(Engine.DataIndexOutOfBounds(index));
        }
        bRegister := memory[index];
        programCounter := Wrap(programCounter as int + 2);
      } else if opcode == STB {
        if index >= MemorySize {
          return Some(Engine.DataIndexOutOfBounds(index));
        }
        memory[index] := bRegister;
        programCounter := Wrap(programCounter as int + 2);
      } else if opcode == ADD {
        accumulator := Wrap(accumulator as int + bRegister as int);
        zeroFlag := accumulator == 0;
        programCounter := Wrap(programCounter as int + 1);
      } else if opcode == JMP {
        programCounter := operand;
      } else if opcode == JZ {
        if zeroFlag {
          programCounter := operand;
        } else {
          programCounter := Wrap(programCounter as int + 2);
        }
      } else if opcode == HLT {
        running := false;
      } else {
        running := false;  // unknown opcode
      }
    }

    /**
      `run_computer`, with at most `fuel` steps. Returns `Halted` exactly when
      the loop ended because `running` was cleared.
     */
    method Run(fuel: nat) returns (status: Engine.Status)
      requires Valid()
      modifies this, memory
      ensures Valid()
      ensures status == Engine.Run(old(Snapshot()), fuel).status
      ensures Snapshot() == Engine.Run(old(Snapshot()), fuel).final
      ensures status == Engine.Halted <==> !running
    {
      var remaining := fuel;
      while running
        invariant Valid()
        invariant Engine.Run(old(Snapshot()), fuel) == Engine.Run(Snapshot(), remaining)
        decreases remaining
      {
        if remaining == 0 {
          return Engine.OutOfFuel;
        }
        var fault := ExecuteInstruction();
        if fault.Some? {
          return Engine.Faulted(fault.value);
        }
        remaining := remaining - 1;
      }
      status := Engine.Halted;
    }
  }
}
