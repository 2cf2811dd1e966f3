/**
  Whole programs run on a freshly reset machine: the intended two-number
  addition, and the demonstration program of `main` as it is written.
 */
module Programs {
  import opened Machine
  import opened Engine
  import RunProperties

  /**
    The loading done by `main` with `memcpy`: `program` at address 0,
    `data` at the start of the data area, every other cell as it was.
   */
  function Load(s: State, program: seq<u8>, data: seq<u8>): (r: State)
    requires |program| <= DataBase && |data| <= MemorySize - DataBase
    ensures forall i :: 0 <= i < |program| ==> r.memory[i] == program[i]
    ensures forall i :: 0 <= i < |data| ==> r.memory[DataBase + i] == data[i]
    ensures forall i :: |program| <= i < DataBase ==> r.memory[i] == s.memory[i]
    ensures forall i :: DataBase + |data| <= i < MemorySize ==> r.memory[i] == s.memory[i]
    ensures SameExcept(s, r, {Cells})
  {
    s.(memory := program + s.memory[|program|..DataBase] + data + s.memory[DataBase + |data|..])
  }

  /** Adds the data cells 0x80 and 0x81 into 0x82; ADD is one byte wide. */
  const SumProgram: seq<u8> := [LDA, 0x00, LDB, 0x01, ADD, STA, 0x02, HLT]

  /** The program of `main`, which gives ADD an operand byte it does not have. */
  const DemoProgram: seq<u8> := [LDA, 0x00, ADD, 0x01, STA, 0x02, HLT]

  const SumData: seq<u8> := [0x05, 0x03, 0x00]

  /** From any reset machine, the sum program halts within five steps with 5 + 3 at 0x82. */
  lemma ExampleProgramStoresSum(s: State, fuel: nat)
    requires fuel >= 5
    ensures var r := Run(Load(Init(s), SumProgram, SumData), fuel);
            r.status == Halted && !r.final.running &&
            r.final.memory[0x82] == 0x08 && r.final.accumulator == 0x08 &&
            r.final.programCounter == 7
  {
    var s0 := Load(Init(s), SumProgram, SumData);
    assert s0.memory[0] == LDA && s0.memory[1] == 0x00 && s0.memory[0x80] == 0x05;
    var s1 := Step(s0).next;
    assert s1.accumulator == 5 && s1.programCounter == 2 && s1.memory == s0.memory;
    assert s1.memory[2] == LDB && s1.memory[3] == 0x01 && s1.memory[0x81] == 0x03;
    var s2 := Step(s1).next;
    assert s2.bRegister == 3 && s2.programCounter == 4 && s2.memory == s0.memory;
    assert s2.memory[4] == ADD;
    var s3 := Step(s2).next;
    assert s3.accumulator == 8 && s3.programCounter == 5 && s3.memory == s0.memory;
    assert s3.memory[5] == STA && s3.memory[6] == 0x02;
    var s4 := Step(s3).next;
    assert s4.memory[0x82] == 8 && s4.programCounter == 7;
    assert s4.memory[7] == s0.memory[7] == HLT;
    var s5 := Step(s4).next;
    assert !s5.running && s5.memory[0x82] == 8;
    assert Run(s0, 5) == RunResult(Halted, s5);
    RunProperties.RunStable(s0, 5, fuel);
  }

  /**
    The program of `main` as written: after the two-byte ADD the decoder reads
    the operand 0x01 as LDA and the operand 0x02 as STA, whose operand is the
    HLT byte 0xFF; the fourth step would write cell 0x17F, past the memory.
   */
  lemma DemoProgramWritesPastMemory(s: State, fuel: nat)
    requires fuel >= 4
    ensures var r := Run(Load(Init(s), DemoProgram, SumData), fuel);
            r.status == Faulted(DataIndexOutOfBounds(0x17F)) &&
            r.final.programCounter == 5 && r.final.memory[0x82] == 0x00
  {
    var s0 := Load(Init(s), DemoProgram, SumData);
    assert s0.memory[0] == LDA && s0.memory[1] == 0x00 && s0.memory[0x80] == 0x05;
    var s1 := Step(s0).next;
    assert s1.programCounter == 2 && s1.memory == s0.memory;
    assert s1.memory[2] == ADD;
    var s2 := Step(s1).next;
    assert s2.programCounter == 3 && s2.memory == s0.memory;
    assert s2.memory[3] == LDA && s2.memory[4] == 0x02 && s2.memory[0x82] == 0;
    var s3 := Step(s2).next;
    assert s3.programCounter == 5 && s3.memory == s0.memory;
    assert s3.memory[5] == STA && s3.memory[6] == HLT;
    assert Step(s3) == Undefined(DataIndexOutOfBounds(0x17F));
    assert Run(s0, 4) == RunResult(Faulted(DataIndexOutOfBounds(0x17F)), s3);
    RunProperties.RunStable(s0, 4, fuel);
  }
}
