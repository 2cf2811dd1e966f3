/**
  Properties of the reset, of single steps and of fuel-bounded runs.
 */
module RunProperties {
  import opened Machine
  import opened Engine

  /** Resetting twice is the same as resetting once. */
  lemma InitIdempotent(s: State)
    ensures Init(Init(s)) == Init(s)
  {
  }

  /** SUB has no case in the dispatcher: it halts and changes nothing else. */
  lemma SubHalts(s: State)
    requires s.programCounter as int < MemorySize - 1 && s.memory[s.programCounter] == SUB
    ensures Step(s) == Stepped(s.(running := false))
  {
  }

  /** 0xFF + 0x01 wraps to 0x00 and sets the zero flag. */
  lemma AddOverflowSetsZeroFlag(s: State)
    requires s.programCounter as int < MemorySize - 1 && s.memory[s.programCounter] == ADD
    requires s.accumulator == 0xFF && s.bRegister == 0x01
    ensures Step(s).Stepped? && Step(s).next.accumulator == 0 && Step(s).next.zeroFlag
  {
  }

  /**
    LDA followed by STA copies one data cell to another and touches no other
    cell. The second instruction starts two bytes later, modulo 256.
   */
  lemma LoadThenStoreCopies(s: State)
    requires s.programCounter as int < MemorySize - 1
    requires s.memory[s.programCounter] == LDA
    requires s.memory[s.programCounter as int + 1] as int + DataBase < MemorySize
    requires (s.programCounter as int + 2) % 256 < MemorySize - 1
    requires s.memory[(s.programCounter as int + 2) % 256] == STA
    requires s.memory[(s.programCounter as int + 2) % 256 + 1] as int + DataBase < MemorySize
    ensures Step(s).Stepped? && Step(Step(s).next).Stepped?
    ensures var source := s.memory[s.programCounter as int + 1] as int + DataBase;
            var target := s.memory[(s.programCounter as int + 2) % 256 + 1] as int + DataBase;
            var t := Step(Step(s).next).next;
            t.memory[target] == s.memory[source] &&
            (forall i :: 0 <= i < MemorySize && i != target ==> t.memory[i] == s.memory[i]) &&
            t.accumulator == s.memory[source] &&
            t.programCounter as int == (s.programCounter as int + 4) % 256
  {
  }

  /** Continues a run that stopped for lack of fuel; any other result is final. */
  function Resume(r: RunResult, fuel: nat): (resumed: RunResult) {
    if r.status.OutOfFuel? then Run(r.final, fuel) else r
  }

  /** Running with `m + n` fuel is running with `m`, then resuming with `n`. */
  lemma {:induction false} RunAdditive(s: State, m: nat, n: nat)
    ensures Run(s, m + n) == Resume(Run(s, m), n)
    decreases m
  {
    if s.running && m > 0 {
      match Step(s)
      case Stepped(t) =>
        assert m + n - 1 == (m - 1) + n;
        RunAdditive(t, m - 1, n);
      case Undefined(_) =>
    }
  }

  /** Once a run halts or faults, more fuel does not change its result. */
  lemma RunStable(s: State, m: nat, n: nat)
    requires m <= n && !Run(s, m).status.OutOfFuel?
    ensures Run(s, n) == Run(s, m)
  {
    RunAdditive(s, m, n - m);
  }

  /** A run that halts stops at a state from which running again does nothing. */
  lemma HaltedRunIsFinal(s: State, m: nat, n: nat)
    requires Run(s, m).status == Halted
    ensures Run(Run(s, m).final, n) == Run(s, m)
  {
  }
}
