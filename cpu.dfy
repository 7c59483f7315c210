/**
 * The Duck Machine CPU: sixteen registers (r0 always reads zero, r15 is the
 * program counter), a condition state, a halt flag, and a connection to a
 * memory that it does not own. `Step` and `Run` change this state in place
 * and are proved to do what `CpuSpec.StepSpec` and `CpuSpec.RunSpec` say.
 */
module Cpu {
  import opened InstrFormat
  import opened Alu
  import opened CpuSpec

  class CPU {
    /** The memory the CPU is connected to; the caller holds it too. */
    const memory: array<int>
    /** How instruction words are decoded. */
    const decode: Decoder
    /** The register file; writes to r0 are discarded. */
    const registers: array<int>
    var condition: Condition
    var halted: bool

    ghost predicate Valid()
      reads this, registers
    {
      registers.Length == 16 && registers[0] == 0 && registers != memory
    }

    /** The whole machine state as a value. */
    ghost function State(): (s: MachineState)
      reads this, registers, memory
      requires Valid()
      ensures WellFormed(s)
    {
      MachineState(registers[..], memory[..], condition, halted)
    }

    /** A new CPU: registers at zero, condition ALWAYS, not halted. */
    constructor (memory: array<int>, decode: Decoder)
      ensures Valid() && fresh(registers)
      ensures this.memory == memory && this.decode == decode
      ensures registers[..] == seq(16, _ => 0)
      ensures condition == Flag(ALWAYS) && !halted
    {
      this.memory := memory;
      this.decode := decode;
      registers := new int[16](_ => 0);
      condition := Flag(ALWAYS);
      halted := false;
    }

    /** Reading a register; the zero register always reads 0. */
    function Get(i: RegIndex): (v: int)
      reads this, registers
      requires Valid()
      ensures v == CpuSpec.Get(State(), i)
    {
      if i == 0 then 0 else registers[i]
    }

    /** Writing a register; a write to the zero register is discarded. */
    method Put(i: RegIndex, v: int)
      requires Valid()
      modifies registers
      ensures Valid()
      ensures State() == CpuSpec.Put(old(State()), i, v)
    {
      if i != 0 {
        registers[i] := v;
      }
    }

    /** One fetch/decode/execute step. */
    method Step() returns (outcome: Outcome)
      requires Valid()
      modifies this, registers, memory
      ensures Valid()
      ensures Stepped(State(), outcome) == StepSpec(decode, old(State()))
    {
      var instrAddress := Get(PC);
      if !(0 <= instrAddress < memory.Length) {
        return MemoryFault(instrAddress);
      }
      var word := memory[instrAddress];
      var instr := decode(word);
      if Predicated(condition, instr.cond) {
        var left := Get(instr.regSrc1);
        var right := instr.offset + Get(instr.regSrc2);
        var result := Exec(instr.op, left, right);
        Put(PC, Get(PC) + 1);
        match instr.op {
          case STORE =>
            if !(0 <= result.result < memory.Length) {
              return MemoryFault(result.result);
            }
            memory[result.result] := Get(instr.regTarget);
          case LOAD =>
            if !(0 <= result.result < memory.Length) {
              return MemoryFault(result.result);
            }
            Put(instr.regTarget, memory[result.result]);
          case HALT =>
            halted := true;
          // the test `op == ADD or OpCode.SUB or ...` is always true
          case _ =>
            Put(instr.regTarget, result.result);
            condition := Op(instr.op);
        }
      } else {
        Put(PC, Get(PC) + 1);
      }
      outcome := Running;
    }

    /**
     * Run from `fromAddr` until halted: clear the halt flag, set the program
     * counter, and step. At most `maxSteps` steps are taken, and a memory
     * fault ends the run.
     */
    method Run(fromAddr: int, maxSteps: nat) returns (stepCount: nat, outcome: Outcome)
      requires Valid()
      modifies this, registers, memory
      ensures Valid()
      ensures Ran(State(), outcome, stepCount) == RunSpec(decode, Reset(old(State()), fromAddr), maxSteps)
      ensures outcome == Running ==> halted || stepCount == maxSteps
    {
      halted := false;
      Put(PC, fromAddr);
      ghost var start := State();
      assert start == Reset(old(State()), fromAddr);
      stepCount := 0;
      outcome := Running;
      while !halted && stepCount < maxSteps
        invariant Valid()
        invariant stepCount <= maxSteps && outcome == Running
        invariant var rest := RunSpec(decode, State(), maxSteps - stepCount);
                  RunSpec(decode, start, maxSteps) == Ran(rest.state, rest.outcome, rest.steps + stepCount)
        decreases maxSteps - stepCount
      {
        ghost var before := State();
        outcome := Step();
        stepCount := stepCount + 1;
        if outcome.MemoryFault? {
          assert RunSpec(decode, before, maxSteps - stepCount + 1) == Ran(State(), outcome, 1);
          return;
        }
      }
    }
  }

  /**
   * The program "ADD r1 <- r0 + r0 + 5; HALT" run from address 0 leaves 5
   * in r1 and halts after two steps.
   */
  method AddThenHaltScenario() returns (r1: int, steps: nat, halted: bool)
    ensures r1 == 5 && steps == 2 && halted
  {
    var add := Instruction(ADD, ALWAYS, 0, 0, 1, 5);
    var halt := Instruction(HALT, ALWAYS, 0, 0, 0, 0);
    var memory := new int[8](_ => 0);
    memory[0] := 1;
    var cpu := new CPU(memory, (w: int) => if w == 1 then add else halt);
    ghost var initial := cpu.State();
    var outcome;
    steps, outcome := cpu.Run(0, 100);
    AddThenHalt(cpu.decode, initial, 100);
    r1, halted := cpu.Get(1), cpu.halted;
  }
}
