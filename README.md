# Duck Machine CPU, modelled in Dafny

This project models the CPU of the Duck Machine, a small teaching computer
simulated in Python (`cpu/cpu.py`). It has two parts:

- the **ALU**, a stateless function from an operation code and two integer
  operands to a result and a condition flag;
- the **CPU**, a fetch/decode/execute state machine. Its state is sixteen
  registers, a condition state and a halt flag. r0 always reads zero and r15
  is the program counter. It is connected to a word-addressed memory.

Files and modules:

- `instr_format.dfy` (`InstrFormat`): what the CPU uses from the instruction
  set. This covers operation codes, condition flags as 4-bit masks, decoded
  instructions and register numbers. It also defines `BitAnd`, Python's `&`
  on unbounded integers.
- `alu.dfy` (`Alu`): the ALU, including Python floor division `//`, written
  out because Dafny's `/` is Euclidean.
- `cpu_spec.dfy` (`CpuSpec`): one step and one run as functions on a value
  that holds the whole machine state, with lemmas about what each
  instruction changes and leaves alone.
- `cpu.dfy` (`Cpu`): the `CPU` class. It has a 16-element register array,
  the memory array, and `condition` and `halted` fields. `Step` and `Run`
  update them in place and are proved equal to `StepSpec` and `RunSpec`.

Integers are unbounded, as in the Python original, so overflow does not
occur. A division by zero inside the ALU yields result 0 with flag V.

### Behaviour modelled as written

The model does what `cpu/cpu.py` does. In four places that is not what the
code's structure suggests was intended:

- **Predication never skips.** The guard at `cpu/cpu.py:94` is written
  `condition.value & cond.value >= 0`. Python parses that as
  `(condition & cond) >= 0`, which holds for all non-negative values.
  Instructions predicated NEVER therefore execute, and the skip branch
  (lines 111-113) is never taken. `CpuSpec.Predicated` is this test as
  written; `CpuSpec.PredicationAlwaysPasses` and
  `CpuSpec.NeverPredicatedStillExecutes` prove the consequence.
- **The condition state holds an operation code.** After ADD, SUB, MUL or
  DIV the CPU stores the instruction's operation code in `condition`, not
  the flag the ALU returned (line 110). `CpuSpec.Condition` is therefore
  `Flag(CondFlag) | Op(OpCode)`.
- **The arithmetic branch is an `else`.** The test at line 108,
  `op == ADD or OpCode.SUB or ...`, is always true. Every operation other
  than STORE, LOAD and HALT takes it. The operation set is closed, so that
  means exactly ADD, SUB, MUL and DIV.
- **`run` keeps the condition state.** `run` resets only `halted` and the
  program counter (lines 117-118). It does not reset the condition state.

Two further details of the code are kept:

- STORE reads its source register *after* the program counter has been
  incremented (line 103 follows line 100). `STORE r15` therefore writes the
  address of the next instruction.
- A memory fault during LOAD or STORE happens after that increment.

## Model

| member | source | states |
|---|---|---|
| `Alu.Exec` | cpu/cpu.py:43-49 | The ALU never fails. Flag V comes back exactly for DIV with divisor 0, and then the result is 0. Otherwise the flag is Z, M or P exactly when the result is zero, negative or positive. |
| `Alu.FloorDiv` | cpu/cpu.py:33 | `x // y` rounds towards minus infinity: `y*q <= x < y*q + y` for positive y, and the mirror bounds for negative y. |
| `Alu.ExecDivIsFloor` | cpu/cpu.py:33 | DIV returns the one integer that lies within one divisor of `in1` in the floor direction. Floor division is defined independently here, and the lemma proves DIV agrees with it. |
| `Alu.ExecResults` | cpu/cpu.py:29-41 | ADD, SUB and MUL return the sum, difference and product. LOAD and STORE return the address `in1 + in2`. HALT returns `(0, Z)` for any operands. |
| `Alu.ExecExamples` | tests/test_cpu.py:8-33 | The sample results, e.g. `DIV(12,-3) = (-4, M)`, `DIV(12,0) = (0, V)` and `ADD(2^31-1, 1)` with flag P. |
| `InstrFormat.BitAndNonNegative` | cpu/cpu.py:94 | Python's `a & b` with `a >= 0` lies between 0 and `a`. |
| `InstrFormat.FlagOverlapExamples` | tests/test_instr_format.py:19-22 | Overlap is bitwise `&`. P overlaps M\|P, Z does not, and nothing overlaps NEVER. |
| `CpuSpec.Get` | cpu/cpu.py:75 | Reading r0 (the zero register) gives 0. Any other register gives its stored value. |
| `CpuSpec.Put` | cpu/cpu.py:75-78 | A write to r0 is discarded. A write to another register changes that register only. Memory, condition and halt are unchanged, and r0 stays 0. |
| `CpuSpec.StepSpec` | cpu/cpu.py:84-113 | One step keeps r0 at 0 and the memory size unchanged. |
| `CpuSpec.Execute` | cpu/cpu.py:95-110 | Executing a fetched instruction keeps r0 at 0 and the memory size unchanged. |
| `CpuSpec.Reset` | cpu/cpu.py:117-118 | The start of a run: halted is false and the PC is the start address. The other registers, memory and condition are unchanged. |
| `CpuSpec.Iterate` | cpu/cpu.py:119-124 | The run loop: when it ends without a fault, the machine is halted or the step bound is used up. A halted machine takes no step. |
| `CpuSpec.PredicationAlwaysPasses` | cpu/cpu.py:94 | The guard `(condition & cond) >= 0` holds for every condition state and every predicate. |
| `CpuSpec.NeverPredicatedStillExecutes` | cpu/cpu.py:94-113 | A NEVER predicate overlaps no condition, yet every fetched instruction executes. The skip branch is unreachable. |
| `CpuSpec.StepFetchFault` | cpu/cpu.py:86-87 | A PC outside memory faults at the fetch and leaves the state unchanged. |
| `CpuSpec.StepProgramCounter` | cpu/cpu.py:95-110 | After a step the PC is the old PC + 1. The exception is ADD/SUB/MUL/DIV/LOAD with target r15: the PC then holds the written value (the ALU result, or the loaded word). Operands are read before the increment. |
| `CpuSpec.StepArithmetic` | cpu/cpu.py:108-110 | ADD/SUB/MUL/DIV write `Exec(op, r[src1], offset + r[src2])` to the target and set condition to the operation code. Memory and halt are unchanged, no other register except the PC changes, and the step never faults. |
| `CpuSpec.StepLoad` | cpu/cpu.py:104-105 | LOAD writes `mem[r[src1] + offset + r[src2]]` to the target. Memory, condition and halt are unchanged. An address outside memory faults after the PC increment. |
| `CpuSpec.StepStore` | cpu/cpu.py:102-103 | STORE writes the target register to memory at the computed address. That register is read after the increment. Only the PC changes among registers, and condition and halt are unchanged. An address outside memory faults. |
| `CpuSpec.StepHalt` | cpu/cpu.py:106-107 | HALT sets halted and changes nothing but the PC. |
| `CpuSpec.RunSplits` | cpu/cpu.py:120-124 | A run of a+b steps is a run of a steps continued by a run of b steps, unless the first part halted or faulted. |
| `CpuSpec.RunFuelIrrelevant` | cpu/cpu.py:120-124 | Once a run halts or faults within its step bound, a larger bound gives the same result. |
| `CpuSpec.RunKeepsWellFormed` | cpu/cpu.py:120-124 | r0 reads 0 throughout a run, and memory keeps its size. |
| `CpuSpec.AddThenHalt` | cpu/cpu.py:115-124 | "ADD r1 <- r0 + r0 + 5; HALT" run from address 0 halts after exactly 2 steps with r1 = 5, whatever the condition state. |
| `CpuSpec.StoreThenLoad` | cpu/cpu.py:102-105 | STORE then LOAD through the same absolute address copies a register to another, as long as the store does not overwrite the LOAD. |
| `Cpu.CPU.constructor` | cpu/cpu.py:72-82 | A new CPU has all registers 0, condition ALWAYS, is not halted, and keeps the given memory and decoder. |
| `Cpu.CPU.Get` | cpu/cpu.py:95-96 | Reading a register of the object agrees with `CpuSpec.Get` on its state, so r0 reads 0. |
| `Cpu.CPU.Put` | cpu/cpu.py:100 | Writing a register of the object changes its state as `CpuSpec.Put` says. |
| `Cpu.CPU.Step` | cpu/cpu.py:84-113 | The new registers, memory, condition, halt flag and outcome are exactly `StepSpec` of the old state. |
| `Cpu.CPU.Run` | cpu/cpu.py:115-124 | The final state, outcome and step count are exactly `RunSpec` from the reset state. Without a fault, the CPU is halted or the step bound was reached. |
| `Cpu.AddThenHaltScenario` | cpu/cpu.py:115-124 | A CPU object running the two-instruction program ends halted after 2 steps with r1 = 5. |

## Left out

- Logging setup (`cpu/cpu.py:13-16`): I/O only.
- Observer notification: the `CPUStep` event and `notify_all` (`cpu/cpu.py:52-60`, `92`). It has no effect on execution.
- The `input(...)` pacing of single-step mode (`cpu/cpu.py:121-122`): console I/O. `Run` has no `single_step` parameter.
- `instruction_set/instr_format.py` is not part of this model. The instruction bit layout, `encode`/`decode` and the rendering of flags and instructions as text are left out.
- `decode` is modelled as a total function from words to instructions. It is given to the CPU as `decode: int -> Instruction`, so decode faults are not modelled.
- The numeric `.value` of each operation code (HALT = 0 ... DIV = 6) and flag (M = 1, Z = 2, P = 4, V = 8) are assumed from the conventional Duck Machine encoding. Nothing proved depends on them except that they are non-negative.
- `cpu/memory.py` and `cpu/register.py` are not part of this model. Memory is an array of integers shared with the caller, and an address outside it is a `MemoryFault` that ends the step and the run. A new register is assumed to hold 0.
- `Cpu.CPU.Run`: the loop of `run` need not terminate. The model takes a `maxSteps` bound, so on return the CPU is halted only when the bound was not reached.
- `Alu.Exec`: the bare `except:` in `exec` catches every exception. Only division by zero can raise for the seven operation codes, so only that case is modelled.
