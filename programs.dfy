/**
 * Whole programs run on the machine, and what they are proved to write. Each program's single
 * steps are established first, one instruction at a time; the run is then chained from them.
 */
module Programs {
  import opened Wrappers
  import opened Instructions
  import opened Semantics
  import Machine

  function Load(v: int): Instruction { Instruction(Loadcon, Some(v)) }
  function Op(op: Opcode): Instruction { Instruction(op, None) }

  /** The demo program of the entry point: 2 + (-3), written. */
  const Demo: seq<Instruction> := [Load(2), Load(3), Op(Negate), Op(Add), Op(Write)]

  /** The states the demo goes through, one per instruction executed. */
  function DemoTrace(limit: int): seq<State> {
    [State([], limit, 0, []), State([2], limit, 1, []), State([2, 3], limit, 2, []),
     State([2, -3], limit, 3, []), State([-1], limit, 4, []), State([], limit, 5, [-1])]
  }

  lemma DemoStep(k: nat, limit: int)
    requires k < 5 && limit >= 2
    ensures StepsTo(Demo, DemoTrace(limit)[k], DemoTrace(limit)[k + 1])
  {
    if k == 0 {
    } else if k == 1 {
    } else if k == 2 {
    } else if k == 3 {
    } else {
    }
  }

  lemma DemoIsTrace(limit: int)
    requires limit >= 2
    ensures IsTrace(Demo, DemoTrace(limit))
  {
    var t := DemoTrace(limit);
    forall k | 0 <= k < |t| - 1
      ensures StepsTo(Demo, t[k], t[k + 1])
    {
      DemoStep(k, limit);
    }
  }

  /** The demo writes exactly -1 and leaves the stack empty, on any capacity of at least 2. */
  lemma DemoWritesMinusOne(limit: int, fuel: nat)
    requires limit >= 2 && fuel >= 5
    ensures Executable(Demo)
    ensures Run(Demo, Initial(limit), fuel) == Outcome(Halted, State([], limit, 5, [-1]))
  {
    DemoIsTrace(limit);
    RunFollowsTrace(Demo, DemoTrace(limit), fuel);
  }

  /** `[loadcon 1, loadcon offset, br, write, write]`: a branch by `offset` taken at position 2. */
  function Skip(offset: int): seq<Instruction> {
    [Load(1), Load(offset), Op(Br), Op(Write), Op(Write)]
  }

  function SkipTrace(offset: int, limit: int): seq<State> {
    [State([], limit, 0, []), State([1], limit, 1, []), State([1, offset], limit, 2, []),
     State([1], limit, 3 + offset, [])]
  }

  lemma SkipStep(offset: int, k: nat, limit: int)
    requires k < 3 && limit >= 2
    ensures StepsTo(Skip(offset), SkipTrace(offset, limit)[k], SkipTrace(offset, limit)[k + 1])
  {
    if k == 0 {
    } else if k == 1 {
    } else {
    }
  }

  /** The first three instructions leave 1 on the stack and the counter at `3 + offset`. */
  lemma SkipBranches(offset: int, limit: int, fuel: nat)
    requires limit >= 2 && fuel >= 3
    ensures Executable(Skip(offset))
    ensures Run(Skip(offset), Initial(limit), fuel) == Run(Skip(offset), State([1], limit, 3 + offset, []), fuel - 3)
  {
    var t := SkipTrace(offset, limit);
    forall k | 0 <= k < |t| - 1
      ensures StepsTo(Skip(offset), t[k], t[k + 1])
    {
      SkipStep(offset, k, limit);
    }
    RunFollowsTrace(Skip(offset), t, fuel);
  }

  /** An offset of 2 lands past the end: neither `write` runs and 1 stays on the stack. */
  lemma BranchByTwoSkipsBothWrites(limit: int, fuel: nat)
    requires limit >= 2 && fuel >= 3
    ensures Executable(Skip(2))
    ensures Run(Skip(2), Initial(limit), fuel) == Outcome(Halted, State([1], limit, 5, []))
  {
    SkipBranches(2, limit, fuel);
  }

  /** An offset of 1 skips exactly one `write`: the other writes the 1. */
  lemma BranchByOneSkipsOneWrite(limit: int, fuel: nat)
    requires limit >= 2 && fuel >= 4
    ensures Executable(Skip(1))
    ensures Run(Skip(1), Initial(limit), fuel) == Outcome(Halted, State([], limit, 5, [1]))
  {
    SkipBranches(1, limit, fuel);
    assert Step(Op(Write), State([1], limit, 4, [])) == State([], limit, 5, [1]);
    RunAdvances(Skip(1), State([1], limit, 4, []), Op(Write), State([], limit, 5, [1]), fuel - 3);
  }

  /** The absolute-value program: `[loadcon n, dup, zero, less, loadcon 3, br_false, one, negate, mpy, write]`. */
  function Absolute(n: int): seq<Instruction> {
    [Load(n), Op(Dup), Op(Zero), Op(Less), Load(3), Op(BrFalse), Op(One), Op(Negate), Op(Mpy), Op(Write)]
  }

  /** The comparison flag the program computes: the true value exactly when `n` is negative. */
  function Flag(n: int): int { if n < 0 then 1 else 0 }

  /** The first five steps: `n` ends up under its flag and the offset 3. */
  function AbsolutePrefixTrace(n: int, limit: int): seq<State> {
    [State([], limit, 0, []), State([n], limit, 1, []), State([n, n], limit, 2, []),
     State([n, n, 0], limit, 3, []), State([n, Flag(n)], limit, 4, []), State([n, Flag(n), 3], limit, 5, [])]
  }

  /** The rest: falling through to `one, negate, mpy` for a negative `n`, jumping to the `write` otherwise. */
  function AbsoluteRestTrace(n: int, limit: int): seq<State> {
    if n < 0 then
      [State([n, 1, 3], limit, 5, []), State([n], limit, 6, []), State([n, 1], limit, 7, []),
       State([n, -1], limit, 8, []), State([-n], limit, 9, []), State([], limit, 10, [-n])]
    else
      [State([n, 0, 3], limit, 5, []), State([n], limit, 9, []), State([], limit, 10, [n])]
  }

  lemma AbsolutePrefixStep(n: int, k: nat, limit: int)
    requires k < 5 && limit >= 3
    ensures StepsTo(Absolute(n), AbsolutePrefixTrace(n, limit)[k], AbsolutePrefixTrace(n, limit)[k + 1])
  {
    if k == 0 {
    } else if k == 1 {
    } else if k == 2 {
    } else if k == 3 {
    } else {
    }
  }

  lemma AbsoluteRestStep(n: int, k: nat, limit: int)
    requires k < |AbsoluteRestTrace(n, limit)| - 1 && limit >= 3
    ensures StepsTo(Absolute(n), AbsoluteRestTrace(n, limit)[k], AbsoluteRestTrace(n, limit)[k + 1])
  {
    if n >= 0 {
    } else if k == 0 {
    } else if k == 1 {
    } else if k == 2 {
    } else if k == 3 {
      assert -1 * n == -n;
    } else {
    }
  }

  /** The first five instructions leave `n` under its flag and the offset 3. */
  lemma AbsolutePrefixRuns(n: int, limit: int, fuel: nat)
    requires limit >= 3 && fuel >= 5
    ensures Executable(Absolute(n))
    ensures Run(Absolute(n), Initial(limit), fuel) ==
            Run(Absolute(n), State([n, Flag(n), 3], limit, 5, []), fuel - 5)
  {
    var p, t := Absolute(n), AbsolutePrefixTrace(n, limit);
    forall k | 0 <= k < |t| - 1
      ensures StepsTo(p, t[k], t[k + 1])
    {
      AbsolutePrefixStep(n, k, limit);
    }
    RunFollowsTrace(p, t, fuel);
  }

  /** From there the run halts having written the absolute value of `n`. */
  lemma AbsoluteRestRuns(n: int, limit: int, fuel: nat)
    requires limit >= 3 && fuel >= 5
    ensures Executable(Absolute(n))
    ensures Run(Absolute(n), State([n, Flag(n), 3], limit, 5, []), fuel) ==
            Outcome(Halted, State([], limit, 10, [if n < 0 then -n else n]))
  {
    var p, u := Absolute(n), AbsoluteRestTrace(n, limit);
    forall k | 0 <= k < |u| - 1
      ensures StepsTo(p, u[k], u[k + 1])
    {
      AbsoluteRestStep(n, k, limit);
    }
    RunFollowsTrace(p, u, fuel);
  }

  /** On a capacity of at least 3 it writes the absolute value of `n` and leaves the stack empty. */
  lemma AbsoluteWritesAbs(n: int, limit: int, fuel: nat)
    requires limit >= 3 && fuel >= 10
    ensures Executable(Absolute(n))
    ensures Run(Absolute(n), Initial(limit), fuel) ==
            Outcome(Halted, State([], limit, 10, [if n < 0 then -n else n]))
  {
    AbsolutePrefixRuns(n, limit, fuel);
    AbsoluteRestRuns(n, limit, fuel - 5);
  }

  /** A backward branch below minus the program's length makes the fetch raise an index error. */
  lemma FarBackwardBranchRaises(limit: int, fuel: nat)
    requires limit >= 1 && fuel >= 2
    ensures Executable([Load(-5), Op(Br)])
    ensures Run([Load(-5), Op(Br)], Initial(limit), fuel) == Outcome(IndexError, State([], limit, -3, []))
  {
    var p, t := [Load(-5), Op(Br)], [State([], limit, 0, []), State([-5], limit, 1, []), State([], limit, -3, [])];
    assert Step(p[0], t[0]) == t[1];
    assert Step(p[1], t[1]) == t[2];
    RunFollowsTrace(p, t, fuel);
  }

  /**
   * A short backward branch does not stop the machine: counter -1 fetches the last instruction
   * (a `write` on an empty stack, a no-op), then the counter is back at 0 and the loop repeats.
   */
  const Spin: seq<Instruction> := [Load(-3), Op(Br), Op(Write)]

  /** One round of `Spin`, which ends where it began. */
  function SpinTrace(limit: int): seq<State> {
    [State([], limit, 0, []), State([-3], limit, 1, []), State([], limit, -1, []), State([], limit, 0, [])]
  }

  lemma SpinStep(k: nat, limit: int)
    requires k < 3 && limit >= 1
    ensures StepsTo(Spin, SpinTrace(limit)[k], SpinTrace(limit)[k + 1])
  {
    if k == 0 {
    } else if k == 1 {
    } else {
      assert Fetch(Spin, -1) == At(Op(Write));
    }
  }

  lemma SpinIsTrace(limit: int)
    requires limit >= 1
    ensures IsTrace(Spin, SpinTrace(limit))
  {
    var t := SpinTrace(limit);
    forall k | 0 <= k < |t| - 1
      ensures StepsTo(Spin, t[k], t[k + 1])
    {
      SpinStep(k, limit);
    }
  }

  /** Whatever the fuel, `Spin` never halts. */
  lemma {:induction false} SpinNeverHalts(limit: int, fuel: nat)
    requires limit >= 1
    ensures Executable(Spin)
    ensures Run(Spin, Initial(limit), fuel).status == OutOfFuel
    decreases fuel
  {
    var t := SpinTrace(limit);
    SpinIsTrace(limit);
    if fuel >= 3 {
      RunFollowsTrace(Spin, t, fuel);
      SpinNeverHalts(limit, fuel - 3);
    } else {
      assert IsTrace(Spin, t[..fuel + 1]);
      RunFollowsTrace(Spin, t[..fuel + 1], fuel);
    }
  }

  /** The entry point's run on a machine of the default capacity: it writes -1 and empties the stack. */
  method RunDemo() returns (written: seq<int>, left: seq<int>)
    ensures written == [-1] && left == []
  {
    var m := new Machine.StackMachine(Demo, Machine.DefaultStackSize);
    DemoWritesMinusOne(Machine.DefaultStackSize, 5);
    var status := m.Run(5);
    written := m.output;
    left := m.valueStack.elements;
  }
}
