/**
 * The executing machine: a class that owns a bounded stack, holds the program and a program
 * counter, and has one method per opcode. Each method is proved to do what the matching
 * function of `Semantics` says; `Run` is the fetch/dispatch/advance loop.
 */
module Machine {
  import opened Wrappers
  import opened Instructions
  import opened BoundedStack
  import Semantics

  /** The capacity a machine gets when none is given. */
  const DefaultStackSize: int := 10

  class StackMachine {
    const valueStack: Stack
    const sizeLimit: int
    const instructions: seq<Instruction>
    var programCounter: int
    /** The values the `write` opcode has emitted, in order. */
    var output: seq<int>

    ghost predicate Valid()
      reads this, valueStack
    {
      valueStack.Valid() && valueStack.sizeLimit == sizeLimit
    }

    /** The machine's state as a value. */
    function State(): Semantics.State
      reads this, valueStack
    {
      Semantics.State(valueStack.elements, valueStack.sizeLimit, programCounter, output)
    }

    /** A machine over `instructions` with an empty stack of capacity `stackSize`, at counter 0. */
    constructor (instructions: seq<Instruction>, stackSize: int)
      requires stackSize >= 0
      ensures Valid() && fresh(valueStack)
      ensures this.instructions == instructions && this.sizeLimit == stackSize
      ensures State() == Semantics.Initial(stackSize)
    {
      valueStack := new Stack(stackSize, []);
      sizeLimit := stackSize;
      this.instructions := instructions;
      programCounter := 0;
      output := [];
    }

    /** Building a machine raises exactly when its stack cannot be built: for a negative capacity. */
    static method Create(instructions: seq<Instruction>, stackSize: int) returns (r: Result<StackMachine, StackError>)
      ensures r.Failure? <==> stackSize < 0
      ensures r.Success? ==> fresh(r.value) && fresh(r.value.valueStack) && r.value.Valid() &&
                             r.value.instructions == instructions &&
                             r.value.State() == Semantics.Initial(stackSize)
    {
      if stackSize < 0 {
        return Failure(ElementsExceedLimit);
      }
      var m := new StackMachine(instructions, stackSize);
      return Success(m);
    }

    /** `loadcon v`: pushes `v`. */
    method Loadcon(value: int)
      requires Valid()
      modifies valueStack
      ensures Valid()
      ensures State() == Semantics.LoadconOp(value, old(State()))
    {
      valueStack.Push(value);
    }

    /** `br`: pops an offset and adds it to the counter. */
    method Br()
      requires Valid()
      modifies this, valueStack
      ensures Valid()
      ensures State() == Semantics.BrOp(old(State()))
    {
      var n := valueStack.Len();
      if n < 1 {
        return;
      }
      var offset := valueStack.Pop();
      programCounter := programCounter + offset.value;
    }

    /** `br_false`: pops an offset, then a condition; adds the offset unless the condition is the true value. */
    method BrFalse()
      requires Valid()
      modifies this, valueStack
      ensures Valid()
      ensures State() == Semantics.BrFalseOp(old(State()))
    {
      var n := valueStack.Len();
      if n < 2 {
        return;
      }
      var offset := valueStack.Pop();
      var condition := valueStack.Pop();
      if condition.value != Semantics.TrueValue {
        programCounter := programCounter + offset.value;
      }
    }

    /** `add`: pops two values and pushes their sum. */
    method Add()
      requires Valid()
      modifies valueStack
      ensures Valid()
      ensures State() == Semantics.AddOp(old(State()))
    {
      var n := valueStack.Len();
      if n < 2 {
        return;
      }
      var first := valueStack.Pop();
      var second := valueStack.Pop();
      valueStack.Push(first.value + second.value);
    }

    /** `negate`: pops a value and pushes it times -1. */
    method Negate()
      requires Valid()
      modifies valueStack
      ensures Valid()
      ensures State() == Semantics.NegateOp(old(State()))
    {
      var n := valueStack.Len();
      if n < 1 {
        return;
      }
      var top := valueStack.Pop();
      valueStack.Push(top.value * -1);
    }

    /** `equal`: pops two values and pushes whether they are equal. */
    method Equal()
      requires Valid()
      modifies valueStack
      ensures Valid()
      ensures State() == Semantics.EqualOp(old(State()))
    {
      var n := valueStack.Len();
      if n < 2 {
        return;
      }
      var first := valueStack.Pop();
      var second := valueStack.Pop();
      if first.value == second.value {
        valueStack.Push(Semantics.TrueValue);
      } else {
        valueStack.Push(Semantics.FalseValue);
      }
    }

    /** `less`: pops the top, then the second; pushes whether second < top. */
    method Less()
      requires Valid()
      modifies valueStack
      ensures Valid()
      ensures State() == Semantics.LessOp(old(State()))
    {
      var n := valueStack.Len();
      if n < 2 {
        return;
      }
      var top := valueStack.Pop();
      var secondTop := valueStack.Pop();
      if secondTop.value < top.value {
        valueStack.Push(Semantics.TrueValue);
      } else {
        valueStack.Push(Semantics.FalseValue);
      }
    }

    /** `swap`: pops two values and pushes them back in the order popped. */
    method Swap()
      requires Valid()
      modifies valueStack
      ensures Valid()
      ensures State() == Semantics.SwapOp(old(State()))
    {
      var n := valueStack.Len();
      if n < 2 {
        return;
      }
      var first := valueStack.Pop();
      var second := valueStack.Pop();
      valueStack.Push(first.value);
      valueStack.Push(second.value);
    }

    /** `mpy`: pops two values and pushes their product. */
    method Mpy()
      requires Valid()
      modifies valueStack
      ensures Valid()
      ensures State() == Semantics.MpyOp(old(State()))
    {
      var n := valueStack.Len();
      if n < 2 {
        return;
      }
      var first := valueStack.Pop();
      var second := valueStack.Pop();
      valueStack.Push(first.value * second.value);
    }

    /** `zero`: pushes 0. */
    method Zero()
      requires Valid()
      modifies valueStack
      ensures Valid()
      ensures State() == Semantics.ZeroOp(old(State()))
    {
      valueStack.Push(0);
    }

    /** `one`: pushes 1. */
    method One()
      requires Valid()
      modifies valueStack
      ensures Valid()
      ensures State() == Semantics.OneOp(old(State()))
    {
      valueStack.Push(1);
    }

    /** `write`: pops a value and appends it to the output. */
    method Write()
      requires Valid()
      modifies this, valueStack
      ensures Valid()
      ensures State() == Semantics.WriteOp(old(State()))
    {
      var n := valueStack.Len();
      if n < 1 {
        return;
      }
      var value := valueStack.Pop();
      output := output + [value.value];
    }

    /** `dup`: pops a value and pushes it twice. */
    method Dup()
      requires Valid()
      modifies valueStack
      ensures Valid()
      ensures State() == Semantics.DupOp(old(State()))
    {
      var n := valueStack.Len();
      if n < 1 {
        return;
      }
      var value := valueStack.Pop();
      valueStack.Push(value.value);
      valueStack.Push(value.value);
    }

    /** Dispatches one instruction to the method of its opcode. */
    method Execute(ins: Instruction)
      requires Valid() && OperandPresent(ins)
      modifies this, valueStack
      ensures Valid()
      ensures State() == Semantics.Exec(ins, old(State()))
    {
      match ins.op
      case Loadcon => Loadcon(ins.value.value);
      case Zero => Zero();
      case One => One();
      case Add => Add();
      case Mpy => Mpy();
      case Negate => Negate();
      case Equal => Equal();
      case Less => Less();
      case Swap => Swap();
      case Dup => Dup();
      case Write => Write();
      case Br => Br();
      case BrFalse => BrFalse();
    }

    /** Executes one fetched instruction, then moves the counter on by one. */
    method Advance(current: Instruction)
      requires Valid() && OperandPresent(current)
      modifies this, valueStack
      ensures Valid() && State() == Semantics.Step(current, old(State()))
    {
      Execute(current);
      programCounter := programCounter + 1;
    }

    /**
     * One pass of the loop: the end check, the fetch and, fuel permitting, the dispatch and the
     * advance. `stopped` says the run ends here, with `status`.
     */
    method Cycle(remaining: nat) returns (stopped: bool, status: Semantics.Status)
      requires Valid() && Semantics.Executable(instructions)
      modifies this, valueStack
      ensures Valid()
      ensures stopped ==> Semantics.Outcome(status, State()) == Semantics.Run(instructions, old(State()), remaining)
      ensures !stopped ==> remaining > 0
      ensures !stopped ==> Semantics.Run(instructions, old(State()), remaining) == Semantics.Run(instructions, State(), remaining - 1)
    {
      if programCounter > |instructions| - 1 {
        Semantics.RunPastEnd(instructions, State(), remaining);
        return true, Semantics.Halted;
      }
      if programCounter < -|instructions| {
        Semantics.RunBeforeStart(instructions, State(), remaining);
        return true, Semantics.IndexError;
      }
      var current := instructions[if programCounter >= 0 then programCounter
                                  else |instructions| + programCounter];
      if remaining == 0 {
        Semantics.RunNoFuel(instructions, State());
        return true, Semantics.OutOfFuel;
      }
      ghost var before := State();
      assert Semantics.Fetch(instructions, before.pc) == Semantics.At(current);
      Advance(current);
      Semantics.RunAdvances(instructions, before, current, State(), remaining);
      stopped, status := false, Semantics.OutOfFuel;
    }

    /**
     * Fetches, dispatches and advances until the counter passes the last instruction, an index
     * error occurs, or `fuel` instructions have been executed.
     */
    method Run(fuel: nat) returns (status: Semantics.Status)
      requires Valid() && Semantics.Executable(instructions)
      modifies this, valueStack
      ensures Valid()
      ensures Semantics.Outcome(status, State()) == Semantics.Run(instructions, old(State()), fuel)
    {
      ghost var outcome := Semantics.Run(instructions, State(), fuel);
      var remaining := fuel;
      while true
        invariant Valid()
        invariant Semantics.Run(instructions, State(), remaining) == outcome
        decreases remaining
      {
        var stopped;
        stopped, status := Cycle(remaining);
        if stopped {
          return;
        }
        remaining := remaining - 1;
      }
    }
  }
}
