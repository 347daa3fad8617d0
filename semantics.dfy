/**
 * The meaning of the stack machine as functions on a state value: one function per opcode
 * (each built from the same pops and pushes the machine performs), the fetch with its
 * negative-index behaviour, one fetch/dispatch/advance step, and a run bounded by fuel.
 */
module Semantics {
  import opened Wrappers
  import opened Instructions
  import opened BoundedStack

  /** The values the comparison opcodes push for true and false. */
  const TrueValue: int := 1
  const FalseValue: int := 0

  /** The machine's state: stack contents (top last), capacity, program counter, values written. */
  datatype State = State(stack: seq<int>, limit: int, pc: int, out: seq<int>)

  /** The invariant of a live machine: the stack fits its capacity. */
  predicate Wf(s: State) {
    |s.stack| <= s.limit
  }

  /** The state of a freshly built machine with the given capacity. */
  function Initial(limit: int): (s: State)
    requires limit >= 0
    ensures Wf(s) && s.stack == [] && s.pc == 0 && s.out == []
  {
    State([], limit, 0, [])
  }

  /** Every `loadcon` in the program carries its operand (reachable or not). */
  predicate Executable(prog: seq<Instruction>) {
    forall i :: 0 <= i < |prog| ==> OperandPresent(prog[i])
  }

  /** The number of stack elements an opcode needs; with fewer it does nothing. */
  function Depth(op: Opcode): nat {
    match op
    case Add | Mpy | Equal | Less | Swap | BrFalse => 2
    case Negate | Dup | Write | Br => 1
    case Loadcon | Zero | One => 0
  }

  // ---- one function per opcode, each made of the pops and pushes the machine performs ----

  /** `loadcon v`: pushes `v`. */
  function LoadconOp(value: int, s: State): (r: State)
  {
    s.(stack := Pushed(s.stack, s.limit, value))
  }

  /** `zero`: pushes 0. */
  function ZeroOp(s: State): (r: State)
  {
    s.(stack := Pushed(s.stack, s.limit, 0))
  }

  /** `one`: pushes 1. */
  function OneOp(s: State): (r: State)
  {
    s.(stack := Pushed(s.stack, s.limit, 1))
  }

  /** `add`: pops two values and pushes their sum. */
  function AddOp(s: State): (r: State)
  {
    if |s.stack| < 2 then s
    else
      var first := Popped(s.stack);
      var second := Popped(first.rest);
      s.(stack := Pushed(second.rest, s.limit, first.value.value + second.value.value))
  }

  /** `mpy`: pops two values and pushes their product. */
  function MpyOp(s: State): (r: State)
  {
    if |s.stack| < 2 then s
    else
      var first := Popped(s.stack);
      var second := Popped(first.rest);
      s.(stack := Pushed(second.rest, s.limit, first.value.value * second.value.value))
  }

  /** `negate`: pops a value and pushes it times -1. */
  function NegateOp(s: State): (r: State)
  {
    if |s.stack| < 1 then s
    else
      var top := Popped(s.stack);
      s.(stack := Pushed(top.rest, s.limit, top.value.value * -1))
  }

  /** `equal`: pops two values and pushes the true value if they are equal, else the false value. */
  function EqualOp(s: State): (r: State)
  {
    if |s.stack| < 2 then s
    else
      var first := Popped(s.stack);
      var second := Popped(first.rest);
      var flag := if first.value.value == second.value.value then TrueValue else FalseValue;
      s.(stack := Pushed(second.rest, s.limit, flag))
  }

  /** `less`: pops the top, then the second; pushes the true value if second < top, else the false value. */
  function LessOp(s: State): (r: State)
  {
    if |s.stack| < 2 then s
    else
      var top := Popped(s.stack);
      var secondTop := Popped(top.rest);
      var flag := if secondTop.value.value < top.value.value then TrueValue else FalseValue;
      s.(stack := Pushed(secondTop.rest, s.limit, flag))
  }

  /** `swap`: pops two values and pushes them back in the order they were popped. */
  function SwapOp(s: State): (r: State)
  {
    if |s.stack| < 2 then s
    else
      var first := Popped(s.stack);
      var second := Popped(first.rest);
      var once := Pushed(second.rest, s.limit, first.value.value);
      s.(stack := Pushed(once, s.limit, second.value.value))
  }

  /** `dup`: pops a value and pushes it twice. */
  function DupOp(s: State): (r: State)
  {
    if |s.stack| < 1 then s
    else
      var top := Popped(s.stack);
      var once := Pushed(top.rest, s.limit, top.value.value);
      s.(stack := Pushed(once, s.limit, top.value.value))
  }

  /** `write`: pops a value and appends it to the output. */
  function WriteOp(s: State): (r: State)
  {
    if |s.stack| < 1 then s
    else
      var top := Popped(s.stack);
      s.(stack := top.rest, out := s.out + [top.value.value])
  }

  /** `br`: pops an offset and adds it to the program counter. */
  function BrOp(s: State): (r: State)
  {
    if |s.stack| < 1 then s
    else
      var offset := Popped(s.stack);
      s.(stack := offset.rest, pc := s.pc + offset.value.value)
  }

  /** `br_false`: pops an offset, then a condition; adds the offset to the counter unless the condition is the true value. */
  function BrFalseOp(s: State): (r: State)
  {
    if |s.stack| < 2 then s
    else
      var offset := Popped(s.stack);
      var condition := Popped(offset.rest);
      if condition.value.value != TrueValue then
        s.(stack := condition.rest, pc := s.pc + offset.value.value)
      else
        s.(stack := condition.rest)
  }

  // ---- what each opcode does to a well-formed state ----

  /** `loadcon v` appends `v`; on a full stack it changes nothing. */
  lemma LoadconEffect(value: int, s: State)
    requires Wf(s)
    ensures |s.stack| < s.limit ==> LoadconOp(value, s) == s.(stack := s.stack + [value])
    ensures |s.stack| == s.limit ==> LoadconOp(value, s) == s
  {
  }

  /** `zero` appends 0; on a full stack it changes nothing. */
  lemma ZeroEffect(s: State)
    requires Wf(s)
    ensures |s.stack| < s.limit ==> ZeroOp(s) == s.(stack := s.stack + [0])
    ensures |s.stack| == s.limit ==> ZeroOp(s) == s
  {
  }

  /** `one` appends 1; on a full stack it changes nothing. */
  lemma OneEffect(s: State)
    requires Wf(s)
    ensures |s.stack| < s.limit ==> OneOp(s) == s.(stack := s.stack + [1])
    ensures |s.stack| == s.limit ==> OneOp(s) == s
  {
  }

  /** `add` replaces the two top values by their sum; the push after the pops never meets a full stack. */
  lemma AddEffect(s: State)
    requires Wf(s)
    ensures var n := |s.stack|;
      if n < 2 then AddOp(s) == s
      else AddOp(s) == s.(stack := s.stack[..n - 2] + [s.stack[n - 1] + s.stack[n - 2]])
  {
  }

  /** `mpy` replaces the two top values by their product. */
  lemma MpyEffect(s: State)
    requires Wf(s)
    ensures var n := |s.stack|;
      if n < 2 then MpyOp(s) == s
      else MpyOp(s) == s.(stack := s.stack[..n - 2] + [s.stack[n - 1] * s.stack[n - 2]])
  {
  }

  /** `negate` replaces the top value by its negation. */
  lemma NegateEffect(s: State)
    requires Wf(s)
    ensures var n := |s.stack|;
      if n < 1 then NegateOp(s) == s
      else NegateOp(s) == s.(stack := s.stack[..n - 1] + [-s.stack[n - 1]])
  {
  }

  /** `equal` replaces the two top values by 1 exactly when they are equal, else by 0. */
  lemma EqualEffect(s: State)
    requires Wf(s)
    ensures var n := |s.stack|;
      if n < 2 then EqualOp(s) == s
      else EqualOp(s) == s.(stack := s.stack[..n - 2] + [if s.stack[n - 1] == s.stack[n - 2] then 1 else 0])
  {
  }

  /** `less` replaces the two top values by 1 exactly when the second from the top is below the top, else by 0. */
  lemma LessEffect(s: State)
    requires Wf(s)
    ensures var n := |s.stack|;
      if n < 2 then LessOp(s) == s
      else LessOp(s) == s.(stack := s.stack[..n - 2] + [if s.stack[n - 2] < s.stack[n - 1] then 1 else 0])
  {
  }

  /** `swap` exchanges the two top values. */
  lemma SwapEffect(s: State)
    requires Wf(s)
    ensures var n := |s.stack|;
      if n < 2 then SwapOp(s) == s
      else SwapOp(s) == s.(stack := s.stack[..n - 2] + [s.stack[n - 1], s.stack[n - 2]])
  {
  }

  /** `dup` copies the top value, except on a full stack, where the second push is dropped and nothing changes. */
  lemma DupEffect(s: State)
    requires Wf(s)
    ensures var n := |s.stack|;
      if n < 1 || n == s.limit then DupOp(s) == s
      else DupOp(s) == s.(stack := s.stack + [s.stack[n - 1]])
  {
  }

  /** `write` moves the top value to the output. */
  lemma WriteEffect(s: State)
    requires Wf(s)
    ensures var n := |s.stack|;
      if n < 1 then WriteOp(s) == s
      else WriteOp(s) == s.(stack := s.stack[..n - 1], out := s.out + [s.stack[n - 1]])
  {
  }

  /** `br` pops an offset and adds it to the counter. */
  lemma BrEffect(s: State)
    requires Wf(s)
    ensures var n := |s.stack|;
      if n < 1 then BrOp(s) == s
      else BrOp(s) == s.(stack := s.stack[..n - 1], pc := s.pc + s.stack[n - 1])
  {
  }

  /** `br_false` pops an offset and a condition, and adds the offset only when the condition is not 1. */
  lemma BrFalseEffect(s: State)
    requires Wf(s)
    ensures var n := |s.stack|;
      if n < 2 then BrFalseOp(s) == s
      else BrFalseOp(s) == s.(stack := s.stack[..n - 2],
                            pc := if s.stack[n - 2] == 1 then s.pc else s.pc + s.stack[n - 1])
  {
  }

  /** Dispatch: the opcode's operation, before the program counter advances. */
  function Exec(ins: Instruction, s: State): (r: State)
    requires Wf(s) && OperandPresent(ins)
    ensures Wf(r) && r.limit == s.limit && s.out <= r.out
    ensures !ins.op.Br? && !ins.op.BrFalse? ==> r.pc == s.pc
  {
    match ins.op
    case Loadcon => LoadconOp(ins.value.value, s)
    case Zero => ZeroOp(s)
    case One => OneOp(s)
    case Add => AddOp(s)
    case Mpy => MpyOp(s)
    case Negate => NegateOp(s)
    case Equal => EqualOp(s)
    case Less => LessOp(s)
    case Swap => SwapOp(s)
    case Dup => DupOp(s)
    case Write => WriteOp(s)
    case Br => BrOp(s)
    case BrFalse => BrFalseOp(s)
  }

  /** One executed instruction: its operation, then the unconditional advance of the counter. */
  function Step(ins: Instruction, s: State): (r: State)
    requires Wf(s) && OperandPresent(ins)
    ensures Wf(r) && r.limit == s.limit && s.out <= r.out
  {
    var t := Exec(ins, s);
    t.(pc := t.pc + 1)
  }

  /** What the fetch at a program counter finds. */
  datatype Fetched =
    | PastEnd             // the counter is beyond the last instruction: the run ends
    | BeforeStart         // the counter is below minus the length: indexing raises
    | At(ins: Instruction)

  /**
   * The fetch: the run stops only when the counter exceeds the last index; a negative counter
   * no lower than minus the length indexes from the end; anything lower is an index error.
   */
  function Fetch(prog: seq<Instruction>, pc: int): (r: Fetched)
    ensures r.PastEnd? <==> pc >= |prog|
    ensures r.BeforeStart? <==> pc < -|prog|
    ensures 0 <= pc < |prog| ==> r == At(prog[pc])
    ensures -|prog| <= pc < 0 ==> r == At(prog[|prog| + pc])
    ensures Executable(prog) && r.At? ==> OperandPresent(r.ins)
  {
    if pc > |prog| - 1 then PastEnd
    else if pc < -|prog| then BeforeStart
    else At(prog[if pc >= 0 then pc else |prog| + pc])
  }

  /** How a run ends: by running off the end, by an index error, or by exhausting the fuel. */
  datatype Status = Halted | IndexError | OutOfFuel

  datatype Outcome = Outcome(status: Status, final: State)

  /**
   * The run loop, executing at most `fuel` instructions. The machine has no halt opcode and may
   * branch backwards, so a run need not end; the fuel bounds what is modelled of it.
   */
  function Run(prog: seq<Instruction>, s: State, fuel: nat): (r: Outcome)
    requires Wf(s) && Executable(prog)
    ensures Wf(r.final) && r.final.limit == s.limit && s.out <= r.final.out
    ensures r.status == Halted <==> r.final.pc >= |prog|
    ensures r.status == IndexError <==> r.final.pc < -|prog|
    decreases fuel
  {
    match Fetch(prog, s.pc)
    case PastEnd => Outcome(Halted, s)
    case BeforeStart => Outcome(IndexError, s)
    case At(ins) =>
      if fuel == 0 then Outcome(OutOfFuel, s)
      else Run(prog, Step(ins, s), fuel - 1)
  }

  // ---- properties ----

  /**
   * The counter advances by exactly one after every instruction, except that a `br` with an
   * operand, and a `br_false` whose condition is not 1, also add the popped offset.
   */
  lemma StepAdvancesCounter(ins: Instruction, s: State)
    requires Wf(s) && OperandPresent(ins)
    ensures var n := |s.stack|;
      Step(ins, s).pc ==
        if ins.op.Br? && n >= 1 then s.pc + s.stack[n - 1] + 1
        else if ins.op.BrFalse? && n >= 2 && s.stack[n - 2] != 1 then s.pc + s.stack[n - 1] + 1
        else s.pc + 1
  {
  }

  /** With fewer operands than its opcode needs, an instruction only advances the counter. */
  lemma UnderflowIsNoOp(ins: Instruction, s: State)
    requires Wf(s) && OperandPresent(ins)
    requires |s.stack| < Depth(ins.op)
    ensures Step(ins, s) == s.(pc := s.pc + 1)
  {
  }

  /** Swapping twice restores the state. */
  lemma SwapTwice(s: State)
    requires Wf(s)
    ensures SwapOp(SwapOp(s)) == s
  {
    var n := |s.stack|;
    if n >= 2 {
      assert SwapOp(s).stack[..n - 2] == s.stack[..n - 2];
      assert s.stack[..n - 2] + [s.stack[n - 2], s.stack[n - 1]] == s.stack;
    }
  }

  /** A run whose counter is past the last instruction has halted. */
  lemma RunPastEnd(prog: seq<Instruction>, s: State, fuel: nat)
    requires Wf(s) && Executable(prog) && s.pc >= |prog|
    ensures Run(prog, s, fuel) == Outcome(Halted, s)
  {
  }

  /** A run whose counter is below minus the length stops with an index error. */
  lemma RunBeforeStart(prog: seq<Instruction>, s: State, fuel: nat)
    requires Wf(s) && Executable(prog) && s.pc < -|prog|
    ensures Run(prog, s, fuel) == Outcome(IndexError, s)
  {
  }

  /** A run with no fuel left at a fetchable counter stops where it is. */
  lemma RunNoFuel(prog: seq<Instruction>, s: State)
    requires Wf(s) && Executable(prog) && -|prog| <= s.pc < |prog|
    ensures Run(prog, s, 0) == Outcome(OutOfFuel, s)
  {
  }


  /** A run with fuel left executes the fetched instruction, then continues from the state it leaves. */
  lemma RunAdvances(prog: seq<Instruction>, s: State, ins: Instruction, t: State, fuel: nat)
    requires Wf(s) && Executable(prog) && fuel > 0
    requires Fetch(prog, s.pc) == At(ins) && Step(ins, s) == t
    ensures Wf(t) && Run(prog, s, fuel) == Run(prog, t, fuel - 1)
  {
  }

  /** In `prog`, the state `s` fetches an instruction whose step gives `t`. */
  predicate StepsTo(prog: seq<Instruction>, s: State, t: State) {
    Executable(prog) && Wf(s) && Fetch(prog, s.pc).At? && Step(Fetch(prog, s.pc).ins, s) == t
  }

  /** `trace` is a stretch of a run of `prog`: each state but the last steps to the next one. */
  predicate IsTrace(prog: seq<Instruction>, trace: seq<State>) {
    Executable(prog) && |trace| >= 1 && Wf(trace[0]) &&
    forall k :: 0 <= k < |trace| - 1 ==> StepsTo(prog, trace[k], trace[k + 1])
  }

  /** Dropping the first state of a trace leaves a trace. */
  lemma TraceTail(prog: seq<Instruction>, trace: seq<State>)
    requires IsTrace(prog, trace) && |trace| > 1
    ensures IsTrace(prog, trace[1..])
  {
    assert StepsTo(prog, trace[0], trace[1]);
    var rest := trace[1..];
    forall k | 0 <= k < |rest| - 1
      ensures StepsTo(prog, rest[k], rest[k + 1])
    {
      assert StepsTo(prog, trace[k + 1], trace[k + 2]);
    }
  }

  /** A run with enough fuel goes through every state of a trace from its first one. */
  lemma {:induction false} RunFollowsTrace(prog: seq<Instruction>, trace: seq<State>, fuel: nat)
    requires IsTrace(prog, trace) && fuel >= |trace| - 1
    ensures Wf(trace[|trace| - 1])
    ensures Run(prog, trace[0], fuel) == Run(prog, trace[|trace| - 1], fuel - (|trace| - 1))
    decreases |trace|
  {
    if |trace| > 1 {
      assert StepsTo(prog, trace[0], trace[1]);
      RunAdvances(prog, trace[0], Fetch(prog, trace[0].pc).ins, trace[1], fuel);
      TraceTail(prog, trace);
      RunFollowsTrace(prog, trace[1..], fuel - 1);
    }
  }

  /** A run that ended within `fuel` steps ends the same way with any more fuel. */
  lemma {:induction false} RunMoreFuel(prog: seq<Instruction>, s: State, fuel: nat, more: nat)
    requires Wf(s) && Executable(prog)
    requires Run(prog, s, fuel).status != OutOfFuel
    ensures Run(prog, s, fuel + more) == Run(prog, s, fuel)
    decreases fuel
  {
    match Fetch(prog, s.pc)
    case PastEnd =>
    case BeforeStart =>
    case At(ins) =>
      RunMoreFuel(prog, Step(ins, s), fuel - 1, more);
  }
}
