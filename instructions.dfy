/** Instructions of the stack machine: the closed opcode set and the validating constructor. */
module Instructions {
  import opened Wrappers

  /** The thirteen opcodes of the machine. */
  datatype Opcode =
    | Add | Negate | Equal | Zero | One | Loadcon | Br | BrFalse
    | Dup | Mpy | Write | Swap | Less

  /** The set of accepted instruction names. */
  const InstructionNames: set<string> :=
    {"add", "negate", "equal", "zero", "one", "loadcon", "br", "br_false",
     "dup", "mpy", "write", "swap", "less"}

  /** The mnemonic an opcode is written with. */
  function Mnemonic(op: Opcode): string {
    match op
    case Add => "add"
    case Negate => "negate"
    case Equal => "equal"
    case Zero => "zero"
    case One => "one"
    case Loadcon => "loadcon"
    case Br => "br"
    case BrFalse => "br_false"
    case Dup => "dup"
    case Mpy => "mpy"
    case Write => "write"
    case Swap => "swap"
    case Less => "less"
  }

  /** The opcode a name denotes, if the name is one of the accepted names. */
  function OpcodeOf(name: string): (r: Option<Opcode>)
    ensures r.Some? <==> name in InstructionNames
    ensures r.Some? ==> Mnemonic(r.value) == name
  {
    if name == "add" then Some(Add)
    else if name == "negate" then Some(Negate)
    else if name == "equal" then Some(Equal)
    else if name == "zero" then Some(Zero)
    else if name == "one" then Some(One)
    else if name == "loadcon" then Some(Loadcon)
    else if name == "br" then Some(Br)
    else if name == "br_false" then Some(BrFalse)
    else if name == "dup" then Some(Dup)
    else if name == "mpy" then Some(Mpy)
    else if name == "write" then Some(Write)
    else if name == "swap" then Some(Swap)
    else if name == "less" then Some(Less)
    else None
  }

  /** Every opcode's mnemonic is an accepted name, and it denotes that opcode again. */
  lemma MnemonicRoundTrip(op: Opcode)
    ensures Mnemonic(op) in InstructionNames
    ensures OpcodeOf(Mnemonic(op)) == Some(op)
  {
  }

  /** An opcode and its optional operand; only `loadcon` is meant to carry one. */
  datatype Instruction = Instruction(op: Opcode, value: Option<int>) {
    /** The instruction's name, as the name getter returns it. */
    function Name(): (r: string)
      ensures r in InstructionNames && OpcodeOf(r) == Some(op)
    {
      Mnemonic(op)
    }
  }

  datatype InstructionError =
    | InvalidInstruction(name: string)   // the name is not an accepted name
    | UnexpectedValue(name: string)      // an operand was given to a name without "loadcon" in it

  /** Substring test on strings: `sub` occurs contiguously somewhere in `s`. */
  predicate Contains(s: string, sub: string): (r: bool)
    ensures r <==> exists i :: 0 <= i <= |s| && sub <= s[i..]
    decreases |s|
  {
    assert s[0..] == s;
    if sub <= s then true
    else if |s| == 0 then false
    else
      OccursInTail(s, sub);
      Contains(s[1..], sub)
  }

  /** When `sub` is not a prefix of `s`, it occurs in `s` exactly when it occurs in `s[1..]`. */
  lemma OccursInTail(s: string, sub: string)
    requires |s| > 0 && !(sub <= s)
    ensures (exists i :: 0 <= i <= |s| && sub <= s[i..]) <==> (exists j :: 0 <= j <= |s[1..]| && sub <= s[1..][j..])
  {
    if i :| 0 <= i <= |s| && sub <= s[i..] {
      assert i != 0;
      assert s[1..][i - 1..] == s[i..];
    }
    if j :| 0 <= j <= |s[1..]| && sub <= s[1..][j..] {
      assert s[1..][j..] == s[j + 1..];
    }
  }

  /** A string shorter than `sub` cannot contain it. */
  lemma {:induction false} ShorterDoesNotContain(s: string, sub: string)
    requires |s| < |sub|
    ensures !Contains(s, sub)
  {
    if |s| > 0 {
      ShorterDoesNotContain(s[1..], sub);
    }
  }

  /** Among the mnemonics, only that of `loadcon` contains the substring "loadcon". */
  lemma LoadconOnlyInLoadcon(op: Opcode)
    ensures Contains(Mnemonic(op), "loadcon") <==> op == Loadcon
  {
    var name := Mnemonic(op);
    match op
    case Loadcon =>
      assert "loadcon" <= name;
    case BrFalse =>
      assert name[0] == 'b' && name[1] == 'r';
      assert !("loadcon" <= name) && !("loadcon" <= name[1..]);
      ShorterDoesNotContain(name[1..][1..], "loadcon");
    case _ =>
      ShorterDoesNotContain(name, "loadcon");
  }

  /** The constructor's invariant: an instruction other than `loadcon` has no operand. */
  predicate NoStrayOperand(ins: Instruction) {
    ins.op != Loadcon ==> ins.value.None?
  }

  /** What execution needs: a `loadcon` has an operand to push. */
  predicate OperandPresent(ins: Instruction) {
    ins.op == Loadcon ==> ins.value.Some?
  }

  /**
   * The validating constructor: an unknown name is rejected first; then an operand given to a
   * name that does not contain "loadcon" is rejected. A `loadcon` without an operand is accepted.
   */
  function NewInstruction(name: string, value: Option<int>): (r: Result<Instruction, InstructionError>)
    ensures name !in InstructionNames ==> r == Failure(InvalidInstruction(name))
    ensures name in InstructionNames && name != "loadcon" && value.Some? ==>
              r == Failure(UnexpectedValue(name))
    ensures r.Success? <==> name in InstructionNames && (name == "loadcon" || value.None?)
    ensures r.Success? ==> r.value.Name() == name && r.value.value == value && NoStrayOperand(r.value)
  {
    match OpcodeOf(name)
    case None => Failure(InvalidInstruction(name))
    case Some(op) =>
      LoadconOnlyInLoadcon(op);
      if !Contains(name, "loadcon") && value.Some? then Failure(UnexpectedValue(name))
      else Success(Instruction(op, value))
  }

  /** The constructor does not reject a `loadcon` without an operand. */
  lemma LoadconWithoutValueAccepted()
    ensures NewInstruction("loadcon", None) == Success(Instruction(Loadcon, None))
    ensures !OperandPresent(Instruction(Loadcon, None))
  {
  }
}
