/**
 * The bounded value stack: a LIFO of integers whose capacity is fixed at construction.
 * A push onto a full stack is discarded; a pop from an empty stack yields no value.
 */
module BoundedStack {
  import opened Wrappers

  /** Raised when the initial contents are longer than the capacity. */
  datatype StackError = ElementsExceedLimit

  /** The contents after pushing `elem`: unchanged when one more element would exceed the limit. */
  function Pushed(elements: seq<int>, sizeLimit: int, elem: int): seq<int> {
    if |elements| + 1 > sizeLimit then elements else elements + [elem]
  }

  /** What a pop returns, and the contents it leaves behind. */
  datatype PopResult = PopResult(value: Option<int>, rest: seq<int>)

  /** Popping takes the last element (the top); an empty stack yields `None` and stays empty. */
  function Popped(elements: seq<int>): PopResult {
    if |elements| > 0 then PopResult(Some(elements[|elements| - 1]), elements[..|elements| - 1])
    else PopResult(None, elements)
  }

  /** Pushing the values of `values` one after the other, first to last. */
  function PushAll(elements: seq<int>, sizeLimit: int, values: seq<int>): seq<int>
    decreases |values|
  {
    if values == [] then elements
    else PushAll(Pushed(elements, sizeLimit, values[0]), sizeLimit, values[1..])
  }

  /** A push only ever adds `elem` on top, and it does so exactly when the stack is below its limit. */
  lemma PushedOnTop(elements: seq<int>, sizeLimit: int, elem: int)
    ensures elements <= Pushed(elements, sizeLimit, elem)
    ensures |Pushed(elements, sizeLimit, elem)| == |elements| + 1 <==> |elements| < sizeLimit
    ensures |Pushed(elements, sizeLimit, elem)| <= |elements| + 1
    ensures |Pushed(elements, sizeLimit, elem)| > |elements| ==> Pushed(elements, sizeLimit, elem)[|elements|] == elem
  {
  }

  /** A pop yields nothing exactly on an empty stack; otherwise putting the value back restores the contents. */
  lemma PoppedTakesTop(elements: seq<int>)
    ensures Popped(elements).value.None? <==> elements == []
    ensures Popped(elements).value.None? ==> Popped(elements).rest == elements
    ensures Popped(elements).value.Some? ==> Popped(elements).rest + [Popped(elements).value.value] == elements
  {
  }

  /** Push and pop keep the size within the limit. */
  lemma PushPopWithinLimit(elements: seq<int>, sizeLimit: int, elem: int)
    requires |elements| <= sizeLimit
    ensures |Pushed(elements, sizeLimit, elem)| <= sizeLimit
    ensures |Popped(elements).rest| <= sizeLimit
  {
  }

  /** On a stack that is not full, a push followed by a pop returns the value and restores the contents. */
  lemma PushThenPop(elements: seq<int>, sizeLimit: int, elem: int)
    requires |elements| < sizeLimit
    ensures Popped(Pushed(elements, sizeLimit, elem)) == PopResult(Some(elem), elements)
  {
  }

  /** Pushes that stay within the capacity all land, in order: the size grows by their number. */
  lemma {:induction false} PushAllWithinCapacity(elements: seq<int>, sizeLimit: int, values: seq<int>)
    requires |elements| + |values| <= sizeLimit
    ensures PushAll(elements, sizeLimit, values) == elements + values
    decreases |values|
  {
    if values != [] {
      PushAllWithinCapacity(elements + [values[0]], sizeLimit, values[1..]);
      assert elements + [values[0]] + values[1..] == elements + values;
    }
  }

  /** However many values are pushed, the size never exceeds the limit, and no earlier element changes. */
  lemma {:induction false} PushAllBounded(elements: seq<int>, sizeLimit: int, values: seq<int>)
    requires |elements| <= sizeLimit
    ensures |PushAll(elements, sizeLimit, values)| <= sizeLimit
    ensures elements <= PushAll(elements, sizeLimit, values)
    decreases |values|
  {
    if values != [] {
      PushAllBounded(Pushed(elements, sizeLimit, values[0]), sizeLimit, values[1..]);
    }
  }

  class Stack {
    var elements: seq<int>
    const sizeLimit: int

    /** The size never exceeds the limit (so the limit of a live stack is never negative). */
    ghost predicate Valid()
      reads this
    {
      |elements| <= sizeLimit
    }

    /** Builds a stack holding `elements`, bottom first; the source raises when they do not fit. */
    constructor (sizeLimit: int, elements: seq<int>)
      requires |elements| <= sizeLimit
      ensures Valid()
      ensures this.sizeLimit == sizeLimit && this.elements == elements
    {
      this.sizeLimit := sizeLimit;
      this.elements := elements;
    }

    /** The raising constructor: fails exactly when the initial contents exceed the limit. */
    static method Create(sizeLimit: int, elements: seq<int>) returns (r: Result<Stack, StackError>)
      ensures r.Failure? <==> |elements| > sizeLimit
      ensures r.Success? ==> fresh(r.value) && r.value.Valid() &&
                             r.value.sizeLimit == sizeLimit && r.value.elements == elements
    {
      if |elements| > sizeLimit {
        return Failure(ElementsExceedLimit);
      }
      var s := new Stack(sizeLimit, elements);
      return Success(s);
    }

    /** Removes and returns the top element; an empty stack returns `None` and is left empty. */
    method Pop() returns (r: Option<int>)
      requires Valid()
      modifies this
      ensures Valid()
      ensures old(elements) == [] ==> r == None && elements == []
      ensures old(elements) != [] ==>
                r == Some(old(elements)[|old(elements)| - 1]) &&
                elements == old(elements)[..|old(elements)| - 1]
      ensures PopResult(r, elements) == Popped(old(elements))
    {
      if |elements| > 0 {
        r := Some(elements[|elements| - 1]);
        elements := elements[..|elements| - 1];
        return;
      }
      return None;
    }

    /** Appends `elem` on top, unless the stack is full, in which case the value is discarded. */
    method Push(elem: int)
      requires Valid()
      modifies this
      ensures Valid()
      ensures |old(elements)| == sizeLimit ==> elements == old(elements)
      ensures |old(elements)| < sizeLimit ==> elements == old(elements) + [elem]
      ensures elements == Pushed(old(elements), sizeLimit, elem)
    {
      if |elements| + 1 > sizeLimit {
        return;
      }
      elements := elements + [elem];
    }

    /** The number of elements, never more than the limit. */
    method Len() returns (n: nat)
      requires Valid()
      ensures n == |elements| && n <= sizeLimit
    {
      n := |elements|;
    }
  }
}
