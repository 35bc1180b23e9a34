/**
 `Calculate.add(x, y)`: add two operands whose runtime class is exactly `int`,
 and raise `TypeError`, naming both operands' classes, otherwise.

 The class `Calculate` has no attributes and `add` never touches `self`, so the
 method is modelled as a function of its two operands alone; a raised
 `TypeError` is the `TypeError` case of the result.
 */
module Calculate {
  import opened PyTypes

  /** What a call of `add` ends in: a returned sum, or a raised `TypeError`
      carrying `type(x)` and `type(y)`, in that order. */
  datatype AddResult =
    | Sum(value: int)
    | TypeError(xType: PyClass, yType: PyClass)

  /** `Calculate.add`: the guard is `type(x) == int and type(y) == int`, an exact
      class comparison rather than `isinstance`. Python's `int` is unbounded, as
      Dafny's is, so the sum never wraps. */
  function Add(x: PyValue, y: PyValue): (r: AddResult)
    ensures r.Sum? <==> x.IntV? && y.IntV?
    ensures r.Sum? ==> r.value == x.i + y.i
    ensures r.TypeError? ==> r.xType == TypeOf(x) && r.yType == TypeOf(y)
  {
    if TypeOf(x) == Int && TypeOf(y) == Int then
      Sum(x.i + y.i)
    else
      TypeError(TypeOf(x), TypeOf(y))
  }

  /** Two operands of class `int` are added. */
  lemma AddIntegers(a: int, b: int)
    ensures Add(IntV(a), IntV(b)) == Sum(a + b)
  {
  }

  /** A first operand whose class is not `int` makes `add` raise, whatever the
      second operand is. */
  lemma AddRejectsFirstOperand(x: PyValue, y: PyValue)
    requires TypeOf(x) != Int
    ensures Add(x, y) == TypeError(TypeOf(x), TypeOf(y))
  {
  }

  /** A second operand whose class is not `int` makes `add` raise, whatever the
      first operand is. */
  lemma AddRejectsSecondOperand(x: PyValue, y: PyValue)
    requires TypeOf(y) != Int
    ensures Add(x, y) == TypeError(TypeOf(x), TypeOf(y))
  {
  }

  /** `add` accepts exactly the operands that are instances of `int` by class
      and of no proper subclass of it: an instance-of test alone would not
      suffice. */
  lemma AddAcceptsOnlyMostDerivedInts(x: PyValue, y: PyValue)
    ensures Add(x, y).Sum? <==>
              (IsInstance(x, Int) && forall d :: IsSubclass(d, Int) && d != Int ==> !IsInstance(x, d))
              && (IsInstance(y, Int) && forall d :: IsSubclass(d, Int) && d != Int ==> !IsInstance(y, d))
  {
    ExactTypeIsMostDerived(x, Int);
    ExactTypeIsMostDerived(y, Int);
  }

  /** Every operand that `isinstance(_, int)` accepts but whose class is a
      proper subclass of `int` (a `bool`, an instance of `class C(int)`) is
      rejected, in either position. */
  lemma AddRejectsIntSubclasses(x: PyValue, y: PyValue)
    requires IsInstance(x, Int) && TypeOf(x) != Int
    ensures Add(x, y) == TypeError(TypeOf(x), TypeOf(y))
    ensures Add(y, x) == TypeError(TypeOf(y), TypeOf(x))
  {
  }

  /** `add(True, 1)` raises, although `True` is an instance of `int`. */
  lemma AddTrueOne()
    ensures IsInstance(BoolV(true), Int)
    ensures Add(BoolV(true), IntV(1)) == TypeError(Bool, Int)
  {
  }

  /** `add` is commutative in outcome and value; a raised error names the two
      classes in swapped order. */
  lemma AddCommutative(x: PyValue, y: PyValue)
    ensures Add(x, y).Sum? <==> Add(y, x).Sum?
    ensures Add(x, y).Sum? ==> Add(x, y).value == Add(y, x).value
    ensures Add(x, y).TypeError? ==>
              Add(y, x) == TypeError(Add(x, y).yType, Add(x, y).xType)
  {
  }

  /** The demonstration call `calc.add("Hello", "World")` raises, so its result
      is never printed; so does `add` on any two strings. */
  lemma DemoCallRaises(s: string, t: string)
    ensures Add(StrV(s), StrV(t)) == TypeError(Str, Str)
    ensures Add(StrV("Hello"), StrV("World")).TypeError?
  {
  }
}
