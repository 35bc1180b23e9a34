/**
 The part of Python's object model that `Calculate.add` observes: the runtime
 class of a value (`type(v)`), the single-inheritance chain of classes
 (`issubclass`) and instance tests (`isinstance`).

 The point this module makes precise is the difference between the two tests
 Python offers: `type(v) == int` holds only for values whose class is `int`
 itself, whereas `isinstance(v, int)` also holds for `True`, `False` and for
 instances of any user-defined subclass of `int`.
 */
module PyTypes {

  /** Python classes. `bool` derives from `int`; every other built-in class here
      derives from `object`; `UserClass(name, base)` is a class defined by
      `class name(base): ...`. Any other built-in class, such as `list` or
      `ValueError`, also stands here as a `UserClass` whose chain of bases does
      not pass through `int`. Classes compare by name and base, not by
      identity. */
  datatype PyClass =
    | Object
    | Int
    | Bool
    | Str
    | Float
    | NoneType
    | UserClass(name: string, base: PyClass)

  /** The direct base class (`c.__base__`); only `object` has none. */
  function Base(c: PyClass): (b: PyClass)
    requires c != Object
    ensures Depth(b) < Depth(c)
  {
    match c
    case Bool => Int
    case UserClass(_, base) => base
    case _ => Object
  }

  /** Number of inheritance steps from `c` up to `object`. */
  function Depth(c: PyClass): nat
  {
    match c
    case Object => 0
    case Bool => 2
    case UserClass(_, base) => Depth(base) + 1
    case _ => 1
  }

  /** Python's `issubclass(c, d)`: `d` is `c` or one of its ancestors. */
  predicate IsSubclass(c: PyClass, d: PyClass)
    decreases Depth(c)
  {
    c == d || (c != Object && IsSubclass(Base(c), d))
  }

  /** An ancestor is never deeper than its descendant, and a proper ancestor is
      strictly shallower. */
  lemma {:induction false} SubclassDepth(c: PyClass, d: PyClass)
    requires IsSubclass(c, d)
    ensures Depth(d) <= Depth(c)
    ensures c != d ==> Depth(d) < Depth(c)
    decreases Depth(c)
  {
    if c != d {
      SubclassDepth(Base(c), d);
    }
  }

  /** `issubclass` is antisymmetric: a proper subclass is never a superclass. */
  lemma ProperSubclassNotSuperclass(c: PyClass, d: PyClass)
    requires IsSubclass(c, d) && c != d
    ensures !IsSubclass(d, c)
  {
    SubclassDepth(c, d);
    if IsSubclass(d, c) {
      SubclassDepth(d, c);
    }
  }

  /** Runtime values an operand may be. A float's value is never inspected, so
      it is a bare tag; `ObjectV(name, base)` is an instance of the user class
      `UserClass(name, base)`. */
  datatype PyValue =
    | IntV(i: int)
    | BoolV(b: bool)
    | StrV(s: string)
    | FloatV
    | NoneV
    | ObjectV(name: string, base: PyClass)

  /** Python's `type(v)`. */
  function TypeOf(v: PyValue): (c: PyClass)
    ensures c == Int <==> v.IntV?
    ensures c == Str <==> v.StrV?
    ensures c == Bool <==> v.BoolV?
  {
    match v
    case IntV(_) => Int
    case BoolV(_) => Bool
    case StrV(_) => Str
    case FloatV => Float
    case NoneV => NoneType
    case ObjectV(name, base) => UserClass(name, base)
  }

  /** `v` is an instance of `c` by its class: `issubclass(type(v), c)`. This is
      Python's `isinstance(v, c)` for objects that do not override
      `__class__` (a `Mock(spec=int)` passes `isinstance(_, int)` without its
      class deriving from `int`). */
  predicate IsInstance(v: PyValue, c: PyClass)
  {
    IsSubclass(TypeOf(v), c)
  }

  /** `bool` is a proper subclass of `int`, so `isinstance(True, int)` holds
      while `type(True) == int` does not. */
  lemma BoolIsInstanceOfInt(b: bool)
    ensures IsInstance(BoolV(b), Int)
    ensures TypeOf(BoolV(b)) != Int
  {
  }

  /** An independent reading of `type(v) == c`: `v` is an instance of `c` by
      class and of no proper subclass of `c`. */
  lemma ExactTypeIsMostDerived(v: PyValue, c: PyClass)
    ensures TypeOf(v) == c <==>
              (IsInstance(v, c) && forall d :: IsSubclass(d, c) && d != c ==> !IsInstance(v, d))
  {
    if TypeOf(v) == c {
      forall d | IsSubclass(d, c) && d != c
        ensures !IsInstance(v, d)
      {
        ProperSubclassNotSuperclass(d, c);
      }
    } else if IsInstance(v, c) {
      // `type(v)` itself is a proper subclass of `c` that `v` is an instance of.
      var d := TypeOf(v);
      assert IsSubclass(d, c) && d != c && IsInstance(v, d);
    }
  }
}
