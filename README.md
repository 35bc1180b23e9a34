# Calculate.add — exact-`int` checked addition

This project models `Calculate.add` from `Chapter2/calculate.py`. The method
takes two dynamically typed operands. When the runtime class of each is
exactly `int` (`type(x) == int`, not `isinstance`), it returns their sum as an
unbounded integer. Otherwise it raises `TypeError`, naming `type(x)` and
`type(y)`.

- `py_types.dfy` (module `PyTypes`) holds the small part of Python's object
  model that the guard observes. It has classes with single inheritance
  (`bool` derives from `int`, user classes from any base), runtime values,
  `type(v)`, `issubclass` and instance-of by class (`issubclass(type(v), c)`).
  Its main lemma gives an independent reading of `type(v) == c`: `v` is an
  instance of `c` by class and of no proper subclass of `c`.
- `calculate.dfy` (module `Calculate`) holds the result of a call (`Sum` or
  `TypeError` with both classes), the function `Add`, and lemmas for the
  properties of the method and of the `__main__` demonstration call.

`Calculate` has no attributes and `add` never uses `self`. So `Add` is a
function of its two operands alone. Being a function, it gives the same
result on every call with the same operands.

## Model

| member | source | states |
|---|---|---|
| `Calculate.Add` | Chapter2/calculate.py:2-6 | A sum is returned exactly when both operands are `int` values; the sum is their mathematical sum; otherwise the `TypeError` carries `type(x)` and `type(y)` in that order |
| `Calculate.AddIntegers` | Chapter2/calculate.py:3-4 | For all integers `a`, `b`, `add(a, b)` returns `a + b` |
| `Calculate.AddRejectsFirstOperand` | Chapter2/calculate.py:3-6 | If `type(x)` is not `int`, `add` raises `TypeError(type(x), type(y))` whatever `y` is |
| `Calculate.AddRejectsSecondOperand` | Chapter2/calculate.py:3-6 | If `type(y)` is not `int`, `add` raises `TypeError(type(x), type(y))` whatever `x` is |
| `Calculate.AddAcceptsOnlyMostDerivedInts` | Chapter2/calculate.py:3 | `add` succeeds iff each operand is an instance of `int` by class and of no proper subclass of `int`, so an instance-of test alone is not what the guard checks |
| `Calculate.AddRejectsIntSubclasses` | Chapter2/calculate.py:3-6 | An operand that `isinstance(_, int)` accepts but whose class is not `int` itself makes `add` raise, in either position |
| `Calculate.AddTrueOne` | Chapter2/calculate.py:3-6 | `True` is an instance of `int`, yet `add(True, 1)` raises `TypeError(bool, int)` |
| `Calculate.AddCommutative` | Chapter2/calculate.py:3-6 | `add(x, y)` succeeds iff `add(y, x)` does, with equal sums; on failure the two classes are reported in swapped order |
| `Calculate.DemoCallRaises` | Chapter2/calculate.py:9-12 | `add` on any two strings, and in particular `add("Hello", "World")`, raises `TypeError(str, str)`, so the `print` is never reached |
| `PyTypes.TypeOf` | Chapter2/calculate.py:3 | `type(v)` is `int` exactly for int values, and `str` and `bool` exactly for string and boolean values |
| `PyTypes.BoolIsInstanceOfInt` | Chapter2/calculate.py:3 | `isinstance(b, int)` holds for every `bool` `b` while `type(b) == int` does not |
| `PyTypes.ExactTypeIsMostDerived` | Chapter2/calculate.py:3 | `type(v) == c` iff `v` is an instance of `c` by class and of no proper subclass of `c`; needs antisymmetry of `issubclass` |
| `PyTypes.Base` | Chapter2/calculate.py:3 | The direct base of every class other than `object` (`bool`'s is `int`) lies strictly closer to `object`, so walking up the chain of bases ends |
| `PyTypes.SubclassDepth` | Chapter2/calculate.py:3 | An ancestor in `issubclass` is never further from `object` than its descendant, and a proper ancestor is strictly closer |
| `PyTypes.ProperSubclassNotSuperclass` | Chapter2/calculate.py:3 | `issubclass` is antisymmetric: a proper subclass of a class is never also its superclass, so only `int` itself passes the exact check among the classes `int` is an ancestor of |

## Left out

- `Chapter10/pavement.py`: its only task runs `pytest --verbose` in a shell. That is a call into an external process, with no logic to model.
- The `print(result)` at calculate.py:12 and the process exit on an uncaught exception. These are console I/O and interpreter behaviour. `DemoCallRaises` shows that the `print` is never reached.
- The rendered message text `"Invalid type: <class 'str'> and <class 'str'>"`. The error carries the two classes as values, not as formatted strings.
- Float operands are a bare `FloatV` tag with no value. `add` only rejects floats and never computes with them.
- Instances of user classes (`ObjectV`) carry no payload. An instance of a subclass of `int` would also hold an integer, but `add` rejects it before reading any value.
- Multiple inheritance, metaclasses and overridden `__eq__` on classes are not modelled. Built-in classes other than `int`, `bool`, `str`, `float` and `NoneType` are represented as `UserClass` values. For them only their non-`int` ancestry matters. Python's ban on subclassing `bool` and `NoneType` is not enforced, since `add` rejects every such class anyway.
- Classes are compared by name and base, not by identity. Two separately defined `class C(int)` are one class in the model. This does not affect `add`, which only compares a class with `int`.
- `IsInstance` is instance-of by class, `issubclass(type(v), c)`. That is Python's `isinstance` only for objects that do not override `__class__`. A `Mock(spec=int)` passes `isinstance(_, int)` and fails `isinstance(_, bool)`, yet `add` rejects it because its `type` is not `int`. The lemmas about `IsInstance` therefore speak of class-based instance-of, not of every `isinstance` result.
