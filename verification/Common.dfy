/** Datatypes shared by every part of the model. */
module Common {

  datatype Option<+T> = None | Some(value: T)

  function MinInt(a: int, b: int): int {
    if a <= b then a else b
  }

  function MinReal(a: real, b: real): real {
    if a <= b then a else b
  }

  function MaxReal(a: real, b: real): real {
    if a >= b then a else b
  }

  function ToSet<T>(xs: seq<T>): set<T> {
    set x | x in xs
  }

  function Iterate<T>(f: T -> T, x: T, n: nat): T {
    if n == 0 then x else f(Iterate(f, x, n - 1))
  }

  /** Some number of steps lead from x to y. */
  ghost predicate Leads<T(!new)>(f: T -> T, x: T, y: T) {
    exists n: nat :: Iterate(f, x, n) == y
  }

  lemma LeadsOneMore<T(!new)>(f: T -> T, x: T, y: T)
    requires Leads(f, x, y)
    ensures Leads(f, x, f(y))
  {
    var n: nat :| Iterate(f, x, n) == y;
    assert Iterate(f, x, n + 1) == f(y);
  }

  lemma LeadsNowhere<T(!new)>(f: T -> T, x: T)
    ensures Leads(f, x, x)
  {
    assert Iterate(f, x, 0) == x;
  }

  lemma {:induction false} IterateSum<T>(f: T -> T, x: T, m: nat, n: nat)
    ensures Iterate(f, x, m + n) == Iterate(f, Iterate(f, x, m), n)
  {
    if n > 0 { IterateSum(f, x, m, n - 1); }
  }

  lemma LeadsOn<T(!new)>(f: T -> T, x: T, y: T, z: T)
    requires Leads(f, x, y) && Leads(f, y, z)
    ensures Leads(f, x, z)
  {
    var m: nat :| Iterate(f, x, m) == y;
    var n: nat :| Iterate(f, y, n) == z;
    IterateSum(f, x, m, n);
  }
}
