/** Small value-level helpers shared by the models. */
module Util {

  datatype Option<+T> = None | Some(value: T)

  function Init<T>(s: seq<T>): seq<T>
    requires s != []
  {
    s[..|s| - 1]
  }

  function Last<T>(s: seq<T>): T
    requires s != []
  {
    s[|s| - 1]
  }

  function Max(a: int, b: int): int {
    if a < b then b else a
  }

  function Min(a: int, b: int): int {
    if a < b then a else b
  }

  /** The whole second of an instant in milliseconds. */
  function Sec(ms: nat): int {
    ms / 1000
  }

  lemma {:induction false} SubsetCard<T>(a: set<T>, b: set<T>)
    requires a <= b
    ensures |a| <= |b|
    decreases b
  {
    if a != {} {
      var x :| x in a;
      SubsetCard(a - {x}, b - {x});
    }
  }

  lemma {:induction false} LongerThan(s: set<string>) returns (n: nat)
    ensures forall x :: x in s ==> |x| < n
    decreases s
  {
    n := 0;
    if s != {} {
      var x :| x in s;
      n := LongerThan(s - {x});
      n := if |x| < n then n else |x| + 1;
    }
  }

  /** There is always a string that is not taken. */
  lemma NewString(s: set<string>) returns (x: string)
    ensures x !in s
  {
    var n := LongerThan(s);
    x := seq(n, _ => 'x');
  }
}
