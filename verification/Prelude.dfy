/** Shared small types. */
module Prelude {
  datatype Option<+T> = None | Some(value: T)

  function Min(a: int, b: int): int {
    if a <= b then a else b
  }

  function Max(a: int, b: int): int {
    if a >= b then a else b
  }

  /** There is always another number. */
  lemma {:induction false} FreshNumber(used: set<nat>) returns (n: nat)
    ensures n !in used && forall other | other in used :: other < n
    decreases |used|
  {
    if used == {} {
      n := 0;
    } else {
      var some :| some in used;
      var above := FreshNumber(used - {some});
      n := Max(above, some + 1);
      assert forall other | other in used :: other == some || other in used - {some};
    }
  }

  /** And another name. */
  lemma FreshName(used: set<string>) returns (name: string)
    ensures name !in used
  {
    var lengths := set other | other in used :: |other|;
    var length := FreshNumber(lengths);
    name := seq(length, _ => 'x');
    forall other | other in used ensures |other| != length {
      assert |other| in lengths;
    }
  }
}
