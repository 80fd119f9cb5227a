/** Small types shared by every module, and Go's int64 arithmetic. */
module Common {
  datatype Option<+T> = None | Some(value: T) {
    function GetOr(default: T): T {
      if Some? then value else default
    }
  }

  const MAX_INT64 := 0x7FFF_FFFF_FFFF_FFFF
  const TWO_TO_63 := 0x8000_0000_0000_0000
  const TWO_TO_64 := 0x1_0000_0000_0000_0000

  predicate IsInt64(x: int) {
    -TWO_TO_63 <= x <= MAX_INT64
  }

  /** The int64 value Go keeps when an addition or a multiplication leaves the range. */
  function Wrap64(x: int): (r: int)
    ensures IsInt64(r)
    ensures IsInt64(x) ==> r == x
  {
    (x + TWO_TO_63) % TWO_TO_64 - TWO_TO_63
  }

  /** Wrapping at every addition is the same as wrapping the exact sum once. */
  lemma WrapOnce(x: int, y: int)
    ensures Wrap64(Wrap64(x) + y) == Wrap64(x + y)
  {
  }

  /** A wrapped addition of a positive int64 never returns the value it started from. */
  lemma WrapMoves(x: int, y: int)
    requires IsInt64(x) && 0 < y <= MAX_INT64
    ensures Wrap64(x + y) != x
    ensures Wrap64(x - y) != x
  {
  }

  /** Go's zero value for a missing map entry. */
  function BalanceOf(m: map<string, int>, user: string): int {
    if user in m then m[user] else 0
  }
}
