/** Machine integers: release builds wrap, so every `+` and `-` on u64 is taken modulo 2^64. */
module U64 {

  const U64_MAX: int := 0xFFFF_FFFF_FFFF_FFFF
  const U128_MAX: int := 0xFFFF_FFFF_FFFF_FFFF_FFFF_FFFF_FFFF_FFFF

  type u64 = x: int | 0 <= x <= 0xFFFF_FFFF_FFFF_FFFF
  type u128 = x: int | 0 <= x <= 0xFFFF_FFFF_FFFF_FFFF_FFFF_FFFF_FFFF_FFFF

  function Add(x: u64, y: u64): u64 {
    if x + y <= U64_MAX then x + y else x + y - U64_MAX - 1
  }

  function Sub(x: u64, y: u64): u64 {
    if y <= x then x - y else x - y + U64_MAX + 1
  }

  function SaturatingMul(x: u64, y: u64): (r: u64)
    ensures r <= x * y
  {
    assert x * y >= 0;
    if x * y <= U64_MAX then x * y else U64_MAX
  }

  function Turns(k: int): int {
    k * 0x1_0000_0000_0000_0000
  }

  /** Equality modulo 2^64: the two differ by whole turns of the counter. */
  ghost predicate Congruent(x: int, y: int) {
    x == y || exists k :: x == y + Turns(k)
  }

  lemma CongruentMeansSameResidue(x: int, y: int)
    ensures Congruent(x, y) <==> x % 0x1_0000_0000_0000_0000 == y % 0x1_0000_0000_0000_0000
  {
    if x % 0x1_0000_0000_0000_0000 == y % 0x1_0000_0000_0000_0000 {
      assert x == y + Turns(x / 0x1_0000_0000_0000_0000 - y / 0x1_0000_0000_0000_0000);
    }
  }

  lemma WrapCongruent(x: u64, y: u64)
    ensures Congruent(Add(x, y), x + y) && Congruent(Sub(x, y), x - y)
    ensures Congruent(y, Add(x, y) as int - x) && Congruent(0 - y as int, Sub(x, y) as int - x)
  {
    assert Turns(1) == U64_MAX + 1 && Turns(-1) == -U64_MAX - 1;
  }

  lemma CongruentAdd(x: int, y: int, u: int, v: int)
    requires Congruent(x, y) && Congruent(u, v)
    ensures Congruent(x + u, y + v) && Congruent(x - u, y - v)
  {
    var j :| x == y + Turns(j) && (x == y ==> j == 0);
    var k :| u == v + Turns(k) && (u == v ==> k == 0);
    assert x + u == y + v + Turns(j + k) && x - u == y - v + Turns(j - k);
  }

  function Residue(x: int): u64 {
    x % 0x1_0000_0000_0000_0000
  }

  /** What is left of a number that has been shifted by whole turns from a value in range is that value. */
  lemma ResidueRecovers(x: u64, y: int)
    requires Congruent(x, y)
    ensures Residue(y) == x
  {
    CongruentMeansSameResidue(x, y);
  }

  /** Where a counter stands that one addition or subtraction would bring to `x`. */
  function Wrapped(x: int): int {
    if x < 0 then x + U64_MAX + 1 else if U64_MAX < x then x - U64_MAX - 1 else x
  }
}
