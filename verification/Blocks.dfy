/** Position b * d + o is offset o of block b. */
module Blocks {
  lemma MultipleIsFar(k: int, d: int)
    requires d > 0 && k != 0
    ensures k * d >= d || k * d <= -d
  {
    if k >= 1 { assert k * d == d + (k - 1) * d; }
    if k <= -1 { assert k * d == -d + (k + 1) * d; }
  }

  lemma DivMod(b: int, o: int, d: int)
    requires 0 <= o < d
    ensures (b * d + o) / d == b && (b * d + o) % d == o
  {
    var x := b * d + o;
    var q, r := x / d, x % d;
    assert x == q * d + r;
    assert (b - q) * d == r - o;
    if b != q { MultipleIsFar(b - q, d); }
  }

  lemma BlockStart(b: nat, c: nat, d: nat)
    requires b <= c
    ensures 0 <= b * d <= c * d && (c - b) * d == c * d - b * d
  {
    assert c * d == b * d + (c - b) * d;
  }

  /** A block that comes earlier ends before a later one starts. */
  lemma InBlock(b: nat, o: nat, c: nat, d: nat)
    requires o < d && b < c
    ensures 0 <= b * d + o < c * d
  {
    BlockStart(b + 1, c, d);
    assert (b + 1) * d == b * d + d;
  }
}
