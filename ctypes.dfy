/** The C types and the C integer operators that kernel.c relies on.

    `char` is an 8-bit character, `int` a 32-bit two's-complement integer.
    Signed overflow is undefined in C; this model gives it the two's-complement
    wrap-around that the generated x86 code performs (see README, "Left out"). */
module CTypes {

  /** An 8-bit C character. */
  type Char8 = c: char | c as int < 256

  const INT_MIN: int := -0x8000_0000
  const INT_MAX: int := 0x7FFF_FFFF

  /** A 32-bit C `int`. */
  type Int32 = x: int | INT_MIN <= x <= INT_MAX

  datatype Option<T> = None | Some(value: T)

  /** Two's-complement truncation of a mathematical integer to 32 bits. */
  function Wrap32(x: int): (r: Int32)
    ensures INT_MIN <= x <= INT_MAX ==> r == x
    ensures (x - r) % 0x1_0000_0000 == 0
  {
    (x - INT_MIN) % 0x1_0000_0000 + INT_MIN
  }

  /** C's unary minus on `int`: INT_MIN has no positive counterpart and is its own negation. */
  function Neg32(v: Int32): (r: Int32)
    ensures r == Wrap32(-(v as int))
  {
    if v == INT_MIN then INT_MIN else -v
  }

  function Abs(x: int): nat { if x < 0 then -x else x }

  /** C's `/` on integers: the quotient truncated toward zero (Dafny's own `/` is Euclidean). */
  function TruncDiv(a: int, b: int): (q: int)
    requires b != 0
    ensures Abs(a - q * b) < Abs(b)
    ensures a - q * b == 0 || ((a - q * b < 0) == (a < 0))
    ensures Abs(q) * Abs(b) <= Abs(a)
  {
    var m := Abs(a) / Abs(b);
    var q := if (a < 0) == (b < 0) then m else -m;
    TruncDivRemainder(a, b, m, q);
    q
  }

  lemma TruncDivRemainder(a: int, b: int, m: int, q: int)
    requires b != 0 && m == Abs(a) / Abs(b)
    requires q == if (a < 0) == (b < 0) then m else -m
    ensures a - q * b == if a < 0 then -(Abs(a) % Abs(b)) else Abs(a) % Abs(b)
    ensures Abs(q) == m && m * Abs(b) <= Abs(a)
  {
    var bb: int := Abs(b);
    var p := m * bb;
    assert Abs(a) == p + Abs(a) % bb;
    assert m >= 0;
    assert q * b == (if a < 0 then -p else p) by {
      if b < 0 {
        assert b == -bb;
        if a < 0 {
          assert q == m;
          assert q * b == -(m * bb);
        } else {
          assert q == -m;
          assert q * b == m * bb;
        }
      } else {
        assert b == bb;
        if a < 0 {
          assert q == -m;
          assert q * b == -(m * bb);
        } else {
          assert q == m;
        }
      }
    }
  }

  lemma {:induction false} MulAtLeast(x: nat, y: nat)
    requires y >= 1
    ensures x <= x * y
    decreases y
  {
    if y > 1 {
      MulAtLeast(x, y - 1);
      assert x * y == x * (y - 1) + x;
    }
  }

  /** The quotient of two `int`s is an `int`, except for INT_MIN / -1. */
  lemma TruncDivFits(a: Int32, b: Int32)
    requires b != 0 && !(a == INT_MIN && b == -1)
    ensures INT_MIN <= TruncDiv(a, b) <= INT_MAX
  {
    var q := TruncDiv(a, b);
    var x: nat := Abs(q);
    var y: nat := Abs(b);
    MulAtLeast(x, y);
  }

  /** The C string at `i` of a character array: its characters up to the first NUL. */
  function CString(a: seq<Char8>, i: nat): (r: seq<Char8>)
    requires i <= |a|
    ensures |r| <= |a| - i && '\0' !in r
    decreases |a| - i
  {
    if i == |a| || a[i] == '\0' then [] else [a[i]] + CString(a, i + 1)
  }

  /** A NUL at `j` with none before it ends the C string at `i`. */
  lemma {:induction false} CStringUpTo(a: seq<Char8>, i: nat, j: nat)
    requires i <= j < |a| && a[j] == '\0'
    requires forall k :: i <= k < j ==> a[k] != '\0'
    ensures CString(a, i) == a[i..j]
    decreases j - i
  {
    if i < j {
      CStringUpTo(a, i + 1, j);
      assert a[i..j] == [a[i]] + a[i + 1..j];
    }
  }
}
