/** Integer arithmetic with the meaning it has in C and C++.
    Dafny's `/` and `%` are Euclidean (the remainder is never negative);
    C and C++ round the quotient toward zero and give the remainder the sign
    of the dividend, and `static_cast<int>` of a floating value drops its
    fractional part. */
module CInt {

  function Abs(x: int): (r: int)
    ensures r >= 0 && (r == x || r == -x)
  {
    if x < 0 then -x else x
  }

  /** `a / b` on C `int`: the exact quotient rounded toward zero. */
  function Div(a: int, b: int): (q: int)
    requires b != 0
    ensures a >= 0 && b > 0 ==> q == a / b
    ensures a >= 0 && b < 0 ==> q == -(a / -b)
    ensures a < 0 && b > 0 ==> q == -((-a) / b)
    ensures a < 0 && b < 0 ==> q == (-a) / (-b)
  {
    if (a < 0) == (b < 0) then Abs(a) / Abs(b) else -(Abs(a) / Abs(b))
  }

  /** `a % b` on C `int`: the remainder has the sign of the dividend. */
  function Mod(a: int, b: int): (r: int)
    requires b != 0
    ensures a >= 0 ==> 0 <= r < Abs(b)
    ensures a < 0 ==> -Abs(b) < r <= 0
    ensures a >= 0 && b > 0 ==> r == a % b
  {
    if a >= 0 then a % Abs(b) else -((-a) % Abs(b))
  }

  /** C's division identity: the quotient and the remainder recompose the dividend. */
  lemma DivMod(a: int, b: int)
    requires b != 0
    ensures Div(a, b) * b + Mod(a, b) == a
  {
    var q, r := Abs(a) / Abs(b), Abs(a) % Abs(b);
    assert Abs(a) == q * Abs(b) + r;
    if a >= 0 && b < 0 {
      assert Div(a, b) * b == q * Abs(b);
    } else if a < 0 && b > 0 {
      assert Div(a, b) * b == -(q * Abs(b));
    } else if a < 0 && b < 0 {
      assert Div(a, b) * b == -(q * Abs(b));
    }
  }

  /** `static_cast<int>(x)` of a floating value: the fractional part is dropped. */
  function ToInt(x: real): (n: int)
    ensures x >= 0.0 ==> n as real <= x < n as real + 1.0
    ensures x < 0.0 ==> n as real - 1.0 < x <= n as real
  {
    if x >= 0.0 then x.Floor else -((-x).Floor)
  }
}
