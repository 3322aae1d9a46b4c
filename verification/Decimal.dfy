/** Decimal rendering of naturals, as the program's `format!("{}")` does it.
    Three facts are needed elsewhere: rendering reads back, so it is injective (batch
    callback keys never collide), and its width is monotone (a truncation marker sized
    for the whole input is the widest that input can need). */
module Decimal {

  function Digit(d: nat): char
    requires d < 10
  {
    ['0', '1', '2', '3', '4', '5', '6', '7', '8', '9'][d]
  }

  function Show(n: nat): (s: string)
    ensures |s| > 0
  {
    if n < 10 then [Digit(n)] else Show(n / 10) + [Digit(n % 10)]
  }

  /** The number a string of digits stands for. */
  function Read(s: string): int {
    if s == [] then 0 else 10 * Read(s[..|s| - 1]) + (s[|s| - 1] as int - '0' as int)
  }

  /** Rendering reads back, and never pads. */
  lemma {:induction false} ReadShow(n: nat)
    ensures Read(Show(n)) == n && (n > 0 ==> Show(n)[0] != '0')
  {
    var s := Show(n);
    assert s[|s| - 1] as int - '0' as int == n % 10;
    if n < 10 {
      assert s[..|s| - 1] == [];
    } else {
      ReadShow(n / 10);
      assert s[..|s| - 1] == Show(n / 10);
    }
  }

  lemma ShowInjective(a: nat, b: nat)
    requires Show(a) == Show(b)
    ensures a == b
  {
    ReadShow(a);
    ReadShow(b);
  }

  lemma {:induction false} ShowWidthMonotone(a: nat, b: nat)
    requires a <= b
    ensures |Show(a)| <= |Show(b)|
    decreases b
  {
    if a >= 10 {
      assert a / 10 <= b / 10;
      ShowWidthMonotone(a / 10, b / 10);
    }
  }

  /** Every character of a rendering is an ASCII digit. */
  lemma {:induction false} ShowIsDigits(n: nat)
    ensures forall i :: 0 <= i < |Show(n)| ==> '0' <= Show(n)[i] <= '9'
  {
    if n >= 10 {
      ShowIsDigits(n / 10);
    }
  }
}
