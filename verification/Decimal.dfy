// Decimal numbers as text.
module Decimal {

  predicate Digit(c: char) {
    '0' <= c <= '9'
  }

  predicate Digits(t: string) {
    forall k :: 0 <= k < |t| ==> Digit(t[k])
  }

  function Value(c: char): nat
    requires Digit(c)
  {
    c as int - '0' as int
  }

  function Dec(n: nat): (t: string)
    ensures t != "" && Digits(t)
  {
    (if n < 10 then "" else Dec(n / 10)) + [('0' as int + n % 10) as char]
  }

  function Pad(t: string, width: nat): (r: string)
    requires Digits(t)
    ensures Digits(r) && |r| >= |t|
    decreases width - |t|
  {
    if |t| >= width then t else Pad("0" + t, width)
  }

  // C's atoi on the characters from i on: the digits up to another character.
  // The characters it is used on are neither blanks nor signs.
  function Atoi(s: string, i: nat, acc: nat): nat
    requires i <= |s|
    decreases |s| - i
  {
    if i == |s| || !Digit(s[i]) then acc else Atoi(s, i + 1, 10 * acc + Value(s[i]))
  }

  // Reading a number where it is printed.
  lemma {:induction false} AtoiReads(s: string, p: nat, n: nat)
    requires p + |Dec(n)| <= |s| && forall k {:trigger Dec(n)[k]} :: 0 <= k < |Dec(n)| ==> s[p + k] == Dec(n)[k]
    ensures Atoi(s, p, 0) == Atoi(s, p + |Dec(n)|, n)
  {
    var t := Dec(n);
    var last := |t| - 1;
    assert s[p + last] == t[last] && Value(t[last]) == n % 10;
    if n >= 10 {
      var front := Dec(n / 10);
      forall k | 0 <= k < |front|
        ensures s[p + k] == front[k]
      {
        assert t[k] == front[k];
      }
      AtoiReads(s, p, n / 10);
    }
  }

  lemma DecReads(n: nat)
    ensures Atoi(Dec(n), 0, 0) == n
  {
    AtoiReads(Dec(n), 0, n);
  }

  function PowerOfTen(k: nat): (p: nat)
    ensures p > 0
  {
    if k == 0 then 1 else 10 * PowerOfTen(k - 1)
  }

  lemma {:induction false} DecIsShort(n: nat, k: nat)
    requires k > 0 && n < PowerOfTen(k)
    ensures |Dec(n)| <= k
  {
    if n >= 10 {
      assert k > 1;
      DecIsShort(n / 10, k - 1);
    }
  }

  // No zero in front.
  lemma {:induction false} DecStart(n: nat)
    ensures if n == 0 then Dec(n) == "0" else Dec(n)[0] != '0'
  {
    if n >= 10 {
      DecStart(n / 10);
      assert Dec(n)[0] == Dec(n / 10)[0];
    }
  }

  lemma {:induction false} AtoiAfter(a: string, t: string, i: nat, acc: nat)
    requires i <= |t|
    ensures Atoi(a + t, |a| + i, acc) == Atoi(t, i, acc)
    decreases |t| - i
  {
    if i < |t| && Digit(t[i]) {
      AtoiAfter(a, t, i + 1, 10 * acc + Value(t[i]));
    }
  }

  // Zeros in front do not change the number.
  lemma {:induction false} PadReads(t: string, width: nat)
    requires Digits(t)
    ensures |Pad(t, width)| == if |t| < width then width else |t|
    ensures Atoi(Pad(t, width), 0, 0) == Atoi(t, 0, 0)
    decreases width - |t|
  {
    if |t| < width {
      PadReads("0" + t, width);
      AtoiAfter("0", t, 0, 0);
    }
  }
}
