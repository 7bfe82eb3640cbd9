/**
 * The few Python string builtins the repository relies on, restricted to
 * ASCII: `str.upper`, `str.lower`, `str.replace` of one character, the
 * decimal rendering `str(n)` of an integer, `int(s)` on a plain signed
 * decimal literal, and `re.sub(r'\s+', '_', s)`.
 */
module Strings {
  import opened Wrappers

  predicate IsSpace(c: char)
  {
    c == ' ' || c == '\t' || c == '\n' || c == '\r' || c as int == 11 || c as int == 12
  }

  predicate IsDigit(c: char)
  {
    '0' <= c <= '9'
  }

  function UpperChar(c: char): char
  {
    if 'a' <= c <= 'z' then (c as int - 32) as char else c
  }

  function LowerChar(c: char): char
  {
    if 'A' <= c <= 'Z' then (c as int + 32) as char else c
  }

  /** `s.upper()` on ASCII letters. */
  function Upper(s: string): (r: string)
    ensures |r| == |s|
    ensures forall i :: 0 <= i < |s| ==> r[i] == UpperChar(s[i])
  {
    if s == [] then [] else [UpperChar(s[0])] + Upper(s[1..])
  }

  /** `s.lower()` on ASCII letters. */
  function Lower(s: string): (r: string)
    ensures |r| == |s|
    ensures forall i :: 0 <= i < |s| ==> r[i] == LowerChar(s[i])
    ensures forall i :: 0 <= i < |s| ==> !('A' <= r[i] <= 'Z')
  {
    if s == [] then [] else [LowerChar(s[0])] + Lower(s[1..])
  }

  /** Case folding works character by character, so it distributes over concatenation. */
  lemma LowerAppend(a: string, b: string)
    ensures Lower(a + b) == Lower(a) + Lower(b)
  {
    var whole := Lower(a + b);
    var parts := Lower(a) + Lower(b);
    assert |whole| == |parts|;
    forall i | 0 <= i < |whole|
      ensures whole[i] == parts[i]
    {
      if i < |a| {
        assert (a + b)[i] == a[i];
      } else {
        assert (a + b)[i] == b[i - |a|];
      }
    }
  }

  /** Text between an equal head and an equal tail is equal. */
  lemma CancelAround(head: string, a: string, b: string, tail: string)
    requires head + a + tail == head + b + tail
    ensures a == b
  {
    var x := head + a + tail;
    assert |a| == |b|;
    assert a == x[|head|..|head| + |a|];
    assert b == x[|head|..|head| + |b|];
  }

  /** `s.replace(a, b)` for single characters `a` and `b`. */
  function ReplaceChar(s: string, a: char, b: char): (r: string)
    ensures |r| == |s|
    ensures forall i :: 0 <= i < |s| ==> r[i] == (if s[i] == a then b else s[i])
    ensures a != b ==> a !in r
  {
    if s == [] then [] else [if s[0] == a then b else s[0]] + ReplaceChar(s[1..], a, b)
  }

  // ---------------------------------------------------------------------
  // str(n) and int(s)

  function DigitChar(d: nat): char
    requires d < 10
  {
    ('0' as int + d) as char
  }

  function DigitValue(c: char): nat
    requires IsDigit(c)
  {
    c as int - '0' as int
  }

  /** The decimal digits of a natural number, most significant first. */
  function NatDecimal(n: nat): (r: string)
    decreases n
  {
    if n < 10 then [DigitChar(n)] else NatDecimal(n / 10) + [DigitChar(n % 10)]
  }

  /** `str(n)` for a Python `int`. */
  function Decimal(n: int): string
  {
    if n < 0 then "-" + NatDecimal(-n) else NatDecimal(n)
  }

  predicate AllDigits(s: string)
  {
    forall i :: 0 <= i < |s| ==> IsDigit(s[i])
  }

  /** The value of a non-empty run of digits, read left to right. */
  function DigitsValue(s: string): nat
    requires AllDigits(s)
    decreases |s|
  {
    if s == [] then 0 else DigitsValue(s[..|s| - 1]) * 10 + DigitValue(s[|s| - 1])
  }

  function ParseDigits(s: string): Option<nat>
  {
    if s != [] && AllDigits(s) then Some(DigitsValue(s)) else None
  }

  /** `int(s)` for an optional sign followed by at least one ASCII digit; anything else raises. */
  function ParseInt(s: string): Option<int>
  {
    if s != [] && (s[0] == '-' || s[0] == '+') then
      match ParseDigits(s[1..])
      case None => None
      case Some(m) => var v: int := if s[0] == '-' then 0 - (m as int) else m as int; Some(v)
    else
      match ParseDigits(s)
      case None => None
      case Some(m) => var v: int := m; Some(v)
  }

  lemma {:induction false} NatDecimalDigits(n: nat)
    ensures NatDecimal(n) != [] && AllDigits(NatDecimal(n))
    ensures DigitsValue(NatDecimal(n)) == n
    decreases n
  {
    if n >= 10 {
      NatDecimalDigits(n / 10);
      var front := NatDecimal(n / 10);
      var r := NatDecimal(n);
      assert r == front + [DigitChar(n % 10)];
      assert r[..|r| - 1] == front;
      assert AllDigits(r) by {
        forall i | 0 <= i < |r| ensures IsDigit(r[i]) {
          if i < |front| { assert r[i] == front[i]; }
        }
      }
      assert DigitValue(r[|r| - 1]) == n % 10;
      assert DigitsValue(r) == DigitsValue(front) * 10 + n % 10;
    }
  }

  /** Reading back what `str(n)` prints gives `n`. */
  lemma ParseDecimal(n: int)
    ensures ParseInt(Decimal(n)) == Some(n)
  {
    if n < 0 {
      NatDecimalDigits(-n);
      assert Decimal(n)[1..] == NatDecimal(-n);
    } else {
      NatDecimalDigits(n);
    }
  }

  // ---------------------------------------------------------------------
  // re.sub(r'\s+', '_', s)

  /** `s` without its leading whitespace run. */
  function DropSpaces(s: string): (r: string)
    ensures |r| <= |s| && r == s[|s| - |r|..]
    ensures r == [] || !IsSpace(r[0])
    decreases |s|
  {
    if s != [] && IsSpace(s[0]) then DropSpaces(s[1..]) else s
  }

  /** Every maximal whitespace run replaced by a single `_`. */
  function CollapseSpaces(s: string): (r: string)
    ensures forall i :: 0 <= i < |r| ==> !IsSpace(r[i])
    decreases |s|
  {
    if s == [] then []
    else if IsSpace(s[0]) then "_" + CollapseSpaces(DropSpaces(s[1..]))
    else [s[0]] + CollapseSpaces(s[1..])
  }

  predicate NoSpaces(s: string)
  {
    forall i :: 0 <= i < |s| ==> !IsSpace(s[i])
  }

  /** Text without whitespace is left alone. */
  lemma {:induction false} CollapseSpacesKeepsWords(w: string)
    requires NoSpaces(w)
    ensures CollapseSpaces(w) == w
    decreases |w|
  {
    if w != [] {
      CollapseSpacesKeepsWords(w[1..]);
    }
  }

  /** A word, then a whitespace run of any length, then text not starting with whitespace: the run becomes one `_`. */
  lemma {:induction false} CollapseSpacesRun(w: string, run: string, rest: string)
    requires NoSpaces(w)
    requires run != [] && forall i :: 0 <= i < |run| ==> IsSpace(run[i])
    requires rest == [] || !IsSpace(rest[0])
    ensures CollapseSpaces(w + run + rest) == w + "_" + CollapseSpaces(rest)
    decreases |w|
  {
    var s := w + run + rest;
    var tail := CollapseSpaces(rest);
    if w == [] {
      assert s == run + rest && IsSpace(s[0]);
      assert s[1..] == run[1..] + rest;
      DropSpacesRun(run[1..], rest);
      assert CollapseSpaces(s) == "_" + tail;
    } else {
      assert s[0] == w[0] && !IsSpace(s[0]);
      assert s[1..] == w[1..] + run + rest;
      CollapseSpacesRun(w[1..], run, rest);
      assert CollapseSpaces(s) == [w[0]] + (w[1..] + "_" + tail);
      assert [w[0]] + (w[1..] + "_" + tail) == w + "_" + tail;
    }
  }

  lemma {:induction false} DropSpacesRun(run: string, rest: string)
    requires forall i :: 0 <= i < |run| ==> IsSpace(run[i])
    requires rest == [] || !IsSpace(rest[0])
    ensures DropSpaces(run + rest) == rest
    decreases |run|
  {
    if run != [] {
      assert (run + rest)[1..] == run[1..] + rest;
      DropSpacesRun(run[1..], rest);
    } else {
      assert run + rest == rest;
    }
  }
}
