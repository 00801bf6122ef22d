/** Small value types and text helpers shared by the other modules:
    an Option type, decimal rendering and parsing of case IDs (Python's
    `str(int)` and `int(str)` restricted to non-negative decimal digits),
    and character replacement (Python's `str.replace` with a one-character
    pattern). */
module Common {

  datatype Option<+T> = None | Some(value: T)

  predicate IsDigit(c: char) {
    '0' <= c <= '9'
  }

  predicate AllDigits(s: string) {
    forall k :: 0 <= k < |s| ==> IsDigit(s[k])
  }

  function DigitChar(d: nat): (c: char)
    requires d < 10
    ensures IsDigit(c)
  {
    (48 + d) as char
  }

  function DigitValue(c: char): (d: nat)
    requires IsDigit(c)
    ensures d < 10
  {
    (c as int) - 48
  }

  /** The value of a string of decimal digits, leading zeros allowed, as Python's `int` reads it. */
  function DigitsValue(s: string): nat
    requires AllDigits(s)
  {
    if s == [] then 0 else DigitsValue(s[..|s| - 1]) * 10 + DigitValue(s[|s| - 1])
  }

  /** Python's `str(n)` for a non-negative integer: at least one digit, no leading zero. */
  function NatToString(n: nat): (r: string)
    ensures 1 <= |r| && AllDigits(r)
    ensures |r| > 1 ==> r[0] != '0'
  {
    if n < 10 then [DigitChar(n)] else NatToString(n / 10) + [DigitChar(n % 10)]
  }

  lemma {:induction false} DigitsValueOfNatToString(n: nat)
    ensures DigitsValue(NatToString(n)) == n
  {
    if n >= 10 {
      var s := NatToString(n);
      assert s[..|s| - 1] == NatToString(n / 10);
      DigitsValueOfNatToString(n / 10);
    }
  }

  /** Distinct case IDs are rendered as distinct strings. */
  lemma NatToStringInjective(m: nat, n: nat)
    requires NatToString(m) == NatToString(n)
    ensures m == n
  {
    DigitsValueOfNatToString(m);
    DigitsValueOfNatToString(n);
  }

  /** Regrouping a concatenation, as a separate step so that the large
      proofs that need it do not have to find it among their own facts. */
  lemma ConcatAssoc<T>(a: seq<T>, b: seq<T>, c: seq<T>)
    ensures (a + b) + c == a + (b + c)
  {
  }

  /** A non-empty sequence is its front followed by its last element; a
      separate step for the same reason. */
  lemma SplitLast<T>(s: seq<T>)
    requires s != []
    ensures s == s[..|s| - 1] + [s[|s| - 1]]
  {
  }

  /** `s.replace(c, repl)` for a one-character pattern `c`. */
  function ReplaceChar(s: string, c: char, repl: string): (r: string)
    ensures c !in repl ==> c !in r
    ensures forall x :: x in r && x != c ==> x in s || x in repl
  {
    if s == [] then []
    else (if s[0] == c then repl else [s[0]]) + ReplaceChar(s[1..], c, repl)
  }

  /** `s.replace(c, '')` */
  function RemoveChar(s: string, c: char): string {
    ReplaceChar(s, c, "")
  }

  /** The characters of `s` that satisfy IsDigit, in order. */
  function KeepDigits(s: string): (r: string)
    ensures AllDigits(r) && |r| <= |s|
  {
    if s == [] then []
    else (if IsDigit(s[0]) then [s[0]] else []) + KeepDigits(s[1..])
  }

  /** KeepDigits leaves nothing exactly when `s` holds no digit. */
  lemma {:induction false} KeepDigitsEmpty(s: string)
    ensures KeepDigits(s) == [] <==> forall k :: 0 <= k < |s| ==> !IsDigit(s[k])
  {
    if s != [] {
      KeepDigitsEmpty(s[1..]);
      assert forall k :: 1 <= k < |s| ==> s[k] == s[1..][k - 1];
    }
  }

  lemma {:induction false} KeepDigitsOfDigits(s: string)
    requires AllDigits(s)
    ensures KeepDigits(s) == s
  {
    if s != [] {
      KeepDigitsOfDigits(s[1..]);
    }
  }

  lemma {:induction false} KeepDigitsAppend(s: string, t: string)
    ensures KeepDigits(s + t) == KeepDigits(s) + KeepDigits(t)
  {
    if s == [] {
      assert s + t == t;
    } else {
      assert (s + t)[1..] == s[1..] + t;
      KeepDigitsAppend(s[1..], t);
    }
  }

  /** A string made of digits and the letter `C` keeps exactly its digits when the
      `C`s are removed: `s.replace('C', '')` and dropping non-digits agree on it. */
  lemma {:induction false} RemoveCIsKeepDigits(s: string)
    requires forall k :: 0 <= k < |s| ==> IsDigit(s[k]) || s[k] == 'C'
    ensures RemoveChar(s, 'C') == KeepDigits(s)
  {
    if s != [] {
      RemoveCIsKeepDigits(s[1..]);
    }
  }

  /** Removing the `C`s of a string yields only digits only if every other character was a digit. */
  lemma {:induction false} RemoveCDigitsOnly(s: string)
    requires AllDigits(RemoveChar(s, 'C'))
    ensures forall k :: 0 <= k < |s| ==> IsDigit(s[k]) || s[k] == 'C'
  {
    if s != [] {
      var rest := RemoveChar(s[1..], 'C');
      assert RemoveChar(s, 'C') == (if s[0] == 'C' then "" else [s[0]]) + rest;
      assert AllDigits(rest) by {
        var head := if s[0] == 'C' then "" else [s[0]];
        forall k | 0 <= k < |rest| ensures IsDigit(rest[k]) {
          assert rest[k] == RemoveChar(s, 'C')[|head| + k];
        }
      }
      RemoveCDigitsOnly(s[1..]);
      forall k | 0 <= k < |s| ensures IsDigit(s[k]) || s[k] == 'C' {
        if k > 0 {
          assert s[k] == s[1..][k - 1];
        } else if s[0] != 'C' {
          assert RemoveChar(s, 'C')[0] == s[0];
        }
      }
    }
  }
}
