// String helpers shared by the model: JavaScript's `String.prototype.trim`,
// Python's `str.rstrip(c)` and `str.startswith`, and the decimal rendering
// of a non-negative integer (`index.toString()`).
module Text {

  /** The characters `trim()` removes: ECMAScript WhiteSpace and LineTerminator
      (TAB, VT, FF, SP, NBSP, ZWNBSP, the Zs category, LF, CR, LS, PS). */
  predicate IsJsWhitespace(c: char) {
    var n := c as int;
    n == 0x09 || n == 0x0A || n == 0x0B || n == 0x0C || n == 0x0D || n == 0x20 ||
    n == 0xA0 || n == 0x1680 || (0x2000 <= n <= 0x200A) || n == 0x2028 || n == 0x2029 ||
    n == 0x202F || n == 0x205F || n == 0x3000 || n == 0xFEFF
  }

  /** Every character of `s` is whitespace (the empty string included). */
  predicate IsBlank(s: string) {
    forall i :: 0 <= i < |s| ==> IsJsWhitespace(s[i])
  }

  /** `s` with its leading whitespace removed. */
  function TrimStart(s: string): (r: string)
    ensures |r| <= |s| && r == s[|s| - |r|..]
    ensures forall i :: 0 <= i < |s| - |r| ==> IsJsWhitespace(s[i])
    ensures r == [] || !IsJsWhitespace(r[0])
    decreases |s|
  {
    if |s| > 0 && IsJsWhitespace(s[0]) then TrimStart(s[1..]) else s
  }

  /** `s` with its trailing whitespace removed. */
  function TrimEnd(s: string): (r: string)
    ensures |r| <= |s| && r == s[..|r|]
    ensures forall i :: |r| <= i < |s| ==> IsJsWhitespace(s[i])
    ensures r == [] || !IsJsWhitespace(r[|r| - 1])
    decreases |s|
  {
    if |s| > 0 && IsJsWhitespace(s[|s| - 1]) then TrimEnd(s[..|s| - 1]) else s
  }

  /** JavaScript's `s.trim()`: `s` without its leading and trailing whitespace.
      It is empty exactly when `s` is blank, and otherwise starts and ends with
      a non-whitespace character. */
  function Trim(s: string): (r: string)
    ensures |r| <= |s|
    ensures r == [] <==> IsBlank(s)
    ensures r != [] ==> !IsJsWhitespace(r[0]) && !IsJsWhitespace(r[|r| - 1])
  {
    var a := TrimStart(s);
    var r := TrimEnd(a);
    assert r != [] ==> !IsBlank(s) by {
      if r != [] { assert s[|s| - |a|] == r[0]; }
    }
    r
  }

  /** Trimming twice is trimming once. */
  lemma TrimIdempotent(s: string)
    ensures Trim(Trim(s)) == Trim(s)
  {
    var r := Trim(s);
    assert TrimStart(r) == r;
    assert TrimEnd(r) == r;
  }

  lemma {:induction false} TrimStartBlankPrefix(pre: string, x: string)
    requires IsBlank(pre)
    ensures TrimStart(pre + x) == TrimStart(x)
    decreases |pre|
  {
    if pre != [] {
      var px := pre + x;
      assert px[0] == pre[0] && IsJsWhitespace(px[0]);
      assert px[1..] == pre[1..] + x;
      assert IsBlank(pre[1..]) by {
        forall i | 0 <= i < |pre[1..]| ensures IsJsWhitespace(pre[1..][i]) {
          assert pre[1..][i] == pre[i + 1];
        }
      }
      TrimStartBlankPrefix(pre[1..], x);
    } else {
      assert pre + x == x;
    }
  }

  lemma {:induction false} TrimEndBlankSuffix(x: string, post: string)
    requires IsBlank(post)
    ensures TrimEnd(x + post) == TrimEnd(x)
    decreases |post|
  {
    if post != [] {
      var p := post[..|post| - 1];
      var xp := x + post;
      assert xp[|xp| - 1] == post[|post| - 1] && IsJsWhitespace(xp[|xp| - 1]);
      assert xp[..|xp| - 1] == x + p;
      assert IsBlank(p) by {
        forall i | 0 <= i < |p| ensures IsJsWhitespace(p[i]) {
          assert p[i] == post[i];
        }
      }
      TrimEndBlankSuffix(x, p);
    } else {
      assert x + post == x;
    }
  }

  lemma {:induction false} TrimStartAppend(s: string, t: string)
    requires !IsBlank(s)
    ensures TrimStart(s + t) == TrimStart(s) + t
    decreases |s|
  {
    if IsJsWhitespace(s[0]) {
      assert (s + t)[1..] == s[1..] + t;
      TrimStartAppend(s[1..], t);
    }
  }

  /** Whitespace around a string does not change what `trim()` returns. */
  lemma TrimPadded(pre: string, s: string, post: string)
    requires IsBlank(pre) && IsBlank(post)
    ensures Trim(pre + s + post) == Trim(s)
  {
    assert pre + s + post == pre + (s + post);
    TrimStartBlankPrefix(pre, s + post);
    if IsBlank(s) {
      TrimStartBlankPrefix(s, post);
      assert TrimStart(post) == [];
    } else {
      TrimStartAppend(s, post);
      TrimEndBlankSuffix(TrimStart(s), post);
    }
  }

  /** JavaScript's `s.length`: the number of UTF-16 code units, two for each
      character outside the Basic Multilingual Plane (a surrogate pair). */
  function Utf16Length(s: string): (n: nat)
    ensures |s| <= n <= 2 * |s|
    decreases |s|
  {
    if s == [] then 0 else Utf16Length(s[..|s| - 1]) + (if s[|s| - 1] as int > 0xFFFF then 2 else 1)
  }

  /** The code-unit count of a concatenation is the sum of the counts. */
  lemma {:induction false} Utf16LengthAppend(s: string, t: string)
    ensures Utf16Length(s + t) == Utf16Length(s) + Utf16Length(t)
    decreases |t|
  {
    if t == [] {
      assert s + t == s;
    } else {
      var t' := t[..|t| - 1];
      assert (s + t)[..|s + t| - 1] == s + t';
      Utf16LengthAppend(s, t');
    }
  }

  /** Within the Basic Multilingual Plane the code-unit count is the length. */
  lemma {:induction false} Utf16LengthBmp(s: string)
    requires forall i :: 0 <= i < |s| ==> s[i] as int <= 0xFFFF
    ensures Utf16Length(s) == |s|
    decreases |s|
  {
    if s != [] {
      Utf16LengthBmp(s[..|s| - 1]);
    }
  }

  /** Python's `s.rstrip(c)` for a one-character argument: every trailing `c` is removed. */
  function RStrip(s: string, c: char): (r: string)
    ensures |r| <= |s| && r == s[..|r|]
    ensures forall i :: |r| <= i < |s| ==> s[i] == c
    ensures r == [] || r[|r| - 1] != c
    decreases |s|
  {
    if |s| > 0 && s[|s| - 1] == c then RStrip(s[..|s| - 1], c) else s
  }

  /** Stripping again changes nothing. */
  lemma RStripIdempotent(s: string, c: char)
    ensures RStrip(RStrip(s, c), c) == RStrip(s, c)
  {
  }

  predicate StartsWith(s: string, prefix: string) {
    |prefix| <= |s| && s[..|prefix|] == prefix
  }

  predicate IsDigit(c: char) {
    '0' <= c <= '9'
  }

  function DigitChar(d: nat): (c: char)
    requires d < 10
    ensures IsDigit(c) && c as int - '0' as int == d
  {
    ['0', '1', '2', '3', '4', '5', '6', '7', '8', '9'][d]
  }

  /** JavaScript's `n.toString()` for a non-negative integer: decimal digits
      without leading zeros. */
  function NatToString(n: nat): (r: string)
    ensures r != [] && forall i :: 0 <= i < |r| ==> IsDigit(r[i])
    ensures r[0] == '0' ==> n == 0 && r == "0"
    decreases n
  {
    if n < 10 then [DigitChar(n)] else NatToString(n / 10) + [DigitChar(n % 10)]
  }

  function DigitOf(c: char): nat
    requires IsDigit(c)
  {
    c as int - '0' as int
  }

  /** The value denoted by a string of decimal digits. */
  function DigitsValue(s: string): nat
    requires forall i :: 0 <= i < |s| ==> IsDigit(s[i])
  {
    if s == [] then 0 else 10 * DigitsValue(s[..|s| - 1]) + DigitOf(s[|s| - 1])
  }

  /** `NatToString` is decoded by `DigitsValue`, so distinct indices render as
      distinct strings. */
  lemma {:induction false} NatToStringRoundTrip(n: nat)
    ensures DigitsValue(NatToString(n)) == n
    decreases n
  {
    if n >= 10 {
      NatToStringRoundTrip(n / 10);
      var r := NatToString(n);
      assert r[..|r| - 1] == NatToString(n / 10);
    }
  }

  lemma NatToStringInjective(m: nat, n: nat)
    ensures NatToString(m) == NatToString(n) ==> m == n
  {
    NatToStringRoundTrip(m);
    NatToStringRoundTrip(n);
  }
}
