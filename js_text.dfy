/** The JavaScript string built-ins the core relies on: `trim`, `indexOf`,
    `lastIndexOf`, `includes` and `parseInt`, written out over `seq<char>`. */
module JsText {
  import opened Wrappers

  /** The characters `String.prototype.trim` removes (ECMA-262 WhiteSpace and LineTerminator). */
  predicate IsWhitespace(c: char) {
    || c == ' ' || c == '\t' || c == '\n' || c == '\r' || c == '\U{000B}' || c == '\U{000C}'
    || c == '\U{00A0}' || c == '\U{1680}' || ('\U{2000}' <= c <= '\U{200A}')
    || c == '\U{2028}' || c == '\U{2029}' || c == '\U{202F}' || c == '\U{205F}'
    || c == '\U{3000}' || c == '\U{FEFF}'
  }

  predicate AllWhitespace(s: string) {
    forall k :: 0 <= k < |s| ==> IsWhitespace(s[k])
  }

  /** `s` without its leading whitespace. */
  function TrimStart(s: string): (r: string)
    ensures |r| <= |s| && r == s[|s| - |r|..]
    ensures AllWhitespace(s[..|s| - |r|])
    ensures r == [] || !IsWhitespace(r[0])
  {
    if s == [] || !IsWhitespace(s[0]) then s else TrimStart(s[1..])
  }

  /** `s` without its trailing whitespace. */
  function TrimEnd(s: string): (r: string)
    ensures |r| <= |s| && r == s[..|r|]
    ensures AllWhitespace(s[|r|..])
    ensures r == [] || !IsWhitespace(r[|r| - 1])
  {
    if s == [] || !IsWhitespace(s[|s| - 1]) then s else TrimEnd(s[..|s| - 1])
  }

  /** `String.prototype.trim`: empty exactly for an all-whitespace string, and otherwise
      a slice of `s` that neither starts nor ends with whitespace. */
  function Trim(s: string): (r: string)
    ensures |r| <= |s|
    ensures r == [] <==> AllWhitespace(s)
    ensures r != [] ==> !IsWhitespace(r[0]) && !IsWhitespace(r[|r| - 1])
    ensures exists i :: CutAt(s, r, i)
  {
    var t := TrimStart(s);
    var r := TrimEnd(t);
    TrimMargins(s, t, r);
    TrimBlank(s, t, r);
    r
  }

  /** `r` is the slice of `s` starting at `i`, and what lies before and after it is whitespace. */
  ghost predicate CutAt(s: string, r: string, i: int) {
    0 <= i <= |s| - |r| && r == s[i..i + |r|] && AllWhitespace(s[..i]) && AllWhitespace(s[i + |r|..])
  }

  /** Trimming cuts whitespace-only margins off both ends: `t` is `s` without its leading
      whitespace, `r` is `t` without its trailing whitespace. */
  lemma TrimMargins(s: string, t: string, r: string)
    requires |t| <= |s| && t == s[|s| - |t|..] && AllWhitespace(s[..|s| - |t|])
    requires |r| <= |t| && r == t[..|r|] && AllWhitespace(t[|r|..])
    ensures CutAt(s, r, |s| - |t|)
  {
    var i := |s| - |t|;
    assert s[i + |r|..] == t[|r|..];
  }

  /** Both trims leave nothing exactly when `s` is all whitespace. */
  lemma TrimBlank(s: string, t: string, r: string)
    requires |t| <= |s| && t == s[|s| - |t|..] && AllWhitespace(s[..|s| - |t|])
    requires t == [] || !IsWhitespace(t[0])
    requires |r| <= |t| && r == t[..|r|] && AllWhitespace(t[|r|..])
    requires r == [] || !IsWhitespace(r[|r| - 1])
    ensures r == [] <==> AllWhitespace(s)
    ensures r != [] ==> !IsWhitespace(r[0]) && !IsWhitespace(r[|r| - 1])
  {
    var i := |s| - |t|;
    if r == [] {
      assert t[|r|..] == t;
      assert t == [];
      assert s[..i] == s;
    } else {
      assert s[i] == t[0] == r[0];
    }
  }

  /** `s.indexOf(c)`: the first position of `c`, or -1 when `c` does not occur. */
  function IndexOf(s: string, c: char): (r: int)
    ensures -1 <= r < |s|
    ensures r == -1 <==> c !in s
    ensures r >= 0 ==> s[r] == c && c !in s[..r]
  {
    if s == [] then -1
    else if s[0] == c then 0
    else
      var k := IndexOf(s[1..], c);
      assert s[1..][..if k < 0 then 0 else k] == s[1..if k < 0 then 1 else k + 1];
      if k == -1 then -1 else k + 1
  }

  /** `s.lastIndexOf(c)`: the last position of `c`, or -1 when `c` does not occur. */
  function LastIndexOf(s: string, c: char): (r: int)
    ensures -1 <= r < |s|
    ensures r == -1 <==> c !in s
    ensures r >= 0 ==> s[r] == c
    ensures forall k :: r < k < |s| ==> s[k] != c
  {
    if s == [] then -1
    else if s[|s| - 1] == c then |s| - 1
    else LastIndexOf(s[..|s| - 1], c)
  }

  /** `t` occurs in `s` starting at position `i`. */
  predicate OccursAt(s: string, t: string, i: int) {
    0 <= i <= |s| - |t| && s[i..i + |t|] == t
  }

  /** `s.includes(t)`. */
  function Includes(s: string, t: string): (b: bool)
    ensures b <==> exists i :: OccursAt(s, t, i)
  {
    IncludesFrom(s, t, 0)
  }

  function IncludesFrom(s: string, t: string, i: nat): (b: bool)
    ensures b <==> exists j :: i <= j && OccursAt(s, t, j)
    decreases |s| - i
  {
    if i + |t| > |s| then false
    else if s[i..i + |t|] == t then assert OccursAt(s, t, i); true
    else
      var b := IncludesFrom(s, t, i + 1);
      assert b <== exists j :: i <= j && OccursAt(s, t, j) by {
        if j :| i <= j && OccursAt(s, t, j) {
          assert j != i;
        }
      }
      b
  }

  predicate IsDigit(c: char) {
    '0' <= c <= '9'
  }

  predicate IsHexDigit(c: char) {
    IsDigit(c) || 'a' <= c <= 'f' || 'A' <= c <= 'F'
  }

  /** A digit of base 16 when `hex`, of base 10 otherwise. */
  predicate IsRadixDigit(c: char, hex: bool) {
    if hex then IsHexDigit(c) else IsDigit(c)
  }

  predicate AllRadixDigits(ds: string, hex: bool) {
    forall k :: 0 <= k < |ds| ==> IsRadixDigit(ds[k], hex)
  }

  function DigitValue(c: char): (d: nat)
    requires IsHexDigit(c)
    ensures d < 16 && (IsDigit(c) ==> d < 10)
  {
    if IsDigit(c) then (c as int) - ('0' as int)
    else if 'a' <= c <= 'f' then (c as int) - ('a' as int) + 10
    else (c as int) - ('A' as int) + 10
  }

  /** The number the digit string `ds` denotes, most significant digit first. */
  function DigitsValue(ds: string, hex: bool): nat
    requires AllRadixDigits(ds, hex)
  {
    if ds == [] then 0
    else (if hex then 16 else 10) * DigitsValue(ds[..|ds| - 1], hex) + DigitValue(ds[|ds| - 1])
  }

  /** The length of the longest prefix of `s` made of digits. */
  function DigitRun(s: string, hex: bool): (n: nat)
    ensures n <= |s| && AllRadixDigits(s[..n], hex)
    ensures n < |s| ==> !IsRadixDigit(s[n], hex)
  {
    if s == [] || !IsRadixDigit(s[0], hex) then 0
    else
      var n := DigitRun(s[1..], hex);
      assert s[..n + 1] == [s[0]] + s[1..][..n];
      n + 1
  }

  /** `parseInt(s)` with no radix argument: leading whitespace is skipped, then an optional
      sign, then `0x`/`0X` selects base 16, then the longest run of digits is read.
      `None` stands for `NaN`, the result when no digit follows. */
  function ParseInt(s: string): (r: Option<int>)
    ensures AllWhitespace(s) ==> r.None?
  {
    var t := TrimStart(s);
    assert AllWhitespace(s) ==> t == [] by {
      if AllWhitespace(s) {
        TrimStartOfBlank(s);
      }
    }
    ParseSigned(t)
  }

  /** A blank string is all leading whitespace. */
  lemma {:induction false} TrimStartOfBlank(s: string)
    requires AllWhitespace(s)
    ensures TrimStart(s) == []
  {
    if s != [] {
      assert AllWhitespace(s[1..]) by {
        forall k | 0 <= k < |s| - 1 ensures IsWhitespace(s[1..][k]) {
          assert s[1..][k] == s[k + 1];
        }
      }
      TrimStartOfBlank(s[1..]);
    }
  }

  /** The optional sign. */
  function ParseSigned(t: string): Option<int> {
    if |t| > 0 && t[0] == '-' then
      match ParseUnsigned(t[1..])
      case None => None
      case Some(v) => Some(-v)
    else if |t| > 0 && t[0] == '+' then ParseUnsigned(t[1..])
    else ParseUnsigned(t)
  }

  /** The optional `0x` / `0X` prefix selecting base 16. */
  function ParseUnsigned(u: string): Option<int> {
    if |u| >= 2 && u[0] == '0' && (u[1] == 'x' || u[1] == 'X') then ParseDigits(u[2..], true)
    else ParseDigits(u, false)
  }

  /** The longest run of digits, `None` when it is empty. */
  function ParseDigits(ds: string, hex: bool): Option<int> {
    var n := DigitRun(ds, hex);
    if n == 0 then None else Some(DigitsValue(ds[..n], hex))
  }

  /** On a plain run of decimal digits, `parseInt` yields exactly the number the digits denote. */
  lemma ParseIntOfDigits(ds: string)
    requires ds != [] && AllRadixDigits(ds, false)
    ensures ParseInt(ds) == Some(DigitsValue(ds, false))
  {
    assert IsDigit(ds[0]);
    assert TrimStart(ds) == ds;
    assert ParseUnsigned(ds) == ParseDigits(ds, false) by {
      if |ds| >= 2 {
        assert IsDigit(ds[1]);
      }
    }
    DigitRunOfDigits(ds);
    assert ds[..|ds|] == ds;
  }

  /** A string made only of digits is one run of digits. */
  lemma DigitRunOfDigits(ds: string)
    requires AllRadixDigits(ds, false)
    ensures DigitRun(ds, false) == |ds|
  {
    var n := DigitRun(ds, false);
    if n < |ds| {
      assert false;
    }
  }
}
