/** The ECMAScript primitives the bot's code leans on: `undefined`, the truthiness
    of strings, `String.prototype.slice`, `trim` and `indexOf`, `Number(string)`,
    `${n}` for a non-negative integer, `Array.prototype.join` and index access
    `a[n - 1]`. */
module Js {

  /** A value that may be `undefined`. */
  datatype Option<+T> = None | Some(value: T)

  /** A handler either returns normally or throws `new Error(message)`. */
  datatype Result<+T> = Ok(value: T) | Err(message: string)

  /** `!!s` for a string that may be `undefined`: only the empty string is falsy. */
  predicate Truthy(s: Option<string>)
  {
    s.Some? && s.value != ""
  }

  /** `${s}` for a string that may be `undefined`. */
  function Interpolate(s: Option<string>): (r: string)
    ensures s.Some? ==> r == s.value
    ensures s.None? ==> r == "undefined"
  {
    if s.Some? then s.value else "undefined"
  }

  /** `s.slice(0, end)`: a negative end counts from the end of the string. */
  function SliceTo(s: string, end: int): (r: string)
    ensures r <= s
    ensures 0 <= end ==> |r| == if end <= |s| then end else |s|
    ensures end < 0 ==> |r| == if |s| + end >= 0 then |s| + end else 0
  {
    if end < 0 then s[..if |s| + end >= 0 then |s| + end else 0]
    else s[..if end <= |s| then end else |s|]
  }

  /** WhiteSpace and LineTerminator code points of ECMAScript (section 12.2 and
      12.3 of ECMA-262): TAB, VT, FF, SP, NBSP, ZWNBSP, the Zs category, LF, CR,
      LS and PS. */
  predicate IsWhiteSpace(c: char)
  {
    || c == '\t' || c == '\U{000B}' || c == '\U{000C}' || c == ' ' || c == '\U{00A0}'
    || c == '\U{FEFF}' || c == '\U{1680}' || ('\U{2000}' <= c <= '\U{200A}')
    || c == '\U{202F}' || c == '\U{205F}' || c == '\U{3000}'
    || c == '\n' || c == '\r' || c == '\U{2028}' || c == '\U{2029}'
  }

  function TrimStart(s: string): (r: string)
    ensures |r| <= |s| && r == s[|s| - |r|..]
    decreases |s|
  {
    if |s| > 0 && IsWhiteSpace(s[0]) then TrimStart(s[1..]) else s
  }

  function TrimEnd(s: string): (r: string)
    ensures r <= s
    decreases |s|
  {
    if |s| > 0 && IsWhiteSpace(s[|s| - 1]) then TrimEnd(s[..|s| - 1]) else s
  }

  /** `s.trim()`. */
  function Trim(s: string): string
  {
    TrimStart(TrimEnd(s))
  }

  lemma TrimAround(s: string)
    requires |s| > 0 && !IsWhiteSpace(s[0]) && !IsWhiteSpace(s[|s| - 1])
    ensures Trim(s) == s
  {
  }

  /** Trimming a line that starts and ends with visible characters, followed by
      a newline, gives back the line. */
  lemma TrimLine(s: string)
    requires |s| > 0 && !IsWhiteSpace(s[0]) && !IsWhiteSpace(s[|s| - 1])
    ensures Trim(s + "\n") == s
  {
    var t := s + "\n";
    assert t[|t| - 1] == '\n' && t[..|t| - 1] == s;
    assert TrimEnd(t) == TrimEnd(s) == s;
    TrimAround(s);
  }

  predicate IsDigit(c: char)
  {
    '0' <= c <= '9'
  }

  predicate AllDigits(s: string)
  {
    forall i :: 0 <= i < |s| ==> IsDigit(s[i])
  }

  function DigitChar(d: nat): (c: char)
    requires d < 10
    ensures IsDigit(c) && (c as int) - ('0' as int) == d
  {
    (('0' as int) + d) as char
  }

  /** The value of a string of decimal digits, most significant first. */
  function DecimalValue(s: string): nat
    requires AllDigits(s)
    decreases |s|
  {
    if s == [] then 0 else DecimalValue(s[..|s| - 1]) * 10 + ((s[|s| - 1] as int) - ('0' as int))
  }

  /** `${n}` for a non-negative integer: its decimal digits without leading zeros. */
  function NatToString(n: nat): (r: string)
    ensures |r| > 0 && AllDigits(r)
    ensures |r| == 1 <==> n < 10
    decreases n
  {
    if n < 10 then [DigitChar(n)] else NatToString(n / 10) + [DigitChar(n % 10)]
  }

  lemma {:induction false} DecimalValueOfNatToString(n: nat)
    ensures DecimalValue(NatToString(n)) == n
    decreases n
  {
    if n >= 10 {
      DecimalValueOfNatToString(n / 10);
      var s := NatToString(n);
      assert s[..|s| - 1] == NatToString(n / 10);
    }
  }

  /** `Number(s)` for the strings the bot is sent: surrounding white space is
      ignored, the empty string is 0, a string of decimal digits is its value,
      and anything else is NaN (`None`). */
  function ToNumber(s: string): Option<nat>
  {
    var t := Trim(s);
    if t == "" then Some(0) else if AllDigits(t) then Some(DecimalValue(t)) else None
  }

  /** A rendered number is read back as the same number: the carousels'
      postback payloads `idx + 1` select the card they were built from. */
  lemma NumberOfNatToString(n: nat)
    ensures ToNumber(NatToString(n)) == Some(n)
  {
    var s := NatToString(n);
    assert !IsWhiteSpace(s[0]) && !IsWhiteSpace(s[|s| - 1]);
    TrimAround(s);
    DecimalValueOfNatToString(n);
  }

  lemma NatToStringInjective(m: nat, n: nat)
    ensures NatToString(m) == NatToString(n) ==> m == n
  {
    DecimalValueOfNatToString(m);
    DecimalValueOfNatToString(n);
  }

  /** `a[n - 1]` where `n` is `Number(input)`: defined only for n in 1..|a|. */
  function AtOneBased<T>(a: seq<T>, n: Option<nat>): (r: Option<T>)
    ensures r.Some? <==> n.Some? && 1 <= n.value <= |a|
    ensures r.Some? ==> r.value == a[n.value - 1]
  {
    if n.Some? && 1 <= n.value <= |a| then Some(a[n.value - 1]) else None
  }

  lemma DropPrefix(pre: string, x: string, y: string)
    requires pre + x == pre + y
    ensures x == y
  {
    assert x == (pre + x)[|pre|..];
    assert y == (pre + y)[|pre|..];
  }

  /** A digit string followed by a text that starts with a non-digit splits
      in one way only. */
  lemma DigitsPrefix(m: string, rest: string, m': string, rest': string)
    requires AllDigits(m) && AllDigits(m') && |rest| > 0 && |rest'| > 0
    requires !IsDigit(rest[0]) && !IsDigit(rest'[0])
    requires m + rest == m' + rest'
    ensures m == m' && rest == rest'
  {
    var x := m + rest;
    assert m == x[..|m|] && m' == x[..|m'|];
  }

  /** `s.indexOf(sub) !== -1`. */
  predicate Contains(s: string, sub: string)
    decreases |s|
  {
    sub <= s || (|s| > 0 && Contains(s[1..], sub))
  }

  /** `parts.join(sep)`. */
  function Join(parts: seq<string>, sep: string): string
    decreases |parts|
  {
    if parts == [] then "" else if |parts| == 1 then parts[0] else parts[0] + sep + Join(parts[1..], sep)
  }

  /** `part` appears whole somewhere in `r`. */
  predicate Occurs(part: string, r: string)
  {
    exists k :: 0 <= k <= |r| && part <= r[k..]
  }

  /** A text found in `x` is found in any text that contains `x`. */
  lemma OccursWithin(part: string, x: string, a: string, c: string)
    requires Occurs(part, x)
    ensures Occurs(part, a + x + c)
  {
    var k :| 0 <= k <= |x| && part <= x[k..];
    assert (a + x + c)[|a| + k..] == x[k..] + c;
  }

  /** A text found in `x` is found in any text that ends with `x`. */
  lemma OccursInSuffix(part: string, x: string, r: string)
    requires Occurs(part, x) && |x| <= |r| && r[|r| - |x|..] == x
    ensures Occurs(part, r)
  {
    assert r == r[..|r| - |x|] + x + "";
    OccursWithin(part, x, r[..|r| - |x|], "");
  }

  /** Every part appears whole in the joined text. */
  lemma {:induction false} JoinContains(parts: seq<string>, sep: string, i: nat)
    requires i < |parts|
    ensures Occurs(parts[i], Join(parts, sep))
    decreases |parts|
  {
    var r := Join(parts, sep);
    if i == 0 {
      if |parts| > 1 {
        assert r == parts[0] + (sep + Join(parts[1..], sep));
      }
      assert parts[0] <= r[0..];
    } else {
      var rest := Join(parts[1..], sep);
      JoinContains(parts[1..], sep, i - 1);
      assert parts[1..][i - 1] == parts[i];
      var k' :| 0 <= k' <= |rest| && parts[i] <= rest[k'..];
      assert r == (parts[0] + sep) + rest;
      var k := |parts[0]| + |sep| + k';
      assert r[k..] == rest[k'..];
    }
  }

}
