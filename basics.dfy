/** Small building blocks shared by every module: the failure-carrying
    datatypes, JavaScript's notion of white space with `String.prototype.trim`,
    decimal rendering of field numbers, and concatenation of string pieces. */
module Basics {

  datatype Option<+T> = None | Some(value: T)

  /** The outcome of a step that may throw: `Err` carries what was thrown. */
  datatype Result<+T, +E> = Ok(value: T) | Err(error: E)

  /** An element of a `Uint8Array`. */
  type Byte = b: int | 0 <= b < 256

  /** The characters `String.prototype.trim` removes: ECMAScript WhiteSpace
      (tab, vertical tab, form feed, space, no-break space, byte-order mark and
      the Unicode space separators) and LineTerminator (LF, CR, LS, PS). */
  predicate IsJsWhitespace(c: char) {
    c == '\t' || c == '\n' || c == '\r' || c == ' ' ||
    c == '\U{000B}' || c == '\U{000C}' || c == '\U{00A0}' || c == '\U{FEFF}' ||
    c == '\U{1680}' || ('\U{2000}' <= c <= '\U{200A}') ||
    c == '\U{2028}' || c == '\U{2029}' || c == '\U{202F}' || c == '\U{205F}' ||
    c == '\U{3000}'
  }

  predicate AllWhitespace(s: string) {
    forall k :: 0 <= k < |s| ==> IsJsWhitespace(s[k])
  }

  /** Drops leading white space: the result is a suffix of `s` that does not
      start with white space, and everything dropped was white space. */
  function TrimStart(s: string): (r: string)
    ensures |r| <= |s| && r == s[|s| - |r|..]
    ensures r == [] || !IsJsWhitespace(r[0])
    ensures AllWhitespace(s[..|s| - |r|])
    decreases |s|
  {
    if s != [] && IsJsWhitespace(s[0]) then TrimStart(s[1..]) else s
  }

  /** Drops trailing white space: the result is a prefix of `s` that does not
      end with white space, and everything dropped was white space. */
  function TrimEnd(s: string): (r: string)
    ensures |r| <= |s| && r == s[..|r|]
    ensures r == [] || !IsJsWhitespace(r[|r| - 1])
    ensures AllWhitespace(s[|r|..])
    decreases |s|
  {
    if s != [] && IsJsWhitespace(s[|s| - 1]) then
      var r := TrimEnd(s[..|s| - 1]);
      WhitespaceSuffixGrows(s, |r|);
      r
    else s
  }

  /** `s.trim()`: what is left of `s` once white space is dropped from both
      ends (`TrimStart` and `TrimEnd` say what each end keeps); it is empty
      exactly when `s` is all white space. */
  function Trim(s: string): (r: string)
    ensures r == [] <==> AllWhitespace(s)
  {
    TrimEmptyIffBlank(s);
    TrimEnd(TrimStart(s))
  }

  lemma TrimEmptyIffBlank(s: string)
    ensures TrimEnd(TrimStart(s)) == [] <==> AllWhitespace(s)
  {
    var t := TrimStart(s);
    TrimEndEmpty(t);
    assert s[..|s| - 0] == s;
  }

  /** Only the empty text trims to nothing at its end when it does not start
      with white space. */
  lemma TrimEndEmpty(t: string)
    requires t == [] || !IsJsWhitespace(t[0])
    ensures TrimEnd(t) == [] <==> t == []
  {
    assert t[0..] == t;
  }

  /** White space at the end of `s` after white space from `n` on in its
      prefix. */
  lemma WhitespaceSuffixGrows(s: string, n: nat)
    requires s != [] && n <= |s| - 1 && IsJsWhitespace(s[|s| - 1])
    requires AllWhitespace(s[..|s| - 1][n..])
    ensures AllWhitespace(s[n..])
  {
    forall k | 0 <= k < |s| - n ensures IsJsWhitespace(s[n..][k]) {
      if k < |s| - 1 - n {
        assert s[n..][k] == s[..|s| - 1][n..][k];
      }
    }
  }

  /** The JavaScript truthiness test `!s.trim()` used by every entry point. */
  predicate IsBlank(s: string) {
    Trim(s) == ""
  }

  /** The numeric value of a string of decimal digits. */
  function DigitsValue(r: string): nat
    requires forall k :: 0 <= k < |r| ==> '0' <= r[k] <= '9'
  {
    if r == [] then 0 else 10 * DigitsValue(r[..|r| - 1]) + (r[|r| - 1] - '0') as nat
  }

  /** The character of a decimal digit. */
  function DecimalDigit(d: nat): (c: char)
    requires d < 10
    ensures '0' <= c <= '9' && (c - '0') as nat == d
  {
    ('0' as int + d) as char
  }

  /** The decimal numeral JavaScript prints for a non-negative integer: digits
      only, no leading zero, and denoting `n`. */
  function NatToString(n: nat): (r: string)
    ensures |r| > 0 && forall k :: 0 <= k < |r| ==> '0' <= r[k] <= '9'
    ensures r[0] != '0' || r == "0"
    ensures DigitsValue(r) == n
  {
    if n < 10 then [DecimalDigit(n)]
    else
      var r := NatToString(n / 10) + [DecimalDigit(n % 10)];
      assert r[..|r| - 1] == NatToString(n / 10);
      r
  }

  /** The pieces joined end to end. */
  function Concat(pieces: seq<string>): string {
    if pieces == [] then "" else Concat(pieces[..|pieces| - 1]) + pieces[|pieces| - 1]
  }

  /** `pieces.join(sep)` */
  function Join(pieces: seq<string>, sep: string): string {
    if pieces == [] then ""
    else if |pieces| == 1 then pieces[0]
    else pieces[0] + sep + Join(pieces[1..], sep)
  }

  /** `"  ".repeat(n)` */
  function Spaces(n: nat): (r: string)
    ensures |r| == 2 * n && forall k :: 0 <= k < |r| ==> r[k] == ' '
  {
    if n == 0 then "" else "  " + Spaces(n - 1)
  }
}
