/** The few pieces of JavaScript string semantics the scanner relies on:
    reads past either end give `undefined`, `slice` accepts negative
    indices, `trim` strips JavaScript white space, and numbers and
    `undefined` are printed by template literals. */
module JsStrings {

  datatype Option<T> = None | Some(value: T)

  /** `s[k]` in JavaScript: `undefined` (None) outside the string. */
  function At(s: string, k: int): Option<char>
  {
    if 0 <= k < |s| then Some(s[k]) else None
  }

  /** How `String.prototype.slice` turns an argument into a position:
      a negative one counts back from the end, and both are clamped to the string. */
  function SliceIndex(len: nat, k: int): (r: nat)
    ensures r <= len
  {
    if k < 0 then (if len + k < 0 then 0 else len + k)
    else if k > len then len
    else k
  }

  /** `s.slice(start, end)`: empty when the clamped start is not before the clamped end. */
  function Slice(s: string, start: int, end: int): string
  {
    var from, to := SliceIndex(|s|, start), SliceIndex(|s|, end);
    if from < to then s[from..to] else ""
  }

  lemma SliceWithin(s: string, start: int, end: int)
    requires 0 <= start <= end <= |s|
    ensures Slice(s, start, end) == s[start..end]
  {
  }

  /** With the end at a position of the string, a start one before the beginning selects nothing. */
  lemma SliceFromMinusOne(s: string, end: nat)
    requires end < |s|
    ensures Slice(s, -1, end) == ""
  {
  }

  /** `c.repeat(n)` for a one-character string `c`. */
  function Repeat(c: char, n: nat): (r: string)
    ensures |r| == n
    ensures forall k :: 0 <= k < n ==> r[k] == c
  {
    if n == 0 then "" else Repeat(c, n - 1) + [c]
  }

  predicate StartsWith(s: string, prefix: string)
  {
    |prefix| <= |s| && s[..|prefix|] == prefix
  }

  /** The code points ECMAScript counts as WhiteSpace or LineTerminator. */
  predicate IsJsWhitespace(c: char)
  {
    c in {'\t', '\n', '\U{B}', '\U{C}', '\r', ' ', '\U{A0}', '\U{1680}',
          '\U{2000}', '\U{2001}', '\U{2002}', '\U{2003}', '\U{2004}', '\U{2005}',
          '\U{2006}', '\U{2007}', '\U{2008}', '\U{2009}', '\U{200A}',
          '\U{2028}', '\U{2029}', '\U{202F}', '\U{205F}', '\U{3000}', '\U{FEFF}'}
  }

  function TrimStart(s: string): string
    decreases |s|
  {
    if s != [] && IsJsWhitespace(s[0]) then TrimStart(s[1..]) else s
  }

  function TrimEnd(s: string): string
    decreases |s|
  {
    if s != [] && IsJsWhitespace(s[|s| - 1]) then TrimEnd(s[..|s| - 1]) else s
  }

  /** `s.trim()`. */
  function Trim(s: string): string
  {
    TrimEnd(TrimStart(s))
  }

  /** The trimmed string is a contiguous part of the input with no white space at either
      end, and everything dropped before and after it is white space. */
  lemma TrimShape(s: string)
    ensures var r := Trim(s);
      (r == [] || (!IsJsWhitespace(r[0]) && !IsJsWhitespace(r[|r| - 1]))) &&
      exists a, b :: 0 <= a <= b <= |s| && r == s[a..b]
        && (forall k :: 0 <= k < a ==> IsJsWhitespace(s[k]))
        && (forall k :: b <= k < |s| ==> IsJsWhitespace(s[k]))
  {
    var a := TrimStartShape(s);
    var u := TrimStart(s);
    var b := TrimEndShape(u);
    assert Trim(s) == s[a..a + b];
    assert forall k :: a + b <= k < |s| ==> s[k] == u[k - a];
  }

  /** `TrimStart` drops the first `a` characters, all of them white space. */
  lemma {:induction false} TrimStartShape(s: string) returns (a: nat)
    ensures var r := TrimStart(s);
      a <= |s| && r == s[a..] && (r == [] || !IsJsWhitespace(r[0]))
      && forall k :: 0 <= k < a ==> IsJsWhitespace(s[k])
    decreases |s|
  {
    if s != [] && IsJsWhitespace(s[0]) {
      var a' := TrimStartShape(s[1..]);
      a := a' + 1;
      assert TrimStart(s) == s[a..];
      assert forall k :: 1 <= k < a ==> s[k] == s[1..][k - 1];
    } else {
      a := 0;
      assert TrimStart(s) == s[0..];
    }
  }

  /** `TrimEnd` keeps the first `b` characters and drops white space only. */
  lemma {:induction false} TrimEndShape(s: string) returns (b: nat)
    ensures var r := TrimEnd(s);
      b <= |s| && r == s[..b] && (r == [] || !IsJsWhitespace(r[|r| - 1]))
      && forall k :: b <= k < |s| ==> IsJsWhitespace(s[k])
    decreases |s|
  {
    if s != [] && IsJsWhitespace(s[|s| - 1]) {
      b := TrimEndShape(s[..|s| - 1]);
      assert TrimEnd(s) == s[..b];
    } else {
      b := |s|;
      assert TrimEnd(s) == s[..|s|];
    }
  }

  /** Trimming leaves a string alone that neither starts nor ends with white space. */
  lemma TrimNoWhitespaceEnds(s: string)
    requires s == [] || (!IsJsWhitespace(s[0]) && !IsJsWhitespace(s[|s| - 1]))
    ensures Trim(s) == s
  {
  }

  /** Trailing white space goes, and nothing else does, when the string starts and ends
      otherwise with characters that are not white space. */
  lemma {:induction false} TrimDropsTrailing(s: string, w: string)
    requires s != [] && !IsJsWhitespace(s[0]) && !IsJsWhitespace(s[|s| - 1])
    requires forall k :: 0 <= k < |w| ==> IsJsWhitespace(w[k])
    ensures Trim(s + w) == s
    decreases |w|
  {
    assert TrimStart(s + w) == s + w;
    if w == [] {
      assert s + w == s;
    } else {
      var w' := w[..|w| - 1];
      assert (s + w)[..|s + w| - 1] == s + w';
      TrimDropsTrailing(s, w');
    }
  }

  /** Trimming the start of a string that gains a white-space character at its end. */
  lemma {:induction false} TrimStartSnoc(s: string, c: char)
    requires IsJsWhitespace(c)
    ensures TrimStart(s + [c]) == if TrimStart(s) == [] then [] else TrimStart(s) + [c]
    decreases |s|
  {
    if s == [] {
      assert ([] + [c])[1..] == [];
    } else if IsJsWhitespace(s[0]) {
      assert (s + [c])[1..] == s[1..] + [c];
      TrimStartSnoc(s[1..], c);
    }
  }

  /** A newline added at the end makes no difference once the string is trimmed. */
  lemma TrimNewline(s: string)
    ensures Trim(s + "\n") == Trim(s)
  {
    TrimStartSnoc(s, '\n');
    var u := TrimStart(s);
    if u != [] {
      assert (u + "\n")[..|u + "\n"| - 1] == u;
    }
  }

  function DigitChar(d: nat): (c: char)
    requires d < 10
    ensures '0' <= c <= '9'
  {
    ['0', '1', '2', '3', '4', '5', '6', '7', '8', '9'][d]
  }

  predicate AllDigits(s: string)
  {
    forall k :: 0 <= k < |s| ==> '0' <= s[k] <= '9'
  }

  /** A non-negative number in a template literal: its decimal digits, no leading zeros. */
  function NatToString(n: nat): (r: string)
    ensures r != [] && AllDigits(r)
    ensures |r| > 1 ==> r[0] != '0'
  {
    if n < 10 then [DigitChar(n)] else NatToString(n / 10) + [DigitChar(n % 10)]
  }

  /** The decimal digits read back as a number: so different numbers print differently. */
  function DigitsValue(s: string): nat
    requires AllDigits(s)
  {
    if s == [] then 0 else 10 * DigitsValue(s[..|s| - 1]) + (s[|s| - 1] as int - '0' as int)
  }

  lemma {:induction false} NatToStringValue(n: nat)
    ensures DigitsValue(NatToString(n)) == n
  {
    if n >= 10 {
      var r := NatToString(n);
      assert r[..|r| - 1] == NatToString(n / 10);
      NatToStringValue(n / 10);
    }
  }

  /** `${o}` for a variable that may be undefined. */
  function TemplateValue(o: Option<string>): string
  {
    if o.Some? then o.value else "undefined"
  }
}
