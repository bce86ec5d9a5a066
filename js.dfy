/**
 * The few behaviours of the JavaScript runtime that the application's logic
 * leans on: `null`/`undefined` as an absent value, `String.prototype.trim`,
 * the ASCII digit class `\d`, and the `a || b || fallback` idiom over strings.
 */
module Js {

  /** A value that may be `null` or `undefined` in the source (`None`). */
  datatype Option<+T> = None | Some(value: T)

  /** A value or the error an operation was rejected with. */
  datatype Result<+T, +E> = Ok(value: T) | Err(error: E)

  /**
   * The code points `String.prototype.trim` removes: ECMAScript's WhiteSpace
   * (tab, vertical tab, form feed, space, no-break space, byte order mark and
   * the space separators of category Zs) and LineTerminator (line feed,
   * carriage return, line and paragraph separators).
   */
  predicate IsWhitespace(c: char) {
    || c == '\t' || c == '\n' || c == '\U{000B}' || c == '\U{000C}' || c == '\r'
    || c == ' ' || c == '\U{00A0}' || c == '\U{1680}'
    || ('\U{2000}' <= c <= '\U{200A}')
    || c == '\U{2028}' || c == '\U{2029}' || c == '\U{202F}' || c == '\U{205F}'
    || c == '\U{3000}' || c == '\U{FEFF}'
  }

  /** Every code point of `s` is whitespace (so `s.trim()` is empty). */
  predicate IsBlank(s: string) {
    forall i :: 0 <= i < |s| ==> IsWhitespace(s[i])
  }

  /** `s` neither starts nor ends with whitespace. */
  predicate IsTrimmed(s: string) {
    s == [] || (!IsWhitespace(s[0]) && !IsWhitespace(s[|s| - 1]))
  }

  /**
   * `s.trim()`: leading and trailing whitespace removed, one code point at a
   * time from either end until neither end is whitespace.
   */
  function Trim(s: string): (r: string)
    ensures |r| <= |s|
    ensures IsTrimmed(r)
    ensures r == [] <==> IsBlank(s)
  {
    if s != [] && IsWhitespace(s[0]) then
      var r := Trim(s[1..]);
      assert IsBlank(s[1..]) ==> IsBlank(s) by {
        if IsBlank(s[1..]) {
          forall i | 1 <= i < |s| ensures IsWhitespace(s[i]) {
            assert s[i] == s[1..][i - 1];
          }
        }
      }
      r
    else if s != [] && IsWhitespace(s[|s| - 1]) then
      Trim(s[..|s| - 1])
    else
      s
  }

  /**
   * What `trim` keeps: a middle slice of the input, with only whitespace cut
   * off before and after it. Together with `IsTrimmed(Trim(s))` this says the
   * result is the input minus all of its leading and trailing whitespace.
   */
  lemma TrimIsSlice(s: string)
    ensures exists i, j :: 0 <= i <= j <= |s| && Trim(s) == s[i..j] && IsBlank(s[..i]) && IsBlank(s[j..])
  {
    var i, j := TrimBounds(s);
  }

  /** The bounds of the slice `trim` keeps. */
  lemma {:induction false} TrimBounds(s: string) returns (i: nat, j: nat)
    ensures i <= j <= |s| && Trim(s) == s[i..j] && IsBlank(s[..i]) && IsBlank(s[j..])
  {
    if s == [] {
      i, j := 0, 0;
    } else if IsWhitespace(s[0]) {
      var t := s[1..];
      var i', j' := TrimBounds(t);
      i, j := i' + 1, j' + 1;
      DropFront(s, i', j');
    } else if IsWhitespace(s[|s| - 1]) {
      var t := s[..|s| - 1];
      i, j := TrimBounds(t);
      DropBack(s, i, j);
    } else {
      i, j := 0, |s|;
      assert s[0..|s|] == s;
    }
  }

  lemma DropFront(s: string, i: nat, j: nat)
    requires s != [] && IsWhitespace(s[0])
    requires i <= j <= |s| - 1
    requires Trim(s[1..]) == s[1..][i..j] && IsBlank(s[1..][..i]) && IsBlank(s[1..][j..])
    ensures Trim(s) == s[i + 1..j + 1] && IsBlank(s[..i + 1]) && IsBlank(s[j + 1..])
  {
    var t := s[1..];
    assert Trim(s) == Trim(t);
    assert t[i..j] == s[i + 1..j + 1];
    assert t[j..] == s[j + 1..];
    PrefixCons(s, i);
    BlankCons(s[0], t[..i]);
  }

  lemma PrefixCons(s: string, i: nat)
    requires 1 <= i + 1 <= |s|
    ensures [s[0]] + s[1..][..i] == s[..i + 1]
  {
  }

  lemma DropBack(s: string, i: nat, j: nat)
    requires s != [] && !IsWhitespace(s[0]) && IsWhitespace(s[|s| - 1])
    requires i <= j <= |s| - 1
    requires Trim(s[..|s| - 1]) == s[..|s| - 1][i..j] && IsBlank(s[..|s| - 1][..i]) && IsBlank(s[..|s| - 1][j..])
    ensures Trim(s) == s[i..j] && IsBlank(s[..i]) && IsBlank(s[j..])
  {
    var t := s[..|s| - 1];
    assert Trim(s) == Trim(t);
    assert t[i..j] == s[i..j];
    assert t[..i] == s[..i];
    SuffixSnoc(s, j);
    BlankSnoc(t[j..], s[|s| - 1]);
  }

  lemma SuffixSnoc(s: string, j: nat)
    requires j <= |s| - 1
    ensures s[..|s| - 1][j..] + [s[|s| - 1]] == s[j..]
  {
  }

  lemma BlankCons(c: char, t: string)
    requires IsWhitespace(c) && IsBlank(t)
    ensures IsBlank([c] + t)
  {
    var u := [c] + t;
    forall k | 0 <= k < |u| ensures IsWhitespace(u[k]) {
      if k > 0 { assert u[k] == t[k - 1]; }
    }
  }

  lemma BlankSnoc(t: string, c: char)
    requires IsBlank(t) && IsWhitespace(c)
    ensures IsBlank(t + [c])
  {
    var u := t + [c];
    forall k | 0 <= k < |u| ensures IsWhitespace(u[k]) {
      if k < |t| { assert u[k] == t[k]; }
    }
  }

  /** Trimming a string with no whitespace at either end leaves it as it is. */
  lemma TrimOfTrimmed(s: string)
    requires IsTrimmed(s)
    ensures Trim(s) == s
  {
  }

  /** Trimming is idempotent. */
  lemma TrimIdempotent(s: string)
    ensures Trim(Trim(s)) == Trim(s)
  {
    TrimOfTrimmed(Trim(s));
  }

  /** The ASCII digit class `\d` (and the complement of `\D`) of a regular expression without the `u` flag. */
  predicate IsAsciiDigit(c: char) {
    '0' <= c <= '9'
  }

  predicate AllDigits(s: string) {
    forall i :: 0 <= i < |s| ==> IsAsciiDigit(s[i])
  }

  /** A string of digits has no whitespace to trim. */
  lemma DigitsAreTrimmed(s: string)
    requires AllDigits(s)
    ensures Trim(s) == s
  {
    TrimOfTrimmed(s);
  }

  /** JavaScript truthiness of a string: only the empty string is falsy. */
  predicate Truthy(s: string) {
    s != ""
  }

  /** `candidates[0] || candidates[1] || ... || fallback` over strings. */
  function FirstTruthy(candidates: seq<string>, fallback: string): (r: string)
    ensures (forall i :: 0 <= i < |candidates| ==> !Truthy(candidates[i])) ==> r == fallback
    ensures forall i :: (0 <= i < |candidates| && Truthy(candidates[i])
                         && forall j :: 0 <= j < i ==> !Truthy(candidates[j])) ==> r == candidates[i]
  {
    if candidates == [] then fallback
    else if Truthy(candidates[0]) then candidates[0]
    else FirstTruthy(candidates[1..], fallback)
  }

  /** `s.slice(0, n)`. */
  function Take(s: string, n: nat): (r: string)
    ensures r <= s
    ensures |r| == if |s| <= n then |s| else n
    ensures |s| <= n ==> r == s
  {
    if |s| <= n then s else s[..n]
  }
}
