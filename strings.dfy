/**
 * The few Python string operations the program relies on, written out over
 * `seq<char>`: `sep.join(parts)`, `''.join(parts)`, `str.strip()`,
 * `str.split()[0]`, `str.lower()` (ASCII letters only), `str.replace` of one
 * character, `filter(None, tokens)` and `str(n)` for integers and booleans.
 */
module Strings {
  import opened Wrappers

  /** `sep.join(parts)` */
  function Join(sep: string, parts: seq<string>): string
    decreases |parts|
  {
    if |parts| == 0 then ""
    else if |parts| == 1 then parts[0]
    else parts[0] + sep + Join(sep, parts[1..])
  }

  lemma AppendAssoc<T>(a: seq<T>, b: seq<T>, c: seq<T>)
    ensures a + b + c == a + (b + c)
  {
  }

  /** `''.join(parts)` */
  function Concat(parts: seq<string>): string
    decreases |parts|
  {
    if |parts| == 0 then "" else parts[0] + Concat(parts[1..])
  }

  lemma {:induction false} ConcatAppend(a: seq<string>, b: seq<string>)
    ensures Concat(a + b) == Concat(a) + Concat(b)
    decreases |a|
  {
    if |a| == 0 {
      assert a + b == b;
    } else {
      assert (a + b)[1..] == a[1..] + b;
      ConcatAppend(a[1..], b);
    }
  }

  /** The tokens that `filter(None, tokens)` keeps: the non-empty ones, in order. */
  function DropEmpty(tokens: seq<string>): (r: seq<string>)
    ensures forall i :: 0 <= i < |r| ==> r[i] != ""
    ensures |r| <= |tokens|
    decreases |tokens|
  {
    if |tokens| == 0 then []
    else if tokens[0] == "" then DropEmpty(tokens[1..])
    else [tokens[0]] + DropEmpty(tokens[1..])
  }

  lemma {:induction false} DropEmptyAppend(a: seq<string>, b: seq<string>)
    ensures DropEmpty(a + b) == DropEmpty(a) + DropEmpty(b)
    decreases |a|
  {
    if |a| == 0 {
      assert a + b == b;
    } else {
      assert (a + b)[1..] == a[1..] + b;
      DropEmptyAppend(a[1..], b);
    }
  }

  /** A list without empty tokens passes the filter unchanged. */
  lemma {:induction false} DropEmptyNonEmpty(tokens: seq<string>)
    requires forall i :: 0 <= i < |tokens| ==> tokens[i] != ""
    ensures DropEmpty(tokens) == tokens
    decreases |tokens|
  {
    if |tokens| > 0 {
      DropEmptyNonEmpty(tokens[1..]);
    }
  }

  /** The characters Python's `str.isspace()` accepts. */
  predicate IsSpace(c: char)
  {
    c == ' ' || '\t' <= c <= '\r' || '\U{001C}' <= c <= '\U{001F}' || c == '\U{0085}' || c == '\U{00A0}' ||
    c == '\U{1680}' || '\U{2000}' <= c <= '\U{200A}' || c == '\U{2028}' || c == '\U{2029}' || c == '\U{202F}' ||
    c == '\U{205F}' || c == '\U{3000}'
  }

  predicate AllSpace(s: string)
  {
    forall i :: 0 <= i < |s| ==> IsSpace(s[i])
  }

  /** Number of leading whitespace characters of `s`. */
  function LeadingSpace(s: string): (n: nat)
    ensures n <= |s|
    ensures forall i :: 0 <= i < n ==> IsSpace(s[i])
    ensures n < |s| ==> !IsSpace(s[n])
    decreases |s|
  {
    if |s| == 0 || !IsSpace(s[0]) then 0 else 1 + LeadingSpace(s[1..])
  }

  /** Number of trailing whitespace characters of `s`. */
  function TrailingSpace(s: string): (n: nat)
    ensures n <= |s|
    ensures forall i :: |s| - n <= i < |s| ==> IsSpace(s[i])
    ensures n < |s| ==> !IsSpace(s[|s| - n - 1])
    decreases |s|
  {
    if |s| == 0 || !IsSpace(s[|s| - 1]) then 0 else 1 + TrailingSpace(s[..|s| - 1])
  }

  /** `str.strip()`: `s` without its leading and trailing whitespace. */
  function Strip(s: string): string
  {
    var lead := LeadingSpace(s);
    var rest := s[lead..];
    rest[..|rest| - TrailingSpace(rest)]
  }

  /**
   * What `str.strip()` promises: the result is a slice of `s` with only
   * whitespace cut away on each side, and it neither starts nor ends with
   * whitespace; it is empty exactly when `s` is all whitespace.
   */
  lemma StripSpec(s: string)
    ensures exists i, j :: 0 <= i <= j <= |s| && Strip(s) == s[i..j] && AllSpace(s[..i]) && AllSpace(s[j..])
    ensures Strip(s) != "" ==> !IsSpace(Strip(s)[0]) && !IsSpace(Strip(s)[|Strip(s)| - 1])
    ensures Strip(s) == "" <==> AllSpace(s)
  {
    var i, j := StripBounds(s);
    if i == |s| {
      assert s[..i] == s;
    }
  }

  /** The slice `Strip` keeps: all whitespace before it and after it, none at its ends. */
  lemma StripBounds(s: string) returns (i: nat, j: nat)
    ensures i <= j <= |s| && Strip(s) == s[i..j]
    ensures AllSpace(s[..i]) && AllSpace(s[j..])
    ensures i < |s| ==> i < j && !IsSpace(s[i]) && !IsSpace(s[j - 1])
    ensures i == |s| ==> AllSpace(s)
  {
    i := LeadingSpace(s);
    var rest := s[i..];
    var trail := TrailingSpace(rest);
    j := |s| - trail;
    assert s[j..] == rest[|rest| - trail..];
    if i < |s| {
      assert !IsSpace(rest[0]);
    }
  }

  /**
   * `s.split()[0]`: the first maximal run of non-whitespace characters, or
   * `None` when `s` has none (Python raises `IndexError` there).
   */
  function FirstWord(s: string): (r: Option<string>)
  {
    var rest := s[LeadingSpace(s)..];
    if rest == [] then None else Some(rest[..WordLength(rest)])
  }

  /** Number of leading non-whitespace characters of `s`. */
  function WordLength(s: string): (n: nat)
    ensures n <= |s|
    ensures forall i :: 0 <= i < n ==> !IsSpace(s[i])
    ensures n < |s| ==> IsSpace(s[n])
    decreases |s|
  {
    if |s| == 0 || IsSpace(s[0]) then 0 else 1 + WordLength(s[1..])
  }

  /**
   * What `split()[0]` promises: `s` is some whitespace, then a non-empty word
   * without whitespace, then nothing or a whitespace character and the rest;
   * there is no word exactly when `s` is all whitespace.
   */
  lemma FirstWordSpec(s: string)
    ensures FirstWord(s).None? <==> AllSpace(s)
    ensures FirstWord(s).Some? ==>
      var w := FirstWord(s).value;
      w != "" && (forall i :: 0 <= i < |w| ==> !IsSpace(w[i])) &&
      exists i :: 0 <= i && i + |w| <= |s| && AllSpace(s[..i]) && s[i..i + |w|] == w &&
        (i + |w| == |s| || IsSpace(s[i + |w|]))
  {
    var lead := LeadingSpace(s);
    if lead < |s| {
      var rest := s[lead..];
      var n := WordLength(rest);
      assert rest[0] == s[lead];
      assert s[lead..lead + n] == rest[..n];
      assert lead + n < |s| ==> s[lead + n] == rest[n];
    } else {
      assert s[..lead] == s;
    }
  }

  /** `str.lower()` for the ASCII letters. */
  function LowerChar(c: char): char
  {
    if 'A' <= c <= 'Z' then (c as int + 32) as char else c
  }

  predicate IsUpper(c: char)
  {
    'A' <= c <= 'Z'
  }

  /**
   * `str.lower()`: the same length, no upper-case letter left, every other
   * character kept, and each upper-case letter replaced by its lower-case
   * counterpart.
   */
  function Lower(s: string): (r: string)
    ensures |r| == |s|
    ensures forall i :: 0 <= i < |r| ==> !IsUpper(r[i])
    ensures forall i :: 0 <= i < |s| && !IsUpper(s[i]) ==> r[i] == s[i]
    ensures forall i :: 0 <= i < |s| && IsUpper(s[i]) ==> 'a' <= r[i] <= 'z' && r[i] as int - s[i] as int == 'a' as int - 'A' as int
  {
    seq(|s|, i requires 0 <= i < |s| => LowerChar(s[i]))
  }

  /** Lower-casing twice is lower-casing once. */
  lemma LowerIdempotent(s: string)
    ensures Lower(Lower(s)) == Lower(s)
  {
    var l := Lower(s);
    assert forall i :: 0 <= i < |l| ==> Lower(l)[i] == l[i];
  }

  /**
   * `s.replace(from, to)` for single characters: the same length, each
   * `from` replaced by `to` and every other character kept.
   */
  function ReplaceChar(s: string, from: char, to: char): (r: string)
    ensures |r| == |s|
    ensures forall i :: 0 <= i < |s| && s[i] == from ==> r[i] == to
    ensures forall i :: 0 <= i < |s| && s[i] != from ==> r[i] == s[i]
  {
    seq(|s|, i requires 0 <= i < |s| => if s[i] == from then to else s[i])
  }

  /** After replacing every `from` by a different character, no `from` is left. */
  lemma ReplaceCharRemoves(s: string, from: char, to: char)
    requires from != to
    ensures from !in ReplaceChar(s, from, to)
  {
  }

  /** Replacing a character that does not occur changes nothing. */
  lemma ReplaceCharAbsent(s: string, from: char, to: char)
    requires from !in s
    ensures ReplaceChar(s, from, to) == s
  {
  }

  predicate IsDigit(c: char)
  {
    '0' <= c <= '9'
  }

  function DigitChar(d: nat): (c: char)
    requires d < 10
    ensures IsDigit(c) && c as int - '0' as int == d
  {
    ('0' as int + d) as char
  }

  /** The number a string of decimal digits denotes, most significant digit first. */
  function DecimalValue(s: string): int
    decreases |s|
  {
    if |s| == 0 then 0 else 10 * DecimalValue(s[..|s| - 1]) + (s[|s| - 1] as int - '0' as int)
  }

  /**
   * Decimal digits of a natural number, most significant first: the
   * canonical decimal form of `n`, which starts with `0` only for 0 itself.
   */
  function NatToString(n: nat): (r: string)
    ensures |r| > 0
    ensures forall i :: 0 <= i < |r| ==> IsDigit(r[i])
    ensures DecimalValue(r) == n
    ensures r[0] == '0' <==> n == 0
    decreases n
  {
    if n < 10 then
      var r := [DigitChar(n)];
      assert r[..0] == [];
      r
    else
      var hi := NatToString(n / 10);
      var r := hi + [DigitChar(n % 10)];
      assert r[..|r| - 1] == hi;
      r
  }

  /** `str(n)` for an integer: `-` exactly for a negative `n`, then the decimal digits of its magnitude. */
  function IntToString(n: int): (r: string)
    ensures |r| > 0
    ensures (r[0] == '-') <==> n < 0
    ensures n >= 0 ==> (forall i :: 0 <= i < |r| ==> IsDigit(r[i])) && DecimalValue(r) == n && (r[0] == '0' <==> n == 0)
    ensures n < 0 ==> |r| > 1 && (forall i :: 1 <= i < |r| ==> IsDigit(r[i])) && DecimalValue(r[1..]) == -n && r[1] != '0'
  {
    if n < 0 then
      var d := NatToString(-n);
      var r := "-" + d;
      assert r[1..] == d;
      r
    else NatToString(n)
  }

  /** `str(b)` for a boolean. */
  function BoolToString(b: bool): string
  {
    if b then "True" else "False"
  }
}
