/** The Python `str` operations the workers use, on `seq<char>`. */
module Strings {
  import opened Wrappers

  /** `s.startswith(p)`. */
  predicate StartsWith(s: string, p: string)
  {
    |p| <= |s| && s[..|p|] == p
  }

  /** A string is its prefix followed by the rest. */
  lemma SplitAt(s: string, n: nat)
    requires n <= |s|
    ensures s == s[..n] + s[n..]
  {
  }

  /** `s.replace(pat, rep)`: every non-overlapping occurrence of `pat`,
      scanning left to right, is replaced by `rep`. */
  function ReplaceAll(s: string, pat: string, rep: string): string
    requires pat != []
    decreases |s|
  {
    if |s| < |pat| then s
    else if s[..|pat|] == pat then rep + ReplaceAll(s[|pat|..], pat, rep)
    else [s[0]] + ReplaceAll(s[1..], pat, rep)
  }

  /** Replacing a character that does not occur changes nothing. */
  lemma {:induction false} ReplaceAbsentChar(s: string, c: char, rep: string)
    requires c !in s
    ensures ReplaceAll(s, [c], rep) == s
  {
    if |s| >= 1 {
      assert s[..1] == [s[0]];
      ReplaceAbsentChar(s[1..], c, rep);
      assert s == [s[0]] + s[1..];
    }
  }

  /** Removing a character with `replace(c, '')` leaves no `c` behind. */
  lemma {:induction false} ReplaceRemovesChar(s: string, c: char)
    ensures c !in ReplaceAll(s, [c], "")
  {
    if |s| >= 1 {
      ReplaceRemovesChar(s[1..], c);
    }
  }

  /** `c.isspace()`: the characters Python's `str.strip()` and the regular
      expression class `\s` treat as whitespace. */
  predicate IsSpace(c: char)
  {
    var n := c as int;
    n == 0x20 || 0x09 <= n <= 0x0d || 0x1c <= n <= 0x1f || n == 0x85 || n == 0xa0 || n == 0x1680
    || 0x2000 <= n <= 0x200a || n == 0x2028 || n == 0x2029 || n == 0x202f || n == 0x205f || n == 0x3000
  }

  /** The end of the run of characters satisfying `p` that starts at `i`. */
  function SpanFrom(s: string, p: char -> bool, i: nat): (n: nat)
    requires i <= |s|
    ensures i <= n <= |s|
    ensures forall k :: i <= k < n ==> p(s[k])
    ensures n == |s| || !p(s[n])
    decreases |s| - i
  {
    if i < |s| && p(s[i]) then SpanFrom(s, p, i + 1) else i
  }

  /** The length of the longest prefix of `s` whose characters satisfy `p`:
      what a greedy `\d+` or `\s*` consumes. */
  function Span(s: string, p: char -> bool): (n: nat)
    ensures n <= |s|
    ensures forall k :: 0 <= k < n ==> p(s[k])
    ensures n == |s| || !p(s[n])
  {
    SpanFrom(s, p, 0)
  }

  /** A run that stops where `p` first fails is the span. */
  lemma {:induction false} SpanExact(s: string, p: char -> bool, n: nat)
    requires n <= |s|
    requires forall k :: 0 <= k < n ==> p(s[k])
    requires n == |s| || !p(s[n])
    ensures Span(s, p) == n
  {
    SpanFromExact(s, p, 0, n);
  }

  lemma {:induction false} SpanFromExact(s: string, p: char -> bool, i: nat, n: nat)
    requires i <= n <= |s|
    requires forall k :: i <= k < n ==> p(s[k])
    requires n == |s| || !p(s[n])
    decreases n - i
    ensures SpanFrom(s, p, i) == n
  {
    if i < n {
      SpanFromExact(s, p, i + 1, n);
    }
  }

  /** The start of the run of whitespace that ends at `j`. */
  function TrailFrom(s: string, j: nat): (n: nat)
    requires j <= |s|
    ensures n <= j
    ensures forall k :: n <= k < j ==> IsSpace(s[k])
    ensures n == 0 || !IsSpace(s[n - 1])
  {
    if j > 0 && IsSpace(s[j - 1]) then TrailFrom(s, j - 1) else j
  }

  /** `s.lstrip()`. */
  function StripLeft(s: string): (r: string)
    ensures |r| <= |s| && r == s[|s| - |r|..]
    ensures r == [] || !IsSpace(r[0])
    ensures forall i :: 0 <= i < |s| - |r| ==> IsSpace(s[i])
  {
    s[SpanFrom(s, IsSpace, 0)..]
  }

  /** `s.rstrip()`. */
  function StripRight(s: string): (r: string)
    ensures |r| <= |s| && r == s[..|r|]
    ensures r == [] || !IsSpace(r[|r| - 1])
    ensures forall i :: |r| <= i < |s| ==> IsSpace(s[i])
  {
    s[..TrailFrom(s, |s|)]
  }

  /** `s.strip()`. */
  function Strip(s: string): string
  {
    StripRight(StripLeft(s))
  }

  /** `s.find(c)`, with -1 as `None`. */
  function IndexOf(s: string, c: char): (r: Option<nat>)
    ensures r.Some? ==> r.value < |s| && s[r.value] == c && c !in s[..r.value]
    ensures r.None? <==> c !in s
  {
    if s == [] then None
    else if s[0] == c then Some(0)
    else match IndexOf(s[1..], c)
      case None => None
      case Some(i) => assert s[..i + 1] == [s[0]] + s[1..][..i]; Some(i + 1)
  }

  /** `s.split(c)` with an explicit one-character separator: empty pieces are kept. */
  function Split(s: string, c: char): (r: seq<string>)
    ensures |r| >= 1
    ensures forall i :: 0 <= i < |r| ==> c !in r[i]
    decreases |s|
  {
    match IndexOf(s, c)
    case None => [s]
    case Some(i) => [s[..i]] + Split(s[i + 1..], c)
  }

  /** Splitting at the first separator: the piece before it, then the rest split. */
  lemma SplitFirst(head: string, c: char, tail: string)
    requires c !in head
    ensures Split(head + [c] + tail, c) == [head] + Split(tail, c)
  {
    var s := head + [c] + tail;
    assert s[|head|] == c && s[..|head|] == head && s[|head| + 1..] == tail;
    assert IndexOf(s, c) == Some(|head|);
  }

  /** A string without the separator is a single piece. */
  lemma SplitAbsent(s: string, c: char)
    requires c !in s
    ensures Split(s, c) == [s]
  {
  }

  /** `c.join(pieces)`, the inverse of `Split`. */
  function Join(pieces: seq<string>, c: char): string
  {
    if pieces == [] then [] else if |pieces| == 1 then pieces[0] else pieces[0] + [c] + Join(pieces[1..], c)
  }

  lemma {:induction false} JoinSplit(s: string, c: char)
    ensures Join(Split(s, c), c) == s
    decreases |s|
  {
    match IndexOf(s, c)
    case None =>
    case Some(i) =>
      var rest := Split(s[i + 1..], c);
      assert Split(s, c) == [s[..i]] + rest;
      assert ([s[..i]] + rest)[1..] == rest;
      calc {
        Join(Split(s, c), c);
        s[..i] + [c] + Join(rest, c);
        { JoinSplit(s[i + 1..], c); }
        s[..i] + [c] + s[i + 1..];
        s;
      }
  }

  /** `str.lower()` on ASCII letters. */
  function LowerChar(c: char): char
  {
    if 'A' <= c <= 'Z' then (c as int + 32) as char else c
  }

  function Lower(s: string): string
  {
    seq(|s|, i requires 0 <= i < |s| => LowerChar(s[i]))
  }

  lemma LowerIdempotent(s: string)
    ensures Lower(Lower(s)) == Lower(s)
  {
  }

  predicate IsDigit(c: char)
  {
    '0' <= c <= '9'
  }

  predicate AllDigits(s: string)
  {
    forall i :: 0 <= i < |s| ==> IsDigit(s[i])
  }

  /** The number a string of decimal digits denotes (leading zeros allowed). */
  function DecimalValue(ds: string): nat
    requires AllDigits(ds)
  {
    if ds == [] then 0 else DecimalValue(ds[..|ds| - 1]) * 10 + (ds[|ds| - 1] as int - '0' as int)
  }

  predicate DigitsOrUnderscores(t: string)
  {
    forall i :: 0 <= i < |t| ==> IsDigit(t[i]) || t[i] == '_'
  }

  /** Digits with single underscores between them, as Python's `int()` accepts. */
  predicate Grouped(t: string)
  {
    |t| > 0 && IsDigit(t[0]) && IsDigit(t[|t| - 1]) && DigitsOrUnderscores(t)
    && forall i :: 0 <= i < |t| - 1 ==> t[i] == '_' ==> t[i + 1] != '_'
  }

  /** The digits of `t` with the underscores left out. */
  function DropUnderscores(t: string): (r: string)
    requires DigitsOrUnderscores(t)
    ensures AllDigits(r)
  {
    if t == [] then [] else (if t[0] == '_' then [] else [t[0]]) + DropUnderscores(t[1..])
  }

  lemma DropUnderscoresOfDigits(t: string)
    requires AllDigits(t)
    ensures DropUnderscores(t) == t
  {
  }

  /** `int(s)` for a string argument: surrounding whitespace, an optional
      sign and grouped decimal digits; anything else raises (here `None`). */
  function ParseInt(s: string): (r: Option<int>)
  {
    var t := Strip(s);
    if t != [] && (t[0] == '+' || t[0] == '-') then
      var body := t[1..];
      if Grouped(body) then
        var n: int := DecimalValue(DropUnderscores(body));
        Some(if t[0] == '-' then -n else n)
      else None
    else if Grouped(t) then Some(DecimalValue(DropUnderscores(t)) as int)
    else None
  }

  /** Digits have no surrounding whitespace to strip. */
  lemma StripDigits(ds: string)
    requires ds != [] && AllDigits(ds)
    ensures Strip(ds) == ds
  {
    assert !IsSpace(ds[0]) && !IsSpace(ds[|ds| - 1]);
    assert StripLeft(ds) == ds;
  }

  /** Plain decimal digits, as a number count prints, parse to their value. */
  lemma ParseIntDigits(ds: string)
    requires ds != [] && AllDigits(ds)
    ensures ParseInt(ds) == Some(DecimalValue(ds))
  {
    StripDigits(ds);
    assert Grouped(ds);
    DropUnderscoresOfDigits(ds);
  }
}
