/** The pure text parsing of the place scraper (crawler.py): the relative
    review date ("3 weeks ago") in seconds, the opening-hours label and the
    review-count token. */
module Crawler {
  import opened Wrappers
  import opened Strings

  // ---------------------------------------------------------------------
  // parse_text_duration

  /** The alternatives of the unit group, in the order the pattern lists them. */
  datatype Unit = Second | Minute | Hour | Day | Week | Month | Year

  function Name(u: Unit): string
  {
    match u
    case Second => "second"
    case Minute => "minute"
    case Hour => "hour"
    case Day => "day"
    case Week => "week"
    case Month => "month"
    case Year => "year"
  }

  /** The seconds in one unit; a month is thirty days and a year 365. */
  function Multiplier(u: Unit): nat
  {
    match u
    case Second => 1
    case Minute => 60
    case Hour => 3600
    case Day => 86400
    case Week => 604800
    case Month => 2592000
    case Year => 31536000
  }

  /** Each unit in terms of the one below it. */
  lemma MultipliersAreCalendar()
    ensures Multiplier(Second) == 1
    ensures Multiplier(Minute) == 60 * Multiplier(Second)
    ensures Multiplier(Hour) == 60 * Multiplier(Minute)
    ensures Multiplier(Day) == 24 * Multiplier(Hour)
    ensures Multiplier(Week) == 7 * Multiplier(Day)
    ensures Multiplier(Month) == 30 * Multiplier(Day)
    ensures Multiplier(Year) == 365 * Multiplier(Day)
  {
  }

  /** The unit whose name `s` starts with, trying the alternatives in order. */
  function UnitAt(s: string): (r: Option<Unit>)
    ensures r.Some? ==> StartsWith(s, Name(r.value))
    ensures r.None? ==> forall u: Unit :: !StartsWith(s, Name(u))
  {
    if StartsWith(s, "second") then Some(Second)
    else if StartsWith(s, "minute") then Some(Minute)
    else if StartsWith(s, "hour") then Some(Hour)
    else if StartsWith(s, "day") then Some(Day)
    else if StartsWith(s, "week") then Some(Week)
    else if StartsWith(s, "month") then Some(Month)
    else if StartsWith(s, "year") then Some(Year)
    else None
  }

  /** No unit name is a prefix of another, so the alternation never has to
      choose: the names already differ in their first two letters. */
  lemma UnitAtIsUnique(s: string, u: Unit)
    requires StartsWith(s, Name(u))
    ensures UnitAt(s) == Some(u)
  {
    var v := UnitAt(s).value;
    assert s[0] == Name(u)[0] && s[1] == Name(u)[1];
    assert s[0] == Name(v)[0] && s[1] == Name(v)[1];
  }

  /** The count and unit of a match. */
  datatype Duration = Duration(count: nat, unit: Unit)

  predicate AllSpaces(s: string)
  {
    forall i :: 0 <= i < |s| ==> IsSpace(s[i])
  }

  /** `\s*ago` at the start of `e`. */
  predicate Ago(e: string)
  {
    StartsWith(e[Span(e, IsSpace)..], "ago")
  }

  /** `s?\s*ago` at the start of `c`. */
  predicate Suffix(c: string)
  {
    Ago(if StartsWith(c, "s") then c[1..] else c)
  }

  /** `\s*(second|...|year)s?\s*ago` at the start of `a`: the unit. */
  function UnitPart(a: string): Option<Unit>
  {
    var b := a[Span(a, IsSpace)..];
    match UnitAt(b)
    case None => None
    case Some(u) => if Suffix(b[|Name(u)|..]) then Some(u) else None
  }

  /** `re.match(r"(\d+)\s*(second|...|year)s?\s*ago", t)` on an already
      lower-cased `t`, as a greedy scan. Backtracking never finds another
      match: giving back a digit leaves a digit where a space or a unit
      letter is needed, giving back a space leaves a space where a unit or
      `ago` is needed, and giving back the plural `s` leaves an `s` where a
      space or `ago` is needed. */
  function MatchDuration(t: string): Option<Duration>
  {
    var d := Span(t, IsDigit);
    if d == 0 then None
    else match UnitPart(t[d..])
      case None => None
      case Some(u) => Some(Duration(DecimalValue(t[..d]), u))
  }

  /** The reference grammar of a matching text: digits, spaces, a unit
      name, an optional `s`, spaces, `ago`, and anything after. */
  datatype Phrase = Phrase(digits: string, gap: string, unit: Unit, plural: bool, pause: string, rest: string)

  predicate WellFormed(p: Phrase)
  {
    p.digits != [] && AllDigits(p.digits) && AllSpaces(p.gap) && AllSpaces(p.pause)
  }

  function Render(p: Phrase): string
  {
    p.digits + (p.gap + (Name(p.unit) + ((if p.plural then "s" else "") + (p.pause + ("ago" + p.rest)))))
  }

  lemma AgoSound(e: string) returns (pause: string, rest: string)
    requires Ago(e)
    ensures AllSpaces(pause) && e == pause + ("ago" + rest)
  {
    var h := Span(e, IsSpace);
    pause, rest := e[..h], e[h + 3..];
    assert e[h..] == "ago" + rest;
  }

  lemma AgoComplete(pause: string, rest: string)
    requires AllSpaces(pause)
    ensures Ago(pause + ("ago" + rest))
  {
    var e := pause + ("ago" + rest);
    assert e[|pause|] == 'a';
    SpanExact(e, IsSpace, |pause|);
    assert e[|pause|..] == "ago" + rest;
  }

  lemma SuffixSound(c: string) returns (plural: bool, pause: string, rest: string)
    requires Suffix(c)
    ensures AllSpaces(pause) && c == (if plural then "s" else "") + (pause + ("ago" + rest))
  {
    plural := StartsWith(c, "s");
    var e := if plural then c[1..] else c;
    pause, rest := AgoSound(e);
    if plural {
      assert c == "s" + e;
    }
  }

  lemma SuffixComplete(plural: bool, pause: string, rest: string)
    requires AllSpaces(pause)
    ensures Suffix((if plural then "s" else "") + (pause + ("ago" + rest)))
  {
    var e := pause + ("ago" + rest);
    AgoComplete(pause, rest);
    if plural {
      var c := "s" + e;
      assert c[..1] == "s";
      assert c[1..] == e;
      assert Suffix(c);
    } else {
      assert !StartsWith(e, "s") by {
        if pause != [] {
          assert e[0] == pause[0];
          assert IsSpace(e[0]);
        } else {
          assert e[0] == 'a';
        }
      }
      assert [] + e == e;
    }
  }

  lemma UnitPartSound(a: string) returns (gap: string, c: string)
    requires UnitPart(a).Some?
    ensures AllSpaces(gap) && a == gap + (Name(UnitPart(a).value) + c) && Suffix(c)
  {
    var g := Span(a, IsSpace);
    var b := a[g..];
    var u := UnitAt(b).value;
    gap, c := a[..g], b[|Name(u)|..];
    assert UnitPart(a) == (if Suffix(c) then Some(u) else None);
    assert b[..|Name(u)|] == Name(u);
    SplitAt(b, |Name(u)|);
    SplitAt(a, g);
  }

  /** A unit name starts with a letter: neither whitespace nor a digit. */
  lemma NameStart(u: Unit)
    ensures |Name(u)| >= 3 && !IsSpace(Name(u)[0]) && !IsDigit(Name(u)[0])
  {
  }

  lemma UnitPartComplete(gap: string, u: Unit, c: string)
    requires AllSpaces(gap) && Suffix(c)
    ensures UnitPart(gap + (Name(u) + c)) == Some(u)
  {
    var b := Name(u) + c;
    var a := gap + b;
    NameStart(u);
    assert a[|gap|] == Name(u)[0];
    assert forall k :: 0 <= k < |gap| ==> a[k] == gap[k];
    SpanExact(a, IsSpace, |gap|);
    assert a[|gap|..] == b;
    assert b[..|Name(u)|] == Name(u);
    UnitAtIsUnique(b, u);
    assert b[|Name(u)|..] == c;
  }

  /** A match splits into the digits and what `UnitPart` accepts after them. */
  lemma MatchParts(t: string) returns (digits: string, a: string)
    requires MatchDuration(t).Some?
    ensures digits != [] && AllDigits(digits) && t == digits + a && UnitPart(a).Some?
    ensures MatchDuration(t) == Some(Duration(DecimalValue(digits), UnitPart(a).value))
  {
    var d := Span(t, IsDigit);
    digits, a := t[..d], t[d..];
    SplitAt(t, d);
    SliceDigits(t, d);
  }

  /** The characters a greedy `\d+` consumes are digits. */
  lemma SliceDigits(t: string, d: nat)
    requires d <= |t| && forall k :: 0 <= k < d ==> IsDigit(t[k])
    ensures AllDigits(t[..d])
  {
  }

  /** Digits followed by what `UnitPart` accepts, which starts with no digit. */
  lemma MatchOfParts(digits: string, a: string)
    requires digits != [] && AllDigits(digits)
    requires a != [] && !IsDigit(a[0]) && UnitPart(a).Some?
    ensures MatchDuration(digits + a) == Some(Duration(DecimalValue(digits), UnitPart(a).value))
  {
    var t := digits + a;
    var n := |digits|;
    assert t[n] == a[0];
    assert forall k :: 0 <= k < n ==> t[k] == digits[k];
    SpanExact(t, IsDigit, n);
    assert t[..n] == digits;
    assert t[n..] == a;
  }

  /** Every match is a rendering of the grammar, with the count its digits
      denote. */
  lemma MatchSound(t: string) returns (p: Phrase)
    requires MatchDuration(t).Some?
    ensures WellFormed(p) && Render(p) == t
    ensures MatchDuration(t) == Some(Duration(DecimalValue(p.digits), p.unit))
  {
    var digits, a := MatchParts(t);
    var u := UnitPart(a).value;
    var gap, c := UnitPartSound(a);
    var plural, pause, rest := SuffixSound(c);
    p := Phrase(digits, gap, u, plural, pause, rest);
  }

  /** Every rendering of the grammar matches, with the count its digits
      denote and its unit. */
  lemma MatchComplete(p: Phrase)
    requires WellFormed(p)
    ensures MatchDuration(Render(p)) == Some(Duration(DecimalValue(p.digits), p.unit))
  {
    var c := (if p.plural then "s" else "") + (p.pause + ("ago" + p.rest));
    var a := p.gap + (Name(p.unit) + c);
    assert Render(p) == p.digits + a;
    SuffixComplete(p.plural, p.pause, p.rest);
    UnitPartComplete(p.gap, p.unit, c);
    NameStart(p.unit);
    if p.gap == [] {
      assert a[0] == Name(p.unit)[0];
    } else {
      assert a[0] == p.gap[0];
    }
    MatchOfParts(p.digits, a);
  }

  /** `parse_text_duration`: the matched count times the unit's seconds, or
      0 when the lower-cased text does not start with a duration. */
  function ParseTextDuration(text: string): int
  {
    match MatchDuration(Lower(text))
    case None => 0
    case Some(d) => d.count * Multiplier(d.unit)
  }

  /** A text whose lower-cased form renders a phrase gives the phrase's
      count of its unit in seconds. */
  lemma ParseTextDurationOf(text: string, p: Phrase)
    requires WellFormed(p) && Lower(text) == Render(p)
    ensures ParseTextDuration(text) == DecimalValue(p.digits) * Multiplier(p.unit)
  {
    MatchComplete(p);
  }

  /** Any other text gives 0. */
  lemma ParseTextDurationOtherwise(text: string)
    requires forall p :: WellFormed(p) ==> Render(p) != Lower(text)
    ensures ParseTextDuration(text) == 0
  {
    if MatchDuration(Lower(text)).Some? {
      var p := MatchSound(Lower(text));
    }
  }

  /** The result depends on the letters only up to case. */
  lemma ParseTextDurationIgnoresCase(text: string)
    ensures ParseTextDuration(Lower(text)) == ParseTextDuration(text)
  {
    LowerIdempotent(text);
  }

  /** Singular and plural mean the same. */
  lemma ParseTextDurationPlural(p: Phrase)
    requires WellFormed(p)
    ensures MatchDuration(Render(p.(plural := true))) == MatchDuration(Render(p.(plural := false)))
  {
    MatchComplete(p.(plural := true));
    MatchComplete(p.(plural := false));
  }

  lemma RenderAppend(p: Phrase, tail: string)
    ensures Render(p) + tail == Render(p.(rest := p.rest + tail))
  {
    var s := if p.plural then "s" else "";
    var x0, y0 := "ago" + p.rest, "ago" + (p.rest + tail);
    assert x0 + tail == y0;
    var x1, y1 := p.pause + x0, p.pause + y0;
    assert x1 + tail == y1;
    var x2, y2 := s + x1, s + y1;
    assert x2 + tail == y2;
    var x3, y3 := Name(p.unit) + x2, Name(p.unit) + y2;
    assert x3 + tail == y3;
    var x4, y4 := p.gap + x3, p.gap + y3;
    assert x4 + tail == y4;
    assert (p.digits + x4) + tail == p.digits + y4;
  }

  /** Whatever follows `ago` is ignored: the pattern is anchored only at
      the start. */
  lemma MatchIgnoresTail(t: string, tail: string)
    requires MatchDuration(t).Some?
    ensures MatchDuration(t + tail) == MatchDuration(t)
  {
    var p := MatchSound(t);
    RenderAppend(p, tail);
    MatchComplete(p.(rest := p.rest + tail));
  }

  /** Scaling by a unit's seconds keeps the order. */
  lemma ScaleMonotone(x: nat, y: nat, u: Unit)
    requires x <= y
    ensures x * Multiplier(u) <= y * Multiplier(u)
  {
    match u {
      case Second =>
      case Minute =>
      case Hour =>
      case Day =>
      case Week =>
      case Month =>
      case Year =>
    }
  }

  /** For a fixed unit, a larger count gives a longer duration. */
  lemma ParseTextDurationMonotone(a: string, b: string, p: Phrase, q: Phrase)
    requires WellFormed(p) && Lower(a) == Render(p)
    requires WellFormed(q) && Lower(b) == Render(q)
    requires p.unit == q.unit && DecimalValue(p.digits) <= DecimalValue(q.digits)
    ensures ParseTextDuration(a) <= ParseTextDuration(b)
  {
    ParseTextDurationOf(a, p);
    ParseTextDurationOf(b, q);
    ScaleMonotone(DecimalValue(p.digits), DecimalValue(q.digits), p.unit);
  }

  /** Every result is a whole, non-negative number of the matched unit. */
  lemma ParseTextDurationNonNegative(text: string)
    ensures ParseTextDuration(text) >= 0
    ensures MatchDuration(Lower(text)).None? ==> ParseTextDuration(text) == 0
  {
    match MatchDuration(Lower(text)) {
      case None =>
      case Some(d) => ScaleMonotone(0, d.count, d.unit);
    }
  }

  // ---------------------------------------------------------------------
  // The opening-hours label

  /** What one line contributes: with a `:`, the stripped text before the
      first one and the stripped text after it. */
  function Entry(line: string): Option<(string, string)>
  {
    match IndexOf(line, ':')
    case None => None
    case Some(k) => Some((Strip(line[..k]), Strip(line[k + 1..])))
  }

  /** What each line contributes, in order. */
  function Entries(lines: seq<string>): seq<Option<(string, string)>>
  {
    seq(|lines|, i requires 0 <= i < |lines| => Entry(lines[i]))
  }

  /** The dictionary a sequence of assignments leaves, later ones winning. */
  function Assign(es: seq<Option<(string, string)>>): map<string, string>
    decreases |es|
  {
    if es == [] then map[]
    else
      var m := Assign(es[..|es| - 1]);
      match es[|es| - 1]
      case None => m
      case Some(e) => m[e.0 := e.1]
  }

  /** The dictionary after the loop has seen `lines`. */
  function HoursOf(lines: seq<string>): map<string, string>
  {
    Assign(Entries(lines))
  }

  /** The dictionary for an `aria-label` attribute (`None`: no element or no
      attribute); an empty label gives no hours. */
  function OpenHoursOf(attr: Option<string>): map<string, string>
  {
    if attr.Some? && attr.value != "" then HoursOf(Split(Strip(attr.value), '\n')) else map[]
  }

  /** One more line of the loop. */
  lemma HoursOfStep(lines: seq<string>, i: nat)
    requires i < |lines|
    ensures HoursOf(lines[..i + 1]) == match Entry(lines[i])
      case None => HoursOf(lines[..i])
      case Some(e) => HoursOf(lines[..i])[e.0 := e.1]
  {
    var es := Entries(lines[..i + 1]);
    assert es[..i] == Entries(lines[..i]);
    assert es[i] == Entry(lines[i]);
  }

  /** The open-hours loop of `process_business`. */
  method OpenHours(attr: Option<string>) returns (hours: map<string, string>)
    ensures hours == OpenHoursOf(attr)
  {
    hours := map[];
    if attr.Some? && attr.value != "" {
      var lines := Split(Strip(attr.value), '\n');
      for i := 0 to |lines|
        invariant hours == HoursOf(lines[..i])
      {
        HoursOfStep(lines, i);
        var line := lines[i];
        if ':' in line {
          var k := IndexOf(line, ':').value;
          var day, time := line[..k], line[k + 1..];
          hours := hours[Strip(day) := Strip(time)];
        }
      }
      assert lines[..|lines|] == lines;
    }
  }

  /** A line is split at its first `:`; the time keeps any later ones. */
  lemma EntryOf(day: string, time: string)
    requires ':' !in day
    ensures Entry(day + ":" + time) == Some((Strip(day), Strip(time)))
  {
    var line := day + ":" + time;
    assert line[|day|] == ':';
    assert line[..|day|] == day;
    assert line[|day| + 1..] == time;
  }

  /** An assignment of nothing, wherever it stands, changes nothing. */
  lemma {:induction false} AssignSkipsNone(a: seq<Option<(string, string)>>, b: seq<Option<(string, string)>>)
    decreases |b|
    ensures Assign(a + [None] + b) == Assign(a + b)
  {
    if b == [] {
      assert (a + [None])[..|a|] == a;
      assert a + [None] + b == a + [None];
      assert a + b == a;
    } else {
      var init := b[..|b| - 1];
      AssignSkipsNone(a, init);
      assert (a + [None] + b)[..|a + [None] + b| - 1] == a + [None] + init;
      assert (a + b)[..|a + b| - 1] == a + init;
      assert (a + [None] + b)[|a + [None] + b| - 1] == b[|b| - 1];
      assert (a + b)[|a + b| - 1] == b[|b| - 1];
    }
  }

  lemma EntriesConcat(a: seq<string>, b: seq<string>)
    ensures Entries(a + b) == Entries(a) + Entries(b)
  {
    var l, r := Entries(a + b), Entries(a) + Entries(b);
    forall i | 0 <= i < |l|
      ensures l[i] == r[i]
    {
      if i < |a| {
        assert (a + b)[i] == a[i];
      } else {
        assert (a + b)[i] == b[i - |a|];
      }
    }
  }

  /** A line without `:` contributes nothing, wherever it stands. */
  lemma HoursIgnoreLineWithoutColon(a: seq<string>, line: string, b: seq<string>)
    requires ':' !in line
    ensures HoursOf(a + [line] + b) == HoursOf(a + b)
  {
    assert Entries([line]) == [None];
    EntriesConcat(a, [line]);
    EntriesConcat(a + [line], b);
    EntriesConcat(a, b);
    AssignSkipsNone(Entries(a), Entries(b));
  }

  /** The keys are exactly the days of the assignments. */
  lemma {:induction false} AssignKeys(es: seq<Option<(string, string)>>, day: string)
    decreases |es|
    ensures day in Assign(es) <==> exists i :: 0 <= i < |es| && es[i].Some? && es[i].value.0 == day
  {
    if es != [] {
      var init := es[..|es| - 1];
      AssignKeys(init, day);
      assert forall i :: 0 <= i < |init| ==> init[i] == es[i];
      if day in Assign(es) && day !in Assign(init) {
        assert es[|es| - 1].value.0 == day;
      }
    }
  }

  /** A key has the value of the last assignment to it. */
  lemma {:induction false} AssignLastWins(es: seq<Option<(string, string)>>, i: nat, day: string, time: string)
    requires i < |es| && es[i] == Some((day, time))
    requires forall j :: i < j < |es| ==> es[j].None? || es[j].value.0 != day
    decreases |es|
    ensures day in Assign(es) && Assign(es)[day] == time
  {
    if i < |es| - 1 {
      var init := es[..|es| - 1];
      assert forall j :: i < j < |init| ==> init[j] == es[j];
      AssignLastWins(init, i, day, time);
    }
  }

  /** The days are exactly the stripped day parts of the lines with a `:`. */
  lemma HoursOfDays(lines: seq<string>, day: string)
    ensures day in HoursOf(lines) <==> exists i :: 0 <= i < |lines| && Entry(lines[i]).Some? && Entry(lines[i]).value.0 == day
  {
    var es := Entries(lines);
    assert |es| == |lines| && forall i :: 0 <= i < |lines| ==> es[i] == Entry(lines[i]);
    AssignKeys(es, day);
  }

  /** A later line for the same day overwrites an earlier one: a day has
      the time of the last line that names it. */
  lemma HoursOfLastWins(lines: seq<string>, i: nat, day: string, time: string)
    requires i < |lines| && Entry(lines[i]) == Some((day, time))
    requires forall j :: i < j < |lines| ==> Entry(lines[j]).None? || Entry(lines[j]).value.0 != day
    ensures day in HoursOf(lines) && HoursOf(lines)[day] == time
  {
    AssignLastWins(Entries(lines), i, day, time);
  }

  /** A stripped string neither starts nor ends with whitespace. */
  lemma StripIsStripped(s: string)
    ensures Strip(s) == [] || (!IsSpace(Strip(s)[0]) && !IsSpace(Strip(s)[|Strip(s)| - 1]))
  {
    var l := StripLeft(s);
    var r := StripRight(l);
    if r != [] {
      assert r[0] == l[0];
    }
  }

  /** A stripped slice of a string without `:` has none either. */
  lemma StripKeepsNoColon(s: string)
    requires ':' !in s
    ensures ':' !in Strip(s)
  {
    var l := StripLeft(s);
    var r := StripRight(l);
    assert forall j :: 0 <= j < |r| ==> r[j] == l[j] == s[|s| - |l| + j];
  }

  /** Days hold no `:` and no surrounding whitespace. */
  lemma HoursOfDaysAreClean(lines: seq<string>, day: string)
    requires day in HoursOf(lines)
    ensures ':' !in day
    ensures day == [] || (!IsSpace(day[0]) && !IsSpace(day[|day| - 1]))
  {
    HoursOfDays(lines, day);
    var i :| 0 <= i < |lines| && Entry(lines[i]).Some? && Entry(lines[i]).value.0 == day;
    var k := IndexOf(lines[i], ':').value;
    StripIsStripped(lines[i][..k]);
    StripKeepsNoColon(lines[i][..k]);
  }

  // ---------------------------------------------------------------------
  // The review-count token

  /** Lines 66-69 of the scraper: the text after the first `(` (up to the next
      one), with `)` and `,` removed and stripped, cut at the first space and
      read with `int()`; a failed `int()` or no `(` leaves it `None`. */
  function ReviewCount(text: string): Option<int>
  {
    var parts := Split(text, '(');
    if |parts| > 1 then
      ParseInt(Split(Strip(ReplaceAll(ReplaceAll(parts[1], ")", ""), ",", "")), ' ')[0])
    else None
  }

  /** Without a `(` there is no count. */
  lemma ReviewCountNeedsParen(text: string)
    requires '(' !in text
    ensures ReviewCount(text).None?
  {
  }

  /** The digits of a string, in order. */
  function DigitsOf(s: string): (r: string)
    ensures AllDigits(r)
  {
    if s == [] then [] else (if IsDigit(s[0]) then [s[0]] else []) + DigitsOf(s[1..])
  }

  /** On digits and thousands separators, removing the commas keeps the digits. */
  lemma {:induction false} DropCommas(s: string)
    requires forall i :: 0 <= i < |s| ==> IsDigit(s[i]) || s[i] == ','
    decreases |s|
    ensures ReplaceAll(s, ",", "") == DigitsOf(s)
  {
    if s != [] {
      assert s[..1] == [s[0]];
      DropCommas(s[1..]);
    }
  }

  lemma {:induction false} DigitsOfNonEmpty(s: string, i: nat)
    requires i < |s| && IsDigit(s[i])
    decreases |s|
    ensures DigitsOf(s) != []
  {
    if !IsDigit(s[0]) {
      DigitsOfNonEmpty(s[1..], i - 1);
    }
  }

  /** Removing a character from a string that ends with its only occurrence. */
  lemma {:induction false} DropClosing(s: string, c: char)
    requires c !in s
    decreases |s|
    ensures ReplaceAll(s + [c], [c], "") == s
  {
    if s == [] {
      assert ([] + [c])[..1] == [c];
      assert ([] + [c])[1..] == [];
    } else {
      assert (s + [c])[..1] == [s[0]];
      assert (s + [c])[1..] == s[1..] + [c];
      DropClosing(s[1..], c);
      assert s == [s[0]] + s[1..];
    }
  }

  /** Everything up to the first `(` is ignored. */
  lemma ReviewCountAfterParen(rating: string, tail: string)
    requires '(' !in rating && '(' !in tail
    ensures ReviewCount(rating + "(" + tail) == ParseInt(Split(Strip(ReplaceAll(ReplaceAll(tail, ")", ""), ",", "")), ' ')[0])
  {
    SplitFirst(rating, '(', tail);
    SplitAbsent(tail, '(');
  }

  /** The cleaned-up count of a `count)` tail is its digits. */
  lemma CleanCount(count: string)
    requires forall j :: 0 <= j < |count| ==> IsDigit(count[j]) || count[j] == ','
    ensures ReplaceAll(ReplaceAll(count + ")", ")", ""), ",", "") == DigitsOf(count)
  {
    assert ')' !in count by {
      assert forall j :: 0 <= j < |count| ==> count[j] != ')';
    }
    DropClosing(count, ')');
    DropCommas(count);
  }

  /** A non-empty run of digits is its own first space-separated word, and
      `int()` reads it. */
  lemma ReadDigits(ds: string)
    requires ds != [] && AllDigits(ds)
    ensures ParseInt(Split(Strip(ds), ' ')[0]) == Some(DecimalValue(ds))
  {
    StripDigits(ds);
    assert IndexOf(ds, ' ') == None by {
      assert forall j :: 0 <= j < |ds| ==> ds[j] != ' ';
    }
    assert Split(ds, ' ') == [ds];
    ParseIntDigits(ds);
  }

  /** A count displayed as `(1,234)` after the rating reads as the number
      its digits denote. */
  lemma ReviewCountOfDisplay(rating: string, count: string, i: nat)
    requires '(' !in rating
    requires forall j :: 0 <= j < |count| ==> IsDigit(count[j]) || count[j] == ','
    requires i < |count| && IsDigit(count[i])
    ensures ReviewCount(rating + "(" + count + ")") == Some(DecimalValue(DigitsOf(count)) as int)
  {
    var tail := count + ")";
    assert '(' !in tail by {
      assert forall j :: 0 <= j < |tail| ==> tail[j] != '(';
    }
    assert rating + "(" + count + ")" == rating + "(" + tail;
    ReviewCountAfterParen(rating, tail);
    CleanCount(count);
    DigitsOfNonEmpty(count, i);
    ReadDigits(DigitsOf(count));
  }
}
