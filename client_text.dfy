/**
 * Two text helpers of the browser client (static/script.js): `escapeHtml`,
 * five global replacements applied in turn, and the day bucketing of
 * `formatDate`. The clock and the date parsing of `formatDate` are a
 * parameter: the difference `now - date` in milliseconds.
 */
module ClientText {
  import opened Wrappers
  import opened Numerals = Text

  // ---------------------------------------------------------------------------
  // escapeHtml

  /** `s.replace(/c/g, rep)` for a one-character pattern. */
  function ReplaceChar(s: string, c: char, rep: string): (r: string)
  {
    if s == [] then []
    else (if s[0] == c then rep else [s[0]]) + ReplaceChar(s[1..], c, rep)
  }

  /** The replacement chain of `escapeHtml`, on any string. */
  function Chain(s: string): string
  {
    ReplaceChar(ReplaceChar(ReplaceChar(ReplaceChar(ReplaceChar(s, '&', "&amp;"), '<', "&lt;"), '>', "&gt;"), '"', "&quot;"), '\'', "&#039;")
  }

  /** `escapeHtml`: the empty string for a falsy argument, else the five replacements, `&` first. */
  function EscapeHtml(text: Option<string>): (r: string)
    ensures text.None? || text.value == "" ==> r == ""
  {
    if text.None? || text.value == "" then "" else Chain(text.value)
  }

  predicate Special(c: char)
  {
    c == '&' || c == '<' || c == '>' || c == '"' || c == '\''
  }

  /** The reference: each character by its entity, every other character as it is. */
  function EscapeChar(c: char): (r: string)
    ensures !Special(c) ==> r == [c]
  {
    match c
    case '&' => "&amp;"
    case '<' => "&lt;"
    case '>' => "&gt;"
    case '"' => "&quot;"
    case '\'' => "&#039;"
    case _ => [c]
  }

  function Escaped(s: string): string
  {
    if s == [] then "" else EscapeChar(s[0]) + Escaped(s[1..])
  }

  lemma {:induction false} ReplaceConcat(a: string, b: string, c: char, rep: string)
    ensures ReplaceChar(a + b, c, rep) == ReplaceChar(a, c, rep) + ReplaceChar(b, c, rep)
  {
    if a == [] {
      assert a + b == b;
    } else {
      var head := if a[0] == c then rep else [a[0]];
      assert (a + b)[0] == a[0];
      assert (a + b)[1..] == a[1..] + b;
      ReplaceConcat(a[1..], b, c, rep);
      calc {
        ReplaceChar(a + b, c, rep);
        head + ReplaceChar(a[1..] + b, c, rep);
        head + (ReplaceChar(a[1..], c, rep) + ReplaceChar(b, c, rep));
        (head + ReplaceChar(a[1..], c, rep)) + ReplaceChar(b, c, rep);
      }
    }
  }

  lemma ReplaceOne(x: char, c: char, rep: string)
    ensures ReplaceChar([x], c, rep) == if x == c then rep else [x]
  {
    assert [x][1..] == [];
  }

  lemma {:induction false} ReplaceAbsent(s: string, c: char, rep: string)
    requires c !in s
    ensures ReplaceChar(s, c, rep) == s
  {
    if s != [] {
      assert s == [s[0]] + s[1..];
      ReplaceAbsent(s[1..], c, rep);
    }
  }

  lemma ChainConcat(a: string, b: string)
    ensures Chain(a + b) == Chain(a) + Chain(b)
  {
    var s1a, s1b := ReplaceChar(a, '&', "&amp;"), ReplaceChar(b, '&', "&amp;");
    ReplaceConcat(a, b, '&', "&amp;");
    var s2a, s2b := ReplaceChar(s1a, '<', "&lt;"), ReplaceChar(s1b, '<', "&lt;");
    ReplaceConcat(s1a, s1b, '<', "&lt;");
    var s3a, s3b := ReplaceChar(s2a, '>', "&gt;"), ReplaceChar(s2b, '>', "&gt;");
    ReplaceConcat(s2a, s2b, '>', "&gt;");
    var s4a, s4b := ReplaceChar(s3a, '"', "&quot;"), ReplaceChar(s3b, '"', "&quot;");
    ReplaceConcat(s3a, s3b, '"', "&quot;");
    ReplaceConcat(s4a, s4b, '\'', "&#039;");
  }

  /** Steps two to five of the chain leave a string without their characters alone. */
  lemma LaterStepsKeep(e: string, from: int)
    requires 2 <= from <= 5
    requires from <= 2 ==> '<' !in e
    requires from <= 3 ==> '>' !in e
    requires from <= 4 ==> '"' !in e
    requires '\'' !in e
    ensures from <= 2 ==> ReplaceChar(e, '<', "&lt;") == e
    ensures from <= 3 ==> ReplaceChar(e, '>', "&gt;") == e
    ensures from <= 4 ==> ReplaceChar(e, '"', "&quot;") == e
    ensures ReplaceChar(e, '\'', "&#039;") == e
  {
    if from <= 2 { ReplaceAbsent(e, '<', "&lt;"); }
    if from <= 3 { ReplaceAbsent(e, '>', "&gt;"); }
    if from <= 4 { ReplaceAbsent(e, '"', "&quot;"); }
    ReplaceAbsent(e, '\'', "&#039;");
  }

  lemma ChainAmp()
    ensures Chain("&") == "&amp;"
  {
    ReplaceOne('&', '&', "&amp;");
    LaterStepsKeep("&amp;", 2);
  }

  lemma ChainLt()
    ensures Chain("<") == "&lt;"
  {
    ReplaceOne('<', '&', "&amp;");
    ReplaceOne('<', '<', "&lt;");
    LaterStepsKeep("&lt;", 3);
  }

  lemma ChainGt()
    ensures Chain(">") == "&gt;"
  {
    ReplaceOne('>', '&', "&amp;");
    ReplaceOne('>', '<', "&lt;");
    ReplaceOne('>', '>', "&gt;");
    LaterStepsKeep("&gt;", 4);
  }

  lemma ChainQuot()
    ensures Chain("\"") == "&quot;"
  {
    ReplaceOne('"', '&', "&amp;");
    ReplaceOne('"', '<', "&lt;");
    ReplaceOne('"', '>', "&gt;");
    ReplaceOne('"', '"', "&quot;");
    LaterStepsKeep("&quot;", 5);
  }

  lemma ChainApos()
    ensures Chain("'") == "&#039;"
  {
    ReplaceOne('\'', '&', "&amp;");
    ReplaceOne('\'', '<', "&lt;");
    ReplaceOne('\'', '>', "&gt;");
    ReplaceOne('\'', '"', "&quot;");
    ReplaceOne('\'', '\'', "&#039;");
  }

  lemma ChainOther(c: char)
    requires !Special(c)
    ensures Chain([c]) == [c]
  {
    ReplaceOne(c, '&', "&amp;");
    ReplaceOne(c, '<', "&lt;");
    ReplaceOne(c, '>', "&gt;");
    ReplaceOne(c, '"', "&quot;");
    ReplaceOne(c, '\'', "&#039;");
  }

  /** A single character goes through the chain to its entity: no later step touches an earlier entity. */
  lemma ChainChar(c: char)
    ensures Chain([c]) == EscapeChar(c)
  {
    match c
    case '&' => ChainAmp();
    case '<' => ChainLt();
    case '>' => ChainGt();
    case '"' => ChainQuot();
    case '\'' => ChainApos();
    case _ => ChainOther(c);
  }

  lemma {:induction false} ChainIsPerChar(s: string)
    ensures Chain(s) == Escaped(s)
  {
    if s != [] {
      assert s == [s[0]] + s[1..];
      ChainConcat([s[0]], s[1..]);
      ChainChar(s[0]);
      ChainIsPerChar(s[1..]);
    }
  }

  /** Because `&` is replaced first, `escapeHtml` is the per-character map. */
  lemma EscapeHtmlPerChar(text: Option<string>)
    ensures EscapeHtml(text) == if text.None? then "" else Escaped(text.value)
  {
    if text.Some? {
      ChainIsPerChar(text.value);
    }
  }

  /** No `<`, `>`, `"` or `'` survives. */
  lemma {:induction false} EscapedIsSafe(s: string)
    ensures forall i :: 0 <= i < |Escaped(s)| ==> Escaped(s)[i] !in "<>\"'"
  {
    if s != [] {
      EscapedIsSafe(s[1..]);
      var e := EscapeChar(s[0]);
      forall i | 0 <= i < |Escaped(s)| ensures Escaped(s)[i] !in "<>\"'" {
        if i >= |e| {
          assert Escaped(s)[i] == Escaped(s[1..])[i - |e|];
        }
      }
    }
  }

  lemma EscapeHtmlIsSafe(text: Option<string>)
    ensures forall c :: c in EscapeHtml(text) ==> c !in "<>\"'"
  {
    EscapeHtmlPerChar(text);
    if text.Some? {
      EscapedIsSafe(text.value);
    }
  }

  /** A string without the five characters is left as it is. */
  lemma {:induction false} EscapedPlain(s: string)
    requires forall i :: 0 <= i < |s| ==> !Special(s[i])
    ensures Escaped(s) == s
  {
    if s != [] {
      EscapedPlain(s[1..]);
    }
  }

  /** Escaping never shortens. */
  lemma {:induction false} EscapedNotShorter(s: string)
    ensures |Escaped(s)| >= |s|
  {
    if s != [] {
      EscapedNotShorter(s[1..]);
    }
  }

  predicate StartsWith(s: string, prefix: string)
  {
    |prefix| <= |s| && s[..|prefix|] == prefix
  }

  /** Reading the five entities back, left to right. */
  function Unescape(s: string): string
  {
    if s == [] then ""
    else if StartsWith(s, "&amp;") then "&" + Unescape(s[5..])
    else if StartsWith(s, "&lt;") then "<" + Unescape(s[4..])
    else if StartsWith(s, "&gt;") then ">" + Unescape(s[4..])
    else if StartsWith(s, "&quot;") then "\"" + Unescape(s[6..])
    else if StartsWith(s, "&#039;") then "'" + Unescape(s[6..])
    else [s[0]] + Unescape(s[1..])
  }

  lemma StartsWithConcat(p: string, rest: string)
    ensures StartsWith(p + rest, p)
    ensures (p + rest)[|p|..] == rest
  {
    assert (p + rest)[..|p|] == p;
  }

  /** A prefix that differs at position `i` is not a prefix. */
  lemma NotStartsWith(s: string, p: string, i: nat)
    requires i < |p| && i < |s| && s[i] != p[i]
    ensures !StartsWith(s, p)
  {
    if |p| <= |s| {
      assert s[..|p|][i] == s[i];
    }
  }

  lemma UnescapeStep(c: char, rest: string)
    ensures Unescape(EscapeChar(c) + rest) == [c] + Unescape(rest)
  {
    var e := EscapeChar(c);
    var s := e + rest;
    StartsWithConcat(e, rest);
    if !Special(c) {
      assert s[0] == c;
      NotStartsWith(s, "&amp;", 0);
      NotStartsWith(s, "&lt;", 0);
      NotStartsWith(s, "&gt;", 0);
      NotStartsWith(s, "&quot;", 0);
      NotStartsWith(s, "&#039;", 0);
      assert s[1..] == rest;
    } else if c == '<' {
      NotStartsWith(s, "&amp;", 1);
    } else if c == '>' {
      NotStartsWith(s, "&amp;", 1);
      NotStartsWith(s, "&lt;", 1);
    } else if c == '"' {
      NotStartsWith(s, "&amp;", 1);
      NotStartsWith(s, "&lt;", 1);
      NotStartsWith(s, "&gt;", 1);
    } else if c == '\'' {
      NotStartsWith(s, "&amp;", 1);
      NotStartsWith(s, "&lt;", 1);
      NotStartsWith(s, "&gt;", 1);
      NotStartsWith(s, "&quot;", 1);
    }
  }

  /** Unescaping recovers the text. */
  lemma {:induction false} UnescapeEscaped(s: string)
    ensures Unescape(Escaped(s)) == s
  {
    if s != [] {
      UnescapeStep(s[0], Escaped(s[1..]));
      UnescapeEscaped(s[1..]);
      assert s == [s[0]] + s[1..];
    }
  }

  // ---------------------------------------------------------------------------
  // formatDate

  const MsPerDay := 1000 * 60 * 60 * 24

  /** What `formatDate` shows: a fixed text, or the locale date (not modelled). */
  datatype DateLabel = Text(text: string) | LocaleDate



  /**
   * `formatDate(dateStr)` when `now - date` is `diffMs`: the day count is
   * the floor of the difference in days.
   */
  function FormatDate(dateStr: Option<string>, diffMs: int): (r: DateLabel)
    ensures (dateStr.None? || dateStr.value == "") ==> r == Text("")
  {
    if dateStr.None? || dateStr.value == "" then Text("")
    else
      var days := diffMs / MsPerDay;
      if days == 0 then Text("Today")
      else if days == 1 then Text("Yesterday")
      else if days < 7 then Text(Show(days) + "d ago")
      else LocaleDate
  }

  /**
   * The buckets by elapsed time: under a day is "Today", the next day
   * "Yesterday", two to six days "<n>d ago", a week or more the locale date;
   * a date in the future counts negative days, shown as "-<n>d ago".
   */
  lemma FormatDateBuckets(dateStr: string, diffMs: int)
    requires dateStr != ""
    ensures 0 <= diffMs < MsPerDay ==> FormatDate(Some(dateStr), diffMs) == Text("Today")
    ensures MsPerDay <= diffMs < 2 * MsPerDay ==> FormatDate(Some(dateStr), diffMs) == Text("Yesterday")
    ensures 2 * MsPerDay <= diffMs < 7 * MsPerDay ==>
      && 2 <= diffMs / MsPerDay < 7
      && (diffMs / MsPerDay) * MsPerDay <= diffMs < (diffMs / MsPerDay + 1) * MsPerDay
      && FormatDate(Some(dateStr), diffMs) == Text(Show(diffMs / MsPerDay) + "d ago")
    ensures 7 * MsPerDay <= diffMs ==> FormatDate(Some(dateStr), diffMs) == LocaleDate
    ensures diffMs < 0 ==> FormatDate(Some(dateStr), diffMs).Text? && FormatDate(Some(dateStr), diffMs).text[0] == '-'
  {
    var days := diffMs / MsPerDay;
    assert days * MsPerDay <= diffMs < (days + 1) * MsPerDay;
    if diffMs < 0 {
      assert days < 0;
    }
  }

  /** The number in "<n>d ago" reads back as the floor of the day difference. */
  lemma AgoNumber(dateStr: string, diffMs: int)
    requires dateStr != ""
    requires FormatDate(Some(dateStr), diffMs).Text?
    requires FormatDate(Some(dateStr), diffMs).text != "Today" && FormatDate(Some(dateStr), diffMs).text != "Yesterday"
    ensures var t := FormatDate(Some(dateStr), diffMs).text;
      && |t| > 5
      && t[|t| - 5..] == "d ago"
      && Parse(t[..|t| - 5]) == diffMs / MsPerDay
      && diffMs / MsPerDay < 7
  {
    var days := diffMs / MsPerDay;
    var t := Show(days) + "d ago";
    assert t[..|t| - 5] == Show(days);
    assert t[|t| - 5..] == "d ago";
    ParseShow(days);
  }
}
