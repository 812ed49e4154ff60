/**
 The display path: the gateway prints a text as JSON, the firmware picks the string out of it with a
 hand-written scanner and splits it into screen lines. A printer and a parser in two languages.
 */
module DisplayPath {
  import opened Basics
  import opened OledFit

  // ---- the gateway: json.dumps({"type": "display", "text": text}, ensure_ascii=False) ----

  function HexDigit(d: nat): char
    requires d < 16
  {
    "0123456789abcdef"[d]
  }

  function EscapeChar(c: char): (unit: string)
    ensures |unit| > 0 && unit[0] != '"'
  {
    if c == '"' then "\\\""
    else if c == '\\' then "\\\\"
    else if c == '\n' then "\\n"
    else if c == '\r' then "\\r"
    else if c == '\t' then "\\t"
    else if c == '\U{0008}' then "\\b"
    else if c == '\U{000C}' then "\\f"
    else if c < ' ' then "\\u00" + [HexDigit(c as int / 16), HexDigit(c as int % 16)]
    else [c]
  }

  function Escape(text: string): string {
    if text == "" then "" else EscapeChar(text[0]) + Escape(text[1..])
  }

  const PREFIX := "{\"type\": \"display\", \"text\": \""
  const TAIL := "\"}"

  function DisplayJson(text: string): string {
    PREFIX + Escape(text) + TAIL
  }

  // ---- the firmware's String operations ----

  predicate At(s: string, pat: string, i: int) {
    0 <= i && i + |pat| <= |s| && s[i..i + |pat|] == pat
  }

  /** s.indexOf(pat, from): the first occurrence, or -1 */
  function IndexOf(s: string, pat: string, from: nat): (pos: int)
    requires from <= |s|
    ensures pos == -1 || (from <= pos <= |s| - |pat| && At(s, pat, pos))
    ensures forall i :: from <= i && (pos == -1 || i < pos) ==> !At(s, pat, i)
    decreases |s| - from
  {
    if At(s, pat, from) then from else if from == |s| then -1 else IndexOf(s, pat, from + 1)
  }

  lemma {:induction false} IndexOfIs(s: string, pat: string, from: nat, pos: nat)
    requires from <= pos && At(s, pat, pos)
    requires forall i :: from <= i < pos ==> !At(s, pat, i)
    ensures IndexOf(s, pat, from) == pos
  {
  }

  /** s.replace(pat, with): leftmost, non-overlapping */
  function Replace(s: string, pat: string, sub: string): string
    requires |pat| > 0
  {
    if |s| < |pat| then s
    else if s[..|pat|] == pat then sub + Replace(s[|pat|..], pat, sub)
    else [s[0]] + Replace(s[1..], pat, sub)
  }

  predicate IsSpace(c: char) {
    c == ' ' || '\t' <= c <= '\r'
  }

  // ---- jsonStringValue ----

  function SkipSpace(s: string, i: nat): (r: nat)
    requires i <= |s|
    ensures i <= r <= |s|
    decreases |s| - i
  {
    if i < |s| && IsSpace(s[i]) then SkipSpace(s, i + 1) else i
  }

  /** The first quote from i on that stands at pos or has no backslash before it; |s| when there is none. */
  function ClosingQuote(s: string, pos: nat, i: nat): (end: nat)
    requires pos <= i <= |s|
    ensures i <= end <= |s|
    decreases |s| - i
  {
    if i < |s| && !Closes(s, pos, i) then ClosingQuote(s, pos, i + 1) else i
  }

  function Unquote(raw: string): string {
    Replace(Replace(raw, "\\\"", "\""), "\\n", "\n")
  }

  function JsonValue(json: string, key: string): Option<string> {
    var token := "\"" + key + "\"";
    var k := IndexOf(json, token, 0);
    if k < 0 then None
    else
      var colon := IndexOf(json, ":", k + |token|);
      if colon < 0 then None
      else
        var open := SkipSpace(json, colon + 1);
        if open >= |json| || json[open] != '"' then None
        else
          var end := ClosingQuote(json, open + 1, open + 1);
          if end >= |json| then None else Some(Unquote(json[open + 1..end]))
  }

  /** The scanner as the firmware runs it. */
  method JsonStringValue(json: string, key: string) returns (found: bool, value: string)
    ensures (if found then Some(value) else None) == JsonValue(json, key)
  {
    hide Replace, IndexOf, At;
    found, value := false, "";
    var token := "\"" + key + "\"";
    var pos := IndexOf(json, token, 0);
    if pos < 0 {
      return;
    }
    pos := IndexOf(json, ":", pos + |token|);
    if pos < 0 {
      return;
    }
    pos := pos + 1;
    ghost var afterColon := pos;
    while pos < |json| && IsSpace(json[pos])
      invariant 0 <= pos <= |json| && SkipSpace(json, pos) == SkipSpace(json, afterColon)
    {
      pos := pos + 1;
    }
    if pos >= |json| || json[pos] != '"' {
      return;
    }
    pos := pos + 1;
    var end := pos;
    while end < |json|
      invariant pos <= end <= |json| && ClosingQuote(json, pos, end) == ClosingQuote(json, pos, pos)
    {
      if json[end] == '"' && (end == pos || json[end - 1] != '\\') {
        break;
      }
      end := end + 1;
    }
    if end >= |json| {
      return;
    }
    value := json[pos..end];
    value := Replace(value, "\\\"", "\"");
    value := Replace(value, "\\n", "\n");
    found := true;
  }

  // ---- printing and scanning agree exactly on clean texts ----

  predicate CleanChar(c: char) {
    c != '\\' && (c == '\n' || c >= ' ')
  }

  predicate Clean(text: string) {
    forall i :: 0 <= i < |text| ==> CleanChar(text[i])
  }

  /** Inside an escaped text a quote always has a backslash before it. */
  ghost predicate QuotesEscaped(e: string) {
    forall i :: 0 <= i < |e| && e[i] == '"' ==> i > 0 && e[i - 1] == '\\'
  }

  lemma {:induction false} EscapedQuotes(text: string)
    ensures QuotesEscaped(Escape(text))
  {
    if text != "" {
      EscapedQuotes(text[1..]);
      QuotesEscapedConcat(EscapeChar(text[0]), Escape(text[1..]));
    }
  }

  lemma {:induction false} QuotesEscapedConcat(a: string, b: string)
    requires QuotesEscaped(a) && QuotesEscaped(b)
    ensures QuotesEscaped(a + b)
  {
    forall i | 0 <= i < |a + b| && (a + b)[i] == '"'
      ensures i > 0 && (a + b)[i - 1] == '\\'
    {
      if i >= |a| {
        assert b[i - |a|] == '"';
      }
    }
  }

  lemma {:induction false} EscapedLast(text: string)
    requires text != ""
    ensures var e := Escape(text); |e| > 0 && (e[|e| - 1] == '\\' <==> text[|text| - 1] == '\\')
  {
    if |text| > 1 {
      EscapedLast(text[1..]);
    } else {
      assert Escape(text) == EscapeChar(text[0]) + Escape("");
    }
  }

  predicate Closes(s: string, pos: nat, j: nat)
    requires pos <= j < |s|
  {
    s[j] == '"' && (j == pos || s[j - 1] != '\\')
  }

  lemma {:induction false} ClosingQuoteFinds(s: string, pos: nat, i: nat, end: nat)
    requires pos <= i <= end <= |s|
    requires forall j :: i <= j < end ==> !Closes(s, pos, j)
    requires end < |s| ==> Closes(s, pos, end)
    ensures ClosingQuote(s, pos, i) == end
    decreases end - i
  {
    if i < end {
      assert !Closes(s, pos, i);
      ClosingQuoteFinds(s, pos, i + 1, end);
    }
  }

  /** Where the parts of a printed message lie. */
  ghost predicate Layout(json: string, e: string) {
    && |PREFIX| == 29 && |json| == 31 + |e|
    && (forall j :: 0 <= j < 29 ==> json[j] == PREFIX[j])
    && (forall j :: 29 <= j < 29 + |e| ==> json[j] == e[j - 29])
    && json[29 + |e|] == '"' && json[30 + |e|] == '}'
  }

  lemma {:induction false} JsonLayout(text: string)
    ensures Layout(DisplayJson(text), Escape(text)) && QuotesEscaped(Escape(text))
  {
    assert |PREFIX| == 29;
    EscapedQuotes(text);
  }

  lemma {:induction false} AtChars(s: string, pat: string, i: nat)
    ensures At(s, pat, i) <==> i + |pat| <= |s| && forall k :: 0 <= k < |pat| ==> s[i + k] == pat[k]
  {
    if i + |pat| <= |s| {
      var here := s[i..i + |pat|];
      assert forall k :: 0 <= k < |pat| ==> here[k] == s[i + k];
    }
  }

  const KEY := "\"" + "text" + "\""

  lemma {:induction false} KeyPosition(json: string, e: string)
    requires Layout(json, e)
    ensures IndexOf(json, KEY, 0) == 20
    ensures IndexOf(json, ":", 26) == 26
    ensures SkipSpace(json, 27) == 28
    ensures json[28] == '"'
  {
    assert KEY == "\"text\"";
    forall i | 0 <= i < 20
      ensures !At(json, KEY, i)
    {
      AtChars(json, KEY, i);
      assert KEY[0] == '"' && KEY[1] == 't' && KEY[2] == 'e';
      assert json[i] == PREFIX[i] && json[i + 1] == PREFIX[i + 1] && json[i + 2] == PREFIX[i + 2];
    }
    assert At(json, KEY, 20) by {
      AtChars(json, KEY, 20);
    }
    IndexOfIs(json, KEY, 0, 20);
    AtChars(json, ":", 26);
    IndexOfIs(json, ":", 26, 26);
  }

  /** Where the scanner stops in a printed message. */
  lemma {:induction false} ClosingOfLayout(json: string, e: string)
    requires Layout(json, e) && QuotesEscaped(e)
    ensures ClosingQuote(json, 29, 29) == if e != "" && e[|e| - 1] == '\\' then |json| else 29 + |e|
  {
    forall j | 29 <= j < 29 + |e|
      ensures !Closes(json, 29, j)
    {
      assert json[j] == e[j - 29];
      if j > 29 {
        assert json[j - 1] == e[j - 30];
      }
    }
    if e != "" {
      assert json[28 + |e|] == e[|e| - 1];
    }
    if e != "" && e[|e| - 1] == '\\' {
      assert !Closes(json, 29, 29 + |e|) && !Closes(json, 29, 30 + |e|);
      ClosingQuoteFinds(json, 29, 29, |json|);
    } else {
      assert Closes(json, 29, 29 + |e|);
      ClosingQuoteFinds(json, 29, 29, 29 + |e|);
    }
  }

  lemma {:induction false} JsonValueParts(json: string, key: string, k: nat, colon: nat, open: nat, end: nat)
    requires k + |key| + 2 <= |json| && IndexOf(json, "\"" + key + "\"", 0) == k
    requires IndexOf(json, ":", k + |key| + 2) == colon && colon < |json|
    requires SkipSpace(json, colon + 1) == open && open < |json| && json[open] == '"'
    requires ClosingQuote(json, open + 1, open + 1) == end
    ensures JsonValue(json, key) == if end >= |json| then None else Some(Unquote(json[open + 1..end]))
  {
    hide IndexOf, SkipSpace, ClosingQuote, Unquote, At;
  }

  /** The scanner finds the text's own closing quote, unless a backslash hides it. */
  lemma {:induction false} ScanLayout(json: string, e: string)
    requires Layout(json, e) && QuotesEscaped(e)
    ensures JsonValue(json, "text") == if e != "" && e[|e| - 1] == '\\' then None else Some(Unquote(e))
  {
    KeyPosition(json, e);
    ClosingOfLayout(json, e);
    JsonValueParts(json, "text", 20, 26, 28, ClosingQuote(json, 29, 29));
    assert json[29..29 + |e|] == e;
  }

  /** What scanning gives back: the text, except that backslashes and control characters stay escaped. */
  function Scanned(text: string): string {
    if text == "" then ""
    else if text[0] == '"' || text[0] == '\n' then [text[0]] + Scanned(text[1..])
    else if text[0] == '\\' && |text| > 1 && text[1] == 'n' then "\\\n" + Scanned(text[2..])
    else EscapeChar(text[0]) + Scanned(text[1..])
  }

  /** The escaped text with its quotes restored: the state between the scanner's two replacements. */
  function HalfScanned(text: string): string {
    if text == "" then ""
    else (if text[0] == '"' then "\"" else EscapeChar(text[0])) + HalfScanned(text[1..])
  }

  lemma {:induction false} ReplaceSkips(prefix: string, rest: string, pat: string, sub: string)
    requires |pat| == 2 && pat[0] == '\\'
    requires forall i :: 0 <= i < |prefix| ==> prefix[i] != '\\'
    ensures Replace(prefix + rest, pat, sub) == prefix + Replace(rest, pat, sub)
  {
    if prefix == "" {
      assert prefix + rest == rest;
    } else {
      ReplaceSkips(prefix[1..], rest, pat, sub);
      assert (prefix + rest)[1..] == prefix[1..] + rest;
      assert prefix == [prefix[0]] + prefix[1..];
    }
  }

  /** A unit of a printed text that a two-character escape does not match, whatever follows it. */
  predicate PassesBy(unit: string, rest: string, pat: string) {
    && |pat| == 2 && pat[0] == '\\' && |unit| > 0
    && (unit[0] == '\\' <==> |unit| > 1) && (|unit| > 1 ==> unit[1] != pat[1])
    && (forall i :: 2 <= i < |unit| ==> unit[i] != '\\')
    && (|unit| > 1 && unit[1] == '\\' ==> |unit| == 2 && (rest == "" || rest[0] != pat[1]))
  }

  lemma {:induction false} ReplaceOne(s: string, pat: string, sub: string)
    requires |pat| == 2 && s != "" && (|s| == 1 || s[0] != pat[0] || s[1] != pat[1])
    ensures Replace(s, pat, sub) == [s[0]] + Replace(s[1..], pat, sub)
  {
    if |s| > 1 {
      assert s[..2][0] == s[0] && s[..2][1] == s[1];
    } else {
      assert s[1..] == "" && s == [s[0]] + "";
    }
  }

  lemma {:induction false} ReplaceUnit(unit: string, rest: string, pat: string, sub: string)
    requires PassesBy(unit, rest, pat)
    ensures Replace(unit + rest, pat, sub) == unit + Replace(rest, pat, sub)
  {
    hide Replace;
    var s := unit + rest;
    ReplaceOne(s, pat, sub);
    if |unit| == 1 {
      assert s[1..] == rest && unit == [s[0]];
    } else {
      assert s[1..] == unit[1..] + rest && unit == [s[0]] + unit[1..];
      if unit[1] == '\\' {
        ReplaceOne(s[1..], pat, sub);
        assert s[1..][1..] == rest && unit[1..] == [s[1..][0]];
      } else {
        ReplaceSkips(unit[1..], rest, pat, sub);
      }
      Associative([s[0]], unit[1..], Replace(rest, pat, sub));
    }
  }

  lemma {:induction false} ReplaceHit(rest: string, pat: string, sub: string)
    requires |pat| == 2
    ensures Replace(pat + rest, pat, sub) == sub + Replace(rest, pat, sub)
  {
    assert (pat + rest)[..2] == pat && (pat + rest)[2..] == rest;
  }

  lemma {:induction false} EscapePassesBy(c: char, rest: string)
    ensures c != '"' && (rest == "" || rest[0] != '"') ==> PassesBy(EscapeChar(c), rest, "\\\"")
    ensures c != '\n' && c != '"' && (c == '\\' && rest != "" ==> rest[0] != 'n') ==> PassesBy(EscapeChar(c), rest, "\\n")
  {
    if c < ' ' {
      assert forall d :: 0 <= d < 16 ==> HexDigit(d) != '\\';
    }
  }

  lemma {:induction false} EscapeStarts(text: string)
    ensures Escape(text) == "" || Escape(text)[0] != '"'
  {
  }

  lemma {:induction false} RestoreQuotes(text: string)
    ensures Replace(Escape(text), "\\\"", "\"") == HalfScanned(text)
  {
    hide Replace, EscapeChar, PassesBy;
    if text != "" {
      RestoreQuotes(text[1..]);
      var rest := Escape(text[1..]);
      EscapeStarts(text[1..]);
      if text[0] == '"' {
        QuoteEscaped();
        ReplaceHit(rest, "\\\"", "\"");
      } else {
        EscapePassesBy(text[0], rest);
        ReplaceUnit(EscapeChar(text[0]), rest, "\\\"", "\"");
      }
    } else {
      NothingToReplace("\\\"", "\"");
    }
  }

  lemma {:induction false} QuoteEscaped()
    ensures EscapeChar('"') == "\\\"" && EscapeChar('\n') == "\\n"
  {
  }

  lemma {:induction false} NothingToReplace(pat: string, sub: string)
    requires |pat| > 0
    ensures Replace("", pat, sub) == ""
  {
  }

  /** A backslash of the text before a letter n: the doubled backslash and the n are read as a newline. */
  lemma {:induction false} BackslashThenN(text: string)
    requires |text| > 1 && text[0] == '\\' && text[1] == 'n'
    ensures Replace(HalfScanned(text), "\\n", "\n") == "\\\n" + Replace(HalfScanned(text[2..]), "\\n", "\n")
  {
    var after := HalfScanned(text[2..]);
    assert text[1..][1..] == text[2..] && text[1..][0] == 'n';
    assert HalfScanned(text[1..]) == "n" + after;
    assert HalfScanned(text) == "\\\\n" + after;
    ReplaceBackslashN(after);
  }

  lemma {:induction false} ReplaceBackslashN(after: string)
    ensures Replace("\\\\n" + after, "\\n", "\n") == "\\\n" + Replace(after, "\\n", "\n")
  {
    var s := "\\\\n" + after;
    assert s[0] == '\\' && s[..2][1] == '\\' && s[1..] == "\\n" + after;
    ReplaceHit(after, "\\n", "\n");
    assert "\\\n" == ['\\'] + "\n";
  }

  lemma {:induction false} RestoreNewlines(text: string)
    ensures Replace(HalfScanned(text), "\\n", "\n") == Scanned(text)
  {
    if text != "" {
      var rest := HalfScanned(text[1..]);
      RestoreNewlines(text[1..]);
      if text[0] == '\n' {
        ReplaceHit(rest, "\\n", "\n");
      } else if text[0] == '"' {
        ReplaceUnit("\"", rest, "\\n", "\n");
      } else if text[0] == '\\' && |text| > 1 && text[1] == 'n' {
        RestoreNewlines(text[2..]);
        BackslashThenN(text);
      } else {
        assert text[0] == '\\' && rest != "" ==> rest[0] != 'n';
        EscapePassesBy(text[0], rest);
        ReplaceUnit(EscapeChar(text[0]), rest, "\\n", "\n");
      }
    }
  }

  lemma {:induction false} ScannedLength(text: string)
    ensures |Scanned(text)| >= |text|
  {
    if text != "" {
      ScannedLength(text[1..]);
      if text[0] == '\\' && |text| > 1 && text[1] == 'n' {
        ScannedLength(text[2..]);
      }
    }
  }

  lemma {:induction false} ScannedIsText(text: string)
    ensures Scanned(text) == text <==> Clean(text)
  {
    if text != "" {
      var c, rest := text[0], text[1..];
      ScannedIsText(rest);
      assert Clean(text) <==> CleanChar(c) && Clean(rest) by {
        assert forall i :: 0 < i < |text| ==> text[i] == rest[i - 1];
        assert forall i :: 0 <= i < |rest| ==> rest[i] == text[i + 1];
      }
      if CleanChar(c) {
        assert Scanned(text) == [c] + Scanned(rest);
        assert text == [c] + rest;
        assert Scanned(text)[1..] == Scanned(rest);
      } else if c == '\\' && |text| > 1 && text[1] == 'n' {
        assert Scanned(text)[1] == '\n';
      } else {
        ScannedLength(rest);
        assert |EscapeChar(c)| > 1;
      }
    }
  }

  lemma {:induction false} Unescape(text: string)
    ensures Unquote(Escape(text)) == Scanned(text)
  {
    RestoreQuotes(text);
    RestoreNewlines(text);
  }

  /** What the scanner makes of any printed text. */
  function ScanResult(text: string): Option<string> {
    if text != "" && text[|text| - 1] == '\\' then None else Some(Scanned(text))
  }

  lemma {:induction false} ScanDisplayJson(text: string, json: string)
    requires json == DisplayJson(text)
    ensures JsonValue(json, "text") == ScanResult(text)
  {
    var e := Escape(text);
    JsonLayout(text);
    ScanLayout(json, e);
    Unescape(text);
    if text != "" {
      EscapedLast(text);
    }
  }

  /** The firmware reads back exactly what the gateway meant iff the text is clean. */
  lemma {:induction false} JsonRoundTrip(text: string)
    ensures JsonValue(DisplayJson(text), "text") == Some(text) <==> Clean(text)
  {
    var json := DisplayJson(text);
    ScanDisplayJson(text, json);
    ScannedIsText(text);
  }

  // ---- routing: which branch of wsEvent a message reaches ----

  datatype Route = ToOta | ToDisplay | ToMicTest | Unrouted

  function RouteOf(msg: string): Route {
    if IndexOf(msg, OTA_WORD, 0) >= 0 then ToOta
    else if IndexOf(msg, "\"display\"", 0) >= 0 then ToDisplay
    else if IndexOf(msg, "\"mic_test\"", 0) >= 0 then ToMicTest
    else Unrouted
  }

  predicate EndsWith(s: string, suffix: string) {
    |s| >= |suffix| && s[|s| - |suffix|..] == suffix
  }

  lemma {:induction false} EscapeSnoc(text: string, c: char)
    ensures Escape(text + [c]) == Escape(text) + EscapeChar(c)
  {
    if text == "" {
      assert text + [c] == [c];
      assert Escape([c]) == EscapeChar(c) + Escape("");
    } else {
      EscapeSnoc(text[1..], c);
      assert (text + [c])[1..] == text[1..] + [c];
      Associative(EscapeChar(text[0]), Escape(text[1..]), EscapeChar(c));
    }
  }

  lemma {:induction false} EndsWithSnoc(s: string, suffix: string, c: char)
    ensures EndsWith(s, suffix + [c]) <==> s != "" && s[|s| - 1] == c && EndsWith(s[..|s| - 1], suffix)
  {
    if s != "" && |s| >= |suffix| + 1 {
      var k := |s| - |suffix| - 1;
      assert s[..|s| - 1][k..] == s[k..][..|suffix|];
      assert s[k..] == s[k..][..|suffix|] + [s[|s| - 1]];
    }
  }

  /** A letter of the suffix at the end of an escaped text is the text's own: no escape sequence fits there. */
  lemma {:induction false} EscapeLast(text: string) returns (unit: string)
    requires text != ""
    ensures Escape(text) == Escape(text[..|text| - 1]) + unit && UnitOf(unit, text[|text| - 1])
  {
    hide Escape, EscapeChar, UnitOf;
    var init, last := text[..|text| - 1], text[|text| - 1];
    EscapeSnoc(init, last);
    assert text == init + [last];
    unit := EscapeChar(last);
    EscapeIsUnit(last);
  }

  lemma {:induction false} EscapeIsUnit(c: char)
    ensures UnitOf(EscapeChar(c), c)
  {
    if c < ' ' {
      assert c as int / 16 == 0 || c as int / 16 == 1;
      assert HexDigit(0) == '0' && HexDigit(1) == '1' && HexDigit(c as int % 16) != '"';
    }
  }

  lemma {:induction false} EscapedEndsWithSnoc(text: string, k: nat)
    requires 1 <= k <= 3 && text != ""
    ensures EndsWith("\"" + Escape(text), "\"ota"[..k + 1]) <==>
            text[|text| - 1] == "\"ota"[k] && EndsWith("\"" + Escape(text[..|text| - 1]), "\"ota"[..k])
  {
    var unit := EscapeLast(text);
    TailUnit(Escape(text), Escape(text[..|text| - 1]), unit, text[|text| - 1], k);
  }

  /** Escape sequences: only the one for a quote ends in a quote, and none can carry the letters of "ota. */
  predicate UnitOf(u: string, c: char) {
    && |u| > 0
    && (u[|u| - 1] == '"' <==> c == '"')
    && (u == [c] || (|u| == 2 && u[0] == '\\') || (|u| == 6 && u[3] == '0' && (u[4] == '0' || u[4] == '1')))
    && (|u| > 1 ==> c != 'o' && c != 't' && c != 'a')
  }

  lemma {:induction false} TailUnit(e: string, init: string, unit: string, last: char, k: nat)
    requires 1 <= k <= 3 && UnitOf(unit, last) && e == init + unit
    ensures EndsWith("\"" + e, "\"ota"[..k + 1]) <==> last == "\"ota"[k] && EndsWith("\"" + init, "\"ota"[..k])
  {
    var s, suffix, c := "\"" + e, "\"ota"[..k], "\"ota"[k];
    assert "\"ota"[..k + 1] == suffix + [c];
    assert s == ("\"" + init) + unit;
    if |unit| == 1 {
      EndsWithSnoc(s, suffix, c);
      assert s[..|s| - 1] == "\"" + init;
    } else {
      LongUnit("\"" + init, unit, k);
    }
  }

  lemma {:induction false} LongUnit(before: string, unit: string, k: nat)
    requires 1 <= k <= 3 && before != ""
    requires (|unit| == 2 && unit[0] == '\\') || (|unit| == 6 && unit[3] == '0' && (unit[4] == '0' || unit[4] == '1'))
    ensures !EndsWith(before + unit, "\"ota"[..k + 1])
  {
    var s, suffix := before + unit, "\"ota"[..k + 1];
    assert suffix[k - 1] == "\"ota"[k - 1];
    if |s| >= k + 1 {
      assert s[|s| - k - 1..][k - 1] == s[|s| - 2] == unit[|unit| - 2];
    }
  }

  lemma {:induction false} EscapedEndsWithQuote(text: string)
    ensures EndsWith("\"" + Escape(text), "\"") <==> EndsWith("\"" + text, "\"")
  {
    hide EndsWith, EscapeChar;
    if text != "" {
      var init, last := text[..|text| - 1], text[|text| - 1];
      var unit := EscapeLast(text);
      LastQuote(Escape(init), unit);
      LastQuote(init, [last]);
      assert text == init + [last];
    }
  }

  lemma {:induction false} LastQuote(before: string, unit: string)
    requires unit != ""
    ensures EndsWith("\"" + (before + unit), "\"") <==> unit[|unit| - 1] == '"'
  {
    var s := "\"" + (before + unit);
    assert s[|s| - 1..] == [unit[|unit| - 1]];
  }

  lemma {:induction false} EscapedSuffix(text: string, k: nat)
    requires k <= 3
    ensures EndsWith("\"" + Escape(text), "\"ota"[..k + 1]) <==> EndsWith("\"" + text, "\"ota"[..k + 1])
    decreases k
  {
    if k == 0 {
      EscapedEndsWithQuote(text);
    } else {
      var w := "\"" + text;
      assert "\"ota"[..k + 1] == "\"ota"[..k] + ["\"ota"[k]];
      EndsWithSnoc(w, "\"ota"[..k], "\"ota"[k]);
      if text != "" {
        EscapedEndsWithSnoc(text, k);
        EscapedSuffix(text[..|text| - 1], k - 1);
        assert w[..|w| - 1] == "\"" + text[..|text| - 1];
      } else {
        assert "\"" + Escape(text) == w;
      }
    }
  }

  const OTA_WORD := "\"ota\""

  /** A quote right after a letter a can only be the closing one. */
  lemma {:induction false} OtaOccurrence(json: string, e: string, i: nat)
    requires Layout(json, e) && QuotesEscaped(e) && At(json, OTA_WORD, i)
    ensures i == 25 + |e|
  {
    forall j | 0 < j < |json| && j != 29 + |e|
      ensures json[j] == '"' ==> json[j - 1] != 'a'
    {
      if 29 <= j < 29 + |e| && e[j - 29] == '"' {
        assert json[j - 1] == e[j - 30];
      }
    }
    AtChars(json, OTA_WORD, i);
    assert OTA_WORD[4] == '"' && OTA_WORD[3] == 'a';
    assert json[i + 4] == '"' && json[i + 3] == 'a';
  }

  lemma {:induction false} EndsWithChars(s: string)
    requires |s| >= 4
    ensures EndsWith(s, "\"ota") <==>
            s[|s| - 4] == '"' && s[|s| - 3] == 'o' && s[|s| - 2] == 't' && s[|s| - 1] == 'a'
  {
    var tail := s[|s| - 4..];
    assert tail == [s[|s| - 4], s[|s| - 3], s[|s| - 2], s[|s| - 1]];
  }

  lemma {:induction false} OtaChars(s: string, i: nat)
    requires i + 5 <= |s|
    ensures At(s, OTA_WORD, i) <==> s[i] == '"' && s[i + 1] == 'o' && s[i + 2] == 't' && s[i + 3] == 'a' && s[i + 4] == '"'
  {
    var here := s[i..i + 5];
    assert here == [s[i], s[i + 1], s[i + 2], s[i + 3], s[i + 4]];
    assert OTA_WORD == ['"', 'o', 't', 'a', '"'];
  }

  /** The last characters of the text with its opening quote, in the message. */
  lemma {:induction false} QuotedEnd(json: string, e: string)
    requires Layout(json, e) && |e| >= 3
    ensures var quoted, n := "\"" + e, |e|;
            quoted[n - 3] == json[25 + n] && quoted[n - 2] == json[26 + n] && quoted[n - 1] == json[27 + n]
            && quoted[n] == json[28 + n] && json[29 + n] == '"'
  {
    assert json[28] == PREFIX[28];
  }

  lemma {:induction false} OtaAtEnd(json: string, e: string)
    requires Layout(json, e) && |e| >= 3
    ensures EndsWith("\"" + e, "\"ota") <==> At(json, OTA_WORD, 25 + |e|)
  {
    QuotedEnd(json, e);
    hide Layout, EndsWith, At;
    EndsWithChars("\"" + e);
    OtaChars(json, 25 + |e|);
  }

  lemma {:induction false} TooShortForOta(json: string, e: string)
    requires Layout(json, e) && |e| < 3
    ensures !EndsWith("\"" + e, "\"ota") && !At(json, OTA_WORD, 25 + |e|)
  {
    AtChars(json, OTA_WORD, 25 + |e|);
    assert OTA_WORD[1] == 'o' && json[26 + |e|] == PREFIX[26 + |e|];
  }

  lemma {:induction false} OtaIffQuoted(json: string, e: string)
    requires Layout(json, e) && QuotesEscaped(e)
    ensures IndexOf(json, OTA_WORD, 0) >= 0 <==> EndsWith("\"" + e, "\"ota")
  {
    if |e| >= 3 {
      OtaAtEnd(json, e);
    } else {
      TooShortForOta(json, e);
    }
    var pos := IndexOf(json, OTA_WORD, 0);
    hide EndsWith, At, IndexOf;
    if pos >= 0 {
      OtaOccurrence(json, e, pos);
    }
  }

  lemma {:induction false} DisplayAt(json: string, e: string)
    requires Layout(json, e)
    ensures At(json, "\"display\"", 9)
  {
    AtChars(json, "\"display\"", 9);
  }

  /** A display message reaches the display branch unless its text is ota or ends in "ota. */
  lemma {:induction false} Routing(text: string)
    ensures RouteOf(DisplayJson(text)) == (if EndsWith("\"" + text, "\"ota") then ToOta else ToDisplay)
  {
    var json := DisplayJson(text);
    hide DisplayJson, QuotesEscaped, EndsWith, Escape, IndexOf, Layout;
    JsonLayout(text);
    DisplayAt(json, Escape(text));
    OtaIffQuoted(json, Escape(text));
    EscapedSuffix(text, 3);
    assert "\"ota"[..4] == "\"ota";
  }

  // ---- drawing ----

  function TrimLeft(s: string): string {
    if s != "" && IsSpace(s[0]) then TrimLeft(s[1..]) else s
  }

  function TrimRight(s: string): string {
    if s != "" && IsSpace(s[|s| - 1]) then TrimRight(s[..|s| - 1]) else s
  }

  function Trim(s: string): string {
    TrimRight(TrimLeft(s))
  }

  function Kept(line: string): seq<string> {
    if Trim(line) == "" then [] else [Trim(line)]
  }

  function NonBlank(lines: seq<string>): seq<string> {
    if lines == [] then [] else Kept(lines[0]) + NonBlank(lines[1..])
  }

  const SCREEN_LINES := 4

  /** A line drawn at a height of the screen. */
  datatype Drawn = Drawn(y: int, line: string)

  function Placed(lines: seq<string>): seq<Drawn> {
    seq(|lines|, i requires 0 <= i < |lines| => Drawn(14 + 12 * i, lines[i]))
  }

  function Top(lines: seq<string>): seq<string> {
    lines[..Min(SCREEN_LINES, |lines|)]
  }

  /** What is left to draw from a position of the text. */
  function Remaining(text: string, start: nat): seq<string>
    requires start <= |text|
  {
    NonBlank(Split(text[start..]))
  }

  /** Up to a position of the text the first lines have been drawn, and the others are still there. */
  ghost predicate DrawnUpTo(text: string, start: nat, drawn: seq<Drawn>) {
    var all := NonBlank(Split(text));
    && start <= |text| && |drawn| <= |all| && drawn == Placed(all[..|drawn|])
    && all[|drawn|..] == Remaining(text, start)
  }

  /** The display branch: split at newlines, trim, skip blanks, draw at most four lines. */
  method DrawText(text: string) returns (drawn: seq<Drawn>)
    ensures drawn == Placed(Top(NonBlank(Split(text))))
  {
    hide DrawnUpTo, Trim, IndexOf, Top, NonBlank, Split, Placed;
    drawn := [];
    var y, start, lines := 14, 0, 0;
    NothingDrawn(text);
    while start < |text| && lines < SCREEN_LINES
      invariant 0 <= start <= |text| && lines == |drawn| <= SCREEN_LINES && y == 14 + 12 * lines
      invariant DrawnUpTo(text, start, drawn)
      decreases |text| - start
    {
      var nl := IndexOf(text, "\n", start);
      var line := if nl >= 0 then text[start..nl] else text[start..];
      LineDrawn(text, start, drawn);
      line := Trim(line);
      if |line| > 0 {
        drawn := drawn + [Drawn(y, line)];
        y := y + 12;
        lines := lines + 1;
      }
      start := if nl < 0 then |text| else nl + 1;
    }
    AllDrawn(text, start, drawn);
  }

  lemma {:induction false} NothingDrawn(text: string)
    ensures DrawnUpTo(text, 0, [])
  {
    assert text[0..] == text;
    hide Split, NonBlank;
  }

  lemma {:induction false} LineDrawn(text: string, start: nat, drawn: seq<Drawn>)
    requires DrawnUpTo(text, start, drawn)
    ensures var line := Trim(LineAt(text, start));
            DrawnUpTo(text, AfterLine(text, start),
                      if line == "" then drawn else drawn + [Drawn(14 + 12 * |drawn|, line)])
  {
    hide Remaining, Trim, NonBlank, Split, IndexOf, Placed, LineAt, AfterLine;
    var all, line := NonBlank(Split(text)), Trim(LineAt(text, start));
    NextLine(text, start);
    if line != "" {
      TakeOne(all, |drawn|, line, Remaining(text, AfterLine(text, start)));
      PlacedSnoc(all[..|drawn|], line);
    }
  }

  lemma {:induction false} AllDrawn(text: string, start: nat, drawn: seq<Drawn>)
    requires DrawnUpTo(text, start, drawn) && (start == |text| || |drawn| == SCREEN_LINES) && |drawn| <= SCREEN_LINES
    ensures drawn == Placed(Top(NonBlank(Split(text))))
  {
    NothingRemains(text);
    hide Remaining, NonBlank, Split, Placed;
    var all := NonBlank(Split(text));
    assert start == |text| ==> all[|drawn|..] == [];
    assert Top(all) == all[..|drawn|];
  }

  lemma {:induction false} TakeOne(all: seq<string>, k: nat, line: string, rest: seq<string>)
    requires k <= |all| && all[k..] == [line] + rest
    ensures k < |all| && all[..k + 1] == all[..k] + [line] && all[k + 1..] == rest
  {
    assert all[k] == all[k..][0];
    assert all[k + 1..] == all[k..][1..];
  }

  lemma {:induction false} PlacedSnoc(lines: seq<string>, line: string)
    ensures Placed(lines + [line]) == Placed(lines) + [Drawn(14 + 12 * |lines|, line)]
  {
  }

  lemma {:induction false} NothingRemains(text: string)
    ensures Remaining(text, |text|) == []
  {
    assert text[|text|..] == "" && NonBlank([""]) == [] + NonBlank([]);
  }

  /** The line that starts at a position of the text. */
  function LineAt(text: string, start: nat): string
    requires start <= |text|
  {
    var nl := IndexOf(text, "\n", start);
    if nl >= 0 then text[start..nl] else text[start..]
  }

  function AfterLine(text: string, start: nat): (next: nat)
    requires start <= |text|
    ensures start <= next <= |text| && (start < |text| ==> start < next)
  {
    var nl := IndexOf(text, "\n", start);
    if nl >= 0 then nl + 1 else |text|
  }

  lemma {:induction false} LineHasNoNewline(text: string, start: nat)
    requires start <= |text|
    ensures NoNewline(LineAt(text, start))
  {
    var nl, line := IndexOf(text, "\n", start), LineAt(text, start);
    forall i | 0 <= i < |line|
      ensures line[i] != '\n'
    {
      assert !At(text, "\n", start + i);
      assert text[start + i..start + i + 1] == [line[i]];
    }
  }

  lemma {:induction false} RestOfText(text: string, start: nat)
    requires start <= |text|
    ensures var nl, rest := IndexOf(text, "\n", start), text[start..];
            rest == if nl >= 0 then LineAt(text, start) + "\n" + text[nl + 1..] else LineAt(text, start)
  {
    var nl := IndexOf(text, "\n", start);
    if nl >= 0 {
      var rest, line := text[start..], text[start..nl];
      assert text[nl..nl + 1] == "\n";
      assert rest == line + text[nl..];
      assert text[nl..] == text[nl..nl + 1] + text[nl + 1..];
    }
  }

  lemma {:induction false} NonBlankFirst(line: string, tail: string)
    requires NoNewline(line)
    ensures NonBlank(Split(line)) == Kept(line)
    ensures NonBlank(Split(line + "\n" + tail)) == Kept(line) + NonBlank(Split(tail))
  {
    SplitLine(line, tail);
    hide Split, Kept;
    assert NonBlank([line]) == Kept(line) + NonBlank([]);
    assert ([line] + Split(tail))[1..] == Split(tail);
  }

  lemma {:induction false} NextLine(text: string, start: nat)
    requires start <= |text|
    ensures Remaining(text, start) == Kept(LineAt(text, start)) + Remaining(text, AfterLine(text, start))
  {
    LineHasNoNewline(text, start);
    RestOfText(text, start);
    NothingRemains(text);
    hide Split, NonBlank, Kept, NoNewline;
    var nl := IndexOf(text, "\n", start);
    if nl >= 0 {
      NonBlankFirst(LineAt(text, start), text[nl + 1..]);
    } else {
      NonBlankFirst(LineAt(text, start), "");
    }
  }

  // ---- end to end ----

  lemma {:induction false} CleanJoin(lines: seq<string>)
    ensures Clean(Join(lines)) <==> forall i :: 0 <= i < |lines| ==> Clean(lines[i])
  {
    if |lines| > 1 {
      CleanJoin(lines[1..]);
      var a, b := lines[0], Join(lines[1..]);
      var j := a + "\n" + b;
      assert forall i :: 0 <= i < |a| ==> a[i] == j[i];
      assert forall i :: 0 <= i < |b| ==> b[i] == j[|a| + 1 + i];
      assert forall i :: 0 <= i < |lines[1..]| ==> lines[1..][i] == lines[i + 1];
      assert forall i :: 0 < i < |lines| ==> lines[i] == lines[1..][i - 1];
    }
  }

  lemma {:induction false} CleanRows(lines: seq<string>, width: nat)
    requires width > 0 && forall i :: 0 <= i < |lines| ==> Clean(lines[i])
    ensures forall i :: 0 <= i < |Rows(lines, width)| ==> Clean(Rows(lines, width)[i])
  {
    if lines != [] {
      CleanRows(lines[..|lines| - 1], width);
      CleanWrap(lines[|lines| - 1], width);
    }
  }

  lemma {:induction false} CleanWrap(line: string, width: nat)
    requires width > 0 && Clean(line)
    ensures forall i :: 0 <= i < |Wrap(line, width)| ==> Clean(Wrap(line, width)[i])
  {
    if |line| > width {
      CleanWrap(line[width..], width);
    }
  }

  /** Fitting a clean text gives a clean text. */
  lemma {:induction false} CleanFit(text: string, height: nat, width: nat)
    requires height > 0 && width > 0 && Clean(text)
    ensures Clean(Fit(text, height, width))
  {
    JoinSplit(text);
    CleanJoin(Split(text));
    CleanRows(Split(text), width);
    CleanJoin(FitRows(text, height, width));
  }

  /** What the device shows when a message arrives: nothing unless it reaches the display branch. */
  function ScreenFor(msg: string): seq<string> {
    if RouteOf(msg) != ToDisplay then []
    else match JsonValue(msg, "text") case None => [] case Some(text) => Top(NonBlank(Split(text)))
  }

  /** A clean printed text, once routed to the display branch, is drawn line by line. */
  lemma {:induction false} CleanTextReachesScreen(text: string)
    requires Clean(text) && !EndsWith("\"" + text, "\"ota")
    ensures ScreenFor(DisplayJson(text)) == Top(NonBlank(Split(text)))
  {
    Routing(text);
    JsonRoundTrip(text);
  }

  /**
   From the agent's reply to the screen: a clean reply, fitted to at most four rows, printed, routed and
   scanned, is drawn as exactly the non-blank trimmed rows of the fitted text.
   */
  lemma {:induction false} ReplyReachesScreen(reply: string, height: nat, width: nat)
    requires 0 < height <= SCREEN_LINES && width > 0 && Clean(reply)
    requires !EndsWith("\"" + Fit(reply, height, width), "\"ota")
    ensures ScreenFor(DisplayJson(Fit(reply, height, width))) == NonBlank(FitRows(reply, height, width))
  {
    hide ScreenFor, FitRows, EndsWith, Clean, NonBlank, Rows, Split;
    CleanFit(reply, height, width);
    CleanTextReachesScreen(Fit(reply, height, width));
    FitShows(reply, height, width);
    NonBlankShrinks(FitRows(reply, height, width));
  }

  lemma {:induction false} NonBlankShrinks(lines: seq<string>)
    ensures |NonBlank(lines)| <= |lines|
  {
    if lines != [] {
      NonBlankShrinks(lines[1..]);
    }
  }

  // ---- the parts, each against a description of its own ----

  function HexValue(c: char): Option<nat> {
    if '0' <= c <= '9' then Some(c as int - '0' as int)
    else if 'a' <= c <= 'f' then Some(c as int - 'a' as int + 10)
    else if 'A' <= c <= 'F' then Some(c as int - 'A' as int + 10)
    else None
  }

  /** A JSON string without its quotes, read by section 7 of RFC 8259; four-digit escapes from D800 on are left out. */
  function ReadJson(s: string): Option<string> {
    if s == "" then Some("")
    else if s[0] == '"' || s[0] < ' ' then None
    else if s[0] != '\\' then Put(s[0], ReadJson(s[1..]))
    else if |s| < 2 then None
    else match s[1]
      case '"' => Put('"', ReadJson(s[2..]))
      case '\\' => Put('\\', ReadJson(s[2..]))
      case '/' => Put('/', ReadJson(s[2..]))
      case 'b' => Put('\U{0008}', ReadJson(s[2..]))
      case 'f' => Put('\U{000C}', ReadJson(s[2..]))
      case 'n' => Put('\n', ReadJson(s[2..]))
      case 'r' => Put('\r', ReadJson(s[2..]))
      case 't' => Put('\t', ReadJson(s[2..]))
      case 'u' =>
        if |s| < 6 then None
        else
          var a, b, c, d := HexValue(s[2]), HexValue(s[3]), HexValue(s[4]), HexValue(s[5]);
          if a.None? || b.None? || c.None? || d.None? then None
          else
            var v := 4096 * a.value + 256 * b.value + 16 * c.value + d.value;
            if v < 0xD800 then Put(v as char, ReadJson(s[6..])) else None
      case _ => None
  }

  function Put(c: char, rest: Option<string>): Option<string> {
    if rest.None? then None else Some([c] + rest.value)
  }

  lemma {:induction false} HexRoundTrip(d: nat)
    requires d < 16
    ensures HexValue(HexDigit(d)) == Some(d)
  {
  }

  lemma {:induction false} ReadUnit(c: char, rest: string)
    ensures ReadJson(EscapeChar(c) + rest) == Put(c, ReadJson(rest))
  {
    var s, unit := EscapeChar(c) + rest, EscapeChar(c);
    if |unit| == 6 {
      var n := c as int;
      HexRoundTrip(n / 16);
      HexRoundTrip(n % 16);
      assert s[2] == '0' && s[3] == '0' && s[4] == HexDigit(n / 16) && s[5] == HexDigit(n % 16);
      assert s[6..] == rest && n == 16 * (n / 16) + n % 16;
    } else if |unit| == 2 {
      assert s[0] == unit[0] && s[1] == unit[1] && s[2..] == rest;
    } else {
      assert s[1..] == rest;
    }
  }

  /** The gateway prints standard JSON: for every text, what it prints reads as the text. */
  lemma {:induction false} PrintsStandardJson(text: string)
    ensures ReadJson(Escape(text)) == Some(text)
  {
    if text != "" {
      PrintsStandardJson(text[1..]);
      ReadUnit(text[0], Escape(text[1..]));
      assert [text[0]] + text[1..] == text;
    }
  }

  ghost predicate NoneCloses(s: string, pos: nat, end: nat)
    requires end <= |s|
  {
    forall j :: pos <= j < end ==> !Closes(s, pos, j)
  }

  /**
   Where the value of a key is: after the key's first place, the next colon, spaces only, up to the closing
   quote.
   */
  ghost predicate ValueAt(json: string, key: string, k: nat, colon: nat, open: nat, end: nat) {
    var token := "\"" + key + "\"";
    && At(json, token, k) && (forall i :: 0 <= i < k ==> !At(json, token, i))
    && k + |token| <= colon && At(json, ":", colon) && (forall i :: k + |token| <= i < colon ==> !At(json, ":", i))
    && colon < open < end < |json| && json[open] == '"' && (forall i :: colon < i < open ==> IsSpace(json[i]))
    && Closes(json, open + 1, end) && NoneCloses(json, open + 1, end)
  }

  lemma {:induction false} SkipSpaceIs(s: string, i: nat, r: nat)
    requires i <= r < |s| && !IsSpace(s[r]) && forall j :: i <= j < r ==> IsSpace(s[j])
    ensures SkipSpace(s, i) == r
    decreases r - i
  {
    if i < r {
      SkipSpaceIs(s, i + 1, r);
    }
  }

  lemma {:induction false} SkipSpaceStops(s: string, i: nat)
    requires i <= |s|
    ensures var r := SkipSpace(s, i); (r < |s| ==> !IsSpace(s[r])) && forall j :: i <= j < r ==> IsSpace(s[j])
    decreases |s| - i
  {
    if i < |s| && IsSpace(s[i]) {
      SkipSpaceStops(s, i + 1);
    }
  }

  lemma {:induction false} ClosingQuoteStops(s: string, pos: nat, i: nat)
    requires pos <= i <= |s|
    ensures var r := ClosingQuote(s, pos, i);
            (r < |s| ==> Closes(s, pos, r)) && forall j :: i <= j < r ==> !Closes(s, pos, j)
    decreases |s| - i
  {
    if i < |s| && !Closes(s, pos, i) {
      ClosingQuoteStops(s, pos, i + 1);
    }
  }

  lemma {:induction false} ScanFinds(json: string, key: string, k: nat, colon: nat, open: nat, end: nat)
    requires ValueAt(json, key, k, colon, open, end)
    ensures JsonValue(json, key) == Some(Unquote(json[open + 1..end]))
  {
    var token := "\"" + key + "\"";
    IndexOfIs(json, token, 0, k);
    IndexOfIs(json, ":", k + |token|, colon);
    SkipSpaceIs(json, colon + 1, open);
    ClosingQuoteFinds(json, open + 1, open + 1, end);
    hide IndexOf, SkipSpace, ClosingQuote, Unquote, At, Closes;
    JsonValueParts(json, key, k, colon, open, end);
  }

  lemma {:induction false} ScanFound(json: string, key: string) returns (k: nat, colon: nat, open: nat, end: nat)
    requires JsonValue(json, key).Some?
    ensures ValueAt(json, key, k, colon, open, end)
  {
    hide IndexOf, SkipSpace, ClosingQuote, Unquote, Closes, IsSpace;
    var token := "\"" + key + "\"";
    k := IndexOf(json, token, 0);
    colon := IndexOf(json, ":", k + |token|);
    open := SkipSpace(json, colon + 1);
    end := ClosingQuote(json, open + 1, open + 1);
    SkipSpaceStops(json, colon + 1);
    ClosingQuoteStops(json, open + 1, open + 1);
  }

  /**
   On any message the scanner finds a value exactly if there is one in place, and gives it with two escapes
   undone.
   */
  lemma {:induction false} ScanIff(json: string, key: string, value: string)
    ensures JsonValue(json, key) == Some(value)
            <==> exists k: nat, colon: nat, open: nat, end: nat ::
                   ValueAt(json, key, k, colon, open, end) && value == Unquote(json[open + 1..end])
  {
    hide JsonValue, ValueAt, Unquote;
    if JsonValue(json, key).Some? {
      var k, colon, open, end := ScanFound(json, key);
      ScanFinds(json, key, k, colon, open, end);
      InPlace(json, key, k, colon, open, end);
    }
    forall k: nat, colon: nat, open: nat, end: nat | ValueAt(json, key, k, colon, open, end)
      ensures open < end < |json| && JsonValue(json, key) == Some(Unquote(json[open + 1..end]))
    {
      InPlace(json, key, k, colon, open, end);
      ScanFinds(json, key, k, colon, open, end);
    }
  }

  lemma {:induction false} InPlace(json: string, key: string, k: nat, colon: nat, open: nat, end: nat)
    requires ValueAt(json, key, k, colon, open, end)
    ensures open < end < |json|
  {
  }

  ghost predicate Contains(msg: string, pat: string) {
    exists i :: At(msg, pat, i)
  }

  lemma {:induction false} IndexOfContains(msg: string, pat: string)
    ensures IndexOf(msg, pat, 0) >= 0 <==> Contains(msg, pat)
  {
  }

  /**
   Any message: OTA if it has "ota" anywhere, else display if it has "display", else the test if it has
   "mic_test".
   */
  lemma {:induction false} RouteIff(msg: string)
    ensures RouteOf(msg) == ToOta <==> Contains(msg, "\"ota\"")
    ensures RouteOf(msg) == ToDisplay <==> !Contains(msg, "\"ota\"") && Contains(msg, "\"display\"")
    ensures RouteOf(msg) == ToMicTest <==>
            !Contains(msg, "\"ota\"") && !Contains(msg, "\"display\"") && Contains(msg, "\"mic_test\"")
  {
    IndexOfContains(msg, "\"ota\"");
    IndexOfContains(msg, "\"display\"");
    IndexOfContains(msg, "\"mic_test\"");
    hide IndexOf, Contains, At;
  }

  predicate AllSpace(s: string) {
    forall i :: 0 <= i < |s| ==> s[i] in " \t\n\U{000B}\U{000C}\r"
  }

  /** Trimming takes the white space off both ends, and nothing else. */
  lemma {:induction false} TrimIs(s: string) returns (a: string, b: string)
    ensures s == a + Trim(s) + b && AllSpace(a) && AllSpace(b)
    ensures var t := Trim(s); t != "" ==> !AllSpace(t[..1]) && !AllSpace(t[|t| - 1..])
  {
    a := TrimLeftIs(s);
    var m := TrimLeft(s);
    b := TrimRightIs(m);
    Associative(a, Trim(s), b);
    hide TrimLeft, TrimRight;
  }

  lemma {:induction false} SpaceIs(c: char)
    ensures IsSpace(c) <==> AllSpace([c])
  {
    assert [c][0] == c;
  }

  lemma {:induction false} TrimLeftIs(s: string) returns (a: string)
    ensures s == a + TrimLeft(s) && AllSpace(a) && (TrimLeft(s) != "" ==> !AllSpace(TrimLeft(s)[..1]))
  {
    if s != "" && IsSpace(s[0]) {
      var rest := TrimLeftIs(s[1..]);
      SpaceIs(s[0]);
      a := [s[0]] + rest;
      assert s == [s[0]] + s[1..];
      Associative([s[0]], rest, TrimLeft(s[1..]));
    } else {
      a := "";
      if s != "" {
        SpaceIs(s[0]);
        assert s[..1] == [s[0]];
      }
    }
  }

  lemma {:induction false} TrimRightIs(s: string) returns (b: string)
    ensures s == TrimRight(s) + b && AllSpace(b)
    ensures var t := TrimRight(s); t != "" ==> !AllSpace(t[|t| - 1..]) && t[..1] == s[..1]
  {
    hide IsSpace;
    if s != "" && IsSpace(s[|s| - 1]) {
      var init, last := s[..|s| - 1], s[|s| - 1];
      var rest := TrimRightIs(init);
      SpaceIs(last);
      b := rest + [last];
      assert s == init + [last];
      Associative(TrimRight(init), rest, [last]);
    } else {
      b := "";
      if s != "" {
        SpaceIs(s[|s| - 1]);
        assert s[|s| - 1..] == [s[|s| - 1]];
      }
    }
  }

  /** The non-blank lines of a concatenation, and of one line. */
  lemma {:induction false} NonBlankIs(a: seq<string>, b: seq<string>, line: string)
    ensures NonBlank(a + b) == NonBlank(a) + NonBlank(b)
    ensures NonBlank([line]) == if Trim(line) == "" then [] else [Trim(line)]
  {
    assert [line][1..] == [] && NonBlank([]) == [];
    if a == [] {
      assert a + b == b;
    } else {
      NonBlankIs(a[1..], b, line);
      assert (a + b)[1..] == a[1..] + b;
      Associative(Kept(a[0]), NonBlank(a[1..]), NonBlank(b));
    }
  }

  /** Where lines are drawn: at most four, at heights 14, 26, 38 and 50. */
  lemma {:induction false} DrawnAt(lines: seq<string>, i: nat)
    ensures |Placed(Top(lines))| == Min(4, |lines|)
    ensures i < Min(4, |lines|) ==> Placed(Top(lines))[i] == Drawn([14, 26, 38, 50][i], lines[i])
  {
  }
}
