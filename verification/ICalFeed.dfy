/**
  internal/api/handlers.go: the text escaping and the rendering of the iCal
  feed, read back by an independent parser of the content lines and components
  of RFC 5545 (sections 3.1, 3.3.11, 3.4 and 3.6.1).
 */
module ICalFeed {
  import opened Common
  import opened Strings

  const CRLF: string := "\r\n"

  // ---------- escapeICalText ----------

  function EscapeICalText(text: string): string {
    var t0 := ReplaceAll(text, '\\', "\\\\");
    var t1 := ReplaceAll(t0, ';', "\\;");
    var t2 := ReplaceAll(t1, ',', "\\,");
    var t3 := ReplaceAll(t2, '\n', "\\n");
    ReplaceAll(t3, '\r', "")
  }

  /** What the chain does to one character. */
  function Escaped(c: char): string {
    if c == '\\' then "\\\\" else if c == ';' then "\\;" else if c == ',' then "\\,"
    else if c == '\n' then "\\n" else if c == '\r' then "" else [c]
  }

  /** The TEXT value grammar of section 3.3.11: every special character is escaped. */
  predicate IsText(s: string) {
    if s == "" then true
    else if s[0] == '\\' then |s| >= 2 && s[1] in "\\;,n" && IsText(s[2..])
    else s[0] !in "\\;,\n\r" && IsText(s[1..])
  }

  /** Reading a TEXT value. */
  function Unescape(s: string): string {
    if s == "" then ""
    else if s[0] == '\\' && |s| >= 2 then [if s[1] == 'n' then '\n' else s[1]] + Unescape(s[2..])
    else [s[0]] + Unescape(s[1..])
  }

  lemma EscapeConcat(a: string, b: string)
    ensures EscapeICalText(a + b) == EscapeICalText(a) + EscapeICalText(b)
  {
    ReplaceAllConcat(a, b, '\\', "\\\\");
    var a0, b0 := ReplaceAll(a, '\\', "\\\\"), ReplaceAll(b, '\\', "\\\\");
    ReplaceAllConcat(a0, b0, ';', "\\;");
    var a1, b1 := ReplaceAll(a0, ';', "\\;"), ReplaceAll(b0, ';', "\\;");
    ReplaceAllConcat(a1, b1, ',', "\\,");
    var a2, b2 := ReplaceAll(a1, ',', "\\,"), ReplaceAll(b1, ',', "\\,");
    ReplaceAllConcat(a2, b2, '\n', "\\n");
    ReplaceAllConcat(ReplaceAll(a2, '\n', "\\n"), ReplaceAll(b2, '\n', "\\n"), '\r', "");
  }

  lemma EscapeChar(c: char)
    ensures EscapeICalText([c]) == Escaped(c)
  {
    ReplaceOne(c, '\\', "\\\\");
    ReplaceOne(c, ';', "\\;");
    ReplaceOne(c, ',', "\\,");
    ReplaceOne(c, '\n', "\\n");
    ReplaceOne(c, '\r', "");
    NothingToReplaceAfter(
      if c == '\\' then "\\\\" else if c == ';' then "\\;" else if c == ',' then "\\," else "\\n", c);
  }

  /** The later replacements leave the output of an earlier one alone. */
  lemma NothingToReplaceAfter(w: string, c: char)
    ensures ';' !in w ==> ReplaceAll(w, ';', "\\;") == w
    ensures ',' !in w ==> ReplaceAll(w, ',', "\\,") == w
    ensures '\n' !in w ==> ReplaceAll(w, '\n', "\\n") == w
    ensures '\r' !in w ==> ReplaceAll(w, '\r', "") == w
  {
    if ';' !in w { NothingToReplace(w, ';', "\\;"); }
    if ',' !in w { NothingToReplace(w, ',', "\\,"); }
    if '\n' !in w { NothingToReplace(w, '\n', "\\n"); }
    if '\r' !in w { NothingToReplace(w, '\r', ""); }
  }

  /** The five replacements are one pass, and give a TEXT value on a single line. */
  lemma {:induction false} EscapeIsOnePass(text: string)
    ensures EscapeICalText(text) == Expand(Escaped, text)
    ensures IsText(EscapeICalText(text))
    ensures '\n' !in EscapeICalText(text) && '\r' !in EscapeICalText(text)
    decreases |text|
  {
    if text != "" {
      assert text == [text[0]] + text[1..];
      EscapeConcat([text[0]], text[1..]);
      EscapeChar(text[0]);
      EscapeIsOnePass(text[1..]);
      EscapedIsText(text[0], EscapeICalText(text[1..]));
    }
  }

  lemma EscapedIsText(c: char, tail: string)
    requires IsText(tail) && '\n' !in tail && '\r' !in tail
    ensures IsText(Escaped(c) + tail) && '\n' !in Escaped(c) + tail && '\r' !in Escaped(c) + tail
  {
    var e := Escaped(c);
    assert (e + tail)[|e|..] == tail;
  }

  /** Reading the escaped text gives the text back, less its carriage returns. */
  lemma {:induction false} EscapeRoundTrip(text: string)
    ensures Unescape(EscapeICalText(text)) == Without(text, '\r')
    decreases |text|
  {
    if text != "" {
      EscapeIsOnePass(text);
      EscapeIsOnePass(text[1..]);
      EscapeRoundTrip(text[1..]);
      UnescapeEscaped(text[0], EscapeICalText(text[1..]));
    }
  }

  lemma UnescapeEscaped(c: char, tail: string)
    ensures Unescape(Escaped(c) + tail) == (if c == '\r' then "" else [c]) + Unescape(tail)
  {
    var e := Escaped(c);
    assert (e + tail)[|e|..] == tail;
  }

  // ---------- Content lines ----------

  datatype Line = Line(name: string, value: string)

  function LineText(l: Line): string {
    l.name + ":" + l.value + CRLF
  }

  function Text(lines: seq<Line>): string {
    if lines == [] then "" else LineText(lines[0]) + Text(lines[1..])
  }

  /** Cutting at each CRLF and at the first colon of each line. */
  function ParseLines(s: string): Option<seq<Line>>
    decreases |s|
  {
    if s == "" then Some([])
    else
      var e := IndexFrom(s, CRLF, 0);
      if e < 0 then None else
      var colon := IndexFrom(s, ":", 0);
      if colon < 0 || colon >= e then None else
      match ParseLines(s[e + 2..])
      case None => None
      case Some(lines) => Some([Line(s[..colon], s[colon + 1..e])] + lines)
  }

  ghost predicate LineOk(l: Line) {
    !Contains(l.name, ":") && !Contains(l.name, CRLF) && !Contains(l.value, CRLF)
  }

  /** One content line at the front of the text is read back, and the reader goes on after it. */
  lemma FirstLine(l: Line, rest: string, s: string)
    requires LineOk(l)
    requires s == LineText(l) + rest
    requires ParseLines(rest).Some?
    ensures ParseLines(s) == Some([l] + ParseLines(rest).value)
  {
    var e, colon := |l.name| + 1 + |l.value|, |l.name|;
    LineEnd(l, rest, s, e);
    LineColon(l, rest, s, colon);
    LineValue(l, rest, s, colon, e);
  }

  lemma LineEnd(l: Line, rest: string, s: string, e: nat)
    requires LineOk(l) && s == LineText(l) + rest && e == |l.name| + 1 + |l.value|
    ensures e + 2 <= |s| && IndexFrom(s, CRLF, 0) == e
    ensures s[e + 2..] == rest
  {
    var body := l.name + ":" + l.value;
    assert s == "" + body + CRLF + rest;
    BodyHasNoCRLF(l);
    Found(s, 0, e, "", body, CRLF, rest);
  }

  lemma LineColon(l: Line, rest: string, s: string, colon: nat)
    requires LineOk(l) && s == LineText(l) + rest && colon == |l.name|
    ensures colon <= |s| && IndexFrom(s, ":", 0) == colon
    ensures s[..colon] == l.name
  {
    NameFirst(l, rest);
    FirstDelimiter(s, l.name, ":", l.value + CRLF + rest);
  }

  lemma NameFirst(l: Line, rest: string)
    ensures LineText(l) + rest == l.name + ":" + (l.value + CRLF + rest)
  {
  }

  lemma LineValue(l: Line, rest: string, s: string, colon: nat, e: nat)
    requires s == LineText(l) + rest && colon == |l.name| && e == |l.name| + 1 + |l.value|
    ensures colon + 1 <= e <= |s| && s[colon + 1..e] == l.value
  {
    assert s == (l.name + ":") + l.value + (CRLF + rest);
  }

  lemma {:induction false} LinesRoundTrip(lines: seq<Line>)
    requires forall l :: l in lines ==> LineOk(l)
    ensures ParseLines(Text(lines)) == Some(lines)
  {
    if lines != [] {
      LinesRoundTrip(lines[1..]);
      FirstLine(lines[0], Text(lines[1..]), Text(lines));
      assert lines == [lines[0]] + lines[1..];
    }
  }

  lemma SeamOfCRLF(a: string, b: string, k: nat)
    requires Straddles(a, b, CRLF, k)
    ensures a != "" && a[|a| - 1] == '\r' && b != "" && b[0] == '\n'
  {
    assert a[|a| - k + 0] == CRLF[0] && b[1 - k] == CRLF[1];
  }

  lemma NoCRLFInConcat(a: string, b: string)
    requires !Contains(a, CRLF) && !Contains(b, CRLF)
    requires (a != "" ==> a[|a| - 1] != '\r') || (b != "" ==> b[0] != '\n')
    ensures !Contains(a + b, CRLF)
  {
    forall k: nat | Straddles(a, b, CRLF, k) ensures a != "" && a[|a| - 1] == '\r' && b != "" && b[0] == '\n' {
      SeamOfCRLF(a, b, k);
    }
    NoOccurrenceInConcat(a, b, CRLF);
  }

  lemma BodyHasNoCRLF(l: Line)
    requires LineOk(l)
    ensures !Contains(l.name + ":" + l.value, CRLF)
  {
    FreeOf(":", CRLF);
    NoCRLFInConcat(l.name, ":");
    NoCRLFInConcat(l.name + ":", l.value);
  }

  // ---------- Components ----------

  datatype Token = Begin(name: string) | End(name: string) | Property(line: Line)

  function TokenOf(l: Line): Token {
    if l.name == "BEGIN" then Begin(l.value) else if l.name == "END" then End(l.value) else Property(l)
  }

  function LineOf(t: Token): Line {
    match t
    case Begin(n) => Line("BEGIN", n)
    case End(n) => Line("END", n)
    case Property(l) => l
  }

  datatype Item = Prop(line: Line) | Comp(name: string, items: seq<Item>)

  /** BEGIN and END around every component, properties as they are. */
  function Flatten(items: seq<Item>): seq<Token> {
    if items == [] then [] else FlattenItem(items[0]) + Flatten(items[1..])
  }

  function FlattenItem(item: Item): seq<Token> {
    match item
    case Prop(l) => [Property(l)]
    case Comp(n, inner) => [Begin(n)] + Flatten(inner) + [End(n)]
  }

  /** Items up to an END or the end of the input, and what is left over. */
  function ParseItems(ts: seq<Token>): (r: Option<(seq<Item>, seq<Token>)>)
    ensures r.Some? ==> |r.value.1| <= |ts|
    decreases |ts|
  {
    if ts == [] || ts[0].End? then Some(([], ts))
    else
      match ParseItems(ts[1..])
      case None => None
      case Some((inner, after)) =>
        if ts[0].Property? then Some(([Prop(ts[0].line)] + inner, after))
        else if after == [] || after[0] != End(ts[0].name) then None
        else
          match ParseItems(after[1..])
          case None => None
          case Some((more, rest)) => Some(([Comp(ts[0].name, inner)] + more, rest))
  }

  lemma FirstProp(ts: seq<Token>, more: seq<Item>, rest: seq<Token>)
    requires ts != [] && ts[0].Property?
    requires ParseItems(ts[1..]) == Some((more, rest))
    ensures ParseItems(ts) == Some(([Prop(ts[0].line)] + more, rest))
  {
  }

  lemma FirstComp(ts: seq<Token>, inner: seq<Item>, after: seq<Token>, more: seq<Item>, rest: seq<Token>)
    requires ts != [] && ts[0].Begin?
    requires ParseItems(ts[1..]) == Some((inner, after))
    requires after != [] && after[0] == End(ts[0].name)
    requires ParseItems(after[1..]) == Some((more, rest))
    ensures ParseItems(ts) == Some(([Comp(ts[0].name, inner)] + more, rest))
  {
  }

  /** The component structure comes back from its tokens: BEGIN and END balance. */
  lemma {:induction false} ItemsRoundTrip(items: seq<Item>, rest: seq<Token>)
    requires rest == [] || rest[0].End?
    ensures ParseItems(Flatten(items) + rest) == Some((items, rest))
    decreases items
  {
    var ts := Flatten(items) + rest;
    if items == [] {
      assert ts == rest;
    } else {
      var tail := Flatten(items[1..]) + rest;
      ItemsRoundTrip(items[1..], rest);
      assert items == [items[0]] + items[1..];
      assert ts == FlattenItem(items[0]) + Flatten(items[1..]) + rest;
      match items[0]
      case Prop(l) =>
        assert FlattenItem(items[0]) == [Property(l)];
        assert ts[1..] == tail;
        FirstProp(ts, items[1..], rest);
      case Comp(n, inner) =>
        assert FlattenItem(items[0]) == [Begin(n)] + Flatten(inner) + [End(n)];
        var after := [End(n)] + tail;
        ItemsRoundTrip(inner, after);
        CompTokens(n, Flatten(inner), Flatten(items[1..]), rest);
        FirstComp(ts, inner, after, items[1..], rest);
    }
  }

  lemma CompTokens(n: string, body: seq<Token>, more: seq<Token>, rest: seq<Token>)
    ensures var ts := [Begin(n)] + body + [End(n)] + more + rest;
      ts[0] == Begin(n) && ts[1..] == body + ([End(n)] + (more + rest))
    ensures ([End(n)] + (more + rest))[1..] == more + rest
  {
  }

  lemma {:induction false} FlattenConcat(a: seq<Item>, b: seq<Item>)
    ensures Flatten(a + b) == Flatten(a) + Flatten(b)
    decreases |a|
  {
    if a == [] {
      assert a + b == b;
    } else {
      assert (a + b)[1..] == a[1..] + b;
      FlattenConcat(a[1..], b);
    }
  }

  function Lines(ts: seq<Token>): seq<Line> {
    seq(|ts|, i requires 0 <= i < |ts| => LineOf(ts[i]))
  }

  function Tokens(lines: seq<Line>): seq<Token> {
    seq(|lines|, i requires 0 <= i < |lines| => TokenOf(lines[i]))
  }

  /** Text to components: content lines, then BEGIN/END nesting with nothing left over. */
  function ParseFeed(s: string): Option<seq<Item>> {
    match ParseLines(s)
    case None => None
    case Some(lines) =>
      match ParseItems(Tokens(lines))
      case None => None
      case Some((items, rest)) => if rest == [] then Some(items) else None
  }

  ghost predicate TokenOk(t: Token) {
    LineOk(LineOf(t)) && TokenOf(LineOf(t)) == t
  }

  lemma ParseFeedRoundTrip(items: seq<Item>)
    requires forall t :: t in Flatten(items) ==> TokenOk(t)
    ensures ParseFeed(Text(Lines(Flatten(items)))) == Some(items)
  {
    TokensRoundTrip(Flatten(items));
    ItemsRoundTrip(items, []);
    assert Flatten(items) + [] == Flatten(items);
  }

  lemma TokensRoundTrip(ts: seq<Token>)
    requires forall t :: t in ts ==> TokenOk(t)
    ensures ParseLines(Text(Lines(ts))) == Some(Lines(ts))
    ensures Tokens(Lines(ts)) == ts
  {
    forall l | l in Lines(ts) ensures LineOk(l) {
      var i :| 0 <= i < |ts| && l == Lines(ts)[i];
      assert TokenOk(ts[i]);
    }
    LinesRoundTrip(Lines(ts));
    forall i | 0 <= i < |ts| ensures Tokens(Lines(ts))[i] == ts[i] {
      assert TokenOk(ts[i]);
    }
  }

  // ---------- The rendered feed ----------

  /** A row of the contests query; the time stamps are already in their UTC form. */
  datatype Row = Row(id: string, name: string, url: string, start: string, end: string, platform: string)

  const DEFAULT_HOST: string := "contestsync.0xarchit.is-a.dev"

  function HostOr(host: string): string {
    if host == "" then DEFAULT_HOST else host
  }

  /** strings.ToUpper on the platform names, which are ASCII. */
  function ToUpper(s: string): string {
    seq(|s|, i requires 0 <= i < |s| => if 'a' <= s[i] <= 'z' then (s[i] as int - 32) as char else s[i])
  }

  function Summary(r: Row): string {
    "[" + ToUpper(r.platform) + "] " + r.name
  }

  function Description(r: Row): string {
    "Platform: " + r.platform + "\nURL: " + r.url + "\n\nSynced by ContestSync"
  }

  const PRODID: string := "-//ContestSync//" + "Competitive Programming " + "Calendar Feed//EN"

  const HEADER: seq<Line> := [
    Line("VERSION", "2.0"),
    Line("PRODID", PRODID),
    Line("CALSCALE", "GREGORIAN"),
    Line("METHOD", "PUBLISH"),
    Line("X-WR-CALNAME", "ContestSync Contests")
  ]

  const ALARM: seq<Line> := [Line("TRIGGER", "-PT30M"), Line("ACTION", "DISPLAY"), Line("DESCRIPTION", "Reminder")]

  function WhatLines(r: Row, host: string, stamp: string): seq<Line> {
    [
      Line("UID", r.id + "@" + HostOr(host)),
      Line("DTSTAMP", stamp),
      Line("SUMMARY", EscapeICalText(Summary(r))),
      Line("DESCRIPTION", EscapeICalText(Description(r)))
    ]
  }

  function WhereWhenLines(r: Row): seq<Line> {
    [
      Line("URL", r.url),
      Line("LOCATION", EscapeICalText(r.url)),
      Line("DTSTART", r.start),
      Line("DTEND", r.end)
    ]
  }

  function EventLines(r: Row, host: string, stamp: string): seq<Line> {
    WhatLines(r, host, stamp) + WhereWhenLines(r)
  }

  function Props(lines: seq<Line>): seq<Item> {
    seq(|lines|, i requires 0 <= i < |lines| => Prop(lines[i]))
  }

  function Event(r: Row, host: string, stamp: string): Item {
    Comp("VEVENT", Props(EventLines(r, host, stamp)) + [Comp("VALARM", Props(ALARM))])
  }

  function Events(rows: seq<Row>, host: string, stamp: string): seq<Item> {
    seq(|rows|, i requires 0 <= i < |rows| => Event(rows[i], host, stamp))
  }

  function Calendar(rows: seq<Row>, host: string, stamp: string): Item {
    Comp("VCALENDAR", Props(HEADER) + Events(rows, host, stamp))
  }

  function Feed(rows: seq<Row>, host: string, stamp: string): string {
    Text(Lines(Flatten([Calendar(rows, host, stamp)])))
  }

  lemma {:induction false} TextSnoc(lines: seq<Line>, l: Line)
    ensures Text(lines + [l]) == Text(lines) + LineText(l)
    decreases |lines|
  {
    if lines == [] {
      assert (lines + [l])[1..] == [];
    } else {
      assert (lines + [l])[1..] == lines[1..] + [l];
      TextSnoc(lines[1..], l);
    }
  }

  /** One write to the buffer: a name, a colon, a value and CRLF. */
  method Write(buf: string, ghost lines: seq<Line>, name: string, value: string)
    returns (out: string, ghost written: seq<Line>)
    requires buf == Text(lines)
    ensures written == lines + [Line(name, value)]
    ensures out == Text(written)
  {
    out := buf + (name + ":" + value + "\r\n");
    written := lines + [Line(name, value)];
    TextSnoc(lines, Line(name, value));
  }

  lemma {:induction false} FlattenProps(lines: seq<Line>)
    ensures Lines(Flatten(Props(lines))) == lines
    decreases |lines|
  {
    if lines != [] {
      var ps := Props(lines);
      assert ps[1..] == Props(lines[1..]);
      FlattenProps(lines[1..]);
      assert Flatten(ps) == [Property(lines[0])] + Flatten(ps[1..]);
      assert Lines(Flatten(ps)) == [lines[0]] + Lines(Flatten(ps[1..]));
    }
  }

  lemma LinesConcat(a: seq<Token>, b: seq<Token>)
    ensures Lines(a + b) == Lines(a) + Lines(b)
  {
  }

  lemma CompLines(n: string, lines: seq<Line>, inner: seq<Item>)
    ensures Lines(FlattenItem(Comp(n, Props(lines) + inner))) ==
            [Line("BEGIN", n)] + lines + Lines(Flatten(inner)) + [Line("END", n)]
  {
    FlattenConcat(Props(lines), inner);
    FlattenProps(lines);
    var ps, ts := Flatten(Props(lines)), Flatten(inner);
    LinesConcat(ps, ts);
    LinesConcat([Begin(n)], ps + ts);
    LinesConcat([Begin(n)] + (ps + ts), [End(n)]);
  }

  lemma OneItem(item: Item)
    ensures Flatten([item]) == FlattenItem(item)
  {
    assert [item][1..] == [];
  }

  lemma EventTokens(r: Row, host: string, stamp: string)
    ensures Lines(FlattenItem(Event(r, host, stamp))) ==
            [Line("BEGIN", "VEVENT")] + EventLines(r, host, stamp)
            + ([Line("BEGIN", "VALARM")] + ALARM + [Line("END", "VALARM")]) + [Line("END", "VEVENT")]
  {
    var alarm := Comp("VALARM", Props(ALARM));
    assert Props(ALARM) == Props(ALARM) + [];
    CompLines("VALARM", ALARM, []);
    OneItem(alarm);
    CompLines("VEVENT", EventLines(r, host, stamp), [alarm]);
  }

  method WriteAlarm(buf: string, ghost lines: seq<Line>) returns (out: string, ghost written: seq<Line>)
    requires buf == Text(lines)
    ensures written == lines + ([Line("BEGIN", "VALARM")] + ALARM + [Line("END", "VALARM")])
    ensures out == Text(written)
  {
    out, written := Write(buf, lines, "BEGIN", "VALARM");
    out, written := Write(out, written, "TRIGGER", "-PT30M");
    out, written := Write(out, written, "ACTION", "DISPLAY");
    out, written := Write(out, written, "DESCRIPTION", "Reminder");
    out, written := Write(out, written, "END", "VALARM");
  }

  method WriteWhat(buf: string, ghost lines: seq<Line>, r: Row, host: string, stamp: string)
    returns (out: string, ghost written: seq<Line>)
    requires buf == Text(lines)
    ensures written == lines + WhatLines(r, host, stamp)
    ensures out == Text(written)
  {
    var summary, desc := EscapeICalText(Summary(r)), EscapeICalText(Description(r));
    out, written := Write(buf, lines, "UID", r.id + "@" + HostOr(host));
    out, written := Write(out, written, "DTSTAMP", stamp);
    out, written := Write(out, written, "SUMMARY", summary);
    out, written := Write(out, written, "DESCRIPTION", desc);
  }

  method WriteWhereWhen(buf: string, ghost lines: seq<Line>, r: Row)
    returns (out: string, ghost written: seq<Line>)
    requires buf == Text(lines)
    ensures written == lines + WhereWhenLines(r)
    ensures out == Text(written)
  {
    var loc := EscapeICalText(r.url);
    out, written := Write(buf, lines, "URL", r.url);
    out, written := Write(out, written, "LOCATION", loc);
    out, written := Write(out, written, "DTSTART", r.start);
    out, written := Write(out, written, "DTEND", r.end);
  }

  method WriteBody(buf: string, ghost lines: seq<Line>, r: Row, host: string, stamp: string)
    returns (out: string, ghost written: seq<Line>)
    requires buf == Text(lines)
    ensures written == lines + EventLines(r, host, stamp)
    ensures out == Text(written)
  {
    out, written := WriteWhat(buf, lines, r, host, stamp);
    out, written := WriteWhereWhen(out, written, r);
  }

  lemma Regroup(lines: seq<Line>, a: seq<Line>, b: seq<Line>, c: seq<Line>, d: seq<Line>)
    ensures lines + a + b + c + d == lines + (a + b + c + d)
  {
  }

  /** The body of the row loop. */
  method WriteEvent(buf: string, ghost lines: seq<Line>, r: Row, host: string, stamp: string)
    returns (out: string, ghost written: seq<Line>)
    requires buf == Text(lines)
    ensures written == lines + Lines(FlattenItem(Event(r, host, stamp)))
    ensures out == Text(written)
  {
    ghost var alarm := [Line("BEGIN", "VALARM")] + ALARM + [Line("END", "VALARM")];
    out, written := Write(buf, lines, "BEGIN", "VEVENT");
    out, written := WriteBody(out, written, r, host, stamp);
    out, written := WriteAlarm(out, written);
    out, written := Write(out, written, "END", "VEVENT");
    Regroup(lines, [Line("BEGIN", "VEVENT")], EventLines(r, host, stamp), alarm, [Line("END", "VEVENT")]);
    EventTokens(r, host, stamp);
  }

  method WriteHeader() returns (out: string, ghost written: seq<Line>)
    ensures written == [Line("BEGIN", "VCALENDAR")] + HEADER
    ensures out == Text(written)
  {
    out, written := Write("", [], "BEGIN", "VCALENDAR");
    out, written := Write(out, written, "VERSION", "2.0");
    out, written := Write(out, written, "PRODID", PRODID);
    out, written := Write(out, written, "CALSCALE", "GREGORIAN");
    out, written := Write(out, written, "METHOD", "PUBLISH");
    out, written := Write(out, written, "X-WR-CALNAME", "ContestSync Contests");
  }

  /** The rendering part of the feed handler. */
  method RenderFeed(rows: seq<Row>, host: string, stamp: string) returns (buf: string)
    ensures buf == Feed(rows, host, stamp)
  {
    ghost var lines: seq<Line>;
    buf, lines := WriteHeader();
    ghost var head := lines;
    for i := 0 to |rows|
      invariant buf == Text(lines)
      invariant lines == head + EventsLines(rows[..i], host, stamp)
    {
      buf, lines := WriteEvent(buf, lines, rows[i], host, stamp);
      EventsSnoc(rows, i, host, stamp);
    }
    assert rows[..|rows|] == rows;
    buf, lines := Write(buf, lines, "END", "VCALENDAR");
    CalendarTokens(rows, host, stamp);
  }

  function EventsLines(rows: seq<Row>, host: string, stamp: string): seq<Line> {
    Lines(Flatten(Events(rows, host, stamp)))
  }

  lemma CalendarTokens(rows: seq<Row>, host: string, stamp: string)
    ensures Lines(Flatten([Calendar(rows, host, stamp)])) ==
            [Line("BEGIN", "VCALENDAR")] + HEADER + EventsLines(rows, host, stamp) + [Line("END", "VCALENDAR")]
  {
    CompLines("VCALENDAR", HEADER, Events(rows, host, stamp));
    OneItem(Calendar(rows, host, stamp));
  }

  lemma EventsSnoc(rows: seq<Row>, i: nat, host: string, stamp: string)
    requires i < |rows|
    ensures EventsLines(rows[..i + 1], host, stamp) ==
            EventsLines(rows[..i], host, stamp) + Lines(FlattenItem(Event(rows[i], host, stamp)))
  {
    EventsPrefix(rows, i, host, stamp);
    FlattenSnoc(Events(rows[..i], host, stamp), Event(rows[i], host, stamp));
  }

  lemma EventsPrefix(rows: seq<Row>, i: nat, host: string, stamp: string)
    requires i < |rows|
    ensures Events(rows[..i + 1], host, stamp) == Events(rows[..i], host, stamp) + [Event(rows[i], host, stamp)]
  {
    assert rows[..i + 1] == rows[..i] + [rows[i]];
  }

  lemma FlattenSnoc(items: seq<Item>, e: Item)
    ensures Lines(Flatten(items + [e])) == Lines(Flatten(items)) + Lines(FlattenItem(e))
  {
    FlattenConcat(items, [e]);
    OneItem(e);
  }

  // ---------- Reading the feed back ----------

  datatype VEvent = VEvent(uid: string, stamp: string, summary: string, description: string,
                           url: string, location: string, start: string, end: string)

  /** The value of the first property with this name. */
  function Value(items: seq<Item>, name: string): string {
    if items == [] then ""
    else if items[0].Prop? && items[0].line.name == name then items[0].line.value
    else Value(items[1..], name)
  }

  function ReadEvent(items: seq<Item>): VEvent {
    VEvent(Value(items, "UID"), Value(items, "DTSTAMP"), Unescape(Value(items, "SUMMARY")),
           Unescape(Value(items, "DESCRIPTION")), Value(items, "URL"), Unescape(Value(items, "LOCATION")),
           Value(items, "DTSTART"), Value(items, "DTEND"))
  }

  function ReadEvents(items: seq<Item>): seq<VEvent> {
    if items == [] then []
    else (if items[0].Comp? && items[0].name == "VEVENT" then [ReadEvent(items[0].items)] else [])
         + ReadEvents(items[1..])
  }

  function ReadFeed(s: string): Option<seq<VEvent>> {
    match ParseFeed(s)
    case None => None
    case Some(items) =>
      if |items| == 1 && items[0].Comp? && items[0].name == "VCALENDAR" then Some(ReadEvents(items[0].items)) else None
  }

  /** What a contest row means to a reader of the feed. */
  function Meaning(r: Row, host: string, stamp: string): VEvent {
    VEvent(r.id + "@" + (if host == "" then "contestsync.0xarchit.is-a.dev" else host),
           stamp,
           Without("[" + ToUpper(r.platform) + "] " + r.name, '\r'),
           Without("Platform: " + r.platform + "\nURL: " + r.url + "\n\nSynced by ContestSync", '\r'),
           r.url, Without(r.url, '\r'), r.start, r.end)
  }

  /** What a reader takes from the calendar itself. */
  datatype VCalendar = VCalendar(version: string, product: string, scale: string, way: string, title: string)

  /** A reminder: when, how, and its text. */
  datatype VAlarm = VAlarm(trigger: string, action: string, description: string)

  function ReadCalendar(items: seq<Item>): VCalendar {
    VCalendar(Value(items, "VERSION"), Value(items, "PRODID"), Value(items, "CALSCALE"), Value(items, "METHOD"),
              Value(items, "X-WR-CALNAME"))
  }

  function ReadAlarms(items: seq<Item>): seq<VAlarm> {
    if items == [] then []
    else
      (if items[0].Comp? && items[0].name == "VALARM"
       then [VAlarm(Value(items[0].items, "TRIGGER"), Value(items[0].items, "ACTION"), Value(items[0].items,
         "DESCRIPTION"))]
       else [])
      + ReadAlarms(items[1..])
  }

  function Meanings(rows: seq<Row>, host: string, stamp: string): seq<VEvent> {
    if rows == [] then [] else [Meaning(rows[0], host, stamp)] + Meanings(rows[1..], host, stamp)
  }

  /** No CRLF in the fields that are written without escaping. */
  ghost predicate RowOk(r: Row) {
    !Contains(r.id, CRLF) && !Contains(r.url, CRLF) && !Contains(r.start, CRLF) && !Contains(r.end, CRLF)
  }

  /** No CRLF in anything a feed writes without escaping; a feed without rows writes nothing of the kind. */
  ghost predicate FeedOk(rows: seq<Row>, host: string, stamp: string) {
    rows != [] ==> !Contains(host, CRLF) && !Contains(stamp, CRLF) && forall r :: r in rows ==> RowOk(r)
  }

  lemma FeedIsReadBack(rows: seq<Row>, host: string, stamp: string)
    requires FeedOk(rows, host, stamp)
    ensures ReadFeed(Feed(rows, host, stamp)) == Some(Meanings(rows, host, stamp))
  {
    CalendarOk(rows, host, stamp);
    OneItem(Calendar(rows, host, stamp));
    ParseFeedRoundTrip([Calendar(rows, host, stamp)]);
    SkipProps(HEADER, Events(rows, host, stamp));
    EventsMeaning(rows, host, stamp);
  }

  /** Parsing the rendered feed recovers every event, in order, if and only if nothing that is
      written without escaping holds a CRLF. */
  lemma FeedRoundTrip(rows: seq<Row>, host: string, stamp: string)
    ensures ReadFeed(Feed(rows, host, stamp)) == Some(Meanings(rows, host, stamp)) <==> FeedOk(rows, host, stamp)
  {
    if FeedOk(rows, host, stamp) {
      FeedIsReadBack(rows, host, stamp);
    }
    ReadBackIsOk(rows, host, stamp, Feed(rows, host, stamp));
  }

  lemma ReadBackIsOk(rows: seq<Row>, host: string, stamp: string, s: string)
    ensures ReadFeed(s) == Some(Meanings(rows, host, stamp)) ==> FeedOk(rows, host, stamp)
  {
    if ReadFeed(s) == Some(Meanings(rows, host, stamp)) {
      ReadIsClean(s);
      forall r | r in rows ensures RowOk(r) && !Contains(host, CRLF) && !Contains(stamp, CRLF) {
        MeaningIsRead(rows, host, stamp, r);
        CleanMeaning(r, host, stamp);
      }
      if rows != [] {
        assert rows[0] in rows;
      }
    }
  }

  lemma HeaderMeaning(lines: seq<Line>, items: seq<Item>)
    requires lines == HEADER
    ensures ReadCalendar(Props(lines) + items) ==
              VCalendar("2.0", "-//ContestSync//" + "Competitive Programming " + "Calendar Feed//EN", "GREGORIAN",
                        "PUBLISH", "ContestSync Contests")
  {
    NamesDiffer(lines);
    ReadHeader(lines, items);
  }

  lemma NamesDiffer(lines: seq<Line>)
    requires |lines| == 5
    requires |lines[0].name| == 7 && |lines[1].name| == 6 && |lines[2].name| == 8
    requires |lines[3].name| == 6 && |lines[4].name| == 12 && lines[1].name[0] == 'P' && lines[3].name[0] == 'M'
    ensures HeaderNamesDiffer(lines)
  {
  }

  predicate HeaderNamesDiffer(lines: seq<Line>) {
    forall i, j :: 0 <= i < j < |lines| ==> lines[i].name != lines[j].name
  }

  lemma ReadHeader(lines: seq<Line>, items: seq<Item>)
    requires |lines| == 5 && HeaderNamesDiffer(lines)
    requires lines[0].name == "VERSION" && lines[1].name == "PRODID" && lines[2].name == "CALSCALE"
    requires lines[3].name == "METHOD" && lines[4].name == "X-WR-CALNAME"
    ensures ReadCalendar(Props(lines) + items) ==
              VCalendar(lines[0].value, lines[1].value, lines[2].value, lines[3].value, lines[4].value)
  {
    ValueAt(lines, items, 0);
    ValueAt(lines, items, 1);
    ValueAt(lines, items, 2);
    ValueAt(lines, items, 3);
    ValueAt(lines, items, 4);
  }

  lemma {:induction false} SkipPropsForAlarms(lines: seq<Line>, items: seq<Item>)
    ensures ReadAlarms(Props(lines) + items) == ReadAlarms(items)
    decreases |lines|
  {
    if lines == [] {
      assert Props(lines) + items == items;
    } else {
      assert (Props(lines) + items)[1..] == Props(lines[1..]) + items;
      SkipPropsForAlarms(lines[1..], items);
    }
  }

  lemma AlarmMeaning(r: Row, host: string, stamp: string)
    ensures ReadAlarms(Event(r, host, stamp).items) == [VAlarm("-PT30M", "DISPLAY", "Reminder")]
  {
    var alarm := Comp("VALARM", Props(ALARM));
    SkipPropsForAlarms(EventLines(r, host, stamp), [alarm]);
    assert [alarm][1..] == [] && Props(ALARM) + [] == Props(ALARM);
    ValueAt(ALARM, [], 0);
    ValueAt(ALARM, [], 1);
    ValueAt(ALARM, [], 2);
  }

  /** A feed that can be read back is one calendar with its five properties, and each of its events has one reminder,
      thirty minutes before. */
  lemma FeedShape(rows: seq<Row>, host: string, stamp: string)
    requires FeedOk(rows, host, stamp)
    ensures
      var events := Events(rows, host, stamp);
      && ParseFeed(Feed(rows, host, stamp)) == Some([Comp("VCALENDAR", Props(HEADER) + events)])
      && ReadCalendar(Props(HEADER) + events) ==
           VCalendar("2.0", "-//ContestSync//" + "Competitive Programming " + "Calendar Feed//EN", "GREGORIAN",
                     "PUBLISH", "ContestSync Contests")
      && |events| == |rows|
      && (forall i :: 0 <= i < |rows| ==>
            && events[i].Comp?
            && events[i].name == "VEVENT"
            && ReadAlarms(events[i].items) == [VAlarm("-PT30M", "DISPLAY", "Reminder")])
  {
    CalendarOk(rows, host, stamp);
    OneItem(Calendar(rows, host, stamp));
    ParseFeedRoundTrip([Calendar(rows, host, stamp)]);
    HeaderMeaning(HEADER, Events(rows, host, stamp));
    forall i | 0 <= i < |rows|
      ensures ReadAlarms(Events(rows, host, stamp)[i].items) == [VAlarm("-PT30M", "DISPLAY", "Reminder")] {
      AlarmMeaning(rows[i], host, stamp);
    }
  }

  /** The names of the platforms in capitals. */
  lemma UpperNames()
    ensures ToUpper("codechef") == "CODECHEF" && ToUpper("codeforces") == "CODEFORCES"
    ensures ToUpper("leetcode") == "LEETCODE" && ToUpper("atcoder") == "ATCODER"
    ensures ToUpper("hackerrank") == "HACKERRANK" && ToUpper("geeksforgeeks") == "GEEKSFORGEEKS"
    ensures ToUpper("code360") == "CODE360"
  {
  }

  // ---------- What a reader can never see ----------

  lemma {:induction false} ParsedLinesClean(s: string)
    ensures ParseLines(s).Some? ==> forall l :: l in ParseLines(s).value ==> !Contains(l.value, CRLF)
    decreases |s|
  {
    if ParseLines(s).Some? && s != "" {
      var e, colon := IndexFrom(s, CRLF, 0), IndexFrom(s, ":", 0);
      ParsedLinesClean(s[e + 2..]);
      NoneBeforeFirst(s, CRLF, colon + 1, e);
    }
  }

  ghost predicate CleanItem(item: Item) {
    match item
    case Prop(l) => !Contains(l.value, CRLF)
    case Comp(_, inner) => forall i :: 0 <= i < |inner| ==> CleanItem(inner[i])
  }

  ghost predicate CleanItems(items: seq<Item>) {
    forall i :: 0 <= i < |items| ==> CleanItem(items[i])
  }

  ghost predicate CleanTokens(ts: seq<Token>) {
    forall t :: t in ts && t.Property? ==> !Contains(t.line.value, CRLF)
  }

  lemma {:induction false} ParsedItemsClean(ts: seq<Token>)
    requires CleanTokens(ts)
    ensures ParseItems(ts).Some? ==> CleanItems(ParseItems(ts).value.0) && CleanTokens(ParseItems(ts).value.1)
    decreases |ts|
  {
    if ts != [] && !ts[0].End? {
      ParsedItemsClean(ts[1..]);
      var head := ParseItems(ts[1..]);
      if head.Some? && ts[0].Begin? && head.value.1 != [] {
        ParsedItemsClean(head.value.1[1..]);
      }
    }
  }

  lemma {:induction false} ValueClean(items: seq<Item>, name: string)
    requires CleanItems(items)
    ensures !Contains(Value(items, name), CRLF)
    decreases |items|
  {
    if items == [] {
      FreeOf("", CRLF);
    } else if !(items[0].Prop? && items[0].line.name == name) {
      ValueClean(items[1..], name);
    }
  }

  ghost predicate CleanEvent(v: VEvent) {
    && !Contains(v.uid, CRLF) && !Contains(v.stamp, CRLF) && !Contains(v.url, CRLF)
    && !Contains(v.start, CRLF) && !Contains(v.end, CRLF)
  }

  lemma EventClean(items: seq<Item>)
    requires CleanItems(items)
    ensures CleanEvent(ReadEvent(items))
  {
    ValueClean(items, "UID");
    ValueClean(items, "DTSTAMP");
    ValueClean(items, "URL");
    ValueClean(items, "DTSTART");
    ValueClean(items, "DTEND");
  }

  lemma {:induction false} EventsClean(items: seq<Item>)
    requires CleanItems(items)
    ensures forall v :: v in ReadEvents(items) ==> CleanEvent(v)
    decreases |items|
  {
    if items != [] {
      EventsClean(items[1..]);
      if items[0].Comp? {
        EventClean(items[0].items);
      }
    }
  }

  /** Whatever text is read, no raw field of an event holds a CRLF. */
  lemma ReadIsClean(s: string)
    ensures ReadFeed(s).Some? ==> forall v :: v in ReadFeed(s).value ==> CleanEvent(v)
  {
    if ReadFeed(s).Some? {
      var lines := ParseLines(s).value;
      ParsedLinesClean(s);
      assert CleanTokens(Tokens(lines)) by {
        forall t | t in Tokens(lines) && t.Property? ensures !Contains(t.line.value, CRLF) {
          var i :| 0 <= i < |lines| && Tokens(lines)[i] == t;
          assert lines[i] in lines;
        }
      }
      ParsedItemsClean(Tokens(lines));
      var items := ParseItems(Tokens(lines)).value.0;
      assert CleanItem(items[0]);
      EventsClean(items[0].items);
    }
  }

  lemma {:induction false} MeaningIsRead(rows: seq<Row>, host: string, stamp: string, r: Row)
    requires r in rows
    ensures Meaning(r, host, stamp) in Meanings(rows, host, stamp)
    decreases |rows|
  {
    if rows[0] != r {
      MeaningIsRead(rows[1..], host, stamp, r);
    }
  }

  lemma CleanMeaning(r: Row, host: string, stamp: string)
    requires CleanEvent(Meaning(r, host, stamp))
    ensures RowOk(r) && !Contains(host, CRLF) && !Contains(stamp, CRLF)
  {
    var uid := r.id + "@" + HostOr(host);
    InsideConcat("", r.id, "@" + HostOr(host), CRLF);
    assert uid == "" + r.id + ("@" + HostOr(host));
    InsideConcat(r.id + "@", HostOr(host), "", CRLF);
    assert uid == r.id + "@" + HostOr(host) + "";
    FreeOf("", CRLF);
  }

  lemma {:induction false} SkipProps(lines: seq<Line>, items: seq<Item>)
    ensures ReadEvents(Props(lines) + items) == ReadEvents(items)
    decreases |lines|
  {
    if lines == [] {
      assert Props(lines) + items == items;
    } else {
      assert (Props(lines) + items)[1..] == Props(lines[1..]) + items;
      SkipProps(lines[1..], items);
    }
  }

  lemma {:induction false} EventsMeaning(rows: seq<Row>, host: string, stamp: string)
    ensures ReadEvents(Events(rows, host, stamp)) == Meanings(rows, host, stamp)
    decreases |rows|
  {
    if rows != [] {
      assert Events(rows, host, stamp)[1..] == Events(rows[1..], host, stamp);
      EventsMeaning(rows[1..], host, stamp);
      EventMeaning(rows[0], host, stamp);
      var e := Event(rows[0], host, stamp);
      assert Events(rows, host, stamp)[0] == e && e.name == "VEVENT";
    }
  }

  lemma {:induction false} ValueAt(lines: seq<Line>, tail: seq<Item>, k: nat)
    requires k < |lines|
    requires forall i :: 0 <= i < k ==> lines[i].name != lines[k].name
    ensures Value(Props(lines) + tail, lines[k].name) == lines[k].value
    decreases k
  {
    var items := Props(lines) + tail;
    if k > 0 {
      assert items[1..] == Props(lines[1..]) + tail;
      ValueAt(lines[1..], tail, k - 1);
    }
  }

  lemma EventMeaning(r: Row, host: string, stamp: string)
    ensures ReadEvent(Event(r, host, stamp).items) == Meaning(r, host, stamp)
  {
    var lines := EventLines(r, host, stamp);
    var tail := [Comp("VALARM", Props(ALARM))];
    ValueAt(lines, tail, 0);
    ValueAt(lines, tail, 1);
    ValueAt(lines, tail, 2);
    ValueAt(lines, tail, 3);
    ValueAt(lines, tail, 4);
    ValueAt(lines, tail, 5);
    ValueAt(lines, tail, 6);
    ValueAt(lines, tail, 7);
    EscapeRoundTrip(Summary(r));
    EscapeRoundTrip(Description(r));
    EscapeRoundTrip(r.url);
  }

  // ---------- The lines of a rendered feed are well formed ----------

  ghost predicate AllOk(ts: seq<Token>) {
    forall t :: t in ts ==> TokenOk(t)
  }

  lemma {:induction false} FlattenOk(items: seq<Item>)
    requires forall i :: 0 <= i < |items| ==> AllOk(FlattenItem(items[i]))
    ensures AllOk(Flatten(items))
    decreases |items|
  {
    if items != [] {
      FlattenOk(items[1..]);
      assert AllOk(FlattenItem(items[0]));
    }
  }

  predicate NameOk(name: string) {
    ':' !in name && '\r' !in name && name != "BEGIN" && name != "END"
  }

  /** Properties with names of ours and values without CRLF. */
  lemma PropsOk(lines: seq<Line>)
    requires forall l :: l in lines ==> NameOk(l.name) && !Contains(l.value, CRLF)
    ensures forall i :: 0 <= i < |lines| ==> AllOk(FlattenItem(Props(lines)[i]))
  {
    forall i | 0 <= i < |lines| ensures AllOk(FlattenItem(Props(lines)[i])) {
      var l := lines[i];
      assert l in lines;
      FreeOf(l.name, ":");
      FreeOf(l.name, CRLF);
    }
  }

  lemma CompOk(n: string, items: seq<Item>)
    requires '\r' !in n
    requires forall i :: 0 <= i < |items| ==> AllOk(FlattenItem(items[i]))
    ensures AllOk(FlattenItem(Comp(n, items)))
  {
    FlattenOk(items);
    FreeOf(n, CRLF);
    FreeOf("BEGIN", CRLF);
    FreeOf("BEGIN", ":");
    FreeOf("END", CRLF);
    FreeOf("END", ":");
    assert TokenOk(Begin(n)) && TokenOk(End(n));
  }

  lemma UidOk(r: Row, host: string)
    requires !Contains(r.id, CRLF) && !Contains(host, CRLF)
    ensures !Contains(r.id + "@" + HostOr(host), CRLF)
  {
    FreeOf(DEFAULT_HOST, CRLF);
    FreeOf("@", CRLF);
    NoCRLFInConcat(r.id, "@");
    NoCRLFInConcat(r.id + "@", HostOr(host));
  }

  lemma EscapedValueOk(text: string)
    ensures !Contains(EscapeICalText(text), CRLF)
  {
    EscapeIsOnePass(text);
    FreeOf(EscapeICalText(text), CRLF);
  }

  lemma EventNames()
    ensures NameOk("UID") && NameOk("DTSTAMP") && NameOk("SUMMARY") && NameOk("DESCRIPTION")
    ensures NameOk("URL") && NameOk("LOCATION") && NameOk("DTSTART") && NameOk("DTEND")
  {
  }

  lemma AlarmNames()
    ensures NameOk("TRIGGER") && NameOk("ACTION") && NameOk("DESCRIPTION")
  {
  }

  lemma AlarmValues()
    ensures !Contains("-PT30M", CRLF) && !Contains("DISPLAY", CRLF) && !Contains("Reminder", CRLF)
  {
    FreeOf("-PT30M", CRLF);
    FreeOf("DISPLAY", CRLF);
    FreeOf("Reminder", CRLF);
  }

  lemma AlarmOk()
    ensures AllOk(FlattenItem(Comp("VALARM", Props(ALARM))))
  {
    AlarmNames();
    AlarmValues();
    PropsOk(ALARM);
    CompOk("VALARM", Props(ALARM));
  }

  lemma ProductIdOk()
    ensures !Contains(PRODID, CRLF)
  {
    FreeOf("-//ContestSync//", CRLF);
    FreeOf("Competitive Programming ", CRLF);
    FreeOf("Calendar Feed//EN", CRLF);
    NoCRLFInConcat("-//ContestSync//", "Competitive Programming ");
    NoCRLFInConcat("-//ContestSync//" + "Competitive Programming ", "Calendar Feed//EN");
  }

  lemma HeaderValues()
    ensures !Contains("2.0", CRLF) && !Contains("GREGORIAN", CRLF) && !Contains("PUBLISH", CRLF)
    ensures !Contains("ContestSync Contests", CRLF)
  {
    FreeOf("2.0", CRLF);
    FreeOf("GREGORIAN", CRLF);
    FreeOf("PUBLISH", CRLF);
    FreeOf("ContestSync Contests", CRLF);
  }

  lemma HeaderNames()
    ensures NameOk("VERSION") && NameOk("PRODID") && NameOk("CALSCALE")
    ensures NameOk("METHOD") && NameOk("X-WR-CALNAME")
  {
  }

  lemma EventValues(r: Row, host: string, stamp: string)
    requires RowOk(r) && !Contains(host, CRLF) && !Contains(stamp, CRLF)
    ensures forall l :: l in EventLines(r, host, stamp) ==> !Contains(l.value, CRLF)
  {
    UidOk(r, host);
    EscapedValueOk(Summary(r));
    EscapedValueOk(Description(r));
    EscapedValueOk(r.url);
  }

  lemma EventOk(r: Row, host: string, stamp: string)
    requires RowOk(r) && !Contains(host, CRLF) && !Contains(stamp, CRLF)
    ensures AllOk(FlattenItem(Event(r, host, stamp)))
  {
    EventNames();
    EventValues(r, host, stamp);
    PropsOk(EventLines(r, host, stamp));
    AlarmOk();
    CompOk("VEVENT", Event(r, host, stamp).items);
  }

  lemma CalendarOk(rows: seq<Row>, host: string, stamp: string)
    requires FeedOk(rows, host, stamp)
    ensures AllOk(FlattenItem(Calendar(rows, host, stamp)))
  {
    HeaderNames();
    HeaderValues();
    ProductIdOk();
    PropsOk(HEADER);
    forall i | 0 <= i < |rows| ensures AllOk(FlattenItem(Events(rows, host, stamp)[i])) {
      EventOk(rows[i], host, stamp);
    }
    CompOk("VCALENDAR", Calendar(rows, host, stamp).items);
  }
}
