/**
  What the row loop of internal/extractor/atcoder.go makes of a row: the contest it stands
  for, and exactly when it is skipped, said by cutting the cells at their first delimiters.
 */
module AtCoderRows {
  import opened Common
  import opened ContestStore
  import Ids
  import opened Strings
  import opened TableScanner

  // ---------- strings.TrimSpace ----------

  predicate AllSpace(s: string) {
    forall i :: 0 <= i < |s| ==> IsSpace(s[i])
  }

  predicate Neat(s: string) {
    s != "" ==> !IsSpace(s[0]) && !IsSpace(s[|s| - 1])
  }

  /** `r` is `s` without the spaces around it. */
  ghost predicate Trimmed(s: string, r: string) {
    Neat(r) && exists a, b :: IsAround(s, a, r, b)
  }

  predicate IsAround(s: string, a: string, r: string, b: string) {
    s == a + r + b && AllSpace(a) && AllSpace(b)
  }

  lemma AroundMoreLeft(s: string, a: string, r: string, b: string)
    requires s != "" && IsSpace(s[0]) && IsAround(s[1..], a, r, b)
    ensures IsAround(s, [s[0]] + a, r, b)
  {
    assert s == [s[0]] + s[1..];
  }

  lemma AroundMoreRight(s: string, a: string, r: string, b: string)
    requires s != "" && IsSpace(s[|s| - 1]) && IsAround(s[..|s| - 1], a, r, b)
    ensures IsAround(s, a, r, b + [s[|s| - 1]])
  {
    assert s == s[..|s| - 1] + [s[|s| - 1]];
  }

  lemma {:induction false} TrimParts(s: string) returns (a: string, b: string)
    ensures Neat(TrimSpace(s)) && IsAround(s, a, TrimSpace(s), b)
    decreases |s|
  {
    a, b := "", "";
    if s != "" {
      if IsSpace(s[0]) {
        a, b := TrimParts(s[1..]);
        AroundMoreLeft(s, a, TrimSpace(s), b);
        a := [s[0]] + a;
      } else if IsSpace(s[|s| - 1]) {
        a, b := TrimParts(s[..|s| - 1]);
        AroundMoreRight(s, a, TrimSpace(s), b);
        b := b + [s[|s| - 1]];
      } else {
        assert IsAround(s, "", s, "");
      }
    }
  }

  lemma {:induction false} TrimAround(s: string, a: string, r: string, b: string)
    requires Neat(r) && IsAround(s, a, r, b)
    ensures TrimSpace(s) == r
    decreases |a| + |b|
  {
    if a != "" {
      assert s[0] == a[0] && s[1..] == a[1..] + r + b;
      TrimAround(s[1..], a[1..], r, b);
    } else if r == "" && b != "" {
      assert s[0] == b[0] && s[1..] == "" + "" + b[1..];
      TrimAround(s[1..], "", "", b[1..]);
    } else if b != "" {
      assert s[0] == r[0] && s[|s| - 1] == b[|b| - 1] && s[..|s| - 1] == "" + r + b[..|b| - 1];
      TrimAround(s[..|s| - 1], "", r, b[..|b| - 1]);
    }
  }

  /** TrimSpace takes the spaces around and nothing else. */
  lemma TrimIff(s: string, r: string)
    ensures TrimSpace(s) == r <==> Trimmed(s, r)
  {
    var a, b := TrimParts(s);
    if Trimmed(s, r) {
      var a', b' :| IsAround(s, a', r, b');
      TrimAround(s, a', r, b');
    }
  }

  // ---------- The three cells ----------

  const HREF: string := "href=\""
  const QUOTE: string := "\""
  const ISO: string := "?iso="

  function FirstOf(cut: Option<(string, string)>): string {
    match cut case None => "" case Some((pre, _)) => pre
  }

  ghost predicate IsHref(s: string, href: string) {
    exists pre, rest, post :: Split(s, HREF, pre, rest) && Split(rest, QUOTE, href, post)
  }

  lemma TextAt(s: string, start: nat, d: string)
    requires start <= |s|
    ensures TextFrom(s, start, d) == FirstOf(CutAt(s[start..], d))
  {
  }

  lemma HrefByCuts(s: string)
    ensures ExtractHref(s) ==
              match CutAt(s, HREF)
              case None => ""
              case Some((_, rest)) => FirstOf(CutAt(rest, QUOTE))
  {
    var h := Index(s, HREF);
    if h >= 0 {
      TextAt(s, h + 6, QUOTE);
    }
  }

  lemma HrefIff(s: string, href: string)
    requires href != ""
    ensures ExtractHref(s) == href <==> IsHref(s, href)
  {
    HrefByCuts(s);
    TwoCuts(s, HREF, QUOTE, href);
  }

  /** The text between the first `d` and the next `d2`. */
  lemma TwoCuts(s: string, d: string, d2: string, t: string)
    requires Unbordered(d) && Unbordered(d2) && t != ""
    ensures
      (match CutAt(s, d) case None => "" case Some((_, rest)) => FirstOf(CutAt(rest, d2))) == t <==>
        exists pre, rest, post :: Split(s, d, pre, rest) && Split(rest, d2, t, post)
  {
    if cut :| CutAt(s, d) == Some(cut) {
      CutIff(s, d, cut.0, cut.1);
      if cut2 :| CutAt(cut.1, d2) == Some(cut2) {
        CutIff(cut.1, d2, cut2.0, cut2.1);
      }
    }
    if pre, rest, post :| Split(s, d, pre, rest) && Split(rest, d2, t, post) {
      CutIff(s, d, pre, rest);
      CutIff(rest, d2, t, post);
    }
  }

  /** What stands before the first `d`, or everything. */
  ghost predicate IsUpTo(s: string, d: string, t: string) {
    (t == s && !Contains(s, d)) || exists post :: Split(s, d, t, post)
  }

  lemma UpToIff(s: string, d: string, t: string)
    requires Unbordered(d)
    ensures UpTo(s, d) == t <==> IsUpTo(s, d, t)
  {
    if cut :| CutAt(s, d) == Some(cut) {
      CutIff(s, d, cut.0, cut.1);
    }
    if post :| Split(s, d, t, post) {
      CutIff(s, d, t, post);
    }
  }

  /** The start time in a link: after the first "?iso=", up to an ampersand if there is one. */
  ghost predicate IsTime(href: string, time: string) {
    exists path, rest :: Split(href, ISO, path, rest) && IsUpTo(rest, "&", time)
  }

  function TimeOf(href: string): Option<string> {
    match CutAt(href, ISO)
    case None => None
    case Some((_, rest)) => Some(UpTo(rest, "&"))
  }

  lemma TimeIff(href: string, time: string)
    ensures TimeOf(href) == Some(time) <==> IsTime(href, time)
  {
    if cut :| CutAt(href, ISO) == Some(cut) {
      CutIff(href, ISO, cut.0, cut.1);
      UpToIff(cut.1, "&", time);
    }
    if path, rest :| Split(href, ISO, path, rest) && IsUpTo(rest, "&", time) {
      CutIff(href, ISO, path, rest);
      UpToIff(rest, "&", time);
    }
  }

  /** The text of a link: from the end of the first "<a" tag to the next "</a>". */
  ghost predicate IsLinkText(s: string, text: string) {
    exists pre, rest, attrs, body, post ::
      Split(s, "<a", pre, rest) && Split(rest, ">", attrs, body) && Split(body, "</a>", text, post)
  }

  function SecondOf(cut: Option<(string, string)>): Option<string> {
    match cut case None => None case Some((_, post)) => Some(post)
  }

  function TagBody(s: string, tag: string, end: string): Option<string> {
    match CutAt(s, tag)
    case None => None
    case Some((_, rest)) => SecondOf(CutAt(rest, end))
  }

  function BodyText(body: Option<string>, close: string): string {
    match body case None => "" case Some(b) => FirstOf(CutAt(b, close))
  }

  /** The search for the end of the tag starts at its beginning; that makes no difference. */
  lemma AfterTagByCuts(s: string, tag: string, c: char, close: string, a: nat, rest: string)
    requires tag != "" && c !in tag && Index(s, tag) == a && rest == s[a + |tag|..]
    ensures AfterTag(s, a, [c], close) == BodyText(SecondOf(CutAt(rest, [c])), close)
  {
    TagCut(s, tag, c, a, s[a..], rest);
    AfterTagText(s, a, [c], close, Index(s[a..], [c]), CutAt(rest, [c]));
  }

  lemma BodyTextAt(s: string, start: nat, close: string, body: string)
    requires start <= |s| && body == s[start..]
    ensures TextFrom(s, start, close) == BodyText(Some(body), close)
  {
    TextAt(s, start, close);
  }

  lemma AfterTagText(s: string, a: nat, end: string, close: string, i: int, cut: Option<(string, string)>)
    requires a <= |s| && Index(s[a..], end) == i && (i < 0 <==> cut.None?)
    requires i >= 0 ==> s[a + i + |end|..] == cut.value.1
    ensures AfterTag(s, a, end, close) == BodyText(SecondOf(cut), close)
  {
    if i >= 0 {
      BodyTextAt(s, a + i + |end|, close, cut.value.1);
    }
  }

  lemma TagBodyIs(s: string, tag: string, end: string, a: nat, rest: string)
    requires tag != "" && Index(s, tag) == a && rest == s[a + |tag|..]
    ensures TagBody(s, tag, end) == SecondOf(CutAt(rest, end))
  {
  }

  lemma TagTextIs(s: string, tag: string, end: string, close: string, a: nat)
    requires tag != "" && Index(s, tag) == a
    ensures TagText(s, tag, end, close) == AfterTag(s, a, end, close)
  {
  }

  lemma TagTextByCuts(s: string, tag: string, c: char, close: string)
    requires tag != "" && c !in tag
    ensures TagText(s, tag, [c], close) == BodyText(TagBody(s, tag, [c]), close)
  {
    var a := Index(s, tag);
    if a >= 0 {
      var rest := s[a + |tag|..];
      TagTextIs(s, tag, [c], close, a);
      TagBodyIs(s, tag, [c], a, rest);
      AfterTagByCuts(s, tag, c, close, a, rest);
    }
  }

  lemma LinkTextByCuts(s: string)
    ensures ExtractHrefText(s) == BodyText(TagBody(s, "<a", ">"), "</a>")
  {
    TagTextByCuts(s, "<a", '>', "</a>");
    assert ">" == ['>'];
  }

  lemma TagBodyIff(s: string, tag: string, end: string, body: string)
    requires Unbordered(tag) && Unbordered(end)
    ensures TagBody(s, tag, end) == Some(body) <==>
              exists pre, rest, attrs :: Split(s, tag, pre, rest) && Split(rest, end, attrs, body)
  {
    if cut :| CutAt(s, tag) == Some(cut) {
      CutIff(s, tag, cut.0, cut.1);
      if cut2 :| CutAt(cut.1, end) == Some(cut2) {
        CutIff(cut.1, end, cut2.0, cut2.1);
      }
    }
    if pre, rest, attrs :| Split(s, tag, pre, rest) && Split(rest, end, attrs, body) {
      CutIff(s, tag, pre, rest);
      CutIff(rest, end, attrs, body);
    }
  }

  lemma LinkTextSound(s: string)
    ensures ExtractHrefText(s) != "" ==> IsLinkText(s, ExtractHrefText(s))
  {
    LinkTextByCuts(s);
    if ExtractHrefText(s) != "" {
      var body := TagBody(s, "<a", ">").value;
      TagBodyIff(s, "<a", ">", body);
      var cut := CutAt(body, "</a>").value;
      CutIff(body, "</a>", cut.0, cut.1);
    }
  }

  lemma LinkTextComplete(s: string, text: string)
    requires IsLinkText(s, text)
    ensures ExtractHrefText(s) == text
  {
    var pre, rest, attrs, body, post :|
      Split(s, "<a", pre, rest) && Split(rest, ">", attrs, body) && Split(body, "</a>", text, post);
    TagBodyIff(s, "<a", ">", body);
    CutIff(body, "</a>", text, post);
    LinkTextByCuts(s);
  }

  /** The name: the text of the link without its tags and without the spaces around it. */
  ghost predicate IsName(s: string, name: string) {
    exists text :: IsLinkText(s, text) && Trimmed(Visible(text, false), name)
  }

  lemma NameIff(s: string, name: string)
    requires name != ""
    ensures StripTags(ExtractHrefText(s)) == name <==> IsName(s, name)
  {
    if StripTags(ExtractHrefText(s)) == name {
      LinkTextSound(s);
      TrimIff(Visible(ExtractHrefText(s), false), name);
    }
    if IsName(s, name) {
      var text :| IsLinkText(s, text) && Trimmed(Visible(text, false), name);
      LinkTextComplete(s, text);
      TrimIff(Visible(text, false), name);
    }
  }

  /** Hours and minutes: the text of the cell, trimmed, cut at its first colon. */
  ghost predicate IsDuration(s: string, hours: string, minutes: string) {
    exists text :: Trimmed(Visible(s, false), text) && Split(text, ":", hours, minutes)
  }

  lemma DurationIff(s: string, hours: string, minutes: string)
    ensures CutAt(StripTags(s), ":") == Some((hours, minutes)) <==> IsDuration(s, hours, minutes)
  {
    TrimIff(Visible(s, false), StripTags(s));
    CutIff(StripTags(s), ":", hours, minutes);
    if text :| Trimmed(Visible(s, false), text) && Split(text, ":", hours, minutes) {
      TrimIff(Visible(s, false), text);
    }
  }

  // ---------- The row ----------

  /** What the first three cells say. */
  datatype Said = Said(href: string, time: string, name: string, hours: string, minutes: string)

  ghost predicate Says(cells: seq<string>, f: Said) {
    && |cells| >= 3 && IsHref(cells[0], f.href) && IsTime(f.href, f.time)
    && IsName(cells[1], f.name) && f.name != "" && IsDuration(cells[2], f.hours, f.minutes)
  }

  /** The contest of a row that says this; none when the time cannot be parsed. */
  function Announced(lib: Library, f: Said): Option<Contest> {
    match lib.parseTime(f.time)
    case None => None
    case Some(start) =>
      var seconds := 3600 * lib.atoi(f.hours) + 60 * lib.atoi(f.minutes);
      Some(Contest("atcoder" + "_" + Ids.Decimal(start), f.name, "https://atcoder.jp" + f.href,
                   start, start + seconds, seconds, "atcoder"))
  }

  /** The cuts the code makes, all at once. */
  function Fields(cells: seq<string>): Option<Said> {
    if |cells| < 3 then None else
    var href := ExtractHref(cells[0]);
    FieldsFrom(href, TimeOf(href), StripTags(ExtractHrefText(cells[1])), CutAt(StripTags(cells[2]), ":"))
  }

  function FieldsFrom(href: string, time: Option<string>, name: string, cut: Option<(string, string)>): Option<Said> {
    if href == "" || name == "" || time.None? || cut.None? then None
    else Some(Said(href, time.value, name, cut.value.0, cut.value.1))
  }

  lemma StartByCuts(href: string, lib: Library)
    ensures StartTime(href, lib) == match TimeOf(href) case None => None case Some(time) => lib.parseTime(time)
  {
  }

  function SecondsOf(cut: Option<(string, string)>, lib: Library): Option<int> {
    match cut
    case None => None
    case Some((hours, minutes)) => Some(3600 * lib.atoi(hours) + 60 * lib.atoi(minutes))
  }

  lemma SecondsByCuts(text: string, lib: Library)
    ensures Seconds(text, lib) == SecondsOf(CutAt(text, ":"), lib)
  {
  }

  function AnnouncedBy(lib: Library, f: Option<Said>): Option<Contest> {
    match f case None => None case Some(said) => Announced(lib, said)
  }

  lemma FromFields(lib: Library, href: string, time: Option<string>, name: string, cut: Option<(string, string)>,
                   start: Option<int>, seconds: Option<int>)
    requires start == match time case None => None case Some(t) => lib.parseTime(t)
    requires seconds == SecondsOf(cut, lib)
    ensures ContestFrom(href, start, seconds, name) == AnnouncedBy(lib, FieldsFrom(href, time, name, cut))
  {
  }

  lemma RowByFields(cells: seq<string>, lib: Library)
    ensures RowContest(cells, lib) == AnnouncedBy(lib, Fields(cells))
  {
    if |cells| >= 3 {
      RowByFieldsOf(lib, ExtractHref(cells[0]), StripTags(ExtractHrefText(cells[1])), StripTags(cells[2]));
    }
  }

  lemma RowByFieldsOf(lib: Library, href: string, name: string, text: string)
    ensures ContestFrom(href, StartTime(href, lib), Seconds(text, lib), name) ==
              AnnouncedBy(lib, FieldsFrom(href, TimeOf(href), name, CutAt(text, ":")))
  {
    StartByCuts(href, lib);
    SecondsByCuts(text, lib);
    FromFields(lib, href, TimeOf(href), name, CutAt(text, ":"), StartTime(href, lib), Seconds(text, lib));
  }

  lemma TimeNeedsHref(href: string, time: string)
    requires IsTime(href, time)
    ensures href != ""
  {
    var path, rest :| Split(href, ISO, path, rest) && IsUpTo(rest, "&", time);
  }

  lemma FieldsIff(cells: seq<string>, f: Said)
    ensures Fields(cells) == Some(f) <==> Says(cells, f)
  {
    if |cells| >= 3 {
      if f.name != "" {
        NameIff(cells[1], f.name);
      }
      if f.href != "" {
        HrefIff(cells[0], f.href);
      }
      TimeIff(f.href, f.time);
      DurationIff(cells[2], f.hours, f.minutes);
      if Says(cells, f) {
        TimeNeedsHref(f.href, f.time);
      }
    }
  }

  /** A row becomes a contest if and only if its cells say so and the time can be parsed; in every other case it is
      skipped. */
  lemma RowIff(cells: seq<string>, lib: Library, c: Contest)
    ensures RowContest(cells, lib) == Some(c) <==> exists f :: Says(cells, f) && Announced(lib, f) == Some(c)
  {
    RowByFields(cells, lib);
    if f :| Fields(cells) == Some(f) {
      FieldsIff(cells, f);
    }
    if f :| Says(cells, f) && Announced(lib, f) == Some(c) {
      FieldsIff(cells, f);
    }
  }

  lemma RowSkippedIff(cells: seq<string>, lib: Library)
    ensures RowContest(cells, lib).None? <==> forall f :: Says(cells, f) ==> lib.parseTime(f.time).None?
  {
    RowByFields(cells, lib);
    if f :| Fields(cells) == Some(f) {
      FieldsIff(cells, f);
    }
    forall f | Says(cells, f) ensures Fields(cells) == Some(f) {
      FieldsIff(cells, f);
    }
  }

  // ---------- Printed rows ----------

  /** A contest as the page shows it: a link with the time in it, a link with the name, and the duration. */
  datatype Listing = Listing(beforeHref: string, path: string, time: string, query: string, afterHref: string,
                             beforeName: string, attrs: string, name: seq<Markup>, afterName: string,
                             duration: seq<Markup>, hours: string, minutes: string)

  function LinkOf(l: Listing): string {
    l.path + ISO + (l.time + l.query)
  }

  function TimeCell(l: Listing): string {
    l.beforeHref + HREF + (LinkOf(l) + QUOTE + l.afterHref)
  }

  function NameCell(l: Listing): string {
    l.beforeName + "<a" + (l.attrs + ">" + (PrintMarkup(l.name) + "</a>" + l.afterName))
  }

  ghost predicate MarkupOk(ms: seq<Markup>) {
    forall m :: m in ms ==> NoBrackets(if m.Plain? then m.text else m.body)
  }

  /** No piece holds the delimiter that ends it, and the texts have spaces only around them. */
  ghost predicate ListingOk(l: Listing, name: string) {
    && !Contains(l.beforeHref, HREF) && !Contains(LinkOf(l), QUOTE) && !Contains(l.path, ISO)
    && !Contains(l.time, "&") && (l.query != "" ==> l.query[0] == '&')
    && !Contains(l.beforeName, "<a") && !Contains(l.attrs, ">") && !Contains(PrintMarkup(l.name), "</a>")
    && MarkupOk(l.name) && Trimmed(PlainText(l.name), name) && name != ""
    && MarkupOk(l.duration) && Trimmed(PlainText(l.duration), l.hours + ":" + l.minutes) && !Contains(l.hours, ":")
  }

  lemma LinkIsHref(l: Listing, name: string)
    requires ListingOk(l, name)
    ensures IsHref(TimeCell(l), LinkOf(l))
  {
    assert Split(TimeCell(l), HREF, l.beforeHref, LinkOf(l) + QUOTE + l.afterHref);
    assert Split(LinkOf(l) + QUOTE + l.afterHref, QUOTE, LinkOf(l), l.afterHref);
  }

  lemma TimeIsThere(l: Listing, name: string)
    requires ListingOk(l, name)
    ensures IsTime(LinkOf(l), l.time)
  {
    var rest := l.time + l.query;
    assert Split(LinkOf(l), ISO, l.path, rest);
    if l.query == "" {
      assert rest == l.time;
    } else {
      assert l.query == "&" + l.query[1..];
      assert Split(rest, "&", l.time, l.query[1..]) by {
        assert rest == l.time + "&" + l.query[1..];
      }
    }
  }

  lemma NameIsThere(l: Listing, name: string)
    requires ListingOk(l, name)
    ensures IsName(NameCell(l), name)
  {
    var text := PrintMarkup(l.name);
    var body := text + "</a>" + l.afterName;
    assert Split(NameCell(l), "<a", l.beforeName, l.attrs + ">" + body);
    assert Split(l.attrs + ">" + body, ">", l.attrs, body);
    assert Split(body, "</a>", text, l.afterName);
    assert IsLinkText(NameCell(l), text);
    VisibleOfMarkup(l.name);
  }

  lemma DurationIsThere(l: Listing, name: string)
    requires ListingOk(l, name)
    ensures IsDuration(PrintMarkup(l.duration), l.hours, l.minutes)
  {
    VisibleOfMarkup(l.duration);
    assert Split(l.hours + ":" + l.minutes, ":", l.hours, l.minutes);
  }

  /** The cells of a row show a contest. */
  ghost predicate Shows(cells: seq<string>, l: Listing, name: string) {
    && |cells| >= 3 && cells[0] == TimeCell(l) && cells[1] == NameCell(l) && cells[2] == PrintMarkup(l.duration)
    && ListingOk(l, name)
  }

  /** A printed row becomes the contest with its trimmed name, its link under the site's address, the start its time
      stands for, and an end after 3600 seconds per hour and 60 per minute; none if the time cannot be parsed. */
  lemma PrintedRowIsScanned(cells: seq<string>, l: Listing, name: string, lib: Library)
    requires Shows(cells, l, name)
    ensures
      var href := l.path + "?iso=" + (l.time + l.query);
      var seconds := 3600 * lib.atoi(l.hours) + 60 * lib.atoi(l.minutes);
      RowContest(cells, lib) ==
        match lib.parseTime(l.time)
        case None => None
        case Some(start) =>
          Some(Contest(Ids.ContestId("atcoder", start), name, "https://atcoder.jp" + href, start, start + seconds,
                       seconds, "atcoder"))
  {
    PrintedSays(cells, l, name);
    SaidRow(cells, SaidBy(l, name), lib);
    AnnouncedIs(l, name, lib);
  }

  function SaidBy(l: Listing, name: string): Said {
    Said(LinkOf(l), l.time, name, l.hours, l.minutes)
  }

  lemma PrintedSays(cells: seq<string>, l: Listing, name: string)
    requires Shows(cells, l, name)
    ensures Says(cells, SaidBy(l, name))
  {
    LinkIsHref(l, name);
    TimeIsThere(l, name);
    NameIsThere(l, name);
    DurationIsThere(l, name);
  }

  lemma SaidRow(cells: seq<string>, f: Said, lib: Library)
    requires Says(cells, f)
    ensures RowContest(cells, lib) == Announced(lib, f)
  {
    FieldsIff(cells, f);
    RowByFields(cells, lib);
  }

  lemma AnnouncedIs(l: Listing, name: string, lib: Library)
    ensures
      var href := l.path + "?iso=" + (l.time + l.query);
      var seconds := 3600 * lib.atoi(l.hours) + 60 * lib.atoi(l.minutes);
      Announced(lib, SaidBy(l, name)) ==
        match lib.parseTime(l.time)
        case None => None
        case Some(start) =>
          Some(Contest(Ids.ContestId("atcoder", start), name, "https://atcoder.jp" + href, start, start + seconds,
                       seconds, "atcoder"))
  {
  }

  // ---------- The table on a page ----------

  /** The text between the second "<tbody>" and the next "</tbody>". */
  ghost predicate IsTable(html: string, table: string) {
    exists pre, rest, mid, body, post ::
      Split(html, "<tbody>", pre, rest) && Split(rest, "<tbody>", mid, body) && Split(body, "</tbody>", table, post)
  }

  function SecondBody(html: string): Option<string> {
    TagBody(html, "<tbody>", "<tbody>")
  }

  function FirstOption(cut: Option<(string, string)>): Option<string> {
    match cut case None => None case Some((pre, _)) => Some(pre)
  }

  lemma AfterBodyIs(html: string, from: nat)
    requires from <= |html|
    ensures
      var r := AfterBody(html, from);
      SecondOf(CutAt(html[from..], "<tbody>")) == if r < 0 then None else Some(html[r..])
  {
    CutFrom(html, "<tbody>", from);
  }

  lemma UpToBodyEndIs(html: string, from: nat)
    requires from <= |html|
    ensures UpToBodyEnd(html, from) == FirstOption(CutAt(html[from..], "</tbody>"))
  {
    CutFrom(html, "</tbody>", from);
  }

  lemma TableByCuts(html: string)
    ensures FindTable(html) ==
              match SecondBody(html)
              case None => None
              case Some(body) => FirstOption(CutAt(body, "</tbody>"))
  {
    assert html[0..] == html;
    AfterBodyIs(html, 0);
    var first := AfterBody(html, 0);
    if first >= 0 {
      AfterBodyIs(html, first);
      var second := AfterBody(html, first);
      if second >= 0 {
        UpToBodyEndIs(html, second);
      }
    }
  }

  /** The scanner takes exactly the second table body of a page; without two, or without its end,
    it reports an error. */
  lemma TableIff(html: string, table: string)
    ensures FindTable(html) == Some(table) <==> IsTable(html, table)
  {
    TableByCuts(html);
    if body :| SecondBody(html) == Some(body) {
      TagBodyIff(html, "<tbody>", "<tbody>", body);
      CutIff(body, "</tbody>", table, FirstPost(body));
    }
    if pre, rest, mid, body, post :|
       Split(html, "<tbody>", pre, rest) && Split(rest, "<tbody>", mid, body) && Split(body, "</tbody>", table, post) {
      TagBodyIff(html, "<tbody>", "<tbody>", body);
      CutIff(body, "</tbody>", table, post);
    }
  }

  function FirstPost(body: string): string {
    match CutAt(body, "</tbody>") case None => "" case Some((_, post)) => post
  }

  // ---------- Printed pages ----------

  function OneOrNone(c: Option<Contest>): seq<Contest> {
    match c case None => [] case Some(contest) => [contest]
  }

  /** The contests of listings whose time can be parsed, in order. */
  function AllListed(ls: seq<Listing>, names: seq<string>, lib: Library): seq<Contest>
    requires |ls| == |names|
  {
    if ls == [] then []
    else OneOrNone(Announced(lib, SaidBy(ls[0], names[0]))) + AllListed(ls[1..], names[1..], lib)
  }

  ghost predicate AllShow(rows: seq<Row>, ls: seq<Listing>, names: seq<string>) {
    && |rows| == |ls| == |names|
    && forall i :: 0 <= i < |rows| ==> RowOk(rows[i]) && Shows(Contents(rows[i].cells), ls[i], names[i])
  }

  lemma ListedRow(cells: seq<string>, l: Listing, name: string, lib: Library)
    requires Shows(cells, l, name)
    ensures ContestOfRow(lib)(cells) == OneOrNone(Announced(lib, SaidBy(l, name)))
  {
    PrintedSays(cells, l, name);
    SaidRow(cells, SaidBy(l, name), lib);
  }

  lemma {:induction false} ListedRows(rows: seq<Row>, ls: seq<Listing>, names: seq<string>, lib: Library)
    requires AllShow(rows, ls, names)
    ensures RowsContests(rows, ContestOfRow(lib)) == AllListed(ls, names, lib)
    decreases |rows|
  {
    if rows != [] {
      ListedRow(Contents(rows[0].cells), ls[0], names[0], lib);
      ListedRows(rows[1..], ls[1..], names[1..], lib);
    }
  }

  /** From a page whose second table lists contests the scanner gets exactly these, in order. */
  lemma PageRoundTrip(rows: seq<Row>, ls: seq<Listing>, names: seq<string>, lib: Library, trailer: string,
                      pre: string, mid: string, post: string, table: string)
    requires AllShow(rows, ls, names) && !Contains(trailer, "<tr>")
    requires table == PrintRows(rows, trailer) && PageOk(pre, mid, table)
    ensures FindTable(Page(pre, mid, table, post)) == Some(table)
    ensures TableContests(table, ContestOfRow(lib)) == AllListed(ls, names, lib)
  {
    TableOnPage(pre, mid, table, post, Page(pre, mid, table, post));
    forall r | r in rows ensures RowOk(r) {
      var i :| 0 <= i < |rows| && rows[i] == r;
    }
    TableRoundTrip(rows, trailer, ContestOfRow(lib));
    ListedRows(rows, ls, names, lib);
  }
}
