/**
  internal/observability/telegram.go: cutting a notification into messages of
  at most `limit` bytes, and the HTML escaping of what goes into them.
 */
module Telegram {
  import opened Strings

  // ---------- SplitMessage ----------

  /** Where one turn of the loop cuts a text longer than the limit. */
  function Cut(text: string, limit: nat): (idx: nat)
    requires 1 <= limit < |text|
    ensures 1 <= idx <= limit
  {
    var idx := LastIndex(text[..limit], '\n');
    if idx == 0 then 1 else if idx == -1 then limit else idx
  }

  function Chunks(text: string, limit: int): (chunks: seq<string>)
    requires limit >= 1 || |text| <= limit
    ensures |chunks| >= 1
  {
    if |text| <= limit then [text]
    else [text[..Cut(text, limit)]] + Chunks(text[Cut(text, limit)..], limit)
  }

  function Joined(chunks: seq<string>): string {
    if chunks == [] then "" else chunks[0] + Joined(chunks[1..])
  }

  /** The loop; on a longer text the original never returns with a limit of 0, and panics with a negative one. */
  method SplitMessage(text: string, limit: int) returns (chunks: seq<string>)
    requires limit >= 1 || |text| <= limit
    ensures chunks == Chunks(text, limit)
  {
    chunks := [];
    var rest := text;
    while |rest| > limit
      invariant limit >= 1 || |rest| <= limit
      invariant chunks + Chunks(rest, limit) == Chunks(text, limit)
      decreases |rest|
    {
      var idx := LastIndex(rest[..limit], '\n');
      if idx == 0 {
        idx := 1;
      } else if idx == -1 {
        idx := limit;
      }
      chunks := chunks + [rest[..idx]];
      rest := rest[idx..];
    }
    chunks := chunks + [rest];
  }

  lemma {:induction false} SplitIsLossless(text: string, limit: int)
    requires limit >= 1 || |text| <= limit
    ensures Joined(Chunks(text, limit)) == text
    decreases |text|
  {
    if |text| > limit {
      var idx := Cut(text, limit);
      SplitIsLossless(text[idx..], limit);
      assert text == text[..idx] + text[idx..];
    } else {
      assert Joined([text][1..]) == "";
    }
  }

  /** Every message fits, and only an empty notification gives an empty one. */
  lemma {:induction false} SplitFits(text: string, limit: int)
    requires limit >= 1 || |text| <= limit
    ensures forall c :: c in Chunks(text, limit) ==> |c| <= limit && (c == "" ==> text == "")
    decreases |text|
  {
    if |text| > limit {
      SplitFits(text[Cut(text, limit)..], limit);
    }
  }

  /** Where a chunk may end, with `rest` still to come: at the limit if there is no newline in reach; after a newline
      that is the only one and comes first; else before the last newline in reach. */
  predicate WellCut(chunk: string, rest: string, limit: nat)
    requires limit <= |chunk + rest|
  {
    var reach := (chunk + rest)[..limit];
    if '\n' !in reach then |chunk| == limit
    else if reach[0] == '\n' && '\n' !in reach[1..] then chunk == "\n"
    else 0 < |chunk| < limit && rest != "" && rest[0] == '\n' && '\n' !in reach[|chunk| + 1..]
  }

  lemma CutIsWellCut(text: string, limit: nat)
    requires 1 <= limit < |text|
    ensures WellCut(text[..Cut(text, limit)], text[Cut(text, limit)..], limit)
  {
    var idx, reach := Cut(text, limit), text[..limit];
    assert text[..idx] + text[idx..] == text;
    var last := LastIndex(reach, '\n');
    assert last > 0 ==> text[idx..][0] == '\n';
    assert last >= 0 ==> forall k :: last < k < limit ==> reach[k] != '\n';
    if last > 0 {
      assert '\n' in reach[1..] by {
        assert reach[1..][last - 1] == '\n';
      }
    }
    if last == 0 {
      assert text[..1] == "\n";
    }
  }

  /** Every chunk but the last is cut at the last newline in reach, or at the limit when there is none. */
  lemma {:induction false} CutsAtNewlines(text: string, limit: nat, i: nat)
    requires limit >= 1 && i < |Chunks(text, limit)| - 1
    ensures
      var chunks := Chunks(text, limit);
      |chunks[i] + Joined(chunks[i + 1..])| > limit && WellCut(chunks[i], Joined(chunks[i + 1..]), limit)
    decreases |text|
  {
    var idx := Cut(text, limit);
    var rest := text[idx..];
    var chunks := Chunks(text, limit);
    assert chunks[1..] == Chunks(rest, limit);
    if i == 0 {
      SplitIsLossless(rest, limit);
      CutIsWellCut(text, limit);
      assert text[..idx] + rest == text;
    } else {
      CutsAtNewlines(rest, limit, i - 1);
      assert chunks[i + 1..] == Chunks(rest, limit)[i..];
    }
  }

  /** Three messages in a row, none the last, carry at least `limit` bytes. */
  lemma {:induction false} ThreeChunksFillTheLimit(text: string, limit: nat, i: nat)
    requires limit >= 1
    requires i + 3 < |Chunks(text, limit)|
    ensures var c := Chunks(text, limit); |c[i]| + |c[i + 1]| + |c[i + 2]| >= limit
    decreases i
  {
    var x := Cut(text, limit);
    var t1 := text[x..];
    if i > 0 {
      ThreeChunksFillTheLimit(t1, limit, i - 1);
    } else {
      var y := Cut(t1, limit);
      var t2 := t1[y..];
      var z := Cut(t2, limit);
      assert Chunks(text, limit)[1] == t1[..y];
      assert Chunks(text, limit)[2] == t2[..z];
      CutsCoverAfter(text, limit, x);
      CutsCoverAfter(t1, limit, y);
    }
  }

  /** After a cut at `idx` there is no newline until the end of the window that was searched. */
  lemma CutsCoverAfter(text: string, limit: nat, idx: nat)
    requires 1 <= limit < |text| && idx == Cut(text, limit)
    ensures forall k :: idx < k < limit ==> text[k] != '\n'
    ensures idx < limit && idx > 1 ==> text[idx] == '\n'
    ensures idx < limit && idx == 1 ==> text[1] == '\n' || (text[0] == '\n' && text[1] != '\n')
  {
    var last := LastIndex(text[..limit], '\n');
    assert forall k :: 0 <= k < limit ==> text[..limit][k] == text[k];
  }

  /** Taking off three messages takes off at least `limit` bytes. */
  lemma DropThreeChunks(text: string, limit: nat) returns (k: nat)
    requires limit >= 1
    requires |Chunks(text, limit)| > 3
    ensures limit <= k <= |text|
    ensures |Chunks(text[k..], limit)| == |Chunks(text, limit)| - 3
  {
    var x := Cut(text, limit);
    var t1 := text[x..];
    assert |Chunks(t1, limit)| == |Chunks(text, limit)| - 1;
    var y := Cut(t1, limit);
    var t2 := t1[y..];
    assert |Chunks(t2, limit)| == |Chunks(text, limit)| - 2;
    var z := Cut(t2, limit);
    k := x + y + z;
    assert text[k..] == t2[z..];
    ThreeChunksFillTheLimit(text, limit, 0);
    assert Chunks(text, limit)[1] == t1[..y];
    assert Chunks(text, limit)[2] == t2[..z];
  }

  lemma {:induction false} ChunkQuota(text: string, limit: nat, q: nat)
    requires limit >= 1
    requires |Chunks(text, limit)| > 3 * q
    ensures q * limit <= |text|
    decreases q
  {
    if q > 0 {
      var k := DropThreeChunks(text, limit);
      ChunkQuota(text[k..], limit, q - 1);
      assert (q - 1) * limit + limit == q * limit;
    }
  }

  /** How many messages a notification can become. */
  lemma ChunkCount(text: string, limit: nat)
    requires limit >= 1
    ensures |Chunks(text, limit)| <= 3 * (|text| / limit) + 3
  {
    var q := (|Chunks(text, limit)| - 1) / 3;
    ChunkQuota(text, limit, q);
    QuotientAtLeast(|text|, limit, q);
  }

  lemma QuotientAtLeast(n: nat, d: nat, q: nat)
    requires d >= 1 && q * d <= n
    ensures q <= n / d
  {
    var r := n / d;
    assert n == r * d + n % d;
    assert r < q ==> (r + 1) * d <= q * d;
  }

  // ---------- EscapeHTML ----------

  /** The chain of replacements, on text that is already valid UTF-8. */
  function EscapeHTML(text: string): string {
    var t0 := ReplaceAll(text, '\0', "");
    var t1 := ReplaceAll(t0, '&', "&amp;");
    var t2 := ReplaceAll(t1, '<', "&lt;");
    ReplaceAll(t2, '>', "&gt;")
  }

  /** Reading the three entities back, one pass from the left. */
  function UnescapeHTML(s: string): string {
    if s == "" then ""
    else if At(s, "&amp;", 0) then "&" + UnescapeHTML(s[5..])
    else if At(s, "&lt;", 0) then "<" + UnescapeHTML(s[4..])
    else if At(s, "&gt;", 0) then ">" + UnescapeHTML(s[4..])
    else [s[0]] + UnescapeHTML(s[1..])
  }

  lemma EscapeHTMLConcat(a: string, b: string)
    ensures EscapeHTML(a + b) == EscapeHTML(a) + EscapeHTML(b)
  {
    ReplaceAllConcat(a, b, '\0', "");
    var a0, b0 := ReplaceAll(a, '\0', ""), ReplaceAll(b, '\0', "");
    ReplaceAllConcat(a0, b0, '&', "&amp;");
    var a1, b1 := ReplaceAll(a0, '&', "&amp;"), ReplaceAll(b0, '&', "&amp;");
    ReplaceAllConcat(a1, b1, '<', "&lt;");
    ReplaceAllConcat(ReplaceAll(a1, '<', "&lt;"), ReplaceAll(b1, '<', "&lt;"), '>', "&gt;");
  }

  /** What the chain does to one character. */
  function Entity(c: char): string {
    if c == '\0' then "" else if c == '&' then "&amp;" else if c == '<' then "&lt;"
    else if c == '>' then "&gt;" else [c]
  }

  lemma EscapeHTMLChar(c: char)
    ensures EscapeHTML([c]) == Entity(c)
  {
    ReplaceOne(c, '\0', "");
    ReplaceOne(c, '&', "&amp;");
    ReplaceOne(c, '<', "&lt;");
    ReplaceOne(c, '>', "&gt;");
    if c == '&' {
      assert ReplaceAll("&amp;", '<', "&lt;") == "&amp;" by { NothingToReplace("&amp;", '<', "&lt;"); }
      assert ReplaceAll("&amp;", '>', "&gt;") == "&amp;" by { NothingToReplace("&amp;", '>', "&gt;"); }
    } else if c == '<' {
      assert ReplaceAll("&lt;", '>', "&gt;") == "&lt;" by { NothingToReplace("&lt;", '>', "&gt;"); }
    }
  }

  /** Escaping is one pass over the characters: no replacement disturbs an earlier one. */
  lemma {:induction false} EscapeHTMLIsOnePass(text: string)
    ensures EscapeHTML(text) == Expand(Entity, text)
    ensures '<' !in EscapeHTML(text) && '>' !in EscapeHTML(text)
    decreases |text|
  {
    if text != "" {
      assert text == [text[0]] + text[1..];
      EscapeHTMLConcat([text[0]], text[1..]);
      EscapeHTMLChar(text[0]);
      EscapeHTMLIsOnePass(text[1..]);
    }
  }

  /** The text comes back from the escaped form, less its NUL characters. */
  lemma {:induction false} EscapeHTMLRoundTrip(text: string)
    ensures UnescapeHTML(EscapeHTML(text)) == Without(text, '\0')
    decreases |text|
  {
    if text != "" {
      EscapeHTMLIsOnePass(text);
      EscapeHTMLIsOnePass(text[1..]);
      EscapeHTMLRoundTrip(text[1..]);
      UnescapeEntity(text[0], EscapeHTML(text[1..]));
    }
  }

  lemma UnescapeEntity(c: char, tail: string)
    ensures UnescapeHTML(Entity(c) + tail) == (if c == '\0' then "" else [c]) + UnescapeHTML(tail)
  {
    var e := Entity(c);
    var s := e + tail;
    assert s[|e|..] == tail;
    if c == '\0' {
      assert s == tail;
    } else if c == '<' {
      assert s[0 + 1] == 'l' != "&amp;"[1];
    } else if c == '>' {
      assert s[0 + 1] == 'g' != "&amp;"[1] && s[0 + 1] != "&lt;"[1];
    } else if c != '&' {
      assert s[0 + 0] == c != "&amp;"[0] && c != "&lt;"[0] && c != "&gt;"[0];
    }
  }
}
