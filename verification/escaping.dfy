/**
 HTML escaping as the two copies do it: the bot's `escapeHtml` replaces
 `& < > "`, the HTTP server's replaces only `& < >`. Both map an absent
 (or, for the bot, any falsy) argument to the empty string.
 */
module Escaping {
  import opened Wrappers
  import opened Text

  /** Characters the variant replaces; `quotes` selects the bot's variant */
  predicate Special(quotes: bool, c: char) {
    c == '&' || c == '<' || c == '>' || (quotes && c == '"')
  }

  predicate Plain(quotes: bool, s: string) {
    forall i | 0 <= i < |s| :: !Special(quotes, s[i])
  }

  /** The replacement of one character */
  function Entity(quotes: bool, c: char): (r: string)
    ensures '<' !in r && '>' !in r
    ensures quotes || c != '"' ==> '"' !in r
    ensures !Special(quotes, c) <==> r == [c]
    ensures |r| >= 1
  {
    if c == '&' then "&amp;"
    else if c == '<' then "&lt;"
    else if c == '>' then "&gt;"
    else if quotes && c == '"' then "&quot;"
    else [c]
  }

  /** `String(s).replace(/[&<>"]/g, ...)` (bot) or `.replace(/[&<>]/g, ...)` (server) */
  function EscapeText(quotes: bool, s: string): (r: string)
    ensures '<' !in r && '>' !in r
    ensures quotes ==> '"' !in r
    ensures |r| >= |s|
    ensures r == s <==> Plain(quotes, s)
    decreases |s|
  {
    if |s| == 0 then ""
    else
      var rest := EscapeText(quotes, s[1..]);
      assert Plain(quotes, s) <==> !Special(quotes, s[0]) && Plain(quotes, s[1..]);
      Entity(quotes, s[0]) + rest
  }

  /** Decodes the four entities the bot's variant produces; any other character is copied. */
  function Unescape(s: string): string
    decreases |s|
  {
    if |s| == 0 then ""
    else if StartsWith(s, "&amp;") then "&" + Unescape(s[5..])
    else if StartsWith(s, "&lt;") then "<" + Unescape(s[4..])
    else if StartsWith(s, "&gt;") then ">" + Unescape(s[4..])
    else if StartsWith(s, "&quot;") then "\"" + Unescape(s[6..])
    else [s[0]] + Unescape(s[1..])
  }

  lemma UnescapeAmp(rest: string)
    ensures Unescape("&amp;" + rest) == "&" + Unescape(rest)
  {
    var s := "&amp;" + rest;
    assert s[..5] == "&amp;";
    assert s[5..] == rest;
  }

  lemma UnescapeLt(rest: string)
    ensures Unescape("&lt;" + rest) == "<" + Unescape(rest)
  {
    var s := "&lt;" + rest;
    assert s[..4] == "&lt;";
    assert !StartsWith(s, "&amp;") by { assert s[1] == 'l'; }
    assert s[4..] == rest;
  }

  lemma UnescapeGt(rest: string)
    ensures Unescape("&gt;" + rest) == ">" + Unescape(rest)
  {
    var s := "&gt;" + rest;
    assert s[..4] == "&gt;";
    assert !StartsWith(s, "&amp;") by { assert s[1] == 'g'; }
    assert !StartsWith(s, "&lt;") by { assert s[1] == 'g'; }
    assert s[4..] == rest;
  }

  lemma UnescapeQuot(rest: string)
    ensures Unescape("&quot;" + rest) == "\"" + Unescape(rest)
  {
    var s := "&quot;" + rest;
    assert s[..6] == "&quot;";
    assert !StartsWith(s, "&amp;") by { assert s[1] == 'q'; }
    assert !StartsWith(s, "&lt;") by { assert s[1] == 'q'; }
    assert !StartsWith(s, "&gt;") by { assert s[1] == 'q'; }
    assert s[6..] == rest;
  }

  lemma UnescapeOther(c: char, rest: string)
    requires c != '&'
    ensures Unescape([c] + rest) == [c] + Unescape(rest)
  {
    var s := [c] + rest;
    StartsWithHead(s, "&amp;");
    StartsWithHead(s, "&lt;");
    StartsWithHead(s, "&gt;");
    StartsWithHead(s, "&quot;");
    assert s[1..] == rest;
  }

  lemma UnescapeEntity(quotes: bool, c: char, rest: string)
    ensures Unescape(Entity(quotes, c) + rest) == [c] + Unescape(rest)
  {
    if c == '&' {
      UnescapeAmp(rest);
    } else if c == '<' {
      UnescapeLt(rest);
    } else if c == '>' {
      UnescapeGt(rest);
    } else if quotes && c == '"' {
      UnescapeQuot(rest);
    } else {
      UnescapeOther(c, rest);
    }
  }

  /** Escaping loses nothing: decoding the output gives the input back, in both variants. */
  lemma {:induction false} UnescapeEscape(quotes: bool, s: string)
    ensures Unescape(EscapeText(quotes, s)) == s
    decreases |s|
  {
    if |s| > 0 {
      UnescapeEntity(quotes, s[0], EscapeText(quotes, s[1..]));
      UnescapeEscape(quotes, s[1..]);
      assert [s[0]] + s[1..] == s;
    }
  }

  /** Number of occurrences of c in s */
  function Occurrences(s: string, c: char): nat
    decreases |s|
  {
    if |s| == 0 then 0 else (if s[0] == c then 1 else 0) + Occurrences(s[1..], c)
  }

  lemma {:induction false} OccurrencesConcat(a: string, b: string, c: char)
    ensures Occurrences(a + b, c) == Occurrences(a, c) + Occurrences(b, c)
    decreases |a|
  {
    if |a| > 0 {
      assert (a + b)[1..] == a[1..] + b;
      OccurrencesConcat(a[1..], b, c);
    } else {
      assert a + b == b;
    }
  }

  lemma {:induction false} OccurrencesAbsent(s: string, c: char)
    requires c !in s
    ensures Occurrences(s, c) == 0
    decreases |s|
  {
    if |s| > 0 {
      OccurrencesAbsent(s[1..], c);
    }
  }

  /** The server's variant leaves every double quote in place: their number is unchanged. */
  lemma {:induction false} ServerKeepsQuotes(s: string)
    ensures Occurrences(EscapeText(false, s), '"') == Occurrences(s, '"')
    decreases |s|
  {
    if |s| > 0 {
      ServerKeepsQuotes(s[1..]);
      var e := Entity(false, s[0]);
      OccurrencesConcat(e, EscapeText(false, s[1..]), '"');
      if s[0] == '"' {
        assert e == [s[0]];
      } else {
        OccurrencesAbsent(e, '"');
      }
    }
  }

  /** `escapeHtml` of main.js: `if (!str) return ''` and then the four replacements */
  function BotEscapeHtml(str: Option<string>): (r: string)
    ensures r == "" <==> str.None? || str.value == ""
    ensures '<' !in r && '>' !in r && '"' !in r
    ensures Unescape(r) == str.GetOr("")
  {
    match str
    case None => ""
    case Some(s) => UnescapeEscape(true, s); EscapeText(true, s)
  }

  /** `escapeHtml` of server.js: `String(s || '')` and then three replacements */
  function ServerEscapeHtml(str: Option<string>): (r: string)
    ensures r == "" <==> str.None? || str.value == ""
    ensures '<' !in r && '>' !in r
    ensures Unescape(r) == str.GetOr("")
    ensures Occurrences(r, '"') == Occurrences(str.GetOr(""), '"')
  {
    match str
    case None => ""
    case Some(s) => UnescapeEscape(false, s); ServerKeepsQuotes(s); EscapeText(false, s)
  }

  /** Escaping works character by character: it distributes over concatenation. */
  lemma {:induction false} EscapeConcat(quotes: bool, a: string, b: string)
    ensures EscapeText(quotes, a + b) == EscapeText(quotes, a) + EscapeText(quotes, b)
    decreases |a|
  {
    if |a| == 0 {
      assert a + b == b;
    } else {
      assert (a + b)[1..] == a[1..] + b;
      EscapeConcat(quotes, a[1..], b);
    }
  }

  lemma EscapeOpeningTag()
    ensures EscapeText(false, "<b>") == "&lt;b&gt;"
  {
  }

  lemma EscapeClosingTag()
    ensures EscapeText(false, "</b>") == "&lt;/b&gt;"
  {
  }

  /** Markup around a location name is neutralised in the card: `<b>X</b>` becomes
      `&lt;b&gt;X&lt;/b&gt;`, and so for every name without special characters. */
  lemma EscapesMarkup(name: string)
    requires Plain(false, name)
    ensures EscapeText(false, "<b>" + name + "</b>") == "&lt;b&gt;" + name + "&lt;/b&gt;"
  {
    EscapeOpeningTag();
    EscapeClosingTag();
    EscapeConcat(false, "<b>", name);
    EscapeConcat(false, "<b>" + name, "</b>");
  }

  /** Only the bot's variant touches double quotes. */
  lemma QuoteHandling()
    ensures BotEscapeHtml(Some("\"")) == "&quot;"
    ensures ServerEscapeHtml(Some("\"")) == "\""
  {
    assert "\""[1..] == [];
  }
}
