/**
 * Quoted fields of a comma-separated file, as section 2 of RFC 4180 defines them: the field
 * is enclosed in double quotes, and every double quote of its content is written twice.
 * `Quoted` writes such a field and `Unquote` reads one back; the two are inverse.
 */
module CsvField {
  import opened Wrappers

  /** The content with every `"` written as `""`. */
  function DoubleQuotes(s: string): (r: string)
    ensures |r| >= |s|
  {
    if s == [] then [] else (if s[0] == '"' then "\"\"" else [s[0]]) + DoubleQuotes(s[1..])
  }

  /** The content written as one quoted field. */
  function Quoted(s: string): (r: string)
    ensures |r| >= 2 && r[0] == '"' && r[|r| - 1] == '"'
  {
    "\"" + DoubleQuotes(s) + "\""
  }

  /**
   * Reads the inside of a quoted field: the text after the opening quote, up to and
   * including the closing quote. `""` stands for one `"`; a single `"` closes the field and
   * must be the last character. None when the text is not of that form.
   */
  function Unescape(t: string): Option<string>
    decreases |t|
  {
    if t == [] then None
    else if t[0] == '"' then
      if |t| == 1 then Some([])
      else if t[1] == '"' then
        match Unescape(t[2..])
        case Some(rest) => Some("\"" + rest)
        case None => None
      else None
    else
      match Unescape(t[1..])
      case Some(rest) => Some([t[0]] + rest)
      case None => None
  }

  /** Reads one quoted field, which must be the whole of `t`. */
  function Unquote(t: string): Option<string> {
    if t != [] && t[0] == '"' then Unescape(t[1..]) else None
  }

  /** Reading back an escaped content and its closing quote gives the content. */
  lemma {:induction false} UnescapeDoubled(s: string)
    ensures Unescape(DoubleQuotes(s) + "\"") == Some(s)
    decreases |s|
  {
    if s != [] {
      var t := DoubleQuotes(s) + "\"";
      UnescapeDoubled(s[1..]);
      if s[0] == '"' {
        assert t == "\"\"" + (DoubleQuotes(s[1..]) + "\"");
        assert t[2..] == DoubleQuotes(s[1..]) + "\"";
        assert "\"" + s[1..] == s;
      } else {
        assert t == [s[0]] + (DoubleQuotes(s[1..]) + "\"");
        assert t[1..] == DoubleQuotes(s[1..]) + "\"";
        assert [s[0]] + s[1..] == s;
      }
    }
  }

  /** Every content survives the round trip through a quoted field. */
  lemma QuotedRoundTrip(s: string)
    ensures Unquote(Quoted(s)) == Some(s)
  {
    assert Quoted(s)[1..] == DoubleQuotes(s) + "\"";
    UnescapeDoubled(s);
  }

  /** Conversely, whatever reads as a quoted field is the quoting of what it reads as. */
  lemma {:induction false} UnescapeCanonical(t: string, s: string)
    requires Unescape(t) == Some(s)
    ensures t == DoubleQuotes(s) + "\""
    decreases |t|
  {
    if t[0] == '"' {
      if |t| > 1 {
        var rest := Unescape(t[2..]).value;
        UnescapeCanonical(t[2..], rest);
        assert s[0] == '"' && s[1..] == rest;
        assert t == t[..2] + t[2..];
      }
    } else {
      var rest := Unescape(t[1..]).value;
      UnescapeCanonical(t[1..], rest);
      assert s[0] == t[0] && s[1..] == rest;
      assert t == [t[0]] + t[1..];
    }
  }

  /** A field reads as `s` exactly when it is the quoting of `s`. */
  lemma UnquoteIffQuoted(t: string, s: string)
    ensures Unquote(t) == Some(s) <==> t == Quoted(s)
  {
    if t == Quoted(s) {
      QuotedRoundTrip(s);
    }
    if Unquote(t) == Some(s) {
      UnescapeCanonical(t[1..], s);
      assert t == [t[0]] + t[1..];
    }
  }

  /** Content without double quotes is written unchanged between the quotes. */
  lemma {:induction false} DoubleQuotesWithoutQuotes(s: string)
    requires forall i :: 0 <= i < |s| ==> s[i] != '"'
    ensures DoubleQuotes(s) == s
  {
    if s != [] {
      DoubleQuotesWithoutQuotes(s[1..]);
      assert [s[0]] + s[1..] == s;
    }
  }
}
