/**
 * The string helpers the page relies on: `String.prototype.trim` as used on
 * the URL input (script.js:64), and the shape of what `extractYoutubeId`
 * (script.js:193-196) returns.
 */
module Text {
  import opened Common

  /**
   * The characters `trim` removes: ECMAScript WhiteSpace (tab, vertical tab,
   * form feed, the byte order mark and every space separator) and
   * LineTerminator (line feed, carriage return, U+2028, U+2029).
   */
  predicate IsJsWhitespace(c: char)
  {
    || c == '\t' || c == '\n' || c == '\U{000B}' || c == '\U{000C}' || c == '\r'
    || c == ' ' || c == '\U{00A0}' || c == '\U{1680}'
    || ('\U{2000}' <= c <= '\U{200A}')
    || c == '\U{2028}' || c == '\U{2029}' || c == '\U{202F}' || c == '\U{205F}'
    || c == '\U{3000}' || c == '\U{FEFF}'
  }

  predicate AllWhitespace(s: string)
  {
    forall k :: 0 <= k < |s| ==> IsJsWhitespace(s[k])
  }

  /** Drops the leading whitespace: what is dropped is all whitespace, and what is kept does not start with any. */
  function TrimStart(s: string): (r: string)
    ensures |r| <= |s| && r == s[|s| - |r|..]
    ensures AllWhitespace(s[..|s| - |r|])
    ensures r == [] || !IsJsWhitespace(r[0])
    decreases |s|
  {
    if s != [] && IsJsWhitespace(s[0]) then
      var r := TrimStart(s[1..]);
      assert s[..|s| - |r|] == [s[0]] + s[1..][..|s[1..]| - |r|];
      r
    else s
  }

  /** Drops the trailing whitespace: what is dropped is all whitespace, and what is kept does not end with any. */
  function TrimEnd(s: string): (r: string)
    ensures |r| <= |s| && r == s[..|r|]
    ensures AllWhitespace(s[|r|..])
    ensures r == [] || !IsJsWhitespace(r[|r| - 1])
    decreases |s|
  {
    if s != [] && IsJsWhitespace(s[|s| - 1]) then
      var r := TrimEnd(s[..|s| - 1]);
      assert s[|r|..] == s[..|s| - 1][|r|..] + [s[|s| - 1]];
      r
    else s
  }

  /** Cutting a leading run and then a trailing run of whitespace leaves a slice of the original with whitespace only around it. */
  lemma TrimmedSlice(s: string, t: string, r: string)
    requires |t| <= |s| && t == s[|s| - |t|..] && AllWhitespace(s[..|s| - |t|]) && (t == [] || !IsJsWhitespace(t[0]))
    requires |r| <= |t| && r == t[..|r|] && AllWhitespace(t[|r|..]) && (r == [] || !IsJsWhitespace(r[|r| - 1]))
    ensures var i := |s| - |t|;
      i + |r| <= |s| && r == s[i..i + |r|] && AllWhitespace(s[..i]) && AllWhitespace(s[i + |r|..])
    ensures r == [] || (!IsJsWhitespace(r[0]) && !IsJsWhitespace(r[|r| - 1]))
  {
    var i := |s| - |t|;
    assert s[i..i + |r|] == t[..|r|];
    assert s[i + |r|..] == t[|r|..];
    assert r == [] || r[0] == t[0];
  }

  /** `String.prototype.trim`: what is left has no whitespace at either end. */
  function Trim(s: string): (r: string)
    ensures |r| <= |s|
    ensures r == [] || (!IsJsWhitespace(r[0]) && !IsJsWhitespace(r[|r| - 1]))
  {
    var t := TrimStart(s);
    var r := TrimEnd(t);
    assert r == [] || r[0] == t[0];
    r
  }

  /** `trim` keeps a slice of its input and cuts only whitespace on either side of it. */
  lemma TrimIsSlice(s: string)
    ensures var i := |s| - |TrimStart(s)|;
      i + |Trim(s)| <= |s| && Trim(s) == s[i..i + |Trim(s)|] && AllWhitespace(s[..i]) && AllWhitespace(s[i + |Trim(s)|..])
  {
    var t := TrimStart(s);
    var r := Trim(s);
    assert r == TrimEnd(t);
    TrimmedSlice(s, t, r);
  }

  /** A string that is all whitespace and does not start with whitespace is empty. */
  lemma NothingLeft(t: string)
    requires AllWhitespace(t) && (t == [] || !IsJsWhitespace(t[0]))
    ensures t == []
  {
  }

  /** The guard of script.js:65: the trimmed URL is empty exactly when the input is all whitespace. */
  lemma TrimEmpty(s: string)
    ensures Trim(s) == [] <==> AllWhitespace(s)
  {
    var t := TrimStart(s);
    if Trim(s) == [] {
      assert AllWhitespace(t) by {
        assert t[0..] == t;
      }
      NothingLeft(t);
      assert s[..|s| - |t|] == s;
    }
  }

  /** Trimming does not change a string with no whitespace at either end. */
  lemma TrimIdempotent(s: string)
    ensures Trim(Trim(s)) == Trim(s)
  {
    var t := Trim(s);
    if t != [] {
      var u := TrimStart(s);
      assert t == u[..|t|];
      assert t[0] == u[0];
    }
  }

  /** The character class `[^"&?\/\s]` of the capture group. */
  predicate IdChar(c: char)
  {
    c != '"' && c != '&' && c != '?' && c != '/' && !IsJsWhitespace(c)
  }

  /** What the capture group `([^"&?\/\s]{11})` can match. */
  predicate IsVideoId(s: string)
  {
    |s| == 11 && forall k :: 0 <= k < 11 ==> IdChar(s[k])
  }

  /** sub occurs in s starting at index i. */
  predicate OccursAt(sub: string, s: string, i: int)
  {
    0 <= i && i + |sub| <= |s| && s[i..i + |sub|] == sub
  }

  /**
   * `extractYoutubeId` (script.js:193-196) with the regular expression
   * search abstracted: `capture` is where the engine found the start of group
   * 1, or None when the pattern did not match. The result is null or the
   * eleven characters there.
   */
  function ExtractYoutubeId(url: string, capture: Option<nat>): (r: Option<string>)
    ensures r.Some? ==> IsVideoId(r.value)
    ensures r.Some? ==> exists i :: OccursAt(r.value, url, i)
  {
    match capture
    case None => None
    case Some(i) =>
      if i + 11 <= |url| && IsVideoId(url[i..i + 11]) then
        assert OccursAt(url[i..i + 11], url, i);
        Some(url[i..i + 11])
      else None
  }
}
