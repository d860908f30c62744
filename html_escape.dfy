/** The HTML escaper of the contact endpoint: every `&`, `<`, `>`, `"` and `'`
    becomes a fixed character entity and every other character is kept. */
module HtmlEscape {

  /** The characters the escaper rewrites. */
  predicate IsSpecial(c: char) {
    c == '&' || c == '<' || c == '>' || c == '"' || c == '\''
  }

  /** The special characters other than `&`: none of them may appear raw in
      escaped text (an `&` does appear, as the head of an entity). */
  predicate IsRawMarkup(c: char) {
    c == '<' || c == '>' || c == '"' || c == '\''
  }

  predicate HasSpecial(s: string) {
    exists i :: 0 <= i < |s| && IsSpecial(s[i])
  }

  predicate StartsWith(t: string, p: string) {
    |p| <= |t| && t[..|p|] == p
  }

  /** The text starting at position i opens with one of the five entities. */
  predicate EntityAt(t: string, i: nat)
    requires i <= |t|
  {
    var u := t[i..];
    StartsWith(u, "&amp;") || StartsWith(u, "&lt;") || StartsWith(u, "&gt;")
    || StartsWith(u, "&quot;") || StartsWith(u, "&#039;")
  }

  /** Every `&` in t is the first character of an entity. */
  predicate AmpersandsOpenEntities(t: string) {
    forall i :: 0 <= i < |t| && t[i] == '&' ==> EntityAt(t, i)
  }

  /** The replacement of one character: its entity, or the character itself. */
  function EscapeChar(c: char): (r: string)
    ensures IsSpecial(c) <==> |r| > 1
    ensures !IsSpecial(c) ==> r == [c]
    ensures forall i :: 0 <= i < |r| ==> !IsRawMarkup(r[i])
    ensures |r| > 0 && (r[0] == '&' <==> IsSpecial(c))
    ensures forall i :: 1 <= i < |r| ==> r[i] != '&'
  {
    if c == '&' then "&amp;"
    else if c == '<' then "&lt;"
    else if c == '>' then "&gt;"
    else if c == '"' then "&quot;"
    else if c == '\'' then "&#039;"
    else [c]
  }

  /** escapeHtml: the global replace of /[&<>"']/ by the entity table, which
      rewrites each matched character independently, left to right. */
  function EscapeHtml(s: string): (r: string)
    ensures |r| >= |s|
    ensures forall i :: 0 <= i < |r| ==> !IsRawMarkup(r[i])
    decreases |s|
  {
    if s == [] then [] else EscapeChar(s[0]) + EscapeHtml(s[1..])
  }

  /** Escaping distributes over concatenation: it works character by character. */
  lemma {:induction false} EscapeConcat(a: string, b: string)
    ensures EscapeHtml(a + b) == EscapeHtml(a) + EscapeHtml(b)
    decreases |a|
  {
    if a == [] {
      assert a + b == b;
    } else {
      assert (a + b)[0] == a[0];
      assert (a + b)[1..] == a[1..] + b;
      EscapeConcat(a[1..], b);
    }
  }

  /** Escaping leaves a string unchanged exactly when it holds none of the
      five special characters. */
  lemma {:induction false} EscapeIdentityIff(s: string)
    ensures EscapeHtml(s) == s <==> !HasSpecial(s)
    decreases |s|
  {
    if s != [] {
      EscapeIdentityIff(s[1..]);
      if IsSpecial(s[0]) {
        assert |EscapeHtml(s)| > |s|;
      } else {
        assert EscapeHtml(s) == [s[0]] + EscapeHtml(s[1..]);
        assert s == [s[0]] + s[1..];
        if HasSpecial(s[1..]) {
          var i :| 0 <= i < |s[1..]| && IsSpecial(s[1..][i]);
          assert IsSpecial(s[i + 1]);
        }
        if HasSpecial(s) {
          var i :| 0 <= i < |s| && IsSpecial(s[i]);
          assert i > 0 && IsSpecial(s[1..][i - 1]);
        }
      }
    }
  }

  /** Each chunk that EscapeChar emits keeps the `&` property, whatever text
      follows it. */
  lemma ChunkThenText(c: char, rest: string)
    requires AmpersandsOpenEntities(rest)
    ensures AmpersandsOpenEntities(EscapeChar(c) + rest)
  {
    var k := EscapeChar(c);
    var t := k + rest;
    forall i | 0 <= i < |t| && t[i] == '&'
      ensures EntityAt(t, i)
    {
      if i < |k| {
        assert i == 0 && t[i..] == k + rest;
        assert (k + rest)[..|k|] == k;
      } else {
        assert rest[i - |k|] == '&';
        assert t[i..] == rest[i - |k|..];
      }
    }
  }

  /** Every `&` in escaped text opens one of the five entities. */
  lemma {:induction false} EscapedAmpersandsOpenEntities(s: string)
    ensures AmpersandsOpenEntities(EscapeHtml(s))
    decreases |s|
  {
    if s != [] {
      EscapedAmpersandsOpenEntities(s[1..]);
      ChunkThenText(s[0], EscapeHtml(s[1..]));
    }
  }

  /** The inverse of EscapeHtml: each entity decodes to its character, any
      other character is kept. */
  function Unescape(t: string): (s: string)
    ensures |s| <= |t|
    decreases |t|
  {
    if t == [] then []
    else if StartsWith(t, "&amp;") then "&" + Unescape(t[5..])
    else if StartsWith(t, "&lt;") then "<" + Unescape(t[4..])
    else if StartsWith(t, "&gt;") then ">" + Unescape(t[4..])
    else if StartsWith(t, "&quot;") then "\"" + Unescape(t[6..])
    else if StartsWith(t, "&#039;") then "'" + Unescape(t[6..])
    else [t[0]] + Unescape(t[1..])
  }

  // One lemma per entity: Unescape's first branch that matches is the right one.

  lemma UnescapeAmp(rest: string)
    ensures Unescape("&amp;" + rest) == "&" + Unescape(rest)
  {
    var t := "&amp;" + rest;
    assert t[..5] == "&amp;" && t[5..] == rest;
  }

  lemma UnescapeLt(rest: string)
    ensures Unescape("&lt;" + rest) == "<" + Unescape(rest)
  {
    var t := "&lt;" + rest;
    assert t[1] == 'l' && !StartsWith(t, "&amp;");
    assert t[..4] == "&lt;" && t[4..] == rest;
  }

  lemma UnescapeGt(rest: string)
    ensures Unescape("&gt;" + rest) == ">" + Unescape(rest)
  {
    var t := "&gt;" + rest;
    assert t[1] == 'g' && !StartsWith(t, "&amp;") && !StartsWith(t, "&lt;");
    assert t[..4] == "&gt;" && t[4..] == rest;
  }

  lemma UnescapeQuot(rest: string)
    ensures Unescape("&quot;" + rest) == "\"" + Unescape(rest)
  {
    var t := "&quot;" + rest;
    assert t[1] == 'q' && !StartsWith(t, "&amp;") && !StartsWith(t, "&lt;") && !StartsWith(t, "&gt;");
    assert t[..6] == "&quot;" && t[6..] == rest;
  }

  lemma UnescapeApos(rest: string)
    ensures Unescape("&#039;" + rest) == "'" + Unescape(rest)
  {
    var t := "&#039;" + rest;
    assert t[1] == '#' && !StartsWith(t, "&amp;") && !StartsWith(t, "&lt;") && !StartsWith(t, "&gt;");
    assert !StartsWith(t, "&quot;");
    assert t[..6] == "&#039;" && t[6..] == rest;
  }

  /** Unescape undoes one escaped character in front of any text. */
  lemma UnescapeChunk(c: char, rest: string)
    ensures Unescape(EscapeChar(c) + rest) == [c] + Unescape(rest)
  {
    if c == '&' {
      UnescapeAmp(rest);
    } else if c == '<' {
      UnescapeLt(rest);
    } else if c == '>' {
      UnescapeGt(rest);
    } else if c == '"' {
      UnescapeQuot(rest);
    } else if c == '\'' {
      UnescapeApos(rest);
    } else {
      var t := [c] + rest;
      assert t[0] == c && t[1..] == rest;
    }
  }

  /** Round trip: unescaping escaped text gives back the input. */
  lemma {:induction false} UnescapeEscape(s: string)
    ensures Unescape(EscapeHtml(s)) == s
    decreases |s|
  {
    if s != [] {
      UnescapeEscape(s[1..]);
      UnescapeChunk(s[0], EscapeHtml(s[1..]));
      assert s == [s[0]] + s[1..];
    }
  }

  /** Escaping is injective: different inputs give different outputs. */
  lemma EscapeInjective(a: string, b: string)
    ensures EscapeHtml(a) == EscapeHtml(b) ==> a == b
  {
    UnescapeEscape(a);
    UnescapeEscape(b);
  }
}
