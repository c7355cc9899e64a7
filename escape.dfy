/** `escapeHTML`: the script's guard against markup in the text it writes into
    table cells. A chain of five `replaceAll` calls, ampersand first. */
module HtmlEscape {
  import opened JsText

  /** The characters that `escapeHTML` rewrites. */
  predicate IsSpecial(c: char) {
    c == '&' || c == '<' || c == '>' || c == '"' || c == '\''
  }

  predicate IsPrefix(p: string, t: string) {
    |p| <= |t| && t[..|p|] == p
  }

  /** `t` starts with one of the five entities `escapeHTML` produces. */
  predicate StartsWithEntity(t: string) {
    IsPrefix("&amp;", t) || IsPrefix("&lt;", t) || IsPrefix("&gt;", t)
    || IsPrefix("&quot;", t) || IsPrefix("&#39;", t)
  }

  /** The characters that would let a cell's text open or close markup. */
  predicate MarkupFree(t: string) {
    '<' !in t && '>' !in t && '"' !in t && '\'' !in t
  }

  /** The body of `escapeHTML` once its argument is a string: `&` is
      replaced first, so the entities introduced by the later replacements
      are not escaped again. */
  function Escape(s: string): string {
    ReplaceAll(ReplaceAll(ReplaceAll(ReplaceAll(ReplaceAll(
      s, '&', "&amp;"), '<', "&lt;"), '>', "&gt;"), '"', "&quot;"), '\'', "&#39;")
  }

  /** `escapeHTML(v)`: falsy values other than the number 0 become the empty
      string; anything else is converted with `String` and escaped. The
      result is empty exactly for those falsy values, renders numbers
      verbatim and decodes back to `String(v)`. */
  function EscapeHtml(v: JsValue): (r: string)
    ensures r == "" <==> !Truthy(v) && v != Num(0)
    ensures v == Num(0) ==> r == "0"
    ensures v.Num? ==> r == IntToString(v.n)
    ensures MarkupFree(r)
    ensures Truthy(v) || v == Num(0) ==> Unescape(r) == ToJsString(v)
  {
    if !Truthy(v) && v != Num(0) then ""
    else
      var s := ToJsString(v);
      EscapeRoundTrip(s);
      EscapeRemovesMarkup(s);
      RenderingIsPlain(v);
      Escape(s)
  }

  /** The one-pass reading of the chain: each character on its own. */
  function EscapeChar(c: char): string {
    if c == '&' then "&amp;"
    else if c == '<' then "&lt;"
    else if c == '>' then "&gt;"
    else if c == '"' then "&quot;"
    else if c == '\'' then "&#39;"
    else [c]
  }

  function EscapeEach(s: string): string {
    if s == [] then [] else EscapeChar(s[0]) + EscapeEach(s[1..])
  }

  /** Decoding of the five entities, scanning left to right; any other
      character, including an `&` that begins no entity, stands for itself. */
  function Unescape(t: string): string
    decreases |t|
  {
    if t == [] then []
    else if IsPrefix("&amp;", t) then "&" + Unescape(t[5..])
    else if IsPrefix("&lt;", t) then "<" + Unescape(t[4..])
    else if IsPrefix("&gt;", t) then ">" + Unescape(t[4..])
    else if IsPrefix("&quot;", t) then "\"" + Unescape(t[6..])
    else if IsPrefix("&#39;", t) then "'" + Unescape(t[5..])
    else [t[0]] + Unescape(t[1..])
  }

  /** Escaping distributes over concatenation: characters are rewritten in
      place and kept in order. */
  lemma EscapeAppend(a: string, b: string)
    ensures Escape(a + b) == Escape(a) + Escape(b)
  {
    var a1, b1 := ReplaceAll(a, '&', "&amp;"), ReplaceAll(b, '&', "&amp;");
    ReplaceAllAppend(a, b, '&', "&amp;");
    var a2, b2 := ReplaceAll(a1, '<', "&lt;"), ReplaceAll(b1, '<', "&lt;");
    ReplaceAllAppend(a1, b1, '<', "&lt;");
    var a3, b3 := ReplaceAll(a2, '>', "&gt;"), ReplaceAll(b2, '>', "&gt;");
    ReplaceAllAppend(a2, b2, '>', "&gt;");
    var a4, b4 := ReplaceAll(a3, '"', "&quot;"), ReplaceAll(b3, '"', "&quot;");
    ReplaceAllAppend(a3, b3, '"', "&quot;");
    ReplaceAllAppend(a4, b4, '\'', "&#39;");
  }

  lemma ReplaceAllOne(c: char, pat: char, rep: string)
    ensures ReplaceAll([c], pat, rep) == if c == pat then rep else [c]
  {
    assert [c][1..] == [];
  }

  /** The links of the chain after the one that rewrote a character leave
      its entity alone. */
  lemma EntityUntouched(e: string)
    requires MarkupFree(e)
    ensures ReplaceAll(e, '>', "&gt;") == e
    ensures ReplaceAll(e, '"', "&quot;") == e
    ensures ReplaceAll(e, '\'', "&#39;") == e
  {
  }

  lemma EscapeAmpersand(c: char)
    requires c == '&'
    ensures Escape([c]) == "&amp;"
  {
    ReplaceAllOne(c, '&', "&amp;");
    var r1 := ReplaceAll([c], '&', "&amp;");
    assert r1 == "&amp;" && MarkupFree(r1);
    assert ReplaceAll(r1, '<', "&lt;") == r1;
    EntityUntouched(r1);
  }

  lemma EscapeLess(c: char)
    requires c == '<'
    ensures Escape([c]) == "&lt;"
  {
    ReplaceAllOne(c, '&', "&amp;");
    ReplaceAllOne(c, '<', "&lt;");
    var r2 := ReplaceAll([c], '<', "&lt;");
    assert r2 == "&lt;" && MarkupFree(r2);
    EntityUntouched(r2);
  }

  lemma EscapeGreater(c: char)
    requires c == '>'
    ensures Escape([c]) == "&gt;"
  {
    ReplaceAllOne(c, '&', "&amp;");
    ReplaceAllOne(c, '<', "&lt;");
    ReplaceAllOne(c, '>', "&gt;");
    var r3 := ReplaceAll([c], '>', "&gt;");
    assert r3 == "&gt;" && MarkupFree(r3);
    EntityUntouched(r3);
  }

  lemma EscapeDoubleQuote(c: char)
    requires c == '"'
    ensures Escape([c]) == "&quot;"
  {
    ReplaceAllOne(c, '&', "&amp;");
    ReplaceAllOne(c, '<', "&lt;");
    ReplaceAllOne(c, '>', "&gt;");
    ReplaceAllOne(c, '"', "&quot;");
    var r4 := ReplaceAll([c], '"', "&quot;");
    assert r4 == "&quot;" && MarkupFree(r4);
    EntityUntouched(r4);
  }

  lemma EscapeOther(c: char)
    requires c != '&' && c != '<' && c != '>' && c != '"'
    ensures Escape([c]) == if c == '\'' then "&#39;" else [c]
  {
    ReplaceAllOne(c, '&', "&amp;");
    ReplaceAllOne(c, '<', "&lt;");
    ReplaceAllOne(c, '>', "&gt;");
    ReplaceAllOne(c, '"', "&quot;");
    ReplaceAllOne(c, '\'', "&#39;");
  }

  /** A single character is rewritten by at most one link of the chain. */
  lemma EscapeOneChar(c: char)
    ensures Escape([c]) == EscapeChar(c)
  {
    if c == '&' {
      EscapeAmpersand(c);
    } else if c == '<' {
      EscapeLess(c);
    } else if c == '>' {
      EscapeGreater(c);
    } else if c == '"' {
      EscapeDoubleQuote(c);
    } else {
      EscapeOther(c);
    }
  }

  /** The chain of replacements equals the one-pass escaping: no entity is
      escaped twice. */
  lemma {:induction false} EscapeIsPerCharacter(s: string)
    ensures Escape(s) == EscapeEach(s)
  {
    if s != [] {
      assert s == [s[0]] + s[1..];
      EscapeAppend([s[0]], s[1..]);
      EscapeOneChar(s[0]);
      EscapeIsPerCharacter(s[1..]);
    }
  }

  /** What `String(v)` gives for the values `escapeHTML` does not blank out:
      never the empty string, and for a number only digits and a sign. */
  lemma RenderingIsPlain(v: JsValue)
    requires Truthy(v) || v == Num(0)
    ensures ToJsString(v) != ""
    ensures v.Num? ==> Escape(ToJsString(v)) == ToJsString(v)
  {
    if v.Num? {
      var s := IntToString(v.n);
      IntToStringChars(v.n);
      assert forall i | 0 <= i < |s| :: !IsSpecial(s[i]);
      EscapeKeepsPlainText(s);
    }
  }

  lemma PrefixOfAppend(p: string, rest: string)
    ensures IsPrefix(p, p + rest)
  {
    assert (p + rest)[..|p|] == p;
  }

  /** `t` cannot start with `p` when they differ at position `k`. */
  lemma NotPrefixAt(p: string, t: string, k: nat)
    requires k < |p| && k < |t| && p[k] != t[k]
    ensures !IsPrefix(p, t)
  {
    if |p| <= |t| {
      assert t[..|p|][k] == t[k];
    }
  }

  /** Every `&` in the escaped text is the first character of an entity. */
  lemma {:induction false} EachAmpersandBeginsEntity(s: string, i: nat)
    requires i < |EscapeEach(s)| && EscapeEach(s)[i] == '&'
    ensures StartsWithEntity(EscapeEach(s)[i..])
  {
    var e, rest := EscapeChar(s[0]), EscapeEach(s[1..]);
    assert EscapeEach(s) == e + rest;
    if i >= |e| {
      EachAmpersandBeginsEntity(s[1..], i - |e|);
      assert EscapeEach(s)[i..] == rest[i - |e|..];
    } else if IsSpecial(s[0]) {
      assert i == 0;
      assert EscapeEach(s)[i..] == e + rest;
      PrefixOfAppend(e, rest);
    }
  }

  /** Escaped text holds no `&` except at the start of one of the five
      entities. */
  lemma AmpersandsBeginEntities(s: string)
    ensures forall i | 0 <= i < |Escape(s)| && Escape(s)[i] == '&' :: StartsWithEntity(Escape(s)[i..])
  {
    EscapeIsPerCharacter(s);
    forall i | 0 <= i < |Escape(s)| && Escape(s)[i] == '&'
      ensures StartsWithEntity(Escape(s)[i..])
    {
      EachAmpersandBeginsEntity(s, i);
    }
  }

  /** Decoding undoes the escaping of one character. */
  lemma UnescapeEscapeChar(c: char, rest: string)
    ensures Unescape(EscapeChar(c) + rest) == [c] + Unescape(rest)
  {
    var e := EscapeChar(c);
    var t := e + rest;
    PrefixOfAppend(e, rest);
    assert t[..|e|] == e;
    if c == '&' {
      assert t[5..] == rest;
    } else if c == '<' {
      NotPrefixAt("&amp;", t, 1);
      assert t[4..] == rest;
    } else if c == '>' {
      NotPrefixAt("&amp;", t, 1);
      NotPrefixAt("&lt;", t, 1);
      assert t[4..] == rest;
    } else if c == '"' {
      NotPrefixAt("&amp;", t, 1);
      NotPrefixAt("&lt;", t, 1);
      NotPrefixAt("&gt;", t, 1);
      assert t[6..] == rest;
    } else if c == '\'' {
      NotPrefixAt("&amp;", t, 1);
      NotPrefixAt("&lt;", t, 1);
      NotPrefixAt("&gt;", t, 1);
      NotPrefixAt("&quot;", t, 1);
      assert t[5..] == rest;
    } else {
      NotPrefixAt("&amp;", t, 0);
      NotPrefixAt("&lt;", t, 0);
      NotPrefixAt("&gt;", t, 0);
      NotPrefixAt("&quot;", t, 0);
      NotPrefixAt("&#39;", t, 0);
      assert t[1..] == rest;
    }
  }

  lemma {:induction false} UnescapeEscapeEach(s: string)
    ensures Unescape(EscapeEach(s)) == s
  {
    if s != [] {
      UnescapeEscapeChar(s[0], EscapeEach(s[1..]));
      UnescapeEscapeEach(s[1..]);
    }
  }

  /** Decoding the five entities in `escapeHTML`'s output gives back its
      input exactly. */
  lemma EscapeRoundTrip(s: string)
    ensures Unescape(Escape(s)) == s
  {
    EscapeIsPerCharacter(s);
    UnescapeEscapeEach(s);
  }

  lemma {:induction false} EscapeEachMarkupFree(s: string)
    ensures MarkupFree(EscapeEach(s))
  {
    if s != [] {
      EscapeEachMarkupFree(s[1..]);
    }
  }

  /** No `<`, `>`, `"` or `'` survives `escapeHTML`. */
  lemma EscapeRemovesMarkup(s: string)
    ensures MarkupFree(Escape(s))
  {
    EscapeIsPerCharacter(s);
    EscapeEachMarkupFree(s);
  }

  lemma {:induction false} EscapeEachKeepsPlainText(s: string)
    requires forall i | 0 <= i < |s| :: !IsSpecial(s[i])
    ensures EscapeEach(s) == s
  {
    if s != [] {
      assert !IsSpecial(s[0]);
      EscapeEachKeepsPlainText(s[1..]);
    }
  }

  /** Text without any of the five special characters goes through
      `escapeHTML` unchanged. */
  lemma EscapeKeepsPlainText(s: string)
    requires forall i | 0 <= i < |s| :: !IsSpecial(s[i])
    ensures Escape(s) == s
  {
    EscapeIsPerCharacter(s);
    EscapeEachKeepsPlainText(s);
  }
}
