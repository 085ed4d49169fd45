/**
 * The testimonial bubble: cleaning of the testimonial text, the 150
 * character preview with its "Read more" / "Show less" button, and the
 * `expanded` flag the button flips.
 */
module TestimonialView {
  import opened Base
  import opened Text
  import opened Values
  import UseData
  import DiseaseMappings

  const PREVIEW_LENGTH := 150
  const ELLIPSIS := "..."
  const READ_MORE := "Read more"
  const SHOW_LESS := "Show less"
  /** The `TypeError` a truthy non-string text raises at `text.replace`. */
  const NOT_A_STRING := "text.replace is not a function"

  /**
   * `s.replace(/pat/g, rep)` for a literal pattern: occurrences are found
   * left to right and do not overlap; the text after a replacement is
   * searched afresh.
   */
  function ReplaceAll(s: string, pat: string, rep: string): (r: string)
    requires |pat| > 0
    ensures |rep| <= |pat| ==> |r| <= |s|
    decreases |s|
  {
    if |s| < |pat| then s
    else if s[..|pat|] == pat then rep + ReplaceAll(s[|pat|..], pat, rep)
    else [s[0]] + ReplaceAll(s[1..], pat, rep)
  }

  /** Without an occurrence of the pattern nothing is replaced. */
  lemma {:induction false} ReplaceAbsent(s: string, pat: string, rep: string)
    requires |pat| > 0 && !Contains(s, pat)
    ensures ReplaceAll(s, pat, rep) == s
    decreases |s|
  {
    if |s| >= |pat| {
      assert !OccursAt(s, pat, 0);
      forall i | 0 <= i <= |s[1..]| - |pat| ensures !OccursAt(s[1..], pat, i) {
        assert !OccursAt(s, pat, i + 1);
        assert s[1..][i..i + |pat|] == s[i + 1..i + 1 + |pat|];
      }
      ReplaceAbsent(s[1..], pat, rep);
    }
  }

  /** A character that cannot start the pattern is copied. */
  lemma ReplaceFront(s: string, pat: string, rep: string)
    requires |pat| > 0 && s != [] && s[0] != pat[0]
    ensures ReplaceAll(s, pat, rep) == [s[0]] + ReplaceAll(s[1..], pat, rep)
  {
    if |s| < |pat| {
      assert s == [s[0]] + s[1..];
    } else {
      assert s[..|pat|][0] == s[0];
    }
  }

  /** Undoes the three backslash escapes, in the source's order: `\"`, then `\'`, then `\n`. */
  function Unescape(s: string): (r: string)
    ensures |r| <= |s|
  {
    ReplaceAll(ReplaceAll(ReplaceAll(s, "\\\"", "\""), "\\'", "'"), "\\n", "\n")
  }

  /**
   * `sanitizeText`: a falsy text is empty; a string is unescaped and then
   * trimmed; any other value has no `replace` and throws.
   */
  function SanitizeText(text: Option<Json>): (r: Result<string, string>)
    ensures !Truthy(text) ==> r == Ok("")
    ensures Truthy(text) && !text.value.JStr? ==> r == Err(NOT_A_STRING)
    ensures Truthy(text) && text.value.JStr? ==> r.Ok? && |r.value| <= |text.value.s|
    ensures r.Ok? ==> r.value == [] || (!IsJsWhitespace(r.value[0]) && !IsJsWhitespace(r.value[|r.value| - 1]))
  {
    if !Truthy(text) then Ok("")
    else if text.value.JStr? then Ok(Clean(text.value.s))
    else Err(NOT_A_STRING)
  }

  /** The unescaped, trimmed string. */
  function Clean(s: string): (r: string)
    ensures |r| <= |s|
    ensures r == [] || (!IsJsWhitespace(r[0]) && !IsJsWhitespace(r[|r| - 1]))
  {
    var u := Unescape(s);
    var r := Strip(u, IsJsWhitespace);
    assert |r| <= |u| by {
      var i :| StrippedAt(u, r, IsJsWhitespace, i);
    }
    r
  }

  // ---------------------------------------------------------------------
  // Unescaping undoes escaping.

  const ESCAPED: set<char> := {'"', '\'', '\n'}

  /** The letter after the backslash in the escape of `c`. */
  function Code(c: char): char {
    if c == '\n' then 'n' else c
  }

  /** Escapes exactly the characters of `cs` with a backslash. */
  function EscapeSome(t: string, cs: set<char>): string {
    if t == [] then []
    else (if t[0] in cs then ['\\', Code(t[0])] else [t[0]]) + EscapeSome(t[1..], cs)
  }

  /** Backslash escaping of quotes and newlines, which `Unescape` is meant to undo. */
  function Escape(t: string): string {
    EscapeSome(t, ESCAPED)
  }

  /** An occurrence at the front is replaced and the search goes on after it. */
  lemma ReplaceHit(pat: string, rest: string, rep: string)
    requires |pat| > 0
    ensures ReplaceAll(pat + rest, pat, rep) == rep + ReplaceAll(rest, pat, rep)
  {
    var s := pat + rest;
    assert s[..|pat|] == pat && s[|pat|..] == rest;
  }

  /** A two-character front that is not the two-character pattern, and whose second character cannot start it, is copied. */
  lemma ReplaceMissTwo(a: char, b: char, rest: string, pat: string, rep: string)
    requires |pat| == 2 && b != pat[0] && b != pat[1]
    ensures ReplaceAll([a, b] + rest, pat, rep) == [a, b] + ReplaceAll(rest, pat, rep)
  {
    var s := [a, b] + rest;
    assert s[..2] != pat by {
      assert s[..2][1] == b;
    }
    assert s[1..] == [b] + rest;
    ReplaceFront(s[1..], pat, rep);
    assert s[1..][1..] == rest;
  }

  /** One replacement pass removes the escapes of one character and leaves the others. */
  lemma {:induction false} UnescapeOne(t: string, cs: set<char>, c: char)
    requires c in cs && cs <= ESCAPED && '\\' !in t
    ensures ReplaceAll(EscapeSome(t, cs), ['\\', Code(c)], [c]) == EscapeSome(t, cs - {c})
  {
    if t != [] {
      var pat := ['\\', Code(c)];
      var rest := EscapeSome(t[1..], cs);
      assert '\\' !in t[1..];
      UnescapeOne(t[1..], cs, c);
      if t[0] == c {
        assert EscapeSome(t, cs) == pat + rest;
        ReplaceHit(pat, rest, [c]);
      } else if t[0] in cs {
        assert EscapeSome(t, cs) == ['\\', Code(t[0])] + rest;
        ReplaceMissTwo('\\', Code(t[0]), rest, pat, [c]);
      } else {
        assert EscapeSome(t, cs) == [t[0]] + rest;
        ReplaceFront(EscapeSome(t, cs), pat, [c]);
      }
    }
  }

  /** Escaping nothing changes nothing. */
  lemma {:induction false} EscapeNone(t: string)
    ensures EscapeSome(t, {}) == t
  {
    if t != [] {
      EscapeNone(t[1..]);
    }
  }

  /** For text without backslashes, `Unescape` recovers the text from its escaped form. */
  lemma UnescapeEscape(t: string)
    requires '\\' !in t
    ensures Unescape(Escape(t)) == t
  {
    assert "\\\"" == ['\\', Code('"')];
    assert "\\'" == ['\\', Code('\'')];
    assert "\\n" == ['\\', Code('\n')];
    UnescapeOne(t, ESCAPED, '"');
    assert ESCAPED - {'"'} == {'\'', '\n'};
    UnescapeOne(t, {'\'', '\n'}, '\'');
    assert {'\'', '\n'} - {'\''} == {'\n'};
    UnescapeOne(t, {'\n'}, '\n');
    assert {'\n'} - {'\n'} == {};
    EscapeNone(t);
  }

  /** Text without backslashes is only trimmed. */
  lemma SanitizePlain(t: string)
    requires '\\' !in t && t != ""
    ensures SanitizeText(Some(JStr(t))) == Ok(Strip(t, IsJsWhitespace))
  {
    AbsentChar(t, "\\\"", 0);
    ReplaceAbsent(t, "\\\"", "\"");
    AbsentChar(t, "\\'", 0);
    ReplaceAbsent(t, "\\'", "'");
    AbsentChar(t, "\\n", 0);
    ReplaceAbsent(t, "\\n", "\n");
  }

  /** An escaped text is cleaned back to the trimmed original. */
  lemma SanitizeEscaped(t: string)
    requires '\\' !in t && t != ""
    ensures SanitizeText(Some(JStr(Escape(t)))) == Ok(Strip(t, IsJsWhitespace))
  {
    assert Escape(t) != "" by {
      assert |EscapeSome(t, ESCAPED)| > 0;
    }
    UnescapeEscape(t);
  }

  // ---------------------------------------------------------------------
  // The bubble.

  /** The fields of a testimonial the bubble reads; an absent field is `None`. */
  datatype Props = Props(text: Option<Json>, nnVerbatim: Option<Json>, disease: Option<Json>, county: Option<Json>)

  /** The properties of a clicked map point, as the map hands them over. */
  function FromPoint(p: UseData.Point): Props {
    Props(p.text, None, Some(p.disease), p.county)
  }

  /**
   * `testimonial.text || testimonial.nn_verbatim || ''`: a truthy field,
   * `text` first, or else the empty string.
   */
  function RawText(p: Props): (r: Option<Json>)
    ensures Truthy(r) <==> Truthy(p.text) || Truthy(p.nnVerbatim)
    ensures Truthy(r) ==> r == p.text || r == p.nnVerbatim
    ensures !Truthy(r) ==> r == Some(JStr(""))
    ensures Truthy(p.text) ==> r == p.text
  {
    if Truthy(p.text) then p.text
    else if Truthy(p.nnVerbatim) then p.nnVerbatim
    else Some(JStr(""))
  }

  /**
   * Sanitising the raw text throws exactly when the field it comes from (the
   * first truthy one) is not a string; in particular it succeeds whenever
   * each field is a string or falsy.
   */
  lemma RawTextSanitizes(p: Props)
    ensures SanitizeText(RawText(p)).Err? <==>
      (Truthy(p.text) && !p.text.value.JStr?)
      || (!Truthy(p.text) && Truthy(p.nnVerbatim) && !p.nnVerbatim.value.JStr?)
    ensures (!Truthy(p.text) || p.text.value.JStr?) && (!Truthy(p.nnVerbatim) || p.nnVerbatim.value.JStr?)
      ==> SanitizeText(RawText(p)).Ok?
  {
  }

  /** The text is long enough to be cut. */
  predicate NeedsExpansion(fullText: string) {
    |fullText| > PREVIEW_LENGTH
  }

  /** Collapsed long text is cut to its first 150 characters plus an ellipsis; anything else is shown whole. */
  function DisplayText(fullText: string, expanded: bool): (r: string)
    ensures !expanded && NeedsExpansion(fullText) ==>
      |r| == PREVIEW_LENGTH + 3 && r[..PREVIEW_LENGTH] == fullText[..PREVIEW_LENGTH] && r[PREVIEW_LENGTH..] == ELLIPSIS
    ensures expanded || !NeedsExpansion(fullText) ==> r == fullText
  {
    if expanded then fullText
    else if NeedsExpansion(fullText) then fullText[..PREVIEW_LENGTH] + ELLIPSIS
    else fullText
  }

  /** What the bubble shows. */
  datatype Bubble = Bubble(text: string, button: Option<string>, expandedClass: bool,
                           disease: Option<Json>, diseaseColor: DiseaseMappings.Rgba, county: Option<Json>)

  /** The bubble for a testimonial (nothing without one), or the error sanitising threw. */
  function Render(testimonial: Option<Props>, expanded: bool): (r: Result<Option<Bubble>, string>)
    ensures testimonial.None? ==> r == Ok(None)
    ensures testimonial.Some? && r.Ok? ==> r.value.Some?
    ensures testimonial.Some? ==> (r.Ok? <==> SanitizeText(RawText(testimonial.value)).Ok?)
    ensures testimonial.Some? && r.Ok? ==>
      r.value.value.text == DisplayText(SanitizeText(RawText(testimonial.value)).value, expanded)
  {
    if testimonial.None? then Ok(None)
    else
      var p := testimonial.value;
      match SanitizeText(RawText(p))
      case Err(e) => Err(e)
      case Ok(fullText) =>
        var button := if NeedsExpansion(fullText) then Some(if expanded then SHOW_LESS else READ_MORE) else None;
        Ok(Some(Bubble(DisplayText(fullText, expanded), button, expanded, p.disease,
                       DiseaseMappings.GetDiseaseColor(JsString(p.disease)).value, p.county)))
  }

  /**
   * The button exists exactly for text longer than the preview, and it
   * offers the opposite of the current state; short text is shown whole.
   */
  lemma ButtonOnlyWhenLong(p: Props, expanded: bool)
    requires Render(Some(p), expanded).Ok?
    ensures var fullText := SanitizeText(RawText(p)).value;
      var b := Render(Some(p), expanded).value.value;
      && (b.button.Some? <==> |fullText| > PREVIEW_LENGTH)
      && (b.button.Some? ==> (b.button.value == SHOW_LESS <==> expanded))
      && (b.button.None? ==> b.text == fullText)
  {
  }

  /** A map point's text is its `nn_verbatim`: it is the raw text when truthy, the empty text otherwise. */
  lemma PointText(pt: UseData.Point)
    ensures Truthy(pt.text) ==> RawText(FromPoint(pt)) == pt.text
    ensures !Truthy(pt.text) ==> RawText(FromPoint(pt)) == Some(JStr(""))
  {
  }

  /** The bubble's one piece of state. */
  class TestimonialBubble {
    var expanded: bool

    constructor ()
      ensures !expanded
    {
      expanded := false;
    }

    method ToggleExpanded()
      modifies this
      ensures expanded == !old(expanded)
    {
      expanded := !expanded;
    }
  }
}
