/** Preparing a reply for speech: `normalize_tts_input` of crates/tts/src/speaches.rs.
    Above ASCII, which characters are letters or numbers is a parameter; no blank is. */
module TtsText {
  import opened Text

  predicate Digit(c: char) { '0' <= c <= '9' }

  predicate Alphanumeric(beyond: char -> bool, c: char) {
    if c < '\U{80}' then Digit(c) || 'a' <= c <= 'z' || 'A' <= c <= 'Z'
    else beyond(c) && !IsWhitespace(c)
  }

  predicate Markdown(c: char) { c in "*`#>~|[]{}_" }

  predicate Punctuation(c: char) { c in ".,!?;:'\"-()/&" }

  /** Never preceded by a space. */
  predicate Closes(c: char) { c in ".,!?;:)/" }

  predicate Kept(beyond: char -> bool, c: char) { Alphanumeric(beyond, c) || Punctuation(c) }

  function Mapped(beyond: char -> bool, c: char): Option<char> {
    if c == '\r' then None
    else if c == '\n' || c == '\t' then Some(' ')
    else if Markdown(c) then Some(' ')
    else if Alphanumeric(beyond, c) then Some(c)
    else if IsWhitespace(c) then Some(' ')
    else if Punctuation(c) then Some(c)
    else Some(' ')
  }

  lemma MapKeeps(beyond: char -> bool, c: char)
    ensures Kept(beyond, c) <==> Mapped(beyond, c) == Some(c) && c != ' '
    ensures Kept(beyond, c) ==> !IsWhitespace(c)
    ensures !Kept(beyond, c) ==> Mapped(beyond, c) == if c == '\r' then None else Some(' ')
  {
  }

  // ----- the pass over the characters -----

  predicate EndsInSpace(s: string) { s != "" && s[|s| - 1] == ' ' }

  function Bare(s: string): string { if EndsInSpace(s) then s[..|s| - 1] else s }

  function Put(beyond: char -> bool, out: string, ch: char): string {
    var m := Mapped(beyond, ch);
    if m.None? then out
    else if m.value == ' ' then
      if out == "" || EndsInSpace(out) then out else out + " "
    else (if Closes(m.value) then Bare(out) else out) + [m.value]
  }

  function Pass(beyond: char -> bool, out: string, text: string): string
    decreases |text|
  {
    if text == "" then out else Pass(beyond, Put(beyond, out, text[0]), text[1..])
  }

  /** The same text written without going back: a blank only becomes a space once a character
      follows that may have a space before it. */
  function Spaced(beyond: char -> bool, text: string, first: bool, gap: bool): string
    decreases |text|
  {
    if text == "" then ""
    else
      var c, rest := text[0], text[1..];
      if c == '\r' then Spaced(beyond, rest, first, gap)
      else if Kept(beyond, c) then
        (if gap && !Closes(c) then " " else "") + ([c] + Spaced(beyond, rest, false, false))
      else Spaced(beyond, rest, first, !first)
  }

  function Spoken(beyond: char -> bool, text: string): string { Spaced(beyond, text, true, false) }

  /** What the output looks like at any time: a space stands only between two kept characters,
      one at a time and not before closing punctuation, or at the very end. */
  ghost predicate Tidy(beyond: char -> bool, s: string) {
    && (forall i :: 0 <= i < |s| ==> Kept(beyond, s[i]) || s[i] == ' ')
    && (s != "" ==> s[0] != ' ')
    && (forall i :: 0 < i < |s| && s[i - 1] == ' ' ==> s[i] != ' ' && !Closes(s[i]))
  }

  ghost predicate Normal(beyond: char -> bool, s: string) { Tidy(beyond, s) && !EndsInSpace(s) }

  lemma BareIsNormal(beyond: char -> bool, s: string)
    requires Tidy(beyond, s)
    ensures Normal(beyond, Bare(s))
  {
    assert forall i :: 0 <= i < |Bare(s)| ==> Bare(s)[i] == s[i];
  }

  /** What one character does, whatever table it is looked up in. */
  lemma PutIs(beyond: char -> bool, out: string, ch: char)
    ensures Put(beyond, out, ch) ==
      if Kept(beyond, ch) then (if Closes(ch) then Bare(out) else out) + [ch]
      else if ch == '\r' || out == "" || EndsInSpace(out) then out
      else out + " "
    ensures Kept(beyond, ch) ==> ch != ' '
  {
    MapKeeps(beyond, ch);
  }

  lemma PutStaysTidy(beyond: char -> bool, out: string, ch: char)
    requires Tidy(beyond, out)
    ensures Tidy(beyond, Put(beyond, out, ch))
  {
    PutIs(beyond, out, ch);
    if Kept(beyond, ch) {
      var base := if Closes(ch) then Bare(out) else out;
      if Closes(ch) { BareIsNormal(beyond, out); }
      TidyThenKept(beyond, base, ch);
    } else if out != "" && !EndsInSpace(out) {
      TidyThenSpace(beyond, out);
    }
  }

  lemma TidyThenSpace(beyond: char -> bool, out: string)
    requires Tidy(beyond, out) && out != "" && !EndsInSpace(out)
    ensures Tidy(beyond, out + " ")
  {
  }

  lemma TidyThenKept(beyond: char -> bool, out: string, c: char)
    requires Tidy(beyond, out) && Kept(beyond, c) && c != ' '
    requires !(Closes(c) && EndsInSpace(out))
    ensures Tidy(beyond, out + [c])
  {
    var s := out + [c];
    forall i | 0 < i < |s| && s[i - 1] == ' ' ensures s[i] != ' ' && !Closes(s[i]) {
      assert s[i - 1] == out[i - 1];
      if i < |out| { assert s[i] == out[i]; }
    }
  }

  lemma {:induction false} PassStaysTidy(beyond: char -> bool, out: string, text: string)
    requires Tidy(beyond, out)
    ensures Tidy(beyond, Pass(beyond, out, text))
    decreases |text|
  {
    if text != "" {
      PutStaysTidy(beyond, out, text[0]);
      PassStaysTidy(beyond, Put(beyond, out, text[0]), text[1..]);
    }
  }

  /** Pushing and popping spaces writes what the one-way rule writes. */
  lemma {:induction false} PassIsSpaced(beyond: char -> bool, out: string, text: string)
    requires Tidy(beyond, out)
    ensures Bare(Pass(beyond, out, text)) == Bare(out) + Spaced(beyond, text, out == "", EndsInSpace(out))
    decreases |text|
  {
    if text == "" {
      ConcatEmpty(Bare(out));
    } else {
      var c, rest := text[0], text[1..];
      var next := Put(beyond, out, c);
      PutIs(beyond, out, c);
      PutStaysTidy(beyond, out, c);
      PassIsSpaced(beyond, next, rest);
      if Kept(beyond, c) {
        var tail := Spaced(beyond, rest, false, false);
        var base := if Closes(c) then Bare(out) else out;
        assert Bare(next) == base + [c];
        ConcatAssoc(base, [c], tail);
        if EndsInSpace(out) && !Closes(c) {
          assert out == Bare(out) + " ";
          ConcatAssoc(Bare(out), " ", [c] + tail);
        } else {
          ConcatEmpty([c] + tail);
        }
      }
    }
  }

  lemma TrimNormal(beyond: char -> bool, s: string)
    requires Normal(beyond, s)
    ensures TrimStart(s) == s && TrimEnd(s) == s
  {
    if s != "" {
      MapKeeps(beyond, s[0]);
      MapKeeps(beyond, s[|s| - 1]);
    }
  }

  /** At most one space has to be trimmed. */
  lemma TrimTidy(beyond: char -> bool, s: string)
    requires Tidy(beyond, s)
    ensures Trim(s) == Bare(s)
  {
    BareIsNormal(beyond, s);
    TrimNormal(beyond, Bare(s));
    if s != "" {
      MapKeeps(beyond, s[0]);
      assert TrimStart(s) == s;
    }
  }

  lemma TrimmedPass(beyond: char -> bool, text: string)
    ensures Trim(Pass(beyond, "", text)) == Spoken(beyond, text)
    ensures Normal(beyond, Spoken(beyond, text))
  {
    PassStaysTidy(beyond, "", text);
    PassIsSpaced(beyond, "", text);
    TrimTidy(beyond, Pass(beyond, "", text));
    ConcatEmpty(Spoken(beyond, text));
    BareIsNormal(beyond, Pass(beyond, "", text));
  }

  // ----- what is kept -----

  function KeptOf(beyond: char -> bool, s: string): string {
    if s == "" then ""
    else (if Kept(beyond, s[0]) then [s[0]] else "") + KeptOf(beyond, s[1..])
  }

  function AlphanumericsOf(beyond: char -> bool, s: string): string {
    if s == "" then ""
    else (if Alphanumeric(beyond, s[0]) then [s[0]] else "") + AlphanumericsOf(beyond, s[1..])
  }

  lemma {:induction false} SpacedKeeps(beyond: char -> bool, text: string, first: bool, gap: bool)
    ensures var r := Spaced(beyond, text, first, gap);
      && KeptOf(beyond, r) == KeptOf(beyond, text)
      && AlphanumericsOf(beyond, r) == AlphanumericsOf(beyond, text)
    decreases |text|
  {
    if text != "" {
      var c, rest := text[0], text[1..];
      MapKeeps(beyond, c);
      if Kept(beyond, c) {
        SpacedKeeps(beyond, rest, false, false);
        var tail := Spaced(beyond, rest, false, false);
        var u := [c] + tail;
        assert u[1..] == tail;
        if gap && !Closes(c) {
          assert (" " + u)[1..] == u;
        } else {
          ConcatEmpty(u);
        }
      } else {
        SpacedKeeps(beyond, rest, first, if c == '\r' then gap else !first);
      }
    }
  }

  /** Every letter, number and allowed mark survives, in order. */
  lemma SpokenKeeps(beyond: char -> bool, text: string)
    ensures KeptOf(beyond, Spoken(beyond, text)) == KeptOf(beyond, text)
    ensures AlphanumericsOf(beyond, Spoken(beyond, text)) == AlphanumericsOf(beyond, text)
  {
    SpacedKeeps(beyond, text, true, false);
  }

  // ----- normal text is left alone -----

  lemma {:induction false} PassFixes(beyond: char -> bool, out: string, text: string)
    requires Tidy(beyond, out + text)
    ensures Pass(beyond, out, text) == out + text
    decreases |text|
  {
    if text == "" {
      ConcatEmpty(out);
    } else {
      var s, n := out + text, |out|;
      var c := text[0];
      assert s[n] == c && (forall i :: 0 <= i < n ==> s[i] == out[i]);
      MapKeeps(beyond, c);
      assert Mapped(beyond, c) == Some(c);
      if n > 0 { assert s[n - 1] == out[n - 1]; }
      assert Put(beyond, out, c) == out + [c];
      ConcatAssoc(out, [c], text[1..]);
      assert [c] + text[1..] == text;
      PassFixes(beyond, out + [c], text[1..]);
    }
  }

  lemma SpokenIsFixed(beyond: char -> bool, s: string)
    requires Normal(beyond, s)
    ensures Spoken(beyond, s) == s
  {
    ConcatEmpty(s);
    PassFixes(beyond, "", s);
    TrimmedPass(beyond, s);
    TrimTidy(beyond, s);
  }

  // ----- the whole operation -----

  /** A text of such characters and blanks is a bare list number and not worth speaking. */
  predicate ListMark(c: char) { Digit(c) || c in ".)(-/" }

  predicate Unspeakable(s: string) {
    forall i :: 0 <= i < |s| ==> ListMark(s[i]) || IsWhitespace(s[i])
  }

  function Normalized(beyond: char -> bool, text: string): Option<string> {
    var s := Spoken(beyond, text);
    if s == "" || Unspeakable(s) then None else Some(s)
  }

  /** A second pass changes nothing. */
  lemma NormalizedTwice(beyond: char -> bool, text: string)
    ensures var r := Normalized(beyond, text);
      r.Some? ==> Normal(beyond, r.value) && Normalized(beyond, r.value) == r
  {
    TrimmedPass(beyond, text);
    SpokenIsFixed(beyond, Spoken(beyond, text));
  }

  lemma {:induction false} UnspeakableByKept(beyond: char -> bool, s: string)
    requires forall i :: 0 <= i < |s| ==> Kept(beyond, s[i]) || s[i] == ' '
    ensures Unspeakable(s) <==> forall c :: c in KeptOf(beyond, s) ==> ListMark(c)
  {
    if s != "" {
      var t := s[1..];
      MapKeeps(beyond, s[0]);
      UnspeakableByKept(beyond, t);
      assert Unspeakable(s) <==> (ListMark(s[0]) || IsWhitespace(s[0])) && Unspeakable(t) by {
        assert forall i :: 0 < i < |s| ==> s[i] == t[i - 1];
        assert forall i :: 0 <= i < |t| ==> t[i] == s[i + 1];
      }
    }
  }

  /** Nothing is spoken exactly when the text has no character worth speaking. */
  lemma SpeaksIff(beyond: char -> bool, text: string)
    ensures Normalized(beyond, text).Some? <==>
            exists c :: c in KeptOf(beyond, text) && !ListMark(c)
  {
    TrimmedPass(beyond, text);
    SpokenKeeps(beyond, text);
    UnspeakableByKept(beyond, Spoken(beyond, text));
  }

  method NormalizeTtsInput(beyond: char -> bool, text: string) returns (r: Option<string>)
    ensures r == Normalized(beyond, text)
    ensures r.Some? ==> Normal(beyond, r.value) && KeptOf(beyond, r.value) == KeptOf(beyond, text)
  {
    var normalized := "";
    var lastWasSpace := true;
    for i := 0 to |text|
      invariant lastWasSpace <==> normalized == "" || EndsInSpace(normalized)
      invariant Pass(beyond, normalized, text[i..]) == Pass(beyond, "", text)
    {
      var mapped := Mapped(beyond, text[i]);
      assert text[i..][1..] == text[i + 1..];
      if mapped.None? { continue; }
      var m := mapped.value;
      if m == ' ' {
        if !lastWasSpace {
          normalized := normalized + " ";
          lastWasSpace := true;
        }
        continue;
      }
      if Closes(m) && EndsInSpace(normalized) {
        normalized := normalized[..|normalized| - 1];
      }
      normalized := normalized + [m];
      lastWasSpace := false;
    }
    TrimmedPass(beyond, text);
    SpokenKeeps(beyond, text);
    normalized := Trim(normalized);
    if normalized == "" || Unspeakable(normalized) { return None; }
    return Some(normalized);
  }

  // ----- the tables, by what they do -----

  predicate AsciiAlphanumeric(c: char) { '0' <= c <= '9' || 'a' <= c <= 'z' || 'A' <= c <= 'Z' }

  /** Of a single ASCII character, letters, digits and thirteen marks are spoken; it is dropped
      as a list number if it is a digit or one of . ) ( - and /. */
  lemma SingleCharacters(beyond: char -> bool, c: char)
    requires c < '\U{80}'
    ensures Spoken(beyond, [c]) == if AsciiAlphanumeric(c) || c in ".,!?;:'\"-()/&" then [c] else ""
    ensures Normalized(beyond, [c]).Some? <==>
      (AsciiAlphanumeric(c) && !('0' <= c <= '9')) || c in ",!?;:'\"&"
  {
    MapKeeps(beyond, c);
    assert [c][1..] == "";
    if Kept(beyond, c) {
      LastCharacter(beyond, c, true, false);
    } else {
      assert Spaced(beyond, "", true, false) == "";
      assert Spaced(beyond, [c], true, false) == "";
    }
    SpeaksIff(beyond, [c]);
    var kept := KeptOf(beyond, [c]);
    OneKept(beyond, c);
    assert Normalized(beyond, [c]).Some? <==> Kept(beyond, c) && !ListMark(c);
  }

  lemma OneKept(beyond: char -> bool, c: char)
    ensures forall d :: d in KeptOf(beyond, [c]) <==> Kept(beyond, c) && d == c
  {
    var s := [c];
    assert s[1..] == "" && s[0] == c;
    if Kept(beyond, c) { assert KeptOf(beyond, s) == [c] + ""; }
  }

  /** Between two spoken ASCII characters, a carriage return is nothing, a character that is
      not spoken is a space, and no space stands before . , ! ? ; : ) and /. */
  lemma BetweenCharacters(beyond: char -> bool, x: char, c: char, y: char)
    requires x < '\U{80}' && (AsciiAlphanumeric(x) || x in ".,!?;:'\"-()/&")
    requires y < '\U{80}' && (AsciiAlphanumeric(y) || y in ".,!?;:'\"-()/&")
    requires c < '\U{80}'
    ensures Spoken(beyond, [x, c, y]) ==
      if c == '\r' then [x, y]
      else if AsciiAlphanumeric(c) || c in ".,!?;:'\"-()/&" then [x, c, y]
      else if y in ".,!?;:)/" then [x, y]
      else [x, ' ', y]
  {
    assert [x, c, y][1..] == [c, y] && [c, y][1..] == [y] && [y][1..] == "";
    LastCharacter(beyond, y, false, true);
    LastCharacter(beyond, y, false, false);
    assert Spaced(beyond, [x, c, y], true, false) == [x] + Spaced(beyond, [c, y], false, false);
    if c == '\r' {
      assert Spaced(beyond, [c, y], false, false) == [y];
    } else if Kept(beyond, c) {
      assert Spaced(beyond, [c, y], false, false) == [c] + [y];
    } else {
      assert Spaced(beyond, [c, y], false, false) == Spaced(beyond, [y], false, true);
    }
  }

  lemma LastCharacter(beyond: char -> bool, y: char, first: bool, gap: bool)
    requires Kept(beyond, y)
    ensures Spaced(beyond, [y], first, gap) == if gap && !Closes(y) then [' ', y] else [y]
  {
    MapKeeps(beyond, y);
    assert [y][1..] == "";
  }
}
