/** Options and the string operations shared by the components. */
module Text {

  datatype Option<+T> = None | Some(value: T)

  function Min(a: nat, b: nat): nat { if a <= b then a else b }

  lemma ConcatAssoc<T>(a: seq<T>, b: seq<T>, c: seq<T>)
    ensures (a + b) + c == a + (b + c)
  {
  }

  lemma ConcatEmpty<T>(a: seq<T>)
    ensures [] + a == a == a + []
  {
  }

  lemma DropPrefix<T>(a: seq<T>, b: seq<T>, c: seq<T>)
    requires a <= b
    ensures a <= b + c && (b + c)[|a|..] == b[|a|..] + c
  {
  }

  /** Unicode White_Space, as `char::is_whitespace` and `str::trim` use it. */
  predicate IsWhitespace(c: char) {
    || '\t' <= c <= '\r'
    || c == ' '
    || c == '\U{85}' || c == '\U{A0}' || c == '\U{1680}'
    || '\U{2000}' <= c <= '\U{200A}'
    || c == '\U{2028}' || c == '\U{2029}' || c == '\U{202F}' || c == '\U{205F}' || c == '\U{3000}'
  }

  function TrimStart(s: string): string {
    if s != "" && IsWhitespace(s[0]) then TrimStart(s[1..]) else s
  }

  function TrimEnd(s: string): string {
    if s != "" && IsWhitespace(s[|s| - 1]) then TrimEnd(s[..|s| - 1]) else s
  }

  function Trim(s: string): string {
    TrimEnd(TrimStart(s))
  }

  // ----- what trimming is -----

  /** The blanks are the ASCII ones and nineteen others. */
  lemma BlanksAre(c: char)
    ensures IsWhitespace(c) <==>
      || c in "\t\n\U{0B}\U{0C}\r \U{85}\U{A0}\U{1680}\U{2028}\U{2029}\U{202F}\U{205F}\U{3000}"
      || c in "\U{2000}\U{2001}\U{2002}\U{2003}\U{2004}\U{2005}\U{2006}\U{2007}\U{2008}\U{2009}\U{200A}"
  {
    assert '\U{2000}' <= c <= '\U{200A}' ==> 0x2000 <= c as int <= 0x200A;
    assert '\t' <= c <= '\r' ==> 9 <= c as int <= 13;
  }

  predicate AllBlank(s: string) {
    forall i :: 0 <= i < |s| ==> IsWhitespace(s[i])
  }

  /** Neither empty nor blank at either end. */
  predicate Crisp(s: string) {
    s != "" && !IsWhitespace(s[0]) && !IsWhitespace(s[|s| - 1])
  }

  /** What is left of `s` when the blanks at both ends go. */
  ghost predicate IsTrimOf(t: string, s: string) {
    if t == "" then AllBlank(s)
    else Crisp(t) && exists before, after :: IsBetween(s, before, t, after)
  }

  ghost predicate IsBetween(s: string, before: string, t: string, after: string) {
    AllBlank(before) && AllBlank(after) && s == before + t + after
  }

  lemma {:induction false} TrimStartIs(s: string) returns (before: string)
    ensures AllBlank(before) && s == before + TrimStart(s)
    ensures TrimStart(s) == "" || !IsWhitespace(TrimStart(s)[0])
  {
    if s != "" && IsWhitespace(s[0]) {
      var rest := TrimStartIs(s[1..]);
      before := [s[0]] + rest;
      ConcatAssoc([s[0]], rest, TrimStart(s));
      assert s == [s[0]] + s[1..];
    } else {
      before := "";
      ConcatEmpty(s);
    }
  }

  lemma {:induction false} TrimEndIs(s: string) returns (after: string)
    ensures AllBlank(after) && s == TrimEnd(s) + after
    ensures TrimEnd(s) == "" || !IsWhitespace(TrimEnd(s)[|TrimEnd(s)| - 1])
  {
    if s != "" && IsWhitespace(s[|s| - 1]) {
      var n := |s| - 1;
      var rest := TrimEndIs(s[..n]);
      after := rest + [s[n]];
      BlanksJoin(rest, [s[n]]);
      AppendLast(s, TrimEnd(s), rest);
    } else {
      after := "";
      ConcatEmpty(s);
    }
  }

  lemma AppendLast(s: string, t: string, rest: string)
    requires s != "" && s[..|s| - 1] == t + rest
    ensures s == t + (rest + [s[|s| - 1]])
  {
    ConcatAssoc(t, rest, [s[|s| - 1]]);
  }

  lemma TrimIs(s: string)
    ensures IsTrimOf(Trim(s), s)
  {
    var before := TrimStartIs(s);
    var m := TrimStart(s);
    var after := TrimEndIs(m);
    var t := Trim(s);
    ConcatAssoc(before, t, after);
    if t == "" {
      BlanksJoin(before, after);
      ConcatEmpty(after);
      ConcatEmpty(before);
    } else {
      assert m[0] == t[0];
      assert IsBetween(s, before, t, after);
    }
  }

  lemma BlanksJoin(a: string, b: string)
    requires AllBlank(a) && AllBlank(b)
    ensures AllBlank(a + b)
  {
  }

  /** Blanks around a crisp text do not matter. */
  lemma TrimOf(before: string, t: string, after: string)
    requires AllBlank(before) && AllBlank(after) && Crisp(t)
    ensures Trim(before + t + after) == t
  {
    ConcatAssoc(before, t, after);
    TrimStartOf(before, t + after);
    TrimEndOf(t, after);
  }

  lemma {:induction false} TrimStartOf(before: string, t: string)
    requires AllBlank(before) && t != "" && !IsWhitespace(t[0])
    ensures TrimStart(before + t) == t
  {
    if before == "" {
      ConcatEmpty(t);
    } else {
      assert (before + t)[1..] == before[1..] + t;
      TrimStartOf(before[1..], t);
    }
  }

  lemma {:induction false} TrimEndOf(t: string, after: string)
    requires AllBlank(after) && t != "" && !IsWhitespace(t[|t| - 1])
    ensures TrimEnd(t + after) == t
  {
    if after == "" {
      ConcatEmpty(t);
    } else {
      var n := |after| - 1;
      assert (t + after)[..|t + after| - 1] == t + after[..n];
      TrimEndOf(t, after[..n]);
    }
  }

  /** The characters that are not blank, in order. */
  function Ink(s: string): string {
    if s == "" then ""
    else (if IsWhitespace(s[0]) then "" else [s[0]]) + Ink(s[1..])
  }

  lemma {:induction false} InkConcat(a: string, b: string)
    ensures Ink(a + b) == Ink(a) + Ink(b)
  {
    if a == "" {
      assert a + b == b;
    } else {
      assert (a + b)[1..] == a[1..] + b;
      InkConcat(a[1..], b);
    }
  }

  lemma {:induction false} InkTrimStart(s: string)
    ensures Ink(TrimStart(s)) == Ink(s)
  {
    if s != "" && IsWhitespace(s[0]) {
      InkTrimStart(s[1..]);
    }
  }

  lemma {:induction false} InkTrimEnd(s: string)
    ensures Ink(TrimEnd(s)) == Ink(s)
  {
    if s != "" && IsWhitespace(s[|s| - 1]) {
      var t, u := s[..|s| - 1], s[|s| - 1..];
      InkTrimEnd(t);
      assert s == t + u && u[1..] == "";
      InkConcat(t, u);
    }
  }

  /** Trimming loses blanks only. */
  lemma InkTrim(s: string)
    ensures Ink(Trim(s)) == Ink(s)
  {
    InkTrimStart(s);
    InkTrimEnd(TrimStart(s));
  }

  function Flatten(ss: seq<string>): string {
    if ss == [] then "" else ss[0] + Flatten(ss[1..])
  }

  lemma {:induction false} FlattenConcat(a: seq<string>, b: seq<string>)
    ensures Flatten(a + b) == Flatten(a) + Flatten(b)
  {
    if a == [] {
      assert a + b == b;
    } else {
      assert (a + b)[1..] == a[1..] + b;
      FlattenConcat(a[1..], b);
    }
  }
}
