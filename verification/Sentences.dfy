/** Cutting a reply into sentences: the scan of `flush_sentences` in crates/core/src/orchestrator.rs.
    The scan works on bytes; enders and blanks are ASCII, so it finds the same cuts in characters. */
module Sentences {
  import opened Text

  predicate Ender(c: char) { c == '.' || c == '!' || c == '?' || c == '\n' }

  predicate Blank(c: char) { c == ' ' || c == '\t' || c == '\n' }

  /** The text is cut between `i - 1` and `i`: an ender followed by a blank. */
  predicate CutAt(t: string, i: int) {
    0 < i < |t| && Ender(t[i - 1]) && Blank(t[i])
  }

  function FirstCut(t: string, from: nat): (r: Option<nat>)
    requires from <= |t|
    ensures r.Some? ==> from < r.value < |t|
    decreases |t| - from
  {
    if from == |t| then None
    else if CutAt(t, from + 1) then Some(from + 1)
    else FirstCut(t, from + 1)
  }

  lemma {:induction false} FirstCutIsFirst(t: string, from: nat)
    requires from <= |t|
    ensures var r := FirstCut(t, from);
      && (r.Some? ==> CutAt(t, r.value))
      && (forall i :: from < i < (if r.Some? then r.value else |t|) ==> !CutAt(t, i))
    decreases |t| - from
  {
    if from < |t| && !CutAt(t, from + 1) {
      FirstCutIsFirst(t, from + 1);
    }
  }

  lemma {:induction false} FirstCutIs(t: string, from: nat, p: nat)
    requires from < p && CutAt(t, p) && (forall i :: from < i < p ==> !CutAt(t, i))
    ensures FirstCut(t, from) == Some(p)
    decreases p - from
  {
    if from + 1 < p {
      FirstCutIs(t, from + 1, p);
    }
  }

  /** The single pass over the buffer. */
  method FindBoundary(b: string) returns (found: Option<nat>)
    ensures found.Some? ==> CutAt(b, found.value)
    ensures forall i :: 0 < i < (if found.Some? then found.value else |b|) ==> !CutAt(b, i)
    ensures found == FirstCut(b, 0)
  {
    found := None;
    for i := 0 to if |b| == 0 then 0 else |b| - 1
      invariant found == None
      invariant forall j :: 0 < j <= i ==> !CutAt(b, j)
      invariant FirstCut(b, 0) == FirstCut(b, i)
    {
      if Ender(b[i]) && Blank(b[i + 1]) {
        found := Some(i + 1);
        break;
      }
    }
  }

  /** All pieces up to the last cut, and what is left. */
  datatype Cuts = Cuts(pieces: seq<string>, rest: string)

  function Split(t: string): Cuts
    decreases |t|
  {
    match FirstCut(t, 0)
    case None => Cuts([], t)
    case Some(p) =>
      var tail := Split(t[p..]);
      Cuts([t[..p]] + tail.pieces, tail.rest)
  }

  // ----- what Split means -----

  /** Position `e` is where one of the pieces, laid out from `from` on, ends. */
  ghost predicate IsEnd(pieces: seq<string>, from: nat, e: int) {
    pieces != [] && (e == from + |pieces[0]| || IsEnd(pieces[1..], from + |pieces[0]|, e))
  }

  /** A one-shot split: nothing is lost, no piece is empty, and the pieces end exactly
      at the cut points of the text. */
  ghost predicate OneShot(t: string, c: Cuts) {
    && Flatten(c.pieces) + c.rest == t
    && (forall k :: 0 <= k < |c.pieces| ==> c.pieces[k] != "")
    && (forall e :: IsEnd(c.pieces, 0, e) <==> CutAt(t, e))
  }

  lemma {:induction false} EndsShift(pieces: seq<string>, from: nat, shift: nat, e: int)
    requires forall k :: 0 <= k < |pieces| ==> pieces[k] != ""
    ensures IsEnd(pieces, from, e) ==> from < e
    ensures IsEnd(pieces, from + shift, e + shift) == IsEnd(pieces, from, e)
  {
    if pieces != [] {
      EndsShift(pieces[1..], from + |pieces[0]|, shift, e);
    }
  }

  /** The cuts of `t` beyond `p` are the cuts of what follows `p`. */
  lemma CutsShift(t: string, p: nat, e: int)
    requires p <= |t| && e > p
    ensures CutAt(t, e) == CutAt(t[p..], e - p)
  {
    if e < |t| {
      assert t[e] == t[p..][e - p] && t[e - 1] == t[p..][e - p - 1];
    }
  }

  lemma OneShotCons(t: string, p: nat, c: Cuts)
    requires CutAt(t, p) && (forall i :: 0 < i < p ==> !CutAt(t, i))
    requires OneShot(t[p..], c)
    ensures OneShot(t, Cuts([t[..p]] + c.pieces, c.rest))
  {
    var pieces := [t[..p]] + c.pieces;
    assert pieces[1..] == c.pieces && pieces[0] == t[..p];
    assert t == t[..p] + t[p..];
    forall e ensures IsEnd(pieces, 0, e) <==> CutAt(t, e) {
      EndsShift(c.pieces, p, 0, e);
      EndsShift(c.pieces, 0, p, e - p);
      if e > p {
        CutsShift(t, p, e);
      }
    }
  }

  lemma {:induction false} SplitIsOneShot(t: string)
    ensures OneShot(t, Split(t))
    decreases |t|
  {
    match FirstCut(t, 0) {
      case None =>
        FirstCutIsFirst(t, 0);
        assert Flatten([]) + t == t;
      case Some(p) =>
        FirstCutIsFirst(t, 0);
        SplitIsOneShot(t[p..]);
        OneShotCons(t, p, Split(t[p..]));
    }
  }

  /** The cut points determine the split. */
  lemma {:induction false} OneShotIsUnique(t: string, c: Cuts)
    requires OneShot(t, c)
    ensures c == Split(t)
    decreases |c.pieces|
  {
    if c.pieces == [] {
      FirstCutIsFirst(t, 0);
      assert forall i :: CutAt(t, i) ==> IsEnd(c.pieces, 0, i);
      assert t == c.rest;
    } else {
      var p := |c.pieces[0]|;
      var tail := Cuts(c.pieces[1..], c.rest);
      assert t == c.pieces[0] + (Flatten(tail.pieces) + c.rest);
      assert IsEnd(c.pieces, 0, p);
      forall i | CutAt(t, i) ensures p <= i {
        assert IsEnd(c.pieces, 0, i);
        EndsShift(tail.pieces, p, 0, i);
      }
      forall e ensures IsEnd(tail.pieces, 0, e) <==> CutAt(t[p..], e) {
        EndsShift(tail.pieces, 0, p, e);
        assert IsEnd(c.pieces, 0, e + p) <==> CutAt(t, e + p);
        if e > 0 {
          CutsShift(t, p, e + p);
        }
      }
      FirstCutIs(t, 0, p);
      OneShotIsUnique(t[p..], tail);
    }
  }

  /** Cutting what has arrived so far and carrying the rest over gives the same pieces as
      cutting the whole text. */
  lemma {:induction false} SplitAppend(a: string, b: string)
    ensures var c := Split(a); var d := Split(c.rest + b);
      Split(a + b) == Cuts(c.pieces + d.pieces, d.rest)
    decreases |a|
  {
    match FirstCut(a, 0) {
      case None =>
        assert [] + Split(a + b).pieces == Split(a + b).pieces;
      case Some(p) =>
        FirstCutAppend(a, b, 0);
        assert (a + b)[..p] == a[..p] && (a + b)[p..] == a[p..] + b;
        SplitAppend(a[p..], b);
        var c := Split(a[p..]); var d := Split(c.rest + b);
        assert [a[..p]] + (c.pieces + d.pieces) == ([a[..p]] + c.pieces) + d.pieces;
    }
  }

  lemma {:induction false} FirstCutAppend(a: string, b: string, from: nat)
    requires from <= |a| && FirstCut(a, from).Some?
    ensures FirstCut(a + b, from) == FirstCut(a, from)
    decreases |a| - from
  {
    if !CutAt(a, from + 1) {
      FirstCutAppend(a, b, from + 1);
      assert !CutAt(a + b, from + 1);
    }
  }

  /** Every cut leaves its blank behind: text that arrived is never used up. */
  lemma {:induction false} RestIsKept(t: string)
    ensures Split(t).rest == "" <==> t == ""
    ensures FirstCut(Split(t).rest, 0) == None
    decreases |t|
  {
    match FirstCut(t, 0) {
      case None =>
      case Some(p) => RestIsKept(t[p..]);
    }
  }

  /** In literal terms: a piece ends where one of . ! ? or a line feed is followed by a space,
      a tab or a line feed, and nowhere else. */
  lemma PiecesEndAt(t: string, e: int)
    ensures IsEnd(Split(t).pieces, 0, e) <==>
      0 < e < |t| && t[e - 1] in ".!?\n" && t[e] in " \t\n"
  {
    SplitIsOneShot(t);
  }

  // ----- what is spoken -----

  /** One string offered to a TTS stream, and whether the stream took it. */
  datatype Offer = Offer(text: string, delivered: bool)

  function Texts(offers: seq<Offer>): seq<string> {
    if offers == [] then [] else [offers[0].text] + Texts(offers[1..])
  }

  lemma {:induction false} TextsConcat(a: seq<Offer>, b: seq<Offer>)
    ensures Texts(a + b) == Texts(a) + Texts(b)
  {
    if a == [] {
      assert a + b == b;
    } else {
      assert (a + b)[1..] == a[1..] + b;
      TextsConcat(a[1..], b);
    }
  }

  /** The trimmed pieces that are not empty, all delivered. */
  function Spoken(pieces: seq<string>): seq<Offer> {
    if pieces == [] then []
    else
      var t := Trim(pieces[0]);
      (if t == "" then [] else [Offer(t, true)]) + Spoken(pieces[1..])
  }

  lemma {:induction false} SpokenConcat(a: seq<string>, b: seq<string>)
    ensures Spoken(a + b) == Spoken(a) + Spoken(b)
  {
    if a == [] {
      assert a + b == b;
    } else {
      assert (a + b)[1..] == a[1..] + b;
      SpokenConcat(a[1..], b);
    }
  }

  /** The texts are what trimming leaves of the pieces, in order; pieces of which it leaves
      nothing are skipped. */
  ghost predicate AreTrimmed(texts: seq<string>, pieces: seq<string>) {
    if pieces == [] then texts == []
    else if AllBlank(pieces[0]) then AreTrimmed(texts, pieces[1..])
    else texts != [] && Crisp(texts[0]) && IsTrimOf(texts[0], pieces[0]) && AreTrimmed(texts[1..], pieces[1..])
  }

  lemma {:induction false} SpokenIsTrimmed(pieces: seq<string>)
    ensures AreTrimmed(Texts(Spoken(pieces)), pieces)
    ensures forall o :: o in Spoken(pieces) ==> Crisp(o.text) && o.delivered
  {
    if pieces != [] {
      SpokenIsTrimmed(pieces[1..]);
      TrimIs(pieces[0]);
      var t, tail := Trim(pieces[0]), Spoken(pieces[1..]);
      if t == "" {
        ConcatEmpty(tail);
      } else {
        TrimmedNotBlank(t, pieces[0]);
        assert ([Offer(t, true)] + tail)[1..] == tail;
        assert ([t] + Texts(tail))[1..] == Texts(tail);
      }
    }
  }

  lemma TrimmedNotBlank(t: string, s: string)
    requires IsTrimOf(t, s) && t != ""
    ensures Crisp(t) && !AllBlank(s)
  {
    var before, after :| IsBetween(s, before, t, after);
    assert s[|before|] == t[0];
  }

  /** How long the receiving TTS stream lasts: `Gone(n)` takes `n` more strings. */
  datatype Receiver = Alive | Gone(after: nat)

  predicate Takes(rx: Receiver) { rx == Alive || rx.after > 0 }

  function Used(rx: Receiver): Receiver
    requires Takes(rx)
  {
    if rx == Alive then Alive else Gone(rx.after - 1)
  }

  datatype Flushed = Flushed(offers: seq<Offer>, rest: string, open: bool)

  /** Send the complete sentences of a buffer until the receiver is gone. */
  function Flush(b: string, rx: Receiver): Flushed
    decreases |b|
  {
    match FirstCut(b, 0)
    case None => Flushed([], b, true)
    case Some(p) =>
      var t := Trim(b[..p]);
      if t == "" then Flush(b[p..], rx)
      else if !Takes(rx) then Flushed([Offer(t, false)], b[p..], false)
      else
        var tail := Flush(b[p..], Used(rx));
        tail.(offers := [Offer(t, true)] + tail.offers)
  }

  /** One pass of the sending loop, with `done` already offered. */
  lemma FlushUnfolds(b: string, rx: Receiver, done: seq<Offer>)
    requires FirstCut(b, 0).Some?
    ensures var p := FirstCut(b, 0).value;
      var t, g := Trim(b[..p]), Flush(b, rx);
      && (t == "" ==> g == Flush(b[p..], rx))
      && (t != "" && Takes(rx) ==>
            var h := Flush(b[p..], Used(rx));
            done + g.offers == (done + [Offer(t, true)]) + h.offers && g.rest == h.rest && g.open == h.open)
      && (t != "" && !Takes(rx) ==> g == Flushed([Offer(t, false)], b[p..], false))
  {
  }

  /** A stream that takes `n` more strings takes the first `n` that are offered; the next one
      shows that it has hung up, and is the last. */
  lemma {:induction false} FlushUntilGone(b: string, rx: Receiver)
    ensures var f := Flush(b, rx);
      && (rx.Alive? ==> f.open && forall k :: 0 <= k < |f.offers| ==> f.offers[k].delivered)
      && (rx.Gone? ==>
            && |f.offers| <= rx.after + 1 && (f.open <==> |f.offers| <= rx.after)
            && forall k :: 0 <= k < |f.offers| ==> (f.offers[k].delivered <==> k < rx.after))
    decreases |b|
  {
    match FirstCut(b, 0) {
      case None =>
      case Some(p) =>
        var t := Trim(b[..p]);
        if t == "" {
          FlushUntilGone(b[p..], rx);
        } else if Takes(rx) {
          FlushUntilGone(b[p..], Used(rx));
        }
    }
  }

  /** Whatever is offered is trimmed and not empty. */
  lemma {:induction false} FlushIsCrisp(b: string, rx: Receiver)
    ensures forall o :: o in Flush(b, rx).offers ==> Crisp(o.text)
    decreases |b|
  {
    match FirstCut(b, 0) {
      case None =>
      case Some(p) =>
        var t := Trim(b[..p]);
        TrimIs(b[..p]);
        if t == "" {
          FlushIsCrisp(b[p..], rx);
        } else if Takes(rx) {
          FlushIsCrisp(b[p..], Used(rx));
        }
    }
  }

  /** The sending loop: cut, trim and offer one sentence after the other. */
  method DrainSentences(b: string, rx: Receiver) returns (offers: seq<Offer>, rest: string, open: bool)
    ensures Flushed(offers, rest, open) == Flush(b, rx)
    ensures forall o :: o in offers ==> Crisp(o.text)
  {
    FlushIsCrisp(b, rx);
    offers, rest, open := [], b, true;
    var live := rx;
    ConcatEmpty(Flush(b, rx).offers);
    while true
      invariant open
      invariant var g := Flush(rest, live);
        Flush(b, rx) == Flushed(offers + g.offers, g.rest, g.open)
      decreases |rest|
    {
      var boundary := FindBoundary(rest);
      if boundary == None {
        ConcatEmpty(offers);
        break;
      }
      FlushUnfolds(rest, live, offers);
      var trimmed := Trim(rest[..boundary.value]);
      rest := rest[boundary.value..];
      if trimmed != "" {
        offers := offers + [Offer(trimmed, Takes(live))];
        if !Takes(live) {
          open := false;
          break;
        }
        live := Used(live);
      }
    }
  }

  /** While the receiver lives, flushing is splitting. */
  lemma {:induction false} FlushIsSplit(b: string)
    ensures var f := Flush(b, Alive); var c := Split(b);
      f == Flushed(Spoken(c.pieces), c.rest, true)
    decreases |b|
  {
    match FirstCut(b, 0) {
      case None =>
      case Some(p) =>
        FlushIsSplit(b[p..]);
        var c := Split(b);
        assert c.pieces[0] == b[..p] && c.pieces[1..] == Split(b[p..]).pieces;
    }
  }

  /** The visible characters of what was offered and what is left. */
  ghost function InkOf(offers: seq<Offer>, rest: string): string {
    Ink(Flatten(Texts(offers)) + rest)
  }

  /** Whatever the receiver does, no visible character is lost, doubled or moved. */
  lemma {:induction false} FlushKeepsInk(b: string, rx: Receiver)
    ensures Ink(b) == InkOf(Flush(b, rx).offers, Flush(b, rx).rest)
    decreases |b|
  {
    match FirstCut(b, 0) {
      case None =>
        InkOfNothing(b);
      case Some(p) =>
        var t := Trim(b[..p]);
        if t == "" {
          FlushKeepsInk(b[p..], rx);
          InkOfPiece(b, p, Flush(b[p..], rx).offers, Flush(b[p..], rx).rest);
        } else if !Takes(rx) {
          InkOfNothing(b[p..]);
          InkOfOffer(b, p, [], b[p..], false);
          assert [Offer(t, false)] + [] == [Offer(t, false)];
        } else {
          var tail := Flush(b[p..], Used(rx));
          FlushKeepsInk(b[p..], Used(rx));
          InkOfOffer(b, p, tail.offers, tail.rest, true);
        }
    }
  }

  lemma InkOfNothing(b: string)
    ensures InkOf([], b) == Ink(b)
  {
    assert Flatten(Texts([])) + b == b;
  }

  lemma InkOfPiece(b: string, p: nat, offers: seq<Offer>, rest: string)
    requires p <= |b| && Trim(b[..p]) == ""
    requires Ink(b[p..]) == InkOf(offers, rest)
    ensures Ink(b) == InkOf(offers, rest)
  {
    assert b == b[..p] + b[p..];
    InkConcat(b[..p], b[p..]);
    InkTrim(b[..p]);
  }

  lemma InkOfFirst(first: Offer, offers: seq<Offer>, rest: string)
    ensures InkOf([first] + offers, rest) == Ink(first.text) + InkOf(offers, rest)
  {
    var texts := Texts([first] + offers);
    assert texts[0] == first.text && texts[1..] == Texts(offers) by {
      assert ([first] + offers)[1..] == offers;
    }
    ConcatAssoc(first.text, Flatten(Texts(offers)), rest);
    InkConcat(first.text, Flatten(Texts(offers)) + rest);
  }

  lemma InkOfOffer(b: string, p: nat, offers: seq<Offer>, rest: string, ok: bool)
    requires p <= |b|
    requires Ink(b[p..]) == InkOf(offers, rest)
    ensures Ink(b) == InkOf([Offer(Trim(b[..p]), ok)] + offers, rest)
  {
    var t := Trim(b[..p]);
    assert b == b[..p] + b[p..];
    InkConcat(b[..p], b[p..]);
    InkTrim(b[..p]);
    InkOfFirst(Offer(t, ok), offers, rest);
  }
}
