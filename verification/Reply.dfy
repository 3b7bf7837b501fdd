/** What the caller hears: the strings one reply sends to speech synthesis. */
module Reply {
  import opened Text
  import opened Sentences
  import opened Orchestrator
  import opened Turns

  /** The reply text that has arrived in a stretch of events. */
  function Deltas(ins: seq<Input>): string {
    if ins == [] then ""
    else
      var n := |ins| - 1;
      Deltas(ins[..n]) + if ins[n].event.AgentPartialResponse? then ins[n].event.text else ""
  }

  /** A stretch of events during which the agent keeps thinking. */
  predicate Undisturbed(ins: seq<Input>) {
    forall i :: 0 <= i < |ins| ==>
      var e := ins[i].event; !e.SpeechStarted? && !e.Cancel? && !e.AgentFinalResponse?
  }

  predicate AllAlive(ins: seq<Input>) {
    forall i :: 0 <= i < |ins| ==> ins[i].rx == Alive
  }

  /** The state in which an accepted transcript leaves a fenced orchestrator. */
  predicate ReplyBegins(m: Model) {
    m.state.AgentThinking? && m.sentenceBuffer == "" && !m.ttsTextOpen
  }

  lemma TranscriptBeginsReply(ins: seq<Input>, i: Input)
    requires Run(INIT, ins, true).state.Transcribing? && i.event.FinalTranscript?
    ensures ReplyBegins(Run(INIT, ins + [i], true))
  {
    RunSnoc(INIT, ins, i, true);
    RunsAreFenced(ins, true);
  }

  // ----- one event of a reply -----

  lemma QuietStep(m: Model, e: Event)
    requires m.state.AgentThinking? && Undisturbed([Input(e, Alive)])
    ensures !e.AgentPartialResponse? ==>
      var n := Handle(m, e, true, Alive);
      n == m.(egress := n.egress)
    ensures e.AgentPartialResponse? ==>
      var n := Handle(m, e, true, Alive); var f := Flush(m.sentenceBuffer + e.text, Alive);
      f.open ==> n.state == m.state && n.sentenceBuffer == f.rest && n.offers == m.offers + f.offers
  {
    assert [Input(e, Alive)][0].event == e;
  }

  lemma DeltaStep(m: Model, i: Input, arrived: string)
    requires m.state.AgentThinking? && m.sentenceBuffer == Split(arrived).rest
    requires Undisturbed([i]) && i.rx == Alive
    ensures var n := Handle(m, i.event, true, Alive); var all := arrived + Deltas([i]);
      && n.state.AgentThinking?
      && n.sentenceBuffer == Split(all).rest
      && Split(arrived).pieces <= Split(all).pieces
      && n.offers == m.offers + Spoken(Split(all).pieces[|Split(arrived).pieces|..])
  {
    var e := i.event;
    assert [i][0] == i;
    QuietStep(m, e);
    var delta := if e.AgentPartialResponse? then e.text else "";
    assert Deltas([i]) == delta by { assert [i][..0] == []; }
    SplitAppend(arrived, delta);
    RestIsKept(arrived);
    var c, d := Split(arrived), Split(Split(arrived).rest + delta);
    assert (c.pieces + d.pieces)[|c.pieces|..] == d.pieces;
    if e.AgentPartialResponse? {
      FlushIsSplit(c.rest + delta);
    } else {
      assert c.rest + "" == c.rest;
      assert Split(c.rest) == Cuts([], c.rest);
      ConcatEmpty(m.offers);
    }
  }

  /** While the TTS stream lives, the strings sent are those of the text split once,
      however the text was divided into deltas. */
  lemma {:induction false} StreamingIsSplitting(m: Model, ins: seq<Input>)
    requires ReplyBegins(m) && Undisturbed(ins) && AllAlive(ins)
    ensures var n := Run(m, ins, true); var c := Split(Deltas(ins));
      n.state.AgentThinking? && n.sentenceBuffer == c.rest && n.offers == m.offers + Spoken(c.pieces)
  {
    if ins == [] {
      ConcatEmpty(m.offers);
    } else {
      var n := |ins| - 1;
      var p := ins[..n];
      StreamingIsSplitting(m, p);
      assert Undisturbed([ins[n]]);
      DeltaStep(Run(m, p, true), ins[n], Deltas(p));
      DeltasSnoc(p, ins[n]);
      assert ins == p + [ins[n]];
      var c, all := Split(Deltas(p)), Split(Deltas(ins));
      assert all.pieces == c.pieces + all.pieces[|c.pieces|..];
      SpokenConcat(c.pieces, all.pieces[|c.pieces|..]);
      ConcatAssoc(m.offers, Spoken(c.pieces), Spoken(all.pieces[|c.pieces|..]));
    }
  }

  lemma DeltasSnoc(p: seq<Input>, i: Input)
    ensures Deltas(p + [i]) == Deltas(p) + Deltas([i])
  {
    assert (p + [i])[..|p|] == p && [i][..0] == [];
  }

  /** The last utterance of a reply. */
  function Tail(t: string): seq<Offer> {
    if Trim(t) == "" then [] else [Offer(Trim(t), true)]
  }

  /** What a whole reply says: its sentences and their tail, or the final text when nothing
      was streamed. The final text is never said on top of what was streamed. */
  function Utterances(streamed: string, final: string): seq<Offer> {
    if streamed == "" then Tail(final)
    else Spoken(Split(streamed).pieces) + Tail(Split(streamed).rest)
  }

  /** Every utterance is trimmed and delivered, and they are what trimming leaves of the
      pieces and the rest of the reply, in order. */
  lemma UtterancesAreTrimmed(streamed: string, final: string)
    ensures var us := Utterances(streamed, final);
      && (forall o :: o in us ==> Crisp(o.text) && o.delivered)
      && AreTrimmed(Texts(us), if streamed == "" then [final] else Split(streamed).pieces + [Split(streamed).rest])
  {
    var t := if streamed == "" then final else Split(streamed).rest;
    var pieces := if streamed == "" then [] else Split(streamed).pieces;
    TailIsSpoken(t);
    SpokenConcat(pieces, [t]);
    SpokenIsTrimmed(pieces + [t]);
    if streamed == "" {
      ConcatEmpty(Spoken([t]));
      ConcatEmpty([t]);
    }
  }

  lemma TailIsSpoken(t: string)
    ensures Tail(t) == Spoken([t])
  {
    assert [t][1..] == [];
    ConcatEmpty(Tail(t));
  }

  lemma ReplySpoken(m: Model, ins: seq<Input>, last: Input)
    requires ReplyBegins(m) && Undisturbed(ins) && AllAlive(ins)
    requires last.event.AgentFinalResponse? && last.rx == Alive
    ensures var n := Run(m, ins + [last], true);
      && n.state.Speaking?
      && n.offers == m.offers + Utterances(Deltas(ins), last.event.text)
      && (forall k :: |m.offers| <= k < |n.offers| ==> Crisp(n.offers[k].text) && n.offers[k].delivered)
      && n.sentenceBuffer == "" && !n.ttsTextOpen
  {
    ReplyOffers(m, ins, last);
    UtterancesAreTrimmed(Deltas(ins), last.event.text);
    NewOffers(m.offers, Utterances(Deltas(ins), last.event.text), Run(m, ins + [last], true).offers);
  }

  lemma NewOffers(before: seq<Offer>, us: seq<Offer>, after: seq<Offer>)
    requires after == before + us && forall o :: o in us ==> Crisp(o.text) && o.delivered
    ensures forall k :: |before| <= k < |after| ==> Crisp(after[k].text) && after[k].delivered
  {
    forall k | |before| <= k < |after| ensures Crisp(after[k].text) && after[k].delivered {
      assert after[k] == us[k - |before|] && us[k - |before|] in us;
    }
  }

  lemma ReplyOffers(m: Model, ins: seq<Input>, last: Input)
    requires ReplyBegins(m) && Undisturbed(ins) && AllAlive(ins)
    requires last.event.AgentFinalResponse? && last.rx == Alive
    ensures var n := Run(m, ins + [last], true);
      && n.state.Speaking?
      && n.offers == m.offers + Utterances(Deltas(ins), last.event.text)
      && n.sentenceBuffer == "" && !n.ttsTextOpen
  {
    StreamingIsSplitting(m, ins);
    RunSnoc(m, ins, last, true);
    var c := Split(Deltas(ins));
    RestIsKept(Deltas(ins));
    if Deltas(ins) == "" {
      assert Spoken(c.pieces) == [];
      ConcatEmpty(m.offers);
    } else {
      ConcatAssoc(m.offers, Spoken(c.pieces), Tail(c.rest));
    }
  }

  // ----- with TTS streams that hang up -----

  /** The visible characters offered since `from` offers had been made, and still buffered. */
  ghost function InkSince(m: Model, from: nat): string
    requires from <= |m.offers|
  {
    InkOf(m.offers[from..], m.sentenceBuffer)
  }

  lemma FlushKeepsRest(b: string, rx: Receiver)
    ensures Flush(b, rx).rest == "" <==> b == ""
    decreases |b|
  {
    match FirstCut(b, 0) {
      case None =>
      case Some(p) =>
        FlushKeepsRest(b[p..], rx);
        if Takes(rx) {
          FlushKeepsRest(b[p..], Used(rx));
        }
    }
  }

  lemma FlushedInk(m: Model, rx: Receiver, from: nat)
    requires from <= |m.offers| && m.ttsTextOpen
    ensures var f := FlushSentences(m, rx);
      m.offers <= f.offers && InkSince(f, from) == InkSince(m, from)
      && (f.sentenceBuffer == "" <==> m.sentenceBuffer == "")
  {
    var g := Flush(m.sentenceBuffer, rx);
    FlushKeepsInk(m.sentenceBuffer, rx);
    FlushKeepsRest(m.sentenceBuffer, rx);
    assert (m.offers + g.offers)[from..] == m.offers[from..] + g.offers;
    InkOfConcat(m.offers[from..], g.offers, g.rest);
    InkOfConcat(m.offers[from..], [], m.sentenceBuffer);
    ConcatEmpty(m.offers[from..]);
    InkOfNothing(m.sentenceBuffer);
  }

  lemma InkOfConcat(a: seq<Offer>, b: seq<Offer>, rest: string)
    ensures InkOf(a + b, rest) == Ink(Flatten(Texts(a))) + InkOf(b, rest)
  {
    TextsConcat(a, b);
    FlattenConcat(Texts(a), Texts(b));
    ConcatAssoc(Flatten(Texts(a)), Flatten(Texts(b)), rest);
    InkConcat(Flatten(Texts(a)), Flatten(Texts(b)) + rest);
  }

  lemma InkOfBuffered(offers: seq<Offer>, b: string, more: string)
    ensures InkOf(offers, b + more) == InkOf(offers, b) + Ink(more)
  {
    ConcatAssoc(Flatten(Texts(offers)), b, more);
    InkConcat(Flatten(Texts(offers)) + b, more);
  }

  /** Whenever streams hang up, every visible character that arrived is offered to some
      stream or still buffered, once and in order. */
  lemma {:induction false} StreamingKeepsInk(m: Model, ins: seq<Input>)
    requires ReplyBegins(m) && Undisturbed(ins)
    ensures var n := Run(m, ins, true);
      && n.state.AgentThinking? && m.offers <= n.offers
      && InkSince(n, |m.offers|) == Ink(Deltas(ins))
      && (n.sentenceBuffer == "" <==> Deltas(ins) == "")
  {
    var from := |m.offers|;
    if ins == [] {
      assert m.offers[from..] == [];
      InkOfNothing("");
    } else {
      var k := |ins| - 1;
      var p, e, rx := ins[..k], ins[k].event, ins[k].rx;
      StreamingKeepsInk(m, p);
      assert [Input(e, rx)][0] == ins[k];
      DeltaKeepsInk(Run(m, p, true), e, rx, from);
      if e.AgentPartialResponse? {
        InkConcat(Deltas(p), e.text);
      } else {
        ConcatEmpty(Deltas(p));
      }
    }
  }

  lemma DeltaKeepsInk(m: Model, e: Event, rx: Receiver, from: nat)
    requires m.state.AgentThinking? && Undisturbed([Input(e, rx)]) && from <= |m.offers|
    ensures var n := Handle(m, e, true, rx);
      var delta := if e.AgentPartialResponse? then e.text else "";
      && n.state.AgentThinking? && m.offers <= n.offers
      && InkSince(n, from) == InkSince(m, from) + Ink(delta)
      && (n.sentenceBuffer == "" <==> m.sentenceBuffer == "" && delta == "")
  {
    assert [Input(e, rx)][0].event == e;
    if e.AgentPartialResponse? {
      var s := StartTts(m, true);
      InkOfBuffered(s.offers[from..], s.sentenceBuffer, e.text);
      FlushedInk(s.(sentenceBuffer := s.sentenceBuffer + e.text), rx, from);
    } else {
      ConcatEmpty(InkSince(m, from));
    }
  }

  /** Offering the trimmed rest of a buffer keeps its visible characters. */
  lemma TailKeepsInk(offers: seq<Offer>, b: string, ok: bool)
    ensures var tail := if Trim(b) == "" then [] else [Offer(Trim(b), ok)];
      Ink(Flatten(Texts(offers + tail))) == InkOf(offers, b)
  {
    var tail := if Trim(b) == "" then [] else [Offer(Trim(b), ok)];
    InkTrim(b);
    InkOfConcat(offers, tail, "");
    InkOfConcat(offers, [], b);
    ConcatEmpty(offers);
    InkOfNothing(b);
    InkOfNothing("");
    if tail != [] {
      InkOfFirst(tail[0], [], "");
      ConcatEmpty(tail);
      ConcatEmpty(Ink(Trim(b)));
    }
    ConcatEmpty(Flatten(Texts(offers + tail)));
  }

  lemma FinalInk(said: seq<Offer>, b: string, text: string, streamed: string)
    requires InkOf(said, b) == Ink(streamed) && (b == "" <==> streamed == "")
    ensures InkOf(said, if b == "" then text else b) == Ink(if streamed == "" then text else streamed)
  {
    if b == "" {
      InkOfBuffered(said, b, text);
      ConcatEmpty(text);
      ConcatEmpty(Ink(text));
    }
  }

  lemma FinalOffers(m: Model, e: Event, rx: Receiver)
    requires m.state.AgentThinking? && e.AgentFinalResponse?
    ensures var b := if m.sentenceBuffer == "" then e.text else m.sentenceBuffer;
      var n := Handle(m, e, true, rx);
      n.state.Speaking?
      && n.offers == m.offers + (if Trim(b) == "" then [] else [Offer(Trim(b), Takes(rx))])
  {
  }

  lemma ReplyKeepsInk(m: Model, ins: seq<Input>, last: Input)
    requires ReplyBegins(m) && Undisturbed(ins) && last.event.AgentFinalResponse?
    ensures var n := Run(m, ins + [last], true);
      && n.state.Speaking? && m.offers <= n.offers
      && Ink(Flatten(Texts(n.offers[|m.offers|..]))) ==
           Ink(if Deltas(ins) == "" then last.event.text else Deltas(ins))
  {
    StreamingKeepsInk(m, ins);
    RunSnoc(m, ins, last, true);
    var before := Run(m, ins, true);
    var said := before.offers[|m.offers|..];
    FinalOffers(before, last.event, last.rx);
    var b := if before.sentenceBuffer == "" then last.event.text else before.sentenceBuffer;
    var tail := if Trim(b) == "" then [] else [Offer(Trim(b), Takes(last.rx))];
    TailKeepsInk(said, b, Takes(last.rx));
    DropPrefix(m.offers, before.offers, tail);
    FinalInk(said, before.sentenceBuffer, last.event.text, Deltas(ins));
    assert Run(m, ins + [last], true).offers[|m.offers|..] == said + tail;
  }
}
