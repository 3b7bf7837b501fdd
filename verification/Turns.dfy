/** Whole runs of the orchestrator: turn accounting, cancellation and the events of the
    voice-activity detector. */
module Turns {
  import opened Text
  import opened Sentences
  import opened Orchestrator
  import Vad

  /** An event taken from the bus, and how long the TTS stream of the moment lasts. */
  datatype Input = Input(event: Event, rx: Receiver)

  function Run(m: Model, ins: seq<Input>, providers: bool): Model {
    if ins == [] then m
    else
      var n := |ins| - 1;
      Handle(Run(m, ins[..n], providers), ins[n].event, providers, ins[n].rx)
  }

  lemma RunSnoc(m: Model, ins: seq<Input>, i: Input, providers: bool)
    ensures Run(m, ins + [i], providers) == Handle(Run(m, ins, providers), i.event, providers, i.rx)
  {
    assert (ins + [i])[..|ins|] == ins;
  }

  // ----- accounting -----

  datatype Kind = Start | Complete | CancelledTurn | Transcript

  predicate Matches(k: Kind, s: State, e: Event) {
    match k
    case Start => e.SpeechStarted? && Accepted(s, e)
    case Complete => e.TtsComplete? && Accepted(s, e)
    case CancelledTurn => e.Cancel? && !s.Idle?
    case Transcript => e.FinalTranscript? && Accepted(s, e)
  }

  /** How many inputs of a run from the initial state are of kind `k`. */
  function Tally(ins: seq<Input>, providers: bool, k: Kind): nat {
    if ins == [] then 0
    else
      var n := |ins| - 1;
      Tally(ins[..n], providers, k)
        + One(Matches(k, Run(INIT, ins[..n], providers).state, ins[n].event))
  }

  function One(b: bool): nat { if b then 1 else 0 }

  lemma StepBalances(m: Model, e: Event, providers: bool, rx: Receiver)
    ensures var n := Handle(m, e, providers, rx);
      One(Matches(Start, m.state, e)) + One(!m.state.Idle?) + m.interruptCount ==
        One(Matches(Complete, m.state, e)) + n.interruptCount + One(Matches(CancelledTurn, m.state, e))
        + One(!n.state.Idle?)
    ensures var n := Handle(m, e, providers, rx);
      n.turnCount == m.turnCount + One(Matches(Transcript, m.state, e))
  {
  }

  /** Every turn that began was played to its end, interrupted, cancelled, or is under way. */
  lemma {:induction false} TurnsBalance(ins: seq<Input>, providers: bool)
    ensures var m := Run(INIT, ins, providers);
      Tally(ins, providers, Start) ==
        Tally(ins, providers, Complete) + m.interruptCount + Tally(ins, providers, CancelledTurn)
        + One(!m.state.Idle?)
  {
    if ins != [] {
      var n := |ins| - 1;
      TurnsBalance(ins[..n], providers);
      StepBalances(Run(INIT, ins[..n], providers), ins[n].event, providers, ins[n].rx);
    }
  }

  /** Turns are counted by accepted transcripts, at most one for each accepted start. */
  lemma {:induction false} TranscriptsCounted(ins: seq<Input>, providers: bool)
    ensures var m := Run(INIT, ins, providers);
      && m.turnCount == Tally(ins, providers, Transcript)
      && m.turnCount + One(m.state.Listening? || m.state.Transcribing?) <= Tally(ins, providers, Start)
  {
    if ins != [] {
      var n := |ins| - 1;
      TranscriptsCounted(ins[..n], providers);
      StepBalances(Run(INIT, ins[..n], providers), ins[n].event, providers, ins[n].rx);
      HandleMoves(Run(INIT, ins[..n], providers), ins[n].event, providers, ins[n].rx);
    }
  }

  // ----- cancellation -----

  ghost predicate Busy(m: Model) { m.state.AgentThinking? || m.state.Speaking? }

  /** Nothing is buffered for speech unless the agent is thinking, and every task ever
      started was cancelled, needs no cancelling, or belongs to the turn under way. */
  ghost predicate Fenced(m: Model) {
    && (!m.state.AgentThinking? ==> m.sentenceBuffer == "" && !m.ttsTextOpen)
    && (m.ttsTextOpen ==> m.ttsCancel.Some?)
    && (forall k :: k in Slots(m) ==> k < m.issued)
    && (forall k :: 0 <= k < m.issued ==>
          k in m.cancelled || k in m.retired || (Busy(m) && k in Slots(m)))
  }

  /** The TTS token of a stream that no longer takes text has been dealt with. */
  ghost predicate TtsSettled(m: Model) {
    && (m.agentCancel.Some? && m.ttsCancel.Some? ==> m.agentCancel.value != m.ttsCancel.value)
    && (m.state.AgentThinking? && !m.ttsTextOpen && m.ttsCancel.Some? ==>
          m.ttsCancel.value in m.cancelled + m.retired)
  }

  lemma StartKeepsFence(m: Model, providers: bool)
    requires Fenced(m) && TtsSettled(m) && m.state.AgentThinking?
    ensures var s := StartTts(m, providers);
      Fenced(s) && TtsSettled(s) && s.state == m.state
  {
    if providers && !m.ttsTextOpen {
      NewStreamKeepsFence(m);
    }
  }

  lemma NewStreamKeepsFence(m: Model)
    requires Fenced(m) && TtsSettled(m) && m.state.AgentThinking? && !m.ttsTextOpen
    ensures var s := m.(ttsTextOpen := true, ttsCancel := Some(m.issued), issued := m.issued + 1);
      Fenced(s) && TtsSettled(s)
  {
    var s := m.(ttsTextOpen := true, ttsCancel := Some(m.issued), issued := m.issued + 1);
    var agent := SlotSet(m.agentCancel);
    assert Slots(m) == agent + SlotSet(m.ttsCancel) && Slots(s) == agent + {m.issued};
    forall k | k in Slots(s) ensures k < s.issued {
      assert k == m.issued || k in Slots(m);
    }
    forall k | 0 <= k < s.issued
      ensures k in s.cancelled || k in s.retired || (Busy(s) && k in Slots(s))
    {
      if k < m.issued {
        assert k in m.cancelled || k in m.retired || k in Slots(m);
        if k in Slots(m) && k !in agent {
          assert m.ttsCancel == Some(k);
        }
      }
    }
    if s.agentCancel.Some? {
      assert s.agentCancel.value in Slots(m);
    }
  }

  /** A step that issues no token and empties no slot keeps every task accounted for. */
  lemma SlotsKeepFence(m: Model, n: Model)
    requires Fenced(m) && TtsSettled(m) && Busy(m) && Busy(n)
    requires n.issued == m.issued && n.agentCancel == m.agentCancel && n.ttsCancel == m.ttsCancel
    requires n.cancelled == m.cancelled && m.retired <= n.retired
    requires !n.state.AgentThinking? ==> n.sentenceBuffer == "" && !n.ttsTextOpen
    requires n.ttsTextOpen ==> m.ttsTextOpen
    requires n.state.AgentThinking? ==>
      m.state.AgentThinking? && (m.ttsTextOpen && !n.ttsTextOpen ==> SlotSet(m.ttsCancel) <= n.retired)
    ensures Fenced(n) && TtsSettled(n)
  {
    assert Slots(n) == Slots(m);
    forall k | 0 <= k < n.issued
      ensures k in n.cancelled || k in n.retired || (Busy(n) && k in Slots(n))
    {
      assert k in m.cancelled || k in m.retired || k in Slots(m);
    }
    if n.state.AgentThinking? && !n.ttsTextOpen && n.ttsCancel.Some? && m.ttsTextOpen {
      assert n.ttsCancel.value in SlotSet(m.ttsCancel);
    }
  }

  lemma FlushKeepsFence(m: Model, b: string, rx: Receiver)
    requires Fenced(m) && TtsSettled(m) && m.state.AgentThinking?
    ensures var f := FlushSentences(m.(sentenceBuffer := b), rx); Fenced(f) && TtsSettled(f)
    ensures var f := FlushRemaining(m.(sentenceBuffer := b), rx).(state := Speaking); Fenced(f) && TtsSettled(f)
  {
    SlotsKeepFence(m, FlushSentences(m.(sentenceBuffer := b), rx));
    SlotsKeepFence(m, FlushRemaining(m.(sentenceBuffer := b), rx).(state := Speaking));
  }

  lemma {:induction false} RunsAreFenced(ins: seq<Input>, providers: bool)
    ensures Fenced(Run(INIT, ins, providers)) && TtsSettled(Run(INIT, ins, providers))
  {
    if ins != [] {
      var n := |ins| - 1;
      RunsAreFenced(ins[..n], providers);
      HandleKeepsFence(Run(INIT, ins[..n], providers), ins[n].event, providers, ins[n].rx);
    }
  }

  lemma CancelKeepsFence(m: Model)
    requires Fenced(m)
    ensures forall s :: Fenced(CancelTasks(m).(state := s)) && TtsSettled(CancelTasks(m).(state := s))
    ensures CancelTasks(m).issued == m.issued
  {
    var c := CancelTasks(m);
    assert Slots(c) == {};
  }

  lemma PartialKeepsFence(m: Model, e: Event, providers: bool, rx: Receiver)
    requires Fenced(m) && TtsSettled(m) && m.state.AgentThinking? && e.AgentPartialResponse?
    ensures Fenced(Handle(m, e, providers, rx)) && TtsSettled(Handle(m, e, providers, rx))
  {
    StartKeepsFence(m, providers);
    var s := StartTts(m, providers);
    var b := s.sentenceBuffer + e.text;
    FlushKeepsFence(s, b, rx);
    SendKeepsFence(FlushSentences(s.(sentenceBuffer := b), rx), e);
  }

  lemma FinalKeepsFence(m: Model, e: Event, providers: bool, rx: Receiver)
    requires Fenced(m) && TtsSettled(m) && m.state.AgentThinking? && e.AgentFinalResponse?
    ensures Fenced(Handle(m, e, providers, rx)) && TtsSettled(Handle(m, e, providers, rx))
  {
    StartKeepsFence(m, providers);
    var s := StartTts(m, providers);
    var b := if e.text != "" && s.sentenceBuffer == "" then e.text else s.sentenceBuffer;
    FlushKeepsFence(s, b, rx);
    assert s.(sentenceBuffer := s.sentenceBuffer) == s;
    SendKeepsFence(FlushRemaining(s.(sentenceBuffer := b), rx).(state := Speaking), e);
  }

  /** Forwarding an event changes no task. */
  lemma SendKeepsFence(m: Model, e: Event)
    requires Fenced(m) && TtsSettled(m)
    ensures Fenced(Forward(m, e)) && TtsSettled(Forward(m, e))
  {
    assert Slots(Forward(m, e)) == Slots(m);
  }

  lemma TranscriptKeepsFence(m: Model, e: Event, providers: bool, rx: Receiver)
    requires Fenced(m) && TtsSettled(m) && m.state.Transcribing? && e.FinalTranscript?
    ensures Fenced(Handle(m, e, providers, rx)) && TtsSettled(Handle(m, e, providers, rx))
  {
    var t := Handle(m, e, providers, rx);
    assert SlotSet(m.ttsCancel) <= Slots(m);
    if providers {
      assert t.agentCancel == Some(m.issued) && SlotSet(t.agentCancel) == {m.issued};
      assert t.ttsCancel == m.ttsCancel;
      assert Slots(t) == {m.issued} + SlotSet(m.ttsCancel);
    } else {
      assert Slots(t) == Slots(m);
    }
    assert m.ttsCancel.Some? ==> m.ttsCancel.value in SlotSet(m.ttsCancel);
    forall k | 0 <= k < t.issued
      ensures k in t.cancelled || k in t.retired || (Busy(t) && k in Slots(t))
    {
      if k < m.issued { assert k in m.cancelled || k in m.retired; }
    }
  }

  lemma PlayedKeepsFence(m: Model)
    requires Fenced(m) && TtsSettled(m) && m.state.Speaking?
    ensures var t := m.(state := Idle, retired := m.retired + Slots(m)); Fenced(t) && TtsSettled(t)
  {
    var t := m.(state := Idle, retired := m.retired + Slots(m));
    assert Slots(t) == Slots(m);
  }

  /** Changing the state while no task runs. */
  lemma MoveKeepsFence(m: Model, s: State)
    requires Fenced(m) && TtsSettled(m) && !Busy(m) && (s.Listening? || s.Transcribing?)
    ensures Fenced(m.(state := s)) && TtsSettled(m.(state := s))
  {
    assert Slots(m.(state := s)) == Slots(m);
  }

  lemma StartOfSpeechKeepsFence(m: Model, e: Event, providers: bool, rx: Receiver)
    requires Fenced(m) && TtsSettled(m) && e.SpeechStarted?
    ensures Fenced(Handle(m, e, providers, rx)) && TtsSettled(Handle(m, e, providers, rx))
  {
    if m.state.Idle? {
      MoveKeepsFence(m, Listening);
      SendKeepsFence(m.(state := Listening), e);
    } else if !m.state.Listening? {
      CancelKeepsFence(m);
    }
  }

  lemma HandleKeepsFence(m: Model, e: Event, providers: bool, rx: Receiver)
    requires Fenced(m) && TtsSettled(m)
    ensures Fenced(Handle(m, e, providers, rx)) && TtsSettled(Handle(m, e, providers, rx))
  {
    if !Accepted(m.state, e) {
      assert Handle(m, e, providers, rx) == m;
    } else {
      match e {
        case SpeechStarted(_) => StartOfSpeechKeepsFence(m, e, providers, rx);
        case SpeechEnded(_) => MoveKeepsFence(m, Transcribing);
        case FinalTranscript(_) => TranscriptKeepsFence(m, e, providers, rx);
        case AgentPartialResponse(_) => PartialKeepsFence(m, e, providers, rx);
        case AgentFinalResponse(_) => FinalKeepsFence(m, e, providers, rx);
        case TtsComplete =>
          PlayedKeepsFence(m);
          SendKeepsFence(m.(state := Idle, retired := m.retired + Slots(m)), e);
        case Interrupt => CancelKeepsFence(m);
        case Cancel => CancelKeepsFence(m);
        case _ => SendKeepsFence(m, e);
      }
    }
  }

  // ----- what each event does to the tokens -----

  /** Barge-in, interrupt and cancel stop what is under way. */
  predicate Stops(s: State, e: Event) {
    || (e.SpeechStarted? && (s.Transcribing? || s.AgentThinking? || s.Speaking?))
    || (e.Interrupt? && s.Speaking?)
    || e.Cancel?
  }

  /** Exactly those events cancel, and they cancel the tasks of both slots. */
  lemma StopsCancelTheSlots(m: Model, e: Event, providers: bool, rx: Receiver)
    ensures var n := Handle(m, e, providers, rx);
      && (forall k :: k in n.cancelled <==>
            k in m.cancelled || (Stops(m.state, e) && (m.agentCancel == Some(k) || m.ttsCancel == Some(k))))
      && (Stops(m.state, e) ==> n.agentCancel == n.ttsCancel == None)
  {
  }

  /** Exactly an accepted transcript starts an agent task, with a new token and its own text;
      exactly the first text of a reply for which no stream is open starts a TTS task. */
  lemma TasksGetNewTokens(m: Model, e: Event, rx: Receiver)
    ensures var n := Handle(m, e, true, rx);
      var agent := e.FinalTranscript? && m.state.Transcribing?;
      var tts := (e.AgentPartialResponse? || e.AgentFinalResponse?) && m.state.AgentThinking? && !m.ttsTextOpen;
      && n.issued == m.issued + One(agent || tts)
      && (agent ==> n.agentCancel == Some(m.issued) && n.asked == m.asked + [e.text])
      && (tts ==> n.ttsCancel == Some(m.issued))
      && (!agent ==> n.asked == m.asked)
      && (!agent && !Stops(m.state, e) ==> n.agentCancel == m.agentCancel)
      && (!tts && !Stops(m.state, e) ==> n.ttsCancel == m.ttsCancel)
  {
  }

  /** Only a reply that is being thought of adds to the offers, and nothing is taken back. */
  lemma OnlyRepliesOffer(m: Model, e: Event, providers: bool, rx: Receiver)
    ensures var n := Handle(m, e, providers, rx);
      && m.offers <= n.offers
      && (!(m.state.AgentThinking? && (e.AgentPartialResponse? || e.AgentFinalResponse?)) ==> n.offers == m.offers)
  {
  }

  // ----- what is passed on to the caller -----

  /** The events that reach the egress channel, by the state they meet. */
  predicate Passes(s: State, e: Event) {
    match e
    case SpeechStarted(_) => !s.Listening?
    case PartialTranscript(_) => s.Transcribing?
    case FinalTranscript(_) => s.Transcribing?
    case AgentPartialResponse(_) => s.AgentThinking?
    case AgentFinalResponse(_) => s.AgentThinking?
    case TtsAudioChunk(_) => s.AgentThinking? || s.Speaking?
    case TtsComplete => s.Speaking?
    case ComponentError(_) => true
    case _ => false
  }

  function Passed(events: seq<Event>): seq<Event> {
    if events == [] then []
    else
      var n := |events| - 1;
      Passed(events[..n]) + if Passes(After(events[..n]), events[n]) then [events[n]] else []
  }

  lemma HandlePasses(m: Model, e: Event, providers: bool, rx: Receiver)
    ensures Handle(m, e, providers, rx).egress == m.egress + if Passes(m.state, e) then [e] else []
  {
    if !Passes(m.state, e) {
      SilentEvents(m, e, providers, rx);
      ConcatEmpty(m.egress);
    }
  }

  lemma SilentEvents(m: Model, e: Event, providers: bool, rx: Receiver)
    requires !Passes(m.state, e)
    ensures Handle(m, e, providers, rx).egress == m.egress
  {
  }

  /** The egress channel carries exactly the events that pass, in order, for every run. */
  lemma {:induction false} EgressIsPassed(ins: seq<Input>, providers: bool)
    ensures Run(INIT, ins, providers).egress == Passed(Events(ins))
  {
    if ins != [] {
      var n := |ins| - 1;
      EgressIsPassed(ins[..n], providers);
      RunMoves(ins[..n], providers);
      assert Events(ins)[..n] == Events(ins[..n]);
      HandlePasses(Run(INIT, ins[..n], providers), ins[n].event, providers, ins[n].rx);
    }
  }

  /** The transcripts that are the first since the end of a speech. */
  function Heeded(events: seq<Event>): seq<string> {
    if events == [] then []
    else
      var n := |events| - 1;
      Heeded(events[..n])
        + if events[n].FinalTranscript? && After(events[..n]).Transcribing? then [events[n].text] else []
  }

  /** The agent is asked exactly the transcripts that are accepted, in order, for every run. */
  lemma {:induction false} AgentIsAsked(ins: seq<Input>)
    ensures Run(INIT, ins, true).asked == Heeded(Events(ins))
  {
    if ins != [] {
      var n := |ins| - 1;
      AgentIsAsked(ins[..n]);
      RunMoves(ins[..n], true);
      assert Events(ins)[..n] == Events(ins[..n]);
      TasksGetNewTokens(Run(INIT, ins[..n], true), ins[n].event, ins[n].rx);
      ConcatEmpty(Heeded(Events(ins[..n])));
    }
  }

  // ----- the detector's edges -----

  /** The control state after a sequence of events. */
  function After(events: seq<Event>): State {
    if events == [] then Idle else Next(After(events[..|events| - 1]), events[|events| - 1])
  }

  function Events(ins: seq<Input>): (r: seq<Event>)
    ensures |r| == |ins|
  {
    seq(|ins|, i requires 0 <= i < |ins| => ins[i].event)
  }

  lemma HandleMoves(m: Model, e: Event, providers: bool, rx: Receiver)
    ensures Handle(m, e, providers, rx).state == Next(m.state, e)
  {
  }

  lemma {:induction false} RunMoves(ins: seq<Input>, providers: bool)
    ensures Run(INIT, ins, providers).state == After(Events(ins))
  {
    if ins != [] {
      var n := |ins| - 1;
      RunMoves(ins[..n], providers);
      assert Events(ins)[..n] == Events(ins[..n]);
      HandleMoves(Run(INIT, ins[..n], providers), ins[n].event, providers, ins[n].rx);
    }
  }

  predicate IsEdge(e: Event) { e.SpeechStarted? || e.SpeechEnded? }

  function Edges(events: seq<Event>): (r: seq<bool>)
    ensures |r| <= |events|
  {
    if events == [] then []
    else
      var n := |events| - 1;
      Edges(events[..n]) + if IsEdge(events[n]) then [events[n].SpeechStarted?] else []
  }

  /** What the bus carries when no Cancel is sent: the detector's edges alternate. */
  ghost predicate Orderly(events: seq<Event>) {
    && Vad.Alternates(Edges(events))
    && forall i :: 0 <= i < |events| ==> !events[i].Cancel?
  }

  lemma {:induction false} OrderlyPrefix(events: seq<Event>, k: nat)
    requires Orderly(events) && k <= |events|
    ensures Orderly(events[..k])
  {
    if k == |events| {
      assert events[..k] == events;
    } else {
      var p := events[..|events| - 1];
      Vad.AlternatesPrefix(Edges(p), Edges(events));
      OrderlyPrefix(p, k);
      assert p[..k] == events[..k];
    }
  }

  /** The orchestrator listens exactly between a start and the next end, so no edge is
      ever ignored, whatever other events are interleaved. */
  lemma {:induction false} ListensBetweenEdges(events: seq<Event>)
    requires Orderly(events)
    ensures After(events).Listening? <==> |Edges(events)| % 2 == 1
    ensures forall i :: 0 <= i < |events| && IsEdge(events[i]) ==> Accepted(After(events[..i]), events[i])
  {
    if events != [] {
      var n := |events| - 1;
      var p := events[..n];
      OrderlyPrefix(events, n);
      ListensBetweenEdges(p);
      forall i | 0 <= i < |events| && IsEdge(events[i])
        ensures Accepted(After(events[..i]), events[i])
      {
        if i < n {
          assert p[i] == events[i] && p[..i] == events[..i];
        } else {
          EdgeParity(events);
        }
      }
      if IsEdge(events[n]) {
        EdgeParity(events);
      }
    }
  }

  lemma EdgeParity(events: seq<Event>)
    requires Orderly(events) && events != [] && IsEdge(events[|events| - 1])
    ensures var p := events[..|events| - 1];
      |Edges(events)| == |Edges(p)| + 1 && (events[|events| - 1].SpeechStarted? <==> |Edges(p)| % 2 == 0)
  {
    var p := events[..|events| - 1];
    var k := |Edges(p)|;
    assert Edges(events)[k] == events[|events| - 1].SpeechStarted?;
    assert Vad.Alternating(k + 1)[k] == ((k + 1) % 2 == 1);
  }

  /** Event `i` ended the speech that the transcript expected at the end of `events` is for. */
  ghost predicate Awaits(events: seq<Event>, i: nat) {
    && i < |events| && events[i].SpeechEnded?
    && forall j :: i < j < |events| ==> !events[j].SpeechStarted? && !events[j].FinalTranscript?
  }

  /** A transcript is accepted exactly when it is the first one since a SpeechEnded that no
      new speech has followed. */
  lemma {:induction false} TranscriptRule(events: seq<Event>)
    requires Orderly(events)
    ensures After(events).Transcribing? <==> exists i: nat :: Awaits(events, i)
  {
    if events != [] {
      var n := |events| - 1;
      var p := events[..n];
      OrderlyPrefix(events, n);
      TranscriptRule(p);
      ListensBetweenEdges(events);
      ListensBetweenEdges(p);
      var e := events[n];
      if e.SpeechEnded? {
        assert Awaits(events, n);
        assert Accepted(After(events[..n]), events[n]);
      } else if e.SpeechStarted? || e.FinalTranscript? {
        assert forall i: nat :: !Awaits(events, i);
      } else {
        forall i: nat ensures Awaits(events, i) <==> Awaits(p, i) {
          if i < n {
            assert p[i] == events[i];
            assert forall j :: i < j < n ==> p[j] == events[j];
          }
        }
      }
    }
  }
}
