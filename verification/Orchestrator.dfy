/** The turn state machine: `Orchestrator` of crates/core/src/orchestrator.rs. */
module Orchestrator {
  import opened Text
  import opened Sentences

  datatype State = Idle | Listening | Transcribing | AgentThinking | Speaking

  /** `Other` stands for the events the orchestrator never matches. */
  datatype Event =
    | SpeechStarted(timestampMs: nat)
    | SpeechEnded(timestampMs: nat)
    | PartialTranscript(text: string)
    | FinalTranscript(text: string)
    | AgentPartialResponse(text: string)
    | AgentFinalResponse(text: string)
    | TtsAudioChunk(sequence: nat)
    | TtsComplete
    | Interrupt
    | Cancel
    | ComponentError(error: string)
    | Other

  type Token = nat

  /** Cancellation tokens are numbered as they are issued. `offers` is everything offered to
      TTS streams, `asked` the transcripts handed to the agent; `retired` holds the tokens that count as done with although they were never
      cancelled: those in the slots when a TtsComplete was accepted, whichever stream it came
      from, and that of a TTS stream that had hung up. */
  datatype Model = Model(
    state: State,
    agentCancel: Option<Token>,
    ttsCancel: Option<Token>,
    issued: nat,
    cancelled: set<Token>,
    retired: set<Token>,
    ttsTextOpen: bool,
    sentenceBuffer: string,
    offers: seq<Offer>,
    asked: seq<string>,
    turnCount: nat,
    interruptCount: nat,
    egress: seq<Event>)

  const INIT := Model(Idle, None, None, 0, {}, {}, false, "", [], [], 0, 0, [])

  function SlotSet(slot: Option<Token>): set<Token> {
    if slot.Some? then {slot.value} else {}
  }

  function Slots(m: Model): set<Token> {
    SlotSet(m.agentCancel) + SlotSet(m.ttsCancel)
  }

  // ----- what one event does -----

  /** Where an event leads, whatever else it does. */
  function Next(s: State, e: Event): State {
    match e
    case SpeechStarted(_) => Listening
    case SpeechEnded(_) => if s.Listening? then Transcribing else s
    case FinalTranscript(_) => if s.Transcribing? then AgentThinking else s
    case AgentFinalResponse(_) => if s.AgentThinking? then Speaking else s
    case TtsComplete => if s.Speaking? then Idle else s
    case Interrupt => if s.Speaking? then Idle else s
    case Cancel => Idle
    case _ => s
  }

  function Forward(m: Model, e: Event): Model {
    m.(egress := m.egress + [e])
  }

  function CancelTasks(m: Model): Model {
    m.(cancelled := m.cancelled + Slots(m),
       agentCancel := None, ttsCancel := None, ttsTextOpen := false, sentenceBuffer := "")
  }

  function TriggerAgent(m: Model, transcript: string, providers: bool): Model {
    if providers then
      m.(agentCancel := Some(m.issued), issued := m.issued + 1, asked := m.asked + [transcript])
    else m
  }

  function StartTts(m: Model, providers: bool): Model {
    if providers && !m.ttsTextOpen then m.(ttsTextOpen := true, ttsCancel := Some(m.issued), issued := m.issued + 1)
    else m
  }

  function HangUp(m: Model): Model {
    m.(ttsTextOpen := false, retired := m.retired + SlotSet(m.ttsCancel))
  }

  function FlushSentences(m: Model, rx: Receiver): Model {
    if !m.ttsTextOpen then m
    else
      var f := Flush(m.sentenceBuffer, rx);
      var sent := m.(offers := m.offers + f.offers, sentenceBuffer := f.rest);
      if f.open then sent else HangUp(sent)
  }

  function FlushRemaining(m: Model, rx: Receiver): Model {
    var t := Trim(m.sentenceBuffer);
    var offers := if t != "" && m.ttsTextOpen then [Offer(t, Takes(rx))] else [];
    m.(offers := m.offers + offers, sentenceBuffer := "", ttsTextOpen := false)
  }

  function BargeIn(m: Model, e: Event): Model {
    var c := CancelTasks(m);
    Forward(c.(interruptCount := c.interruptCount + 1, state := Listening), e)
  }

  function Handle(m: Model, e: Event, providers: bool, rx: Receiver): Model {
    match e
    case SpeechStarted(_) =>
      (match m.state
       case Idle => Forward(m.(state := Listening), e)
       case Listening => m
       case _ => BargeIn(m, e))
    case SpeechEnded(_) => m.(state := Next(m.state, e))
    case PartialTranscript(_) => if m.state.Transcribing? then Forward(m, e) else m
    case FinalTranscript(text) =>
      if m.state.Transcribing? then
        TriggerAgent(Forward(m.(state := AgentThinking, turnCount := m.turnCount + 1), e), text, providers)
      else m
    case AgentPartialResponse(text) =>
      if m.state.AgentThinking? then
        var started := StartTts(m, providers);
        Forward(FlushSentences(started.(sentenceBuffer := started.sentenceBuffer + text), rx), e)
      else m
    case AgentFinalResponse(text) =>
      if m.state.AgentThinking? then
        var started := StartTts(m, providers);
        var full := if text != "" && started.sentenceBuffer == "" then started.(sentenceBuffer := text) else started;
        Forward(FlushRemaining(full, rx).(state := Speaking), e)
      else m
    case TtsAudioChunk(_) => if m.state.AgentThinking? || m.state.Speaking? then Forward(m, e) else m
    case TtsComplete =>
      if m.state.Speaking? then
        Forward(m.(state := Idle, retired := m.retired + Slots(m)), e)
      else m
    case Interrupt =>
      if m.state.Speaking? then
        var c := CancelTasks(m);
        c.(interruptCount := c.interruptCount + 1, state := Idle)
      else m
    case Cancel => CancelTasks(m).(state := Idle)
    case ComponentError(_) => Forward(m, e)
    case Other => m
  }

  /** An event is accepted when it is not ignored as invalid in the current state. */
  predicate Accepted(s: State, e: Event) {
    match e
    case SpeechStarted(_) => !s.Listening?
    case SpeechEnded(_) => s.Listening?
    case PartialTranscript(_) => s.Transcribing?
    case FinalTranscript(_) => s.Transcribing?
    case AgentPartialResponse(_) => s.AgentThinking?
    case AgentFinalResponse(_) => s.AgentThinking?
    case TtsAudioChunk(_) => s.AgentThinking? || s.Speaking?
    case TtsComplete => s.Speaking?
    case Interrupt => s.Speaking?
    case Cancel => true
    case ComponentError(_) => true
    case Other => false
  }

  // ----- the object -----

  class Orchestrator {
    const providers: bool
    var state: State
    var agentTurnCancel: Option<Token>
    var ttsTurnCancel: Option<Token>
    var issued: nat
    var cancelled: set<Token>
    ghost var retired: set<Token>
    var ttsTextOpen: bool
    var sentenceBuffer: string
    var offers: seq<Offer>
    var asked: seq<string>
    var turnCount: nat
    var interruptCount: nat
    var egress: seq<Event>

    ghost function Abs(): Model
      reads this
    {
      Model(state, agentTurnCancel, ttsTurnCancel, issued, cancelled, retired, ttsTextOpen,
            sentenceBuffer, offers, asked, turnCount, interruptCount, egress)
    }

    constructor (providers: bool)
      ensures Abs() == INIT && this.providers == providers
    {
      this.providers := providers;
      state, agentTurnCancel, ttsTurnCancel, issued := Idle, None, None, 0;
      cancelled, retired, ttsTextOpen, sentenceBuffer := {}, {}, false, "";
      offers, asked, turnCount, interruptCount, egress := [], [], 0, 0, [];
    }

    method ForwardEvent(e: Event)
      modifies this`egress
      ensures Abs() == Forward(old(Abs()), e)
    {
      egress := egress + [e];
    }

    method CancelActiveTasks()
      modifies this
      ensures Abs() == CancelTasks(old(Abs()))
    {
      if agentTurnCancel.Some? {
        cancelled := cancelled + {agentTurnCancel.value};
        agentTurnCancel := None;
      }
      if ttsTurnCancel.Some? {
        cancelled := cancelled + {ttsTurnCancel.value};
        ttsTurnCancel := None;
      }
      ttsTextOpen := false;
      sentenceBuffer := "";
      assert cancelled == old(cancelled) + Slots(old(Abs()));
    }

    method TriggerAgentTask(transcript: string)
      modifies this
      ensures Abs() == TriggerAgent(old(Abs()), transcript, providers)
    {
      if !providers { return; }
      asked := asked + [transcript];
      agentTurnCancel := Some(issued);
      issued := issued + 1;
    }

    method StartTtsStream()
      requires !ttsTextOpen
      modifies this
      ensures Abs() == StartTts(old(Abs()), providers)
    {
      if !providers { return; }
      ttsTextOpen := true;
      ttsTurnCancel := Some(issued);
      issued := issued + 1;
    }

    /** Extracts the complete sentences from the buffer and sends each one. */
    method SendSentences(rx: Receiver)
      modifies this
      ensures Abs() == FlushSentences(old(Abs()), rx)
    {
      if !ttsTextOpen { return; }
      ghost var m := Abs();
      var sent, rest, open := DrainSentences(sentenceBuffer, rx);
      offers := offers + sent;
      sentenceBuffer := rest;
      ghost var q := m.(offers := m.offers + sent, sentenceBuffer := rest);
      assert Abs() == q;
      if !open {
        retired := retired + SlotSet(ttsTurnCancel);
        ttsTextOpen := false;
        assert Abs() == HangUp(q);
      }
      assert FlushSentences(m, rx) == if open then q else HangUp(q);
    }

    method SendRemaining(rx: Receiver)
      modifies this
      ensures Abs() == FlushRemaining(old(Abs()), rx)
    {
      var trimmed := Trim(sentenceBuffer);
      if trimmed != "" {
        if ttsTextOpen {
          offers := offers + [Offer(trimmed, Takes(rx))];
        }
      }
      sentenceBuffer := "";
      ttsTextOpen := false;
    }

    method HandleEvent(e: Event, rx: Receiver)
      modifies this
      ensures Abs() == Handle(old(Abs()), e, providers, rx)
    {
      match (state, e) {
        case (Idle, SpeechStarted(_)) =>
          MoveTo(Listening);
          ForwardEvent(e);
        case (Listening, SpeechEnded(_)) =>
          MoveTo(Transcribing);
        case (Transcribing, PartialTranscript(_)) =>
          ForwardEvent(e);
        case (Transcribing, FinalTranscript(_)) =>
          OnTranscript(e);
        case (Transcribing, SpeechStarted(_)) =>
          Interrupted(e);
        case (AgentThinking, AgentPartialResponse(_)) =>
          OnPartialResponse(e, rx);
        case (AgentThinking, AgentFinalResponse(_)) =>
          OnFinalResponse(e, rx);
        case (AgentThinking, TtsAudioChunk(_)) =>
          ForwardEvent(e);
        case (Speaking, TtsAudioChunk(_)) =>
          ForwardEvent(e);
        case (Speaking, TtsComplete) =>
          PlayedToTheEnd();
          ForwardEvent(e);
        case (AgentThinking, SpeechStarted(_)) =>
          Interrupted(e);
        case (Speaking, SpeechStarted(_)) =>
          Interrupted(e);
        case (Speaking, Interrupt) =>
          OnInterrupt();
        case (_, Cancel) =>
          CancelActiveTasks();
          MoveTo(Idle);
        case (_, ComponentError(_)) =>
          ForwardEvent(e);
        case (_, _) =>
      }
    }

    method MoveTo(s: State)
      modifies this`state
      ensures Abs() == old(Abs()).(state := s)
    {
      state := s;
    }

    method OnTranscript(e: Event)
      requires e.FinalTranscript? && state.Transcribing?
      modifies this
      ensures Abs() == Handle(old(Abs()), e, providers, Alive)
    {
      state := AgentThinking;
      turnCount := turnCount + 1;
      ForwardEvent(e);
      TriggerAgentTask(e.text);
    }

    method OnInterrupt()
      modifies this
      ensures Abs() == CancelTasks(old(Abs())).(interruptCount := old(interruptCount) + 1, state := Idle)
    {
      CancelActiveTasks();
      interruptCount := interruptCount + 1;
      state := Idle;
    }

    method PlayedToTheEnd()
      modifies this`state, this`retired
      ensures Abs() == old(Abs()).(state := Idle, retired := old(retired) + Slots(old(Abs())))
    {
      state := Idle;
      retired := retired + SlotSet(agentTurnCancel) + SlotSet(ttsTurnCancel);
      assert retired == old(retired) + Slots(old(Abs()));
    }

    method OnPartialResponse(e: Event, rx: Receiver)
      requires e.AgentPartialResponse? && state.AgentThinking?
      modifies this
      ensures Abs() == Handle(old(Abs()), e, providers, rx)
    {
      if !ttsTextOpen { StartTtsStream(); }
      sentenceBuffer := sentenceBuffer + e.text;
      SendSentences(rx);
      ForwardEvent(e);
    }

    method OnFinalResponse(e: Event, rx: Receiver)
      requires e.AgentFinalResponse? && state.AgentThinking?
      modifies this
      ensures Abs() == Handle(old(Abs()), e, providers, rx)
    {
      if !ttsTextOpen { StartTtsStream(); }
      if e.text != "" && sentenceBuffer == "" {
        ConcatEmpty(e.text);
        sentenceBuffer := sentenceBuffer + e.text;
      }
      ghost var m := StartTts(old(Abs()), providers);
      assert Abs() == if e.text != "" && m.sentenceBuffer == "" then m.(sentenceBuffer := e.text) else m;
      SendRemaining(rx);
      MoveTo(Speaking);
      ForwardEvent(e);
    }

    /** The body the three barge-in arms share. */
    method Interrupted(e: Event)
      modifies this
      ensures Abs() == BargeIn(old(Abs()), e)
    {
      CancelActiveTasks();
      interruptCount := interruptCount + 1;
      state := Listening;
      ForwardEvent(e);
    }
  }
}
