/** The turn-taking pipeline: the fanout, the detector, the ASR tasks and the event bus
    running as concurrent tasks over bounded channels (crates/core/src/session.rs). */
module Pipeline {
  import opened Text
  import Vad
  import Fanout
  import Orchestrator
  import Turns

  const VAD_QUEUE: nat := 16
  const SIDE_QUEUE: nat := 32
  const DONE_QUEUE: nat := 8
  const BUS: nat := 200

  /** What the session is given: the detector's settings and the audio that arrives. */
  datatype Env = Env(config: Vad.Config, frames: seq<Vad.Frame>)

  /** Who put an event on the bus. The events themselves do not say. */
  datatype Source = FromVad | FromAsr(turnId: nat) | FromElsewhere

  datatype Entry = Entry(event: Orchestrator.Event, source: Source)

  /** Where the fanout is in its loop. The select polls the speech-state channel before the
      audio; between the two polls the detector may run. */
  datatype Phase = Select | Polled | Sending(frame: nat)

  /** `heard` frames reached the detector, which has sent `sent` and still has to send
      `acts`. `flags` are the speech-state messages the fanout has handled. The bus holds
      `log[consumed..]`. */
  datatype Sys = Sys(
    fan: Fanout.Fan, phase: Phase,
    vadQueue: seq<nat>, heard: nat, vad: Vad.State, acts: seq<Vad.Act>, sent: seq<Vad.Act>,
    vadEnded: bool, vadExited: bool,
    side: seq<bool>, flags: seq<bool>, done: seq<nat>,
    log: seq<Entry>, consumed: nat, busClosed: bool)

  const INIT := Sys(Fanout.INIT, Select, [], 0, Vad.INIT, [], [], false, false, [], [], [], [], 0, false)

  predicate VadDown(s: Sys) { s.vadExited || (s.vadEnded && s.acts == []) }

  predicate BusHasRoom(s: Sys) { |s.log| - s.consumed < BUS }

  function ToEvent(a: Vad.Act): Orchestrator.Event
    requires a.OnBus()
  {
    if a.Started? then Orchestrator.SpeechStarted(a.timestampMs) else Orchestrator.SpeechEnded(a.timestampMs)
  }

  // ----- the steps -----

  datatype Step =
    | FanDone | FanFlag | FanPoll | FanWait | FanTake | FanForward | FanStop
    | VadReceive | VadSend | VadEndOfAudio | VadCancel
    | AsrRead(turnId: nat) | AsrEmit(turnId: nat, event: Orchestrator.Event)
    | AsrFinish(turnId: nat) | AsrReport(turnId: nat)
    | Elsewhere(event: Orchestrator.Event)
    | Consume | BusClose

  predicate FanIdle(s: Sys) { !s.fan.stopped && s.phase.Select? }

  predicate VadReady(s: Sys) { !s.vadExited && !s.vadEnded && s.acts == [] }

  /** A provider may emit only once its audio has ended: the sender is gone and the queue
      is drained. */
  predicate AudioEnded(t: Fanout.Turn) {
    !t.finished && !t.closed.Open? && t.read == |t.sent|
  }

  predicate Enabled(env: Env, s: Sys, l: Step)
    requires Fanout.WellFormed(s.fan)
  {
    match l
    case FanDone => FanIdle(s) && s.done != [] && Fanout.Known(s.fan, s.done[0])
    case FanFlag => FanIdle(s) && s.side != []
    case FanPoll => FanIdle(s) && s.side == []
    case FanWait => !s.fan.stopped && s.phase.Polled?
    case FanTake => !s.fan.stopped && s.phase.Polled? && s.fan.taken < |env.frames|
    case FanForward => !s.fan.stopped && s.phase.Sending? && (|s.vadQueue| < VAD_QUEUE || VadDown(s))
    case FanStop => !s.fan.stopped && !s.phase.Sending?
    case VadReceive => VadReady(s) && s.vadQueue != [] && s.heard < |env.frames|
    case VadSend =>
      && !s.vadExited && s.acts != []
      && (if s.acts[0].Side? then s.fan.stopped || |s.side| < SIDE_QUEUE else s.busClosed || BusHasRoom(s))
    case VadEndOfAudio => VadReady(s) && s.vadQueue == [] && s.fan.stopped && s.heard <= |env.frames|
    case VadCancel => VadReady(s)
    case AsrRead(id) => Fanout.Known(s.fan, id) && var t := s.fan.turns[id - 1]; !t.finished && t.read < |t.sent|
    case AsrEmit(id, e) =>
      && Fanout.Known(s.fan, id) && AudioEnded(s.fan.turns[id - 1]) && !s.busClosed && BusHasRoom(s)
      && (e.PartialTranscript? || e.FinalTranscript?)
    case AsrFinish(id) => Fanout.Known(s.fan, id) && !s.fan.turns[id - 1].finished
    case AsrReport(id) =>
      && Fanout.Known(s.fan, id) && var t := s.fan.turns[id - 1];
      t.finished && !t.doneSent && |s.done| < DONE_QUEUE
    case Elsewhere(e) =>
      && !s.busClosed && BusHasRoom(s)
      && !Turns.IsEdge(e) && !e.PartialTranscript? && !e.FinalTranscript?
    case Consume => !s.busClosed && s.consumed < |s.log|
    case BusClose => !s.busClosed
  }

  function SendAct(s: Sys): Sys
    requires s.acts != []
  {
    var a := s.acts[0];
    if !a.Side? && s.busClosed then s.(vadExited := true)
    else
      var t := s.(acts := s.acts[1..], sent := s.sent + [a]);
      if !a.Side? then t.(log := t.log + [Entry(ToEvent(a), FromVad)])
      else if s.fan.stopped then t
      else t.(side := t.side + [a.speaking])
  }

  function SetTurn(s: Sys, id: nat, t: Fanout.Turn): Sys
    requires Fanout.Known(s.fan, id)
  {
    s.(fan := Fanout.SetTurn(s.fan, id, t))
  }

  function Take(env: Env, s: Sys, l: Step): Sys
    requires Fanout.WellFormed(s.fan) && Enabled(env, s, l)
  {
    match l
    case FanDone => s.(fan := Fanout.OnDone(s.fan, s.done[0]), done := s.done[1..])
    case FanFlag =>
      s.(fan := Fanout.OnFlag(s.fan, s.side[0]), side := s.side[1..], flags := s.flags + [s.side[0]])
    case FanPoll => s.(phase := Polled)
    case FanWait => s.(phase := Select)
    case FanTake => s.(fan := Fanout.OnFrame(s.fan), phase := Sending(s.fan.taken))
    case FanForward =>
      s.(phase := Select, vadQueue := if VadDown(s) then s.vadQueue else s.vadQueue + [s.phase.frame])
    case FanStop => s.(fan := Fanout.OnStop(s.fan))
    case VadReceive =>
      var f := env.frames[s.heard];
      s.(vadQueue := s.vadQueue[1..], heard := s.heard + 1,
         vad := Vad.Step(env.config, s.vad, f), acts := Vad.Acts(env.config, s.vad, f))
    case VadSend => SendAct(s)
    case VadEndOfAudio => s.(vadEnded := true, acts := Vad.Closing(env.config, env.frames[..s.heard]))
    case VadCancel => s.(vadExited := true)
    case AsrRead(id) => var t := s.fan.turns[id - 1]; SetTurn(s, id, t.(read := t.read + 1))
    case AsrEmit(id, e) => s.(log := s.log + [Entry(e, FromAsr(id))])
    case AsrFinish(id) => SetTurn(s, id, s.fan.turns[id - 1].(finished := true))
    case AsrReport(id) => SetTurn(s, id, s.fan.turns[id - 1].(doneSent := true)).(done := s.done + [id])
    case Elsewhere(e) => s.(log := s.log + [Entry(e, FromElsewhere)])
    case Consume => s.(consumed := s.consumed + 1)
    case BusClose => s.(busClosed := true)
  }

  /** The state a schedule of steps leads to, if every step in it could be taken. */
  function Exec(env: Env, schedule: seq<Step>): Option<Sys> {
    if schedule == [] then Some(INIT)
    else
      var n := |schedule| - 1;
      var before := Exec(env, schedule[..n]);
      if before.Some? && Fanout.WellFormed(before.value.fan) && Enabled(env, before.value, schedule[n])
      then Some(Take(env, before.value, schedule[n]))
      else None
  }

  // ----- the invariant, part by part -----

  /** The detector's side: it has heard a prefix of the audio, in order, and what it has
      sent and still has to send is the log of that prefix. */
  ghost predicate VadPart(env: Env, s: Sys) {
    && s.heard <= s.fan.taken <= |env.frames|
    && s.vad == Vad.Fold(env.config, env.frames[..s.heard])
    && s.sent + s.acts == Planned(env, s)
    && (!VadDown(s) ==> s.vadQueue == Fanout.Range(s.heard, s.heard + |s.vadQueue|))
    && (!VadDown(s) ==> s.heard + |s.vadQueue| + (if s.phase.Sending? then 1 else 0) == s.fan.taken)
    && (s.phase.Sending? ==> s.phase.frame + 1 == s.fan.taken)
  }

  function Planned(env: Env, s: Sys): seq<Vad.Act>
    requires s.heard <= |env.frames|
  {
    var fs := env.frames[..s.heard];
    if s.vadEnded then Vad.FullLog(env.config, fs) else Vad.Log(env.config, fs)
  }

  function SidePending(acts: seq<Vad.Act>): nat {
    if acts == [] then 0 else (if acts[0].Side? then 1 else 0) + SidePending(acts[1..])
  }

  /** At most one flag per frame is under way: queued, in the detector's hands, or still
      to be decided on. */
  ghost predicate QueuePart(s: Sys) {
    && SidePending(s.acts) <= 1
    && |s.vadQueue| <= VAD_QUEUE
    && |s.side| <= VAD_QUEUE + 2
    && (!s.fan.stopped ==>
          |s.side| + SidePending(s.acts) + |s.vadQueue| + (if s.phase.Select? then 0 else 1) <= VAD_QUEUE + 2)
  }

  function LogEvents(log: seq<Entry>): (r: seq<Orchestrator.Event>)
    ensures |r| == |log|
  {
    if log == [] then [] else LogEvents(log[..|log| - 1]) + [log[|log| - 1].event]
  }

  function LogEdges(log: seq<Entry>): seq<bool> {
    Turns.Edges(LogEvents(log))
  }

  lemma LogSnoc(log: seq<Entry>, e: Entry)
    ensures LogEvents(log + [e]) == LogEvents(log) + [e.event]
    ensures LogEdges(log + [e]) == LogEdges(log) + if Turns.IsEdge(e.event) then [e.event.SpeechStarted?] else []
  {
    assert (log + [e])[..|log|] == log;
    assert (LogEvents(log) + [e.event])[..|log|] == LogEvents(log);
  }

  /** The side channel carries the detector's flags in order; the fanout has handled a
      prefix of them. */
  ghost predicate SidePart(s: Sys) {
    && Vad.FlagsInOrder(s.sent)
    && s.flags + s.side <= Vad.SideEdges(s.sent)
    && (!s.fan.stopped ==> s.flags + s.side == Vad.SideEdges(s.sent))
  }

  /** What `n` flags have done to the turns. */
  ghost predicate TurnsOfFlags(f: Fanout.Fan, n: nat) {
    && |f.turns| == (n + 1) / 2
    && (f.current.Some? && f.current.value.captureOpen ==> n % 2 == 1)
    && (forall id: nat :: Fanout.Known(f, id) && f.turns[id - 1].closed.ByFlag? ==> id <= n / 2)
  }

  /** Each opening flag spawns one turn, and only the flag that follows it can close that
      turn by flag. */
  ghost predicate TurnPart(s: Sys) {
    && TurnsOfFlags(s.fan, |s.flags|)
    && (forall id: nat :: id in s.done ==> Fanout.Known(s.fan, id))
  }

  /** A transcript of a turn that its flag closed stands behind that turn's SpeechEnded. */
  ghost predicate Behind(s: Sys, k: nat)
    requires k < |s.log|
  {
    s.log[k].source.FromAsr? ==>
      var id := s.log[k].source.turnId;
      && Fanout.Known(s.fan, id)
      && !s.fan.turns[id - 1].closed.Open?
      && (s.fan.turns[id - 1].closed.ByFlag? ==> id <= Vad.Count(LogEdges(s.log[..k]), false))
  }

  ghost predicate LogPart(s: Sys) {
    && s.consumed <= |s.log| <= s.consumed + BUS
    && LogEdges(s.log) == Vad.BusEdges(s.sent)
    && (forall k: nat :: k < |s.log| ==> Behind(s, k))
  }

  ghost predicate Inv(env: Env, s: Sys) {
    && Fanout.Fenced(s.fan)
    && Fanout.Windowed(s.fan)
    && VadPart(env, s)
    && QueuePart(s)
    && SidePart(s)
    && TurnPart(s)
    && LogPart(s)
  }

  // ----- the invariant is kept: the fanout's own state -----

  lemma AsrKeepsFence(f: Fanout.Fan, id: nat, t: Fanout.Turn)
    requires Fanout.Fenced(f) && Fanout.Known(f, id)
    requires var o := f.turns[id - 1];
      t.closed == o.closed && t.cancelled == o.cancelled && t.doneReceived == o.doneReceived
    ensures Fanout.Fenced(Fanout.SetTurn(f, id, t))
  {
    var g := Fanout.SetTurn(f, id, t);
    forall k | Fanout.Known(g, k) ensures Fanout.TurnFenced(g, k) {
      assert Fanout.TurnFenced(f, k);
    }
  }

  /** What a step does to the fanout's own state. */
  function FanAfter(env: Env, s: Sys, l: Step): Fanout.Fan
    requires Fanout.WellFormed(s.fan) && Enabled(env, s, l)
  {
    match l
    case FanDone => Fanout.OnDone(s.fan, s.done[0])
    case FanFlag => Fanout.OnFlag(s.fan, s.side[0])
    case FanTake => Fanout.OnFrame(s.fan)
    case FanStop => Fanout.OnStop(s.fan)
    case AsrRead(id) => Fanout.SetTurn(s.fan, id, s.fan.turns[id - 1].(read := s.fan.turns[id - 1].read + 1))
    case AsrFinish(id) => Fanout.SetTurn(s.fan, id, s.fan.turns[id - 1].(finished := true))
    case AsrReport(id) => Fanout.SetTurn(s.fan, id, s.fan.turns[id - 1].(doneSent := true))
    case _ => s.fan
  }

  lemma TakeFan(env: Env, s: Sys, l: Step)
    requires Fanout.WellFormed(s.fan) && Enabled(env, s, l)
    ensures Take(env, s, l).fan == FanAfter(env, s, l)
  {
  }

  lemma FenceKept(env: Env, s: Sys, l: Step)
    requires Fanout.Fenced(s.fan) && Enabled(env, s, l)
    ensures Fanout.Fenced(Take(env, s, l).fan)
  {
    TakeFan(env, s, l);
    FanFenceKept(env, s, l);
  }

  lemma FanFenceKept(env: Env, s: Sys, l: Step)
    requires Fanout.Fenced(s.fan) && Enabled(env, s, l)
    ensures Fanout.Fenced(FanAfter(env, s, l))
  {
    match l {
      case FanDone => Fanout.DoneKeepsFence(s.fan, s.done[0]);
      case FanFlag => if s.side[0] { Fanout.StartKeepsFence(s.fan); } else { Fanout.EndKeepsFence(s.fan); }
      case FanTake => Fanout.FrameKeepsFence(s.fan);
      case FanStop => Fanout.StopKeepsFence(s.fan);
      case AsrRead(id) => AsrKeepsFence(s.fan, id, s.fan.turns[id - 1].(read := s.fan.turns[id - 1].read + 1));
      case AsrFinish(id) => AsrKeepsFence(s.fan, id, s.fan.turns[id - 1].(finished := true));
      case AsrReport(id) => AsrKeepsFence(s.fan, id, s.fan.turns[id - 1].(doneSent := true));
      case _ =>
    }
  }

  lemma ReadKeepsWindows(f: Fanout.Fan, id: nat)
    requires Fanout.Windowed(f) && Fanout.Known(f, id) && f.turns[id - 1].read < |f.turns[id - 1].sent|
    ensures Fanout.Windowed(Fanout.SetTurn(f, id, f.turns[id - 1].(read := f.turns[id - 1].read + 1)))
  {
    var t := f.turns[id - 1].(read := f.turns[id - 1].read + 1);
    assert Fanout.WindowAt(f.turns, id - 1, f.taken);
    Fanout.UpdateKeepsWindows(f.turns, f.taken, id - 1, t, f.taken);
  }

  lemma AsrKeepsWindows(f: Fanout.Fan, id: nat, t: Fanout.Turn)
    requires Fanout.Windowed(f) && Fanout.Known(f, id) && Fanout.SameWindow(t, f.turns[id - 1])
    ensures Fanout.Windowed(Fanout.SetTurn(f, id, t))
  {
    Fanout.FlagsKeepWindows(f, id, t);
  }

  lemma WindowsKept(env: Env, s: Sys, l: Step)
    requires Fanout.Windowed(s.fan) && Enabled(env, s, l)
    ensures Fanout.Windowed(Take(env, s, l).fan)
  {
    TakeFan(env, s, l);
    FanWindowsKept(env, s, l);
  }

  lemma FanWindowsKept(env: Env, s: Sys, l: Step)
    requires Fanout.Windowed(s.fan) && Enabled(env, s, l)
    ensures Fanout.Windowed(FanAfter(env, s, l))
  {
    match l {
      case FanDone => Fanout.DoneKeepsWindows(s.fan, s.done[0]);
      case FanFlag => if s.side[0] { Fanout.StartKeepsWindows(s.fan); } else { Fanout.EndKeepsWindows(s.fan); }
      case FanTake => Fanout.FrameKeepsWindows(s.fan);
      case FanStop => Fanout.StopKeepsWindows(s.fan);
      case AsrRead(id) => ReadKeepsWindows(s.fan, id);
      case AsrFinish(id) => AsrKeepsWindows(s.fan, id, s.fan.turns[id - 1].(finished := true));
      case AsrReport(id) => AsrKeepsWindows(s.fan, id, s.fan.turns[id - 1].(doneSent := true));
      case _ =>
    }
  }

  // ----- the detector's part -----

  lemma TakenKept(f: Fanout.Fan, id: nat, speaking: bool)
    requires Fanout.WellFormed(f)
    ensures Fanout.OnFlag(f, speaking).taken == f.taken == Fanout.OnStop(f).taken
    ensures Fanout.Known(f, id) ==> Fanout.OnDone(f, id).taken == f.taken
  {
  }

  lemma HearKeepsVad(env: Env, s: Sys)
    requires Fanout.WellFormed(s.fan) && VadPart(env, s) && Enabled(env, s, VadReceive)
    ensures VadPart(env, Take(env, s, VadReceive))
  {
    HearExtendsLog(env, s.heard);
    ConcatEmpty(s.sent);
    Fanout.RangeSnoc(s.heard, s.heard + |s.vadQueue|);
  }

  lemma HearExtendsLog(env: Env, n: nat)
    requires n < |env.frames|
    ensures var c, fs, f := env.config, env.frames[..n], env.frames[n];
      && Vad.Fold(c, env.frames[..n + 1]) == Vad.Step(c, Vad.Fold(c, fs), f)
      && Vad.Log(c, env.frames[..n + 1]) == Vad.Log(c, fs) + Vad.Acts(c, Vad.Fold(c, fs), f)
  {
    assert env.frames[..n + 1] == env.frames[..n] + [env.frames[n]];
    Vad.FoldSnoc(env.config, env.frames[..n], env.frames[n]);
  }

  lemma SendKeepsVad(env: Env, s: Sys)
    requires Fanout.WellFormed(s.fan) && VadPart(env, s) && Enabled(env, s, VadSend)
    ensures VadPart(env, Take(env, s, VadSend))
  {
    assert s.acts == [s.acts[0]] + s.acts[1..];
    ConcatAssoc(s.sent, [s.acts[0]], s.acts[1..]);
  }

  lemma ForwardKeepsVad(env: Env, s: Sys)
    requires Fanout.WellFormed(s.fan) && VadPart(env, s) && Enabled(env, s, FanForward)
    ensures VadPart(env, Take(env, s, FanForward))
  {
    Fanout.RangeSnoc(s.heard, s.heard + |s.vadQueue|);
  }

  lemma EndKeepsVad(env: Env, s: Sys)
    requires Fanout.WellFormed(s.fan) && VadPart(env, s) && Enabled(env, s, VadEndOfAudio)
    ensures VadPart(env, Take(env, s, VadEndOfAudio))
  {
    ConcatEmpty(s.sent);
  }

  lemma TakeKeepsVad(env: Env, s: Sys)
    requires Fanout.WellFormed(s.fan) && VadPart(env, s) && Enabled(env, s, FanTake)
    ensures VadPart(env, Take(env, s, FanTake))
  {
  }

  lemma CancelKeepsVad(env: Env, s: Sys)
    requires Fanout.WellFormed(s.fan) && VadPart(env, s) && Enabled(env, s, VadCancel)
    ensures VadPart(env, Take(env, s, VadCancel))
  {
  }

  /** Steps that leave the detector and its queue alone. */
  lemma OthersKeepVad(env: Env, s: Sys, t: Sys)
    requires VadPart(env, s)
    requires t.(fan := s.fan, phase := s.phase, side := s.side, flags := s.flags, done := s.done,
                log := s.log, consumed := s.consumed, busClosed := s.busClosed) == s
    requires t.fan.taken == s.fan.taken && t.phase.Sending? == s.phase.Sending?
    requires s.phase.Sending? ==> t.phase == s.phase
    ensures VadPart(env, t)
  {
  }

  /** Steps of the detector, and those that move frames. */
  predicate MovesFrames(l: Step) {
    l.FanTake? || l.FanForward? || l.VadReceive? || l.VadSend? || l.VadEndOfAudio? || l.VadCancel?
  }

  lemma QuietKeepsVad(env: Env, s: Sys, l: Step)
    requires Fanout.WellFormed(s.fan) && VadPart(env, s) && Enabled(env, s, l) && !MovesFrames(l)
    ensures VadPart(env, Take(env, s, l))
  {
    match l {
      case FanDone => TakenKept(s.fan, s.done[0], false);
      case FanFlag => TakenKept(s.fan, 0, s.side[0]);
      case FanStop => TakenKept(s.fan, 0, false);
      case _ =>
    }
    OthersKeepVad(env, s, Take(env, s, l));
  }

  lemma VadKept(env: Env, s: Sys, l: Step)
    requires Fanout.WellFormed(s.fan) && VadPart(env, s) && Enabled(env, s, l)
    ensures VadPart(env, Take(env, s, l))
  {
    match l {
      case FanTake => TakeKeepsVad(env, s);
      case FanForward => ForwardKeepsVad(env, s);
      case VadReceive => HearKeepsVad(env, s);
      case VadSend => SendKeepsVad(env, s);
      case VadEndOfAudio => EndKeepsVad(env, s);
      case VadCancel => CancelKeepsVad(env, s);
      case _ => QuietKeepsVad(env, s, l);
    }
  }

  // ----- the queue bound -----

  lemma ActsPending(c: Vad.Config, v: Vad.State, f: Vad.Frame, fs: seq<Vad.Frame>)
    ensures SidePending(Vad.Acts(c, v, f)) <= 1 && SidePending(Vad.Closing(c, fs)) == 0
  {
    var e := Vad.Acts(c, v, f);
    if e != [] {
      assert e[1..] == [e[1]] && [e[1]][1..] == [];
    }
    assert Vad.Closing(c, fs) != [] ==> Vad.Closing(c, fs)[1..] == [];
  }

  lemma FlagsKeepStopped(f: Fanout.Fan, id: nat, speaking: bool)
    requires Fanout.WellFormed(f)
    ensures Fanout.OnFlag(f, speaking).stopped == f.stopped == Fanout.OnFrame(f).stopped
    ensures Fanout.Known(f, id) ==> Fanout.OnDone(f, id).stopped == f.stopped
    ensures Fanout.OnStop(f).stopped
  {
  }

  lemma QueueKept(env: Env, s: Sys, l: Step)
    requires Fanout.WellFormed(s.fan) && QueuePart(s) && Enabled(env, s, l)
    ensures QueuePart(Take(env, s, l))
  {
    match l {
      case FanFlag => FlagKeepsQueue(env, s);
      case FanPoll => PollKeepsQueue(env, s);
      case FanTake => TakeKeepsQueue(env, s);
      case FanForward => ForwardKeepsQueue(env, s);
      case VadReceive => HearKeepsQueue(env, s);
      case VadSend => SendKeepsQueue(env, s);
      case VadEndOfAudio => EndKeepsQueue(env, s);
      case VadCancel =>
      case _ => OthersKeepQueue(env, s, l);
    }
  }

  lemma FlagKeepsQueue(env: Env, s: Sys)
    requires Fanout.WellFormed(s.fan) && QueuePart(s) && Enabled(env, s, FanFlag)
    ensures QueuePart(Take(env, s, FanFlag))
  {
    FlagsKeepStopped(s.fan, 0, s.side[0]);
  }

  /** The fanout turns to the audio only when no flag waits. */
  lemma PollKeepsQueue(env: Env, s: Sys)
    requires Fanout.WellFormed(s.fan) && QueuePart(s) && Enabled(env, s, FanPoll)
    ensures QueuePart(Take(env, s, FanPoll))
  {
  }

  lemma TakeKeepsQueue(env: Env, s: Sys)
    requires Fanout.WellFormed(s.fan) && QueuePart(s) && Enabled(env, s, FanTake)
    ensures QueuePart(Take(env, s, FanTake))
  {
    FlagsKeepStopped(s.fan, 0, false);
  }

  lemma ForwardKeepsQueue(env: Env, s: Sys)
    requires Fanout.WellFormed(s.fan) && QueuePart(s) && Enabled(env, s, FanForward)
    ensures QueuePart(Take(env, s, FanForward))
  {
  }

  lemma SendKeepsQueue(env: Env, s: Sys)
    requires Fanout.WellFormed(s.fan) && QueuePart(s) && Enabled(env, s, VadSend)
    ensures QueuePart(Take(env, s, VadSend))
  {
  }

  /** The other steps touch neither queue and neither hand. */
  lemma OthersKeepQueue(env: Env, s: Sys, l: Step)
    requires Fanout.WellFormed(s.fan) && QueuePart(s) && Enabled(env, s, l) && !MovesFrames(l)
    requires !l.FanFlag? && !l.FanPoll?
    ensures QueuePart(Take(env, s, l))
  {
    QuietQueues(env, s, l);
  }

  lemma QuietQueues(env: Env, s: Sys, l: Step)
    requires Fanout.WellFormed(s.fan) && Enabled(env, s, l) && !MovesFrames(l)
    requires !l.FanFlag? && !l.FanPoll?
    ensures var t := Take(env, s, l);
      && t.acts == s.acts && t.side == s.side && t.vadQueue == s.vadQueue
      && (s.fan.stopped ==> t.fan.stopped)
      && (s.phase.Select? ==> t.phase.Select?)
  {
  }

  lemma HearKeepsQueue(env: Env, s: Sys)
    requires Fanout.WellFormed(s.fan) && QueuePart(s) && Enabled(env, s, VadReceive)
    ensures QueuePart(Take(env, s, VadReceive))
  {
    ActsPending(env.config, s.vad, env.frames[s.heard], []);
  }

  lemma EndKeepsQueue(env: Env, s: Sys)
    requires Fanout.WellFormed(s.fan) && QueuePart(s) && Enabled(env, s, VadEndOfAudio)
    ensures QueuePart(Take(env, s, VadEndOfAudio))
  {
    ActsPending(env.config, s.vad, Vad.Frame(false, 0), env.frames[..s.heard]);
  }

  // ----- flags and turns -----

  /** The flags the fanout handles alternate. */
  lemma FlagParity(s: Sys)
    requires SidePart(s) && s.side != []
    ensures s.side[0] == (|s.flags| % 2 == 0)
  {
    var e := Vad.SideEdges(s.sent);
    var u := s.flags + [s.side[0]];
    FlagMoves(s);
    assert u <= u + s.side[1..] <= e;
    Vad.AlternatesPrefix(u, e);
    assert u[|s.flags|] == Vad.Alternating(|u|)[|u| - 1];
  }

  lemma FlagMoves(s: Sys)
    requires s.side != []
    ensures s.flags + [s.side[0]] + s.side[1..] == s.flags + s.side
  {
    assert s.side == [s.side[0]] + s.side[1..];
    ConcatAssoc(s.flags, [s.side[0]], s.side[1..]);
  }

  /** No opening flag ever finds a capture still open: the `continue` in the loop is dead. */
  lemma EveryStartSpawns(env: Env, s: Sys)
    requires Inv(env, s) && Enabled(env, s, FanFlag) && s.side[0]
    ensures var t := Take(env, s, FanFlag);
      |t.fan.turns| == |s.fan.turns| + 1 && t.fan.current == Some(Fanout.Active(|t.fan.turns|, true, true))
  {
    FlagParity(s);
  }

  lemma SideKept(env: Env, s: Sys, l: Step)
    requires Fanout.WellFormed(s.fan) && VadPart(env, s) && SidePart(s) && Enabled(env, s, l)
    ensures SidePart(Take(env, s, l))
  {
    match l {
      case FanDone => FlagsKeepStopped(s.fan, s.done[0], false);
      case FanFlag => FlagsKeepStopped(s.fan, 0, s.side[0]); FlagMoves(s);
      case FanTake => FlagsKeepStopped(s.fan, 0, false);
      case FanStop => FlagsKeepStopped(s.fan, 0, false);
      case VadSend => SendKeepsSide(env, s);
      case _ =>
    }
  }

  lemma SendKeepsSide(env: Env, s: Sys)
    requires Fanout.WellFormed(s.fan) && VadPart(env, s) && SidePart(s) && Enabled(env, s, VadSend)
    ensures SidePart(Take(env, s, VadSend))
  {
    var t := Take(env, s, VadSend);
    SentInOrder(env, s);
    var a := s.acts[0];
    Vad.EdgesSnoc(s.sent, a);
    if a.Side? {
      ConcatAssoc(s.flags, s.side, [a.speaking]);
    } else {
      ConcatEmpty(Vad.SideEdges(s.sent));
    }
  }

  lemma SentInOrder(env: Env, s: Sys)
    requires Fanout.WellFormed(s.fan) && VadPart(env, s) && Enabled(env, s, VadSend)
    ensures Vad.FlagsInOrder(Take(env, s, VadSend).sent)
  {
    var t := Take(env, s, VadSend);
    SendKeepsVad(env, s);
    assert t.sent == (t.sent + t.acts)[..|t.sent|];
    if s.vadEnded {
      Vad.FlagsFollowEndsToTheLast(env.config, env.frames[..s.heard], |t.sent|);
    } else {
      Vad.FlagsFollowEnds(env.config, env.frames[..s.heard], |t.sent|);
    }
  }

  lemma StartKeepsTurns(f: Fanout.Fan, n: nat)
    requires Fanout.WellFormed(f) && TurnsOfFlags(f, n) && n % 2 == 0
    ensures TurnsOfFlags(Fanout.OnStart(f), n + 1)
  {
    var turns := Fanout.Superseded(f);
    assert Fanout.OnStart(f).turns[..|turns|] == turns;
    forall id: nat | Fanout.Known(f, id) && turns[id - 1].closed.ByFlag? ensures id <= n / 2 {
      assert f.turns[id - 1].closed.ByFlag?;
    }
  }

  lemma EndKeepsTurns(f: Fanout.Fan, n: nat)
    requires Fanout.WellFormed(f) && TurnsOfFlags(f, n) && n % 2 == 1
    ensures TurnsOfFlags(Fanout.OnEnd(f), n + 1)
  {
  }

  lemma FlagMovesTurns(f: Fanout.Fan, n: nat, speaking: bool)
    requires Fanout.WellFormed(f) && TurnsOfFlags(f, n) && speaking == (n % 2 == 0)
    ensures var g := Fanout.OnFlag(f, speaking);
      TurnsOfFlags(g, n + 1) && |g.turns| >= |f.turns|
  {
    if speaking { StartKeepsTurns(f, n); } else { EndKeepsTurns(f, n); }
  }

  lemma TurnPartMoves(s: Sys, t: Sys)
    requires TurnPart(s) && TurnsOfFlags(t.fan, |t.flags|)
    requires |t.fan.turns| >= |s.fan.turns| && t.done == s.done
    ensures TurnPart(t)
  {
    forall id: nat | id in t.done ensures Fanout.Known(t.fan, id) {
      assert Fanout.Known(s.fan, id);
    }
  }

  lemma FlagKeepsTurns(env: Env, s: Sys)
    requires Fanout.WellFormed(s.fan) && TurnPart(s) && Enabled(env, s, FanFlag)
    requires s.side[0] == (|s.flags| % 2 == 0)
    ensures TurnPart(Take(env, s, FanFlag))
  {
    FlagMovesTurns(s.fan, |s.flags|, s.side[0]);
    TurnPartMoves(s, Take(env, s, FanFlag));
  }

  lemma TurnsKept(env: Env, s: Sys, l: Step)
    requires Fanout.Fenced(s.fan) && SidePart(s) && TurnPart(s) && Enabled(env, s, l)
    ensures TurnPart(Take(env, s, l))
  {
    if l.FanFlag? {
      FlagParity(s);
      FlagKeepsTurns(env, s);
    } else {
      NoFlagNoTurn(env, s, l);
      CloseKeepsTurns(s, Take(env, s, l));
    }
  }

  /** No turn spawned, none closed by flag, no capture opened. */
  ghost predicate OpensNothing(f: Fanout.Fan, g: Fanout.Fan) {
    && |g.turns| == |f.turns|
    && (g.current.Some? && g.current.value.captureOpen ==> f.current.Some? && f.current.value.captureOpen)
    && (forall id: nat :: Fanout.Known(g, id) ==>
          (g.turns[id - 1].closed.ByFlag? ==> f.turns[id - 1].closed.ByFlag?))
  }

  lemma FanOpensNothing(f: Fanout.Fan)
    requires Fanout.WellFormed(f)
    ensures OpensNothing(f, Fanout.OnFrame(f)) && OpensNothing(f, Fanout.OnStop(f))
  {
  }

  lemma DoneOpensNothing(f: Fanout.Fan, id: nat)
    requires Fanout.WellFormed(f) && Fanout.Known(f, id)
    ensures OpensNothing(f, Fanout.OnDone(f, id))
  {
  }

  lemma AsrOpensNothing(f: Fanout.Fan, id: nat, t: Fanout.Turn)
    requires Fanout.Known(f, id) && t.closed == f.turns[id - 1].closed
    ensures OpensNothing(f, Fanout.SetTurn(f, id, t))
  {
  }

  lemma NoFlagNoTurn(env: Env, s: Sys, l: Step)
    requires Fanout.WellFormed(s.fan) && TurnPart(s) && Enabled(env, s, l) && !l.FanFlag?
    ensures OnlyCloses(s, Take(env, s, l))
  {
    TakeFan(env, s, l);
    FanOnlyCloses(env, s, l);
  }

  lemma FanOnlyCloses(env: Env, s: Sys, l: Step)
    requires Fanout.WellFormed(s.fan) && Enabled(env, s, l) && !l.FanFlag?
    ensures OpensNothing(s.fan, FanAfter(env, s, l))
  {
    match l {
      case FanDone => DoneOpensNothing(s.fan, s.done[0]);
      case FanTake => FanOpensNothing(s.fan);
      case FanStop => FanOpensNothing(s.fan);
      case AsrRead(id) => AsrOpensNothing(s.fan, id, s.fan.turns[id - 1].(read := s.fan.turns[id - 1].read + 1));
      case AsrFinish(id) => AsrOpensNothing(s.fan, id, s.fan.turns[id - 1].(finished := true));
      case AsrReport(id) => AsrOpensNothing(s.fan, id, s.fan.turns[id - 1].(doneSent := true));
      case _ =>
    }
  }

  /** Steps that handle no flag. */
  ghost predicate OnlyCloses(s: Sys, t: Sys) {
    && t.flags == s.flags
    && OpensNothing(s.fan, t.fan)
    && (forall id: nat :: id in t.done ==> id in s.done || Fanout.Known(s.fan, id))
  }

  lemma CloseKeepsTurns(s: Sys, t: Sys)
    requires TurnPart(s) && OnlyCloses(s, t)
    ensures TurnPart(t)
  {
    forall id: nat | Fanout.Known(t.fan, id) && t.fan.turns[id - 1].closed.ByFlag?
      ensures id <= |t.flags| / 2
    {
      assert Fanout.Known(s.fan, id);
    }
    forall id: nat | id in t.done ensures Fanout.Known(t.fan, id) {
      assert Fanout.Known(s.fan, id);
    }
  }

  // ----- the log -----

  /** Entries keep their place: closed turns stay as they were closed. */
  lemma BehindKept(s: Sys, t: Sys, k: nat)
    requires k < |s.log| && s.log <= t.log && Behind(s, k)
    requires KeepsClosed(s.fan, t.fan)
    ensures Behind(t, k)
  {
    assert t.log[k] == s.log[k] && t.log[..k] == s.log[..k];
  }

  ghost predicate KeepsClosed(f: Fanout.Fan, g: Fanout.Fan) {
    forall id :: Fanout.Known(f, id) ==>
      Fanout.Known(g, id)
      && (!f.turns[id - 1].closed.Open? ==> g.turns[id - 1].closed == f.turns[id - 1].closed)
  }

  lemma FlagKeepsClosed(f: Fanout.Fan, speaking: bool)
    requires Fanout.WellFormed(f)
    ensures KeepsClosed(f, Fanout.OnFlag(f, speaking))
  {
  }

  lemma FanKeepsClosed(f: Fanout.Fan)
    requires Fanout.WellFormed(f)
    ensures KeepsClosed(f, Fanout.OnFrame(f)) && KeepsClosed(f, Fanout.OnStop(f))
  {
  }

  lemma DoneKeepsClosed(f: Fanout.Fan, id: nat)
    requires Fanout.WellFormed(f) && Fanout.Known(f, id)
    ensures KeepsClosed(f, Fanout.OnDone(f, id))
  {
  }

  lemma AsrKeepsClosed(f: Fanout.Fan, id: nat, t: Fanout.Turn)
    requires Fanout.Known(f, id) && t.closed == f.turns[id - 1].closed
    ensures KeepsClosed(f, Fanout.SetTurn(f, id, t))
  {
  }

  /** However a turn was closed, it stays closed that way. */
  lemma ClosedStays(env: Env, s: Sys, l: Step)
    requires Fanout.WellFormed(s.fan) && Enabled(env, s, l)
    ensures KeepsClosed(s.fan, Take(env, s, l).fan)
  {
    TakeFan(env, s, l);
    FanClosedStays(env, s, l);
  }

  lemma FanClosedStays(env: Env, s: Sys, l: Step)
    requires Fanout.WellFormed(s.fan) && Enabled(env, s, l)
    ensures KeepsClosed(s.fan, FanAfter(env, s, l))
  {
    match l {
      case FanDone => DoneKeepsClosed(s.fan, s.done[0]);
      case FanFlag => FlagKeepsClosed(s.fan, s.side[0]);
      case FanTake => FanKeepsClosed(s.fan);
      case FanStop => FanKeepsClosed(s.fan);
      case AsrRead(id) => AsrKeepsClosed(s.fan, id, s.fan.turns[id - 1].(read := s.fan.turns[id - 1].read + 1));
      case AsrFinish(id) => AsrKeepsClosed(s.fan, id, s.fan.turns[id - 1].(finished := true));
      case AsrReport(id) => AsrKeepsClosed(s.fan, id, s.fan.turns[id - 1].(doneSent := true));
      case _ =>
    }
  }

  /** At the moment a turn emits, its SpeechEnded is on the bus if its flag closed it. */
  lemma EmitIsBehind(env: Env, s: Sys, id: nat, e: Orchestrator.Event)
    requires SidePart(s) && TurnPart(s) && LogPart(s) && Fanout.WellFormed(s.fan) && Enabled(env, s, AsrEmit(id, e))
    ensures Behind(Take(env, s, AsrEmit(id, e)), |s.log|)
  {
    HandledEndsAreSent(s);
    EmittedIsBehind(s, Take(env, s, AsrEmit(id, e)), id, e);
  }

  lemma EmittedIsBehind(s: Sys, t: Sys, id: nat, e: Orchestrator.Event)
    requires t == s.(log := s.log + [Entry(e, FromAsr(id))])
    requires TurnPart(s) && Fanout.Known(s.fan, id) && !s.fan.turns[id - 1].closed.Open?
    requires |s.flags| / 2 <= Vad.Count(LogEdges(s.log), false)
    ensures Behind(t, |s.log|)
  {
    assert t.log[..|s.log|] == s.log;
  }

  /** Every closing flag the fanout has handled has its SpeechEnded on the bus already. */
  lemma HandledEndsAreSent(s: Sys)
    requires SidePart(s) && LogPart(s)
    ensures |s.flags| / 2 <= Vad.Count(LogEdges(s.log), false)
  {
    var flags, edges := s.flags, Vad.SideEdges(s.sent);
    assert flags <= flags + s.side <= edges;
    Vad.AlternatesPrefix(flags, edges);
    Vad.CountAlternating(flags);
    assert edges == flags + edges[|flags|..];
    Vad.CountConcat(flags, edges[|flags|..], false);
  }

  /** Each step appends at most one event, and only the detector appends edges. */
  ghost predicate Grows(s: Sys, t: Sys, byAsr: bool) {
    && s.log <= t.log && |t.log| <= |s.log| + 1
    && t.consumed <= |t.log| <= t.consumed + BUS
    && LogEdges(t.log) == Vad.BusEdges(t.sent)
    && (|t.log| > |s.log| && t.log[|s.log|].source.FromAsr? ==> byAsr)
  }

  lemma SendGrows(env: Env, s: Sys)
    requires Fanout.WellFormed(s.fan) && LogPart(s) && Enabled(env, s, VadSend)
    ensures Grows(s, Take(env, s, VadSend), false)
  {
    if s.acts[0].OnBus() { BusSendGrows(env, s); } else { SideSendGrows(env, s); }
  }

  lemma BusSendGrows(env: Env, s: Sys)
    requires Fanout.WellFormed(s.fan) && LogPart(s) && Enabled(env, s, VadSend) && s.acts[0].OnBus()
    ensures Grows(s, SendAct(s), false)
  {
    Vad.EdgesSnoc(s.sent, s.acts[0]);
    LogSnoc(s.log, Entry(ToEvent(s.acts[0]), FromVad));
  }

  lemma SideSendGrows(env: Env, s: Sys)
    requires Fanout.WellFormed(s.fan) && LogPart(s) && Enabled(env, s, VadSend) && s.acts[0].Side?
    ensures Grows(s, SendAct(s), false)
  {
    Vad.EdgesSnoc(s.sent, s.acts[0]);
    ConcatEmpty(Vad.BusEdges(s.sent));
  }

  lemma EntryGrows(s: Sys, e: Entry)
    requires LogPart(s) && BusHasRoom(s) && !Turns.IsEdge(e.event)
    ensures Grows(s, s.(log := s.log + [e]), e.source.FromAsr?)
  {
    LogSnoc(s.log, e);
    ConcatEmpty(LogEdges(s.log));
  }

  lemma LogGrows(env: Env, s: Sys, l: Step)
    requires Fanout.WellFormed(s.fan) && LogPart(s) && Enabled(env, s, l)
    ensures Grows(s, Take(env, s, l), l.AsrEmit?)
  {
    if l.VadSend? {
      SendGrows(env, s);
    } else if l.AsrEmit? {
      EntryGrows(s, Entry(l.event, FromAsr(l.turnId)));
    } else if l.Elsewhere? {
      EntryGrows(s, Entry(l.event, FromElsewhere));
    } else {
      OthersLeaveLog(env, s, l);
      SameLogGrows(s, Take(env, s, l));
    }
  }

  lemma OthersLeaveLog(env: Env, s: Sys, l: Step)
    requires Fanout.WellFormed(s.fan) && LogPart(s) && Enabled(env, s, l)
    requires !l.VadSend? && !l.AsrEmit? && !l.Elsewhere?
    ensures var t := Take(env, s, l);
      t.log == s.log && t.sent == s.sent && s.consumed <= t.consumed <= |t.log|
  {
  }

  lemma SameLogGrows(s: Sys, t: Sys)
    requires LogPart(s) && t.log == s.log && t.sent == s.sent && s.consumed <= t.consumed <= |t.log|
    ensures Grows(s, t, false)
  {
  }

  lemma LogPartMoves(s: Sys, t: Sys, byAsr: bool)
    requires LogPart(s) && Grows(s, t, byAsr) && KeepsClosed(s.fan, t.fan)
    requires byAsr && |t.log| > |s.log| ==> Behind(t, |s.log|)
    ensures LogPart(t)
  {
    forall k: nat | k < |t.log| ensures Behind(t, k) {
      if k < |s.log| { BehindKept(s, t, k); }
    }
  }

  lemma LogKept(env: Env, s: Sys, l: Step)
    requires Fanout.WellFormed(s.fan) && SidePart(s) && TurnPart(s) && LogPart(s) && Enabled(env, s, l)
    ensures LogPart(Take(env, s, l))
  {
    ClosedStays(env, s, l);
    LogGrows(env, s, l);
    if l.AsrEmit? { EmitIsBehind(env, s, l.turnId, l.event); }
    LogPartMoves(s, Take(env, s, l), l.AsrEmit?);
  }

  // ----- every run -----

  lemma InitHolds(env: Env)
    ensures Inv(env, INIT)
  {
    assert env.frames[..0] == [];
  }

  lemma {:induction false} RunsKeepInv(env: Env, schedule: seq<Step>)
    requires Exec(env, schedule).Some?
    ensures Inv(env, Exec(env, schedule).value)
  {
    if schedule == [] {
      InitHolds(env);
    } else {
      var n := |schedule| - 1;
      RunsKeepInv(env, schedule[..n]);
      var s, l := Exec(env, schedule[..n]).value, schedule[n];
      FenceKept(env, s, l);
      WindowsKept(env, s, l);
      VadKept(env, s, l);
      QueueKept(env, s, l);
      SideKept(env, s, l);
      TurnsKept(env, s, l);
      LogKept(env, s, l);
    }
  }
}
