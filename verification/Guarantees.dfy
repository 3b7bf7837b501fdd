/** What every schedule of the pipeline guarantees. */
module Guarantees {
  import opened Text
  import Vad
  import Fanout
  import Orchestrator
  import Turns
  import opened Pipeline
  import Windows

  // ----- no deadlock between fanout and detector -----

  /** The detector is about to send a flag and finds the channel full. */
  predicate VadWaitsForFanout(s: Sys) {
    !s.fan.stopped && !s.vadExited && s.acts != [] && s.acts[0].Side? && |s.side| >= SIDE_QUEUE
  }

  predicate FanoutWaitsForVad(s: Sys) {
    !s.fan.stopped && s.phase.Sending? && |s.vadQueue| >= VAD_QUEUE && !VadDown(s)
  }

  predicate VadWaitsForBus(s: Sys) {
    !s.vadExited && s.acts != [] && s.acts[0].OnBus() && !s.busClosed && !BusHasRoom(s)
  }

  lemma NeverBothWait(env: Env, s: Sys)
    requires Fanout.WellFormed(s.fan) && VadPart(env, s) && QueuePart(s)
    ensures !VadWaitsForFanout(s)
    ensures FanoutWaitsForVad(s) ==>
      Enabled(env, s, VadReceive) || Enabled(env, s, VadSend) || VadWaitsForBus(s)
  {
  }

  /** The 32-slot channel never holds more than 18 flags, so the detector never waits for
      the fanout; and while the fanout waits for it, it can move unless the bus is full. */
  lemma SideChannelNeverFills(env: Env, schedule: seq<Step>)
    requires Exec(env, schedule).Some?
    ensures var s := Exec(env, schedule).value;
      && |s.side| <= 18 && !VadWaitsForFanout(s)
      && Fanout.WellFormed(s.fan)
      && (FanoutWaitsForVad(s) ==>
            Enabled(env, s, VadReceive) || Enabled(env, s, VadSend) || VadWaitsForBus(s))
  {
    RunsKeepInv(env, schedule);
    NeverBothWait(env, Exec(env, schedule).value);
  }

  /** The side conditions under which steps are defined always hold. */
  lemma StepsAreDefined(env: Env, schedule: seq<Step>)
    requires Exec(env, schedule).Some?
    ensures var s := Exec(env, schedule).value;
      && Fanout.WellFormed(s.fan)
      && (s.done != [] ==> Fanout.Known(s.fan, s.done[0]))
      && (VadReady(s) && s.vadQueue != [] ==> s.heard < |env.frames|)
      && s.heard <= |env.frames|
  {
    RunsKeepInv(env, schedule);
  }

  // ----- the detector in the pipeline -----

  /** However the tasks interleave, the detector is in the state its rule gives for the
      frames it has heard, and the bus carries an alternating prefix of their edges. */
  lemma VadFollowsItsRule(env: Env, schedule: seq<Step>)
    requires Exec(env, schedule).Some?
    ensures var s := Exec(env, schedule).value;
      && s.heard <= |env.frames|
      && s.vad == Vad.Fold(env.config, env.frames[..s.heard])
      && s.sent <= Planned(env, s)
      && LogEdges(s.log) == Vad.BusEdges(s.sent)
      && Vad.Alternates(LogEdges(s.log))
  {
    RunsKeepInv(env, schedule);
  }

  // ----- ordering across the two channels -----

  /** Entry `j` is the `n`-th SpeechEnded on the bus. */
  ghost predicate IsNthEnd(log: seq<Entry>, j: nat, n: nat) {
    && j < |log| && log[j].event.SpeechEnded?
    && Vad.Count(LogEdges(log[..j + 1]), false) == n
  }

  lemma {:induction false} NthEndExists(log: seq<Entry>, n: nat)
    requires 1 <= n <= Vad.Count(LogEdges(log), false)
    ensures exists j: nat :: IsNthEnd(log, j, n)
  {
    var k := |log| - 1;
    var p := log[..k];
    assert log == p + [log[k]];
    LogSnoc(p, log[k]);
    if Turns.IsEdge(log[k].event) {
      Vad.CountSnoc(LogEdges(p), log[k].event.SpeechStarted?, false);
    } else {
      ConcatEmpty(LogEdges(p));
    }
    if n <= Vad.Count(LogEdges(p), false) {
      NthEndExists(p, n);
      var j: nat :| IsNthEnd(p, j, n);
      assert log[..j + 1] == p[..j + 1];
      assert IsNthEnd(log, j, n);
    } else {
      assert log[..k + 1] == log;
      assert IsNthEnd(log, k, n);
    }
  }

  lemma EndIsBefore(s: Sys, k: nat, id: nat)
    requires LogPart(s) && k < |s.log| && s.log[k].source == FromAsr(id) && id >= 1
    requires Fanout.Known(s.fan, id) && s.fan.turns[id - 1].closed.ByFlag?
    ensures exists j: nat :: j < k && IsNthEnd(s.log, j, id)
  {
    assert Behind(s, k);
    NthEndExists(s.log[..k], id);
    var j: nat :| IsNthEnd(s.log[..k], j, id);
    assert s.log[..k][..j + 1] == s.log[..j + 1];
    assert j < k && IsNthEnd(s.log, j, id);
  }

  /** A transcript of the turn that the `id`-th opening flag spawned, closed by its flag, is
      put on the bus only after the `id`-th SpeechEnded. */
  lemma TranscriptsFollowSpeechEnded(env: Env, schedule: seq<Step>, k: nat, id: nat)
    requires Exec(env, schedule).Some?
    requires var s := Exec(env, schedule).value;
      && k < |s.log| && s.log[k].source == FromAsr(id)
      && Fanout.Known(s.fan, id) && s.fan.turns[id - 1].closed.ByFlag?
    ensures exists j: nat :: j < k && IsNthEnd(Exec(env, schedule).value.log, j, id)
  {
    RunsKeepInv(env, schedule);
    EndIsBefore(Exec(env, schedule).value, k, id);
  }

  /** The events the orchestrator has taken from the bus. */
  function Consumed(s: Sys): seq<Orchestrator.Event>
    requires s.consumed <= |s.log|
  {
    LogEvents(s.log[..s.consumed])
  }

  predicate NoCancel(events: seq<Orchestrator.Event>) {
    forall i :: 0 <= i < |events| ==> !events[i].Cancel?
  }

  lemma {:induction false} EdgesOfPrefix(log: seq<Entry>, k: nat)
    requires k <= |log|
    ensures LogEdges(log[..k]) <= LogEdges(log) && LogEvents(log[..k]) == LogEvents(log)[..k]
  {
    if k == |log| {
      assert log[..k] == log;
      assert LogEvents(log)[..k] == LogEvents(log);
    } else {
      var n := |log| - 1;
      var p := log[..n];
      EdgesOfPrefix(p, k);
      assert p[..k] == log[..k] && log == p + [log[n]];
      LogSnoc(p, log[n]);
      PrefixOfSnoc(LogEvents(p), log[n].event, k);
    }
  }

  lemma PrefixOfSnoc<T>(s: seq<T>, x: T, k: nat)
    requires k <= |s|
    ensures (s + [x])[..k] == s[..k]
  {
  }

  /** With no Cancel on the bus, the orchestrator listens exactly while the last edge it
      took was a SpeechStarted, ignores none of the detector's edges, and accepts a final
      transcript exactly when it is the first since a SpeechEnded that no new speech has
      followed. */
  lemma OrchestratorTracksSpeech(env: Env, schedule: seq<Step>)
    requires Exec(env, schedule).Some?
    requires Exec(env, schedule).value.consumed <= |Exec(env, schedule).value.log|
    requires NoCancel(Consumed(Exec(env, schedule).value))
    ensures var events := Consumed(Exec(env, schedule).value);
      && (Turns.After(events).Listening? <==> |Turns.Edges(events)| % 2 == 1)
      && (forall i :: 0 <= i < |events| && Turns.IsEdge(events[i]) ==>
            Orchestrator.Accepted(Turns.After(events[..i]), events[i]))
      && (forall i :: 0 <= i < |events| && events[i].FinalTranscript? ==>
            (Orchestrator.Accepted(Turns.After(events[..i]), events[i])
             <==> exists j: nat :: Turns.Awaits(events[..i], j)))
  {
    var s := Exec(env, schedule).value;
    var events := Consumed(s);
    RunsKeepInv(env, schedule);
    EdgesOfPrefix(s.log, s.consumed);
    Vad.AlternatesPrefix(Turns.Edges(events), LogEdges(s.log));
    assert Turns.Orderly(events);
    Turns.ListensBetweenEdges(events);
    forall i | 0 <= i < |events| && events[i].FinalTranscript?
      ensures Orchestrator.Accepted(Turns.After(events[..i]), events[i])
        <==> exists j: nat :: Turns.Awaits(events[..i], j)
    {
      Turns.OrderlyPrefix(events, i);
      Turns.TranscriptRule(events[..i]);
    }
  }

  // ----- turns and their audio -----

  /** Turn ids count up, only the newest turn can capture, and every turn but the current
      one has been cancelled or has reported. */
  lemma TurnsAreFenced(env: Env, schedule: seq<Step>, id: nat)
    requires Exec(env, schedule).Some?
    requires Fanout.Known(Exec(env, schedule).value.fan, id)
    ensures var f := Exec(env, schedule).value.fan; var t := f.turns[id - 1];
      && f.nextTurnId == |f.turns|
      && (t.closed.Open? ==> id == |f.turns| && f.current == Some(Fanout.Active(id, true, true)))
      && (Fanout.IsCurrent(f, id) ==> id == |f.turns|)
      && (!Fanout.IsCurrent(f, id) ==> t.cancelled || t.doneReceived)
  {
    RunsKeepInv(env, schedule);
    assert Fanout.TurnFenced(Exec(env, schedule).value.fan, id);
  }

  /** Each turn is given frames of one contiguous window, in order and without duplicates. The
      window opens 15 frames before the turn was spawned, or where the previous turn was
      spawned (the first one: with the first frame) if that is later, and shares at most 15
      frames with the previous window. It reaches up to the last frame taken while the turn is
      open, and ends where the step that closed it found it. The turn is given the whole window
      exactly if, whenever a frame of it was taken, fewer than 200 frames were unread and the
      provider had not finished; in particular if it has been sent fewer than 200. */
  lemma TurnsGetWindows(env: Env, schedule: seq<Step>, id: nat)
    requires Exec(env, schedule).Some?
    requires Fanout.Known(Exec(env, schedule).value.fan, id)
    ensures var f := Exec(env, schedule).value.fan; var t := f.turns[id - 1];
      var drained := if id > 1 then f.turns[id - 2].onset else 0;
      && drained <= t.onset <= t.stop <= f.taken
      && t.start == (if t.onset - drained <= 15 then drained else t.onset - 15)
      && Fanout.Increasing(t.sent, t.start, t.stop)
      && (t.sent == Fanout.Range(t.start, t.stop) <==>
            forall j: nat :: t.onset <= j < t.stop ==> Windows.HadRoom(env, schedule, id, j))
      && (!t.finished && |t.sent| < 200 ==> t.sent == Fanout.Range(t.start, t.stop))
      && (!t.lost ==> t.sent == Fanout.Range(t.start, t.stop))
      && (if t.closed.Open? then t.stop == f.taken else Windows.Ended(env, schedule, id, t))
      && (id > 1 ==> f.turns[id - 2].stop <= t.onset && f.turns[id - 2].stop <= t.start + 15)
  {
    WindowsStart(env, schedule, id);
    Windows.WholeIffRoom(env, schedule, id);
    Windows.RunsEndWindows(env, schedule, id);
  }

  lemma WindowsStart(env: Env, schedule: seq<Step>, id: nat)
    requires Exec(env, schedule).Some?
    requires Fanout.Known(Exec(env, schedule).value.fan, id)
    ensures var f := Exec(env, schedule).value.fan; var t := f.turns[id - 1];
      var drained := if id > 1 then f.turns[id - 2].onset else 0;
      && drained <= t.onset <= t.stop <= f.taken
      && t.start == (if t.onset - drained <= 15 then drained else t.onset - 15)
      && Fanout.Increasing(t.sent, t.start, t.stop)
      && (!t.lost ==> t.sent == Fanout.Range(t.start, t.stop))
      && (t.lost ==> t.finished || |t.sent| >= 200)
      && (id > 1 ==> f.turns[id - 2].stop <= t.onset && f.turns[id - 2].stop <= t.start + 15)
  {
    RunsKeepInv(env, schedule);
    var f := Exec(env, schedule).value.fan;
    assert Fanout.WindowAt(f.turns, id - 1, f.taken);
    if !f.turns[id - 1].lost {
      Fanout.NothingLost(f.turns[id - 1]);
    }
  }

  /** The pre-buffer holds the last 15 frames taken, or all since the last turn was spawned. */
  lemma PreBufferIsRecent(env: Env, schedule: seq<Step>)
    requires Exec(env, schedule).Some?
    ensures Fanout.Buffers(Exec(env, schedule).value.fan)
  {
    RunsKeepInv(env, schedule);
  }

  // ----- transcripts that count -----

  /** Entry `k` is the first transcript after entry `j`, and no speech has started between. */
  predicate FirstAfter(log: seq<Entry>, j: nat, k: nat) {
    && j < k < |log| && log[k].event.FinalTranscript?
    && forall m :: j < m < k ==> !log[m].event.SpeechStarted? && !log[m].event.FinalTranscript?
  }

  lemma {:induction false} EventAt(log: seq<Entry>, k: nat)
    requires k < |log|
    ensures LogEvents(log)[k] == log[k].event
  {
    if k < |log| - 1 {
      EventAt(log[..|log| - 1], k);
    }
  }

  /** The final transcript of a turn that its flag closed is behind the turn's SpeechEnded; if
      it is the first since, and no new speech has started, the orchestrator accepts it. */
  lemma TranscriptsAreAccepted(env: Env, schedule: seq<Step>, k: nat, id: nat)
    requires Exec(env, schedule).Some?
    requires var s := Exec(env, schedule).value;
      && k < s.consumed <= |s.log| && s.log[k].source == FromAsr(id) && s.log[k].event.FinalTranscript?
      && Fanout.Known(s.fan, id) && s.fan.turns[id - 1].closed.ByFlag?
      && NoCancel(Consumed(s))
    ensures var s := Exec(env, schedule).value; var events := Consumed(s);
      && (exists j: nat :: j < k && IsNthEnd(s.log, j, id))
      && (forall j: nat :: IsNthEnd(s.log, j, id) && FirstAfter(s.log, j, k) ==>
            Orchestrator.Accepted(Turns.After(events[..k]), events[k]))
  {
    var s := Exec(env, schedule).value;
    var events := Consumed(s);
    TranscriptsFollowSpeechEnded(env, schedule, k, id);
    OrchestratorTracksSpeech(env, schedule);
    EdgesOfPrefix(s.log, s.consumed);
    EventAt(s.log, k);
    forall j: nat | IsNthEnd(s.log, j, id) && FirstAfter(s.log, j, k)
      ensures Orchestrator.Accepted(Turns.After(events[..k]), events[k])
    {
      FirstAwaits(s.log, s.consumed, j, k);
      assert Turns.Awaits(events[..k], j);
    }
  }

  lemma FirstAwaits(log: seq<Entry>, consumed: nat, j: nat, k: nat)
    requires consumed <= |log| && k < consumed && FirstAfter(log, j, k) && log[j].event.SpeechEnded?
    ensures Turns.Awaits(LogEvents(log[..consumed])[..k], j)
  {
    EdgesOfPrefix(log, consumed);
    var events := LogEvents(log[..consumed])[..k];
    forall m: nat | m < k ensures events[m] == log[m].event {
      EventAt(log, m);
    }
  }

  /** Once the audio has ended and the detector has sent everything, every SpeechStarted on the
      bus has its SpeechEnded. */
  lemma EndedDetectorIsBalanced(env: Env, schedule: seq<Step>)
    requires Exec(env, schedule).Some?
    requires Exec(env, schedule).value.vadEnded && Exec(env, schedule).value.acts == []
    ensures var edges := LogEdges(Exec(env, schedule).value.log);
      Vad.Alternates(edges) && |edges| % 2 == 0
  {
    RunsKeepInv(env, schedule);
    var s := Exec(env, schedule).value;
    ConcatEmpty(s.sent);
    Vad.EndedStreamIsBalanced(env.config, env.frames[..s.heard]);
  }
}
