/** How late a turn is spawned: how far the fanout runs ahead of the detector between the
    frame that starts the speech and the flag that reports it. */
module Latency {
  import opened Text
  import Vad
  import Fanout
  import Orchestrator
  import opened Pipeline
  import Windows

  // ----- the frames at which flags are sent -----

  /** How many flags the detector sends for the first `k` frames. */
  function Flags(env: Env, k: nat): nat
    requires k <= |env.frames|
  {
    |Vad.SideEdges(Vad.Log(env.config, env.frames[..k]))|
  }

  /** Frame `i` makes the detector send flag number `n`, counting from 0. */
  predicate FlagAt(env: Env, i: nat, n: nat) {
    i < |env.frames| && Flags(env, i) == n && Flags(env, i + 1) == n + 1
  }

  lemma FlagsStep(env: Env, i: nat)
    requires i < |env.frames|
    ensures var s := Vad.Fold(env.config, env.frames[..i]); var t := Vad.Step(env.config, s, env.frames[i]);
      Flags(env, i + 1) == Flags(env, i) + if s.speaking == t.speaking then 0 else 1
  {
    var fs := env.frames[..i + 1];
    assert fs[..|fs| - 1] == env.frames[..i];
    Vad.LogEdgesStep(env.config, fs);
  }

  lemma {:induction false} FlagsGrow(env: Env, i: nat, j: nat)
    requires i <= j <= |env.frames|
    ensures Flags(env, i) <= Flags(env, j)
    decreases j - i
  {
    if i < j {
      FlagsStep(env, i);
      FlagsGrow(env, i + 1, j);
    }
  }

  lemma {:induction false} FlagHasFrame(env: Env, h: nat, n: nat)
    requires h <= |env.frames| && n < Flags(env, h)
    ensures exists i: nat :: i < h && FlagAt(env, i, n)
  {
    assert env.frames[..0] == [];
    if h > 0 {
      FlagsStep(env, h - 1);
      if n < Flags(env, h - 1) {
        FlagHasFrame(env, h - 1, n);
        var i: nat :| i < h - 1 && FlagAt(env, i, n);
        assert i < h && FlagAt(env, i, n);
      } else {
        assert FlagAt(env, h - 1, n);
      }
    }
  }

  lemma LaterFlagLaterFrame(env: Env, i: nat, n: nat, j: nat, m: nat)
    requires FlagAt(env, i, n) && FlagAt(env, j, m) && n < m
    ensures i < j
  {
    if j <= i { FlagsGrow(env, j + 1, i + 1); }
  }

  /** The even flags are sent exactly at the frames that, outside speech, complete the voiced
      run the detector asks for; the odd ones at those that complete the silent run in it. */
  lemma FlagRule(env: Env, i: nat)
    requires i < |env.frames|
    ensures var n := Flags(env, i); var speaking := Vad.Fold(env.config, env.frames[..i]).speaking;
      && (FlagAt(env, i, n) && n % 2 == 0 <==> !speaking && Vad.Onset(env.config, env.frames, i))
      && (FlagAt(env, i, n) && n % 2 == 1 <==> speaking && Vad.Hush(env.config, env.frames, i))
  {
    Vad.LogAlternates(env.config, env.frames[..i]);
    FlagsStep(env, i);
    HearExtendsLog(env, i);
    Vad.EdgeRule(env.config, env.frames, i);
  }

  lemma OpensAt(env: Env, i: nat, n: nat)
    requires FlagAt(env, i, n) && n % 2 == 0
    ensures Vad.Onset(env.config, env.frames, i)
  {
    FlagRule(env, i);
  }

  lemma ClosesAt(env: Env, i: nat, n: nat)
    requires FlagAt(env, i, n) && n % 2 == 1
    ensures Vad.Hush(env.config, env.frames, i)
  {
    FlagRule(env, i);
  }

  /** When each silence takes at least 17 frames, the run that starts speech anew begins at
      least 18 frames after the one that reported the previous start. */
  lemma RunIsLate(env: Env, i: nat, j: nat, n: nat)
    requires n % 2 == 0 && FlagAt(env, i, n) && FlagAt(env, j, n + 2) && env.config.silenceMs > 320
    ensures i + 18 + Vad.Need(env.config.minSpeechMs) <= j + 1
  {
    var m, k := n + 1, n + 2;
    assert m % 2 == 1 && k % 2 == 0;
    var h := FlagBetween(env, i, j, n, m, k);
    LongSilence(env.config.silenceMs);
  }

  /** Between two opening flags the speech ended. */
  lemma FlagBetween(env: Env, i: nat, j: nat, n: nat, m: nat, k: nat) returns (h: nat)
    requires n % 2 == 0 && m % 2 == 1 && k % 2 == 0 && m == n + 1 && k == m + 1
    requires FlagAt(env, i, n) && FlagAt(env, j, k)
    ensures i + Vad.Need(env.config.silenceMs) <= h && h + Vad.Need(env.config.minSpeechMs) <= j
  {
    FlagHasFrame(env, j, m);
    h :| h < j && FlagAt(env, h, m);
    LaterFlagLaterFrame(env, i, n, h, m);
    OpensAt(env, i, n);
    ClosesAt(env, h, m);
    OpensAt(env, j, k);
    EdgesAreApart(env, i, h, j);
  }

  lemma LongSilence(ms: nat)
    requires ms > 320
    ensures Vad.Need(ms) >= 17
  {
  }

  lemma EdgesAreApart(env: Env, i: nat, h: nat, j: nat)
    requires i < h < j && Vad.Onset(env.config, env.frames, i)
    requires Vad.Hush(env.config, env.frames, h) && Vad.Onset(env.config, env.frames, j)
    ensures i + Vad.Need(env.config.silenceMs) <= h && h + Vad.Need(env.config.minSpeechMs) <= j
  {
    RunsAreApart(env.frames, i, h, Vad.Need(env.config.minSpeechMs), Vad.Need(env.config.silenceMs), true);
    RunsAreApart(env.frames, h, j, Vad.Need(env.config.silenceMs), Vad.Need(env.config.minSpeechMs), false);
  }

  /** A run of the one kind cannot reach back over the end of a run of the other. */
  lemma RunsAreApart(fs: seq<Vad.Frame>, i: nat, j: nat, k: nat, m: nat, voiced: bool)
    requires i < j && k > 0 && Vad.Run(fs, i, k, voiced) && Vad.Run(fs, j, m, !voiced)
    ensures i + m <= j
  {
    assert fs[i].voiced == voiced;
  }

  // ----- the invariant -----

  lemma {:induction false} PendingFlags(acts: seq<Vad.Act>)
    ensures |Vad.SideEdges(acts)| == SidePending(acts)
  {
    if acts != [] {
      var a, rest := [acts[0]], acts[1..];
      PendingFlags(rest);
      assert acts == a + rest && a[..0] == [];
      Vad.EdgesConcat(a, rest);
    }
  }

  /** The flag in the detector's hands is for the frame it heard last. */
  ghost predicate HandPart(env: Env, s: Sys) {
    SidePending(s.acts) > 0 ==> s.heard > 0 && FlagAt(env, s.heard - 1, |Vad.SideEdges(s.sent)|)
  }

  /** While flag `n` waits, the fanout is at most 18 frames past the frame it is for. */
  ghost predicate Prompt(env: Env, s: Sys, i: nat) {
    && i < s.heard && FlagAt(env, i, |s.flags|)
    && s.fan.taken + (if s.phase.Polled? then 1 else 0) <= i + 18
  }

  ghost predicate WaitPart(env: Env, s: Sys) {
    !s.fan.stopped && s.side != [] ==> exists i: nat :: Prompt(env, s, i)
  }

  lemma FlagIsForFrame(env: Env, i: nat)
    requires i < |env.frames|
    ensures var s := Vad.Fold(env.config, env.frames[..i]);
      SidePending(Vad.Acts(env.config, s, env.frames[i])) > 0 ==> FlagAt(env, i, Flags(env, i))
  {
    FlagsStep(env, i);
  }

  lemma HearKeepsHand(env: Env, s: Sys)
    requires Fanout.WellFormed(s.fan) && VadPart(env, s) && Enabled(env, s, VadReceive)
    ensures HandPart(env, Take(env, s, VadReceive))
  {
    FlagIsForFrame(env, s.heard);
    ConcatEmpty(s.sent);
    assert |Vad.SideEdges(s.sent)| == Flags(env, s.heard);
  }

  lemma HandKept(env: Env, s: Sys, l: Step)
    requires Fanout.WellFormed(s.fan) && VadPart(env, s) && QueuePart(s) && Enabled(env, s, l) && HandPart(env, s)
    ensures HandPart(env, Take(env, s, l))
  {
    if l.VadReceive? {
      HearKeepsHand(env, s);
    } else if l.VadSend? {
      SendKeepsHand(env, s);
    } else if l.VadEndOfAudio? {
      ActsPending(env.config, s.vad, Vad.Frame(false, 0), env.frames[..s.heard]);
    } else {
      OthersLeaveHand(env, s, l);
    }
  }

  lemma SendKeepsHand(env: Env, s: Sys)
    requires Fanout.WellFormed(s.fan) && QueuePart(s) && Enabled(env, s, VadSend) && HandPart(env, s)
    ensures HandPart(env, Take(env, s, VadSend))
  {
    if s.acts[0].OnBus() { EventKeepsHand(env, s); } else { FlagEmptiesHand(s.acts); }
  }

  lemma EventKeepsHand(env: Env, s: Sys)
    requires s.acts != [] && s.acts[0].OnBus() && HandPart(env, s)
    ensures HandPart(env, SendAct(s))
  {
    SendLeavesFlags(s.sent, s.acts[0]);
    EventLeavesPending(s.acts);
  }

  lemma EventLeavesPending(acts: seq<Vad.Act>)
    requires acts != [] && acts[0].OnBus()
    ensures SidePending(acts[1..]) == SidePending(acts)
  {
  }

  lemma FlagEmptiesHand(acts: seq<Vad.Act>)
    requires acts != [] && acts[0].Side? && SidePending(acts) <= 1
    ensures SidePending(acts[1..]) == 0
  {
  }

  lemma SendLeavesFlags(sent: seq<Vad.Act>, a: Vad.Act)
    requires a.OnBus()
    ensures Vad.SideEdges(sent + [a]) == Vad.SideEdges(sent)
  {
    Vad.EdgesSnoc(sent, a);
    ConcatEmpty(Vad.SideEdges(sent));
  }

  lemma OthersLeaveHand(env: Env, s: Sys, l: Step)
    requires Fanout.WellFormed(s.fan) && Enabled(env, s, l)
    requires !l.VadReceive? && !l.VadSend? && !l.VadEndOfAudio?
    ensures var t := Take(env, s, l); t.acts == s.acts && t.sent == s.sent && t.heard == s.heard
  {
  }

  /** A flag that finds the channel empty is for a frame at most 17 frames back. */
  lemma SendIsPrompt(env: Env, s: Sys)
    requires VadPart(env, s) && QueuePart(s) && SidePart(s) && HandPart(env, s) && !VadDown(s)
    requires s.acts != [] && s.acts[0].Side? && s.side == [] && !s.fan.stopped
    ensures Prompt(env, s, s.heard - 1)
  {
    ConcatEmpty(s.flags);
  }

  /** Flags sent are flags due for the frames heard. */
  lemma PlannedFlags(env: Env, s: Sys)
    requires VadPart(env, s)
    ensures |Vad.SideEdges(s.sent)| <= Flags(env, s.heard)
  {
    var fs := env.frames[..s.heard];
    Vad.EdgesConcat(s.sent, s.acts);
    Vad.EdgesConcat(Vad.Log(env.config, fs), Vad.Closing(env.config, fs));
    PendingFlags(Vad.Closing(env.config, fs));
    ActsPending(env.config, s.vad, Vad.Frame(false, 0), fs);
  }

  /** The next flag that waits is for a later frame, so it waits no longer. */
  lemma NextIsPrompt(env: Env, s: Sys, i: nat) returns (j: nat)
    requires VadPart(env, s) && SidePart(s) && !s.fan.stopped && Prompt(env, s, i) && |s.side| > 1
    ensures i < j < s.heard && FlagAt(env, j, |s.flags| + 1)
  {
    var next := |s.flags| + 1;
    PlannedFlags(env, s);
    FlagHasFrame(env, s.heard, next);
    j :| j < s.heard && FlagAt(env, j, next);
    LaterFlagLaterFrame(env, i, |s.flags|, j, |s.flags| + 1);
  }

  lemma FlagKeepsWait(env: Env, s: Sys)
    requires Fanout.WellFormed(s.fan) && VadPart(env, s) && SidePart(s)
    requires Enabled(env, s, FanFlag) && WaitPart(env, s)
    ensures WaitPart(env, Take(env, s, FanFlag))
  {
    var t := Take(env, s, FanFlag);
    TakenKept(s.fan, 0, s.side[0]);
    FlagsKeepStopped(s.fan, 0, s.side[0]);
    if t.side != [] {
      var i: nat :| Prompt(env, s, i);
      var j := NextIsPrompt(env, s, i);
      assert Prompt(env, t, j);
    }
  }

  /** A step that handles no flag and takes no frame out of turn lets the flag wait on. */
  lemma StillPrompt(env: Env, s: Sys, t: Sys, i: nat)
    requires Prompt(env, s, i) && t.flags == s.flags && s.heard <= t.heard
    requires t.fan.taken + (if t.phase.Polled? then 1 else 0) <= s.fan.taken + (if s.phase.Polled? then 1 else 0)
    ensures Prompt(env, t, i)
  {
  }

  lemma SendAdds(s: Sys)
    requires s.acts != []
    ensures var t := SendAct(s); t.flags == s.flags && t.heard == s.heard && t.fan == s.fan && t.phase == s.phase
    ensures s.acts[0].OnBus() ==> SendAct(s).side == s.side
  {
  }

  lemma SendKeepsWait(env: Env, s: Sys)
    requires Fanout.WellFormed(s.fan) && VadPart(env, s) && QueuePart(s) && SidePart(s) && HandPart(env, s)
    requires Enabled(env, s, VadSend) && WaitPart(env, s)
    ensures WaitPart(env, Take(env, s, VadSend))
  {
    var t := Take(env, s, VadSend);
    if !t.fan.stopped && t.side != [] {
      SendAdds(s);
      if s.side == [] {
        SendIsPrompt(env, s);
        StillPrompt(env, s, t, s.heard - 1);
      } else {
        var i: nat :| Prompt(env, s, i);
        StillPrompt(env, s, t, i);
      }
    }
  }

  lemma OthersKeepWait(env: Env, s: Sys, l: Step)
    requires Fanout.WellFormed(s.fan) && Enabled(env, s, l) && !l.FanFlag? && !l.VadSend?
    requires WaitPart(env, s)
    ensures WaitPart(env, Take(env, s, l))
  {
    var t := Take(env, s, l);
    OthersLetWait(env, s, l);
    if !t.fan.stopped && t.side != [] {
      var i: nat :| Prompt(env, s, i);
      StillPrompt(env, s, t, i);
    }
  }

  lemma OthersLetWait(env: Env, s: Sys, l: Step)
    requires Fanout.WellFormed(s.fan) && Enabled(env, s, l) && !l.FanFlag? && !l.VadSend?
    ensures var t := Take(env, s, l);
      && t.side == s.side && t.flags == s.flags && s.heard <= t.heard
      && (s.fan.stopped ==> t.fan.stopped)
      && (s.side != [] ==>
            t.fan.taken + (if t.phase.Polled? then 1 else 0) <= s.fan.taken + (if s.phase.Polled? then 1 else 0))
  {
  }

  lemma WaitKept(env: Env, s: Sys, l: Step)
    requires Fanout.WellFormed(s.fan) && VadPart(env, s) && QueuePart(s) && SidePart(s) && HandPart(env, s)
    requires Enabled(env, s, l) && WaitPart(env, s)
    ensures WaitPart(env, Take(env, s, l))
  {
    match l {
      case FanFlag => FlagKeepsWait(env, s);
      case VadSend => SendKeepsWait(env, s);
      case _ => OthersKeepWait(env, s, l);
    }
  }

  lemma {:induction false} RunsArePrompt(env: Env, schedule: seq<Step>)
    requires Exec(env, schedule).Some?
    ensures Inv(env, Exec(env, schedule).value)
    ensures HandPart(env, Exec(env, schedule).value) && WaitPart(env, Exec(env, schedule).value)
  {
    RunsKeepInv(env, schedule);
    if schedule != [] {
      var n := |schedule| - 1;
      RunsArePrompt(env, schedule[..n]);
      HandKept(env, Exec(env, schedule[..n]).value, schedule[n]);
      WaitKept(env, Exec(env, schedule[..n]).value, schedule[n]);
    }
  }

  // ----- the flags of each turn -----

  /** Turn `id` was spawned for the flag sent at frame `i`, at most 17 frames later. */
  ghost predicate SpawnedFor(env: Env, id: nat, t: Fanout.Turn, i: nat) {
    id > 0 && FlagAt(env, i, 2 * id - 2) && i < t.onset <= i + 18
  }

  /** Turn `id` was closed for the flag sent at frame `i`, at most 17 frames later. */
  ghost predicate ClosedFor(env: Env, id: nat, t: Fanout.Turn, i: nat) {
    id > 0 && FlagAt(env, i, 2 * id - 1) && i < t.stop <= i + 18
  }

  ghost predicate Timely(env: Env, id: nat, t: Fanout.Turn) {
    && (exists i: nat :: SpawnedFor(env, id, t, i))
    && (t.closed.ByFlag? ==> exists i: nat :: ClosedFor(env, id, t, i))
  }

  lemma SpawnedNow(f: Fanout.Fan, n: nat)
    requires Fanout.Windowed(f) && TurnsOfFlags(f, n) && n % 2 == 0
    ensures var g := Fanout.OnStart(f);
      && |g.turns| == |f.turns| + 1 && 2 * |f.turns| == n && g.turns[|f.turns|].closed.Open?
      && g.turns[|f.turns|].onset == f.taken && g.turns[|f.turns|].start == f.taken - |f.preBuffer|
  {
  }

  /** Only an opening flag spawns a turn. */
  lemma SpawnIsTimely(env: Env, s: Sys, l: Step, id: nat)
    requires Inv(env, s) && WaitPart(env, s) && Enabled(env, s, l)
    requires !Fanout.Known(s.fan, id) && Fanout.Known(Take(env, s, l).fan, id)
    ensures Timely(env, id, Take(env, s, l).fan.turns[id - 1])
  {
    TakeFan(env, s, l);
    OnlyFlagsSpawn(env, s, l);
    FlagParity(s);
    var i: nat :| Prompt(env, s, i);
    SpawnedNow(s.fan, |s.flags|);
    assert id == |s.fan.turns| + 1 && |s.flags| == 2 * id - 2;
    assert SpawnedFor(env, id, Take(env, s, l).fan.turns[id - 1], i);
  }

  lemma OnlyFlagsSpawn(env: Env, s: Sys, l: Step)
    requires Fanout.WellFormed(s.fan) && Enabled(env, s, l) && |FanAfter(env, s, l).turns| > |s.fan.turns|
    ensures l.FanFlag? && s.side[0] && !s.fan.stopped
    ensures FanAfter(env, s, l) == Fanout.OnStart(s.fan)
  {
  }

  /** A turn that its flag closes is closed within 17 frames of the frame of that flag. */
  lemma CloseIsTimely(env: Env, s: Sys, l: Step, id: nat) returns (i: nat)
    requires Inv(env, s) && WaitPart(env, s) && Enabled(env, s, l) && Windows.OpenIn(s, id)
    requires Fanout.Known(Take(env, s, l).fan, id) && Take(env, s, l).fan.turns[id - 1].closed.ByFlag?
    ensures ClosedFor(env, id, Take(env, s, l).fan.turns[id - 1], i)
  {
    TakeFan(env, s, l);
    Windows.OpenReachesNow(s.fan, id);
    Windows.OnlyTheseClose(env, s, l, id);
    i :| Prompt(env, s, i);
    FlagParity(s);
    OddFlags(|s.flags|, id);
  }

  lemma OddFlags(n: nat, id: nat)
    requires n % 2 == 1 && id == (n + 1) / 2
    ensures n == 2 * id - 1
  {
  }

  lemma KeptIsTimely(env: Env, s: Sys, l: Step, id: nat)
    requires Inv(env, s) && WaitPart(env, s) && Enabled(env, s, l) && Fanout.Known(s.fan, id)
    requires Timely(env, id, s.fan.turns[id - 1]) && Fanout.Known(Take(env, s, l).fan, id)
    ensures Timely(env, id, Take(env, s, l).fan.turns[id - 1])
  {
    var t, u := s.fan.turns[id - 1], Take(env, s, l).fan.turns[id - 1];
    OnsetStays(env, s, l, id);
    var i: nat :| SpawnedFor(env, id, t, i);
    assert SpawnedFor(env, id, u, i);
    if u.closed.ByFlag? {
      if Windows.OpenIn(s, id) {
        var j := CloseIsTimely(env, s, l, id);
      } else {
        Windows.ClosedKeepsEnd(env, s, l, id);
        var j: nat :| ClosedFor(env, id, t, j);
        assert ClosedFor(env, id, u, j);
      }
    }
  }

  lemma OnsetStays(env: Env, s: Sys, l: Step, id: nat)
    requires Fanout.Fenced(s.fan) && Fanout.Windowed(s.fan) && Enabled(env, s, l)
    requires Fanout.Known(s.fan, id) && Fanout.Known(Take(env, s, l).fan, id)
    ensures Take(env, s, l).fan.turns[id - 1].onset == s.fan.turns[id - 1].onset
  {
    if l.FanTake? {
      TakeFan(env, s, l);
      Windows.FrameIsOffered(s.fan, id);
    } else {
      Windows.OthersAreQuiet(env, s, l);
    }
  }

  /** In every schedule the turn of each opening flag is spawned, and if a flag closes it,
      closed, at most 17 frames after the frame of the flag. */
  lemma {:induction false} RunsAreTimely(env: Env, schedule: seq<Step>, id: nat)
    requires Exec(env, schedule).Some? && Fanout.Known(Exec(env, schedule).value.fan, id)
    ensures Timely(env, id, Exec(env, schedule).value.fan.turns[id - 1])
  {
    var p, s, l := Windows.LastStep(env, schedule);
    RunsArePrompt(env, p);
    if Fanout.Known(s.fan, id) {
      RunsAreTimely(env, p, id);
      KeptIsTimely(env, s, l, id);
    } else {
      SpawnIsTimely(env, s, l, id);
    }
  }

  /** A turn that its flag closed follows one stretch of speech: it was spawned at most 17
      frames after the frame `i` that completed the voiced run, and its window ends at most 17
      frames after the frame `j` that completed the silent run, and after `j` itself. */
  lemma TurnsMatchSpeech(env: Env, schedule: seq<Step>, id: nat) returns (i: nat, j: nat)
    requires Exec(env, schedule).Some? && Fanout.Known(Exec(env, schedule).value.fan, id)
    requires Exec(env, schedule).value.fan.turns[id - 1].closed.ByFlag?
    ensures var t := Exec(env, schedule).value.fan.turns[id - 1];
      && FlagAt(env, i, 2 * id - 2) && Vad.Onset(env.config, env.frames, i) && i < t.onset <= i + 18
      && FlagAt(env, j, 2 * id - 1) && Vad.Hush(env.config, env.frames, j) && j < t.stop <= j + 18
      && i + Vad.Need(env.config.silenceMs) <= j
  {
    RunsAreTimely(env, schedule, id);
    i, j := SpeechOf(env, id, Exec(env, schedule).value.fan.turns[id - 1]);
  }

  lemma SpeechOf(env: Env, id: nat, t: Fanout.Turn) returns (i: nat, j: nat)
    requires Timely(env, id, t) && t.closed.ByFlag?
    ensures FlagAt(env, i, 2 * id - 2) && Vad.Onset(env.config, env.frames, i) && i < t.onset <= i + 18
    ensures FlagAt(env, j, 2 * id - 1) && Vad.Hush(env.config, env.frames, j) && j < t.stop <= j + 18
    ensures i + Vad.Need(env.config.silenceMs) <= j
  {
    i :| SpawnedFor(env, id, t, i);
    j :| ClosedFor(env, id, t, j);
    FlagPair(env, i, j, id, 2 * id - 2, 2 * id - 1);
  }

  lemma FlagPair(env: Env, i: nat, j: nat, id: nat, n: nat, m: nat)
    requires id > 0 && n == 2 * (id - 1) && m == n + 1 && FlagAt(env, i, n) && FlagAt(env, j, m)
    ensures Vad.Onset(env.config, env.frames, i) && Vad.Hush(env.config, env.frames, j)
    ensures i + Vad.Need(env.config.silenceMs) <= j
  {
    TwiceIsEven(id - 1);
    OpensAt(env, i, n);
    ClosesAt(env, j, m);
    LaterFlagLaterFrame(env, i, n, j, m);
    RunsAreApart(env.frames, i, j, Vad.Need(env.config.minSpeechMs), Vad.Need(env.config.silenceMs), true);
  }

  // ----- the turn and its onset -----

  /** The turn's window reaches back over the whole voiced run that frame `i` completed. */
  predicate CoversOnset(env: Env, t: Fanout.Turn, i: nat) {
    t.start + Vad.Need(env.config.minSpeechMs) <= i + 1
  }

  /** How many frames had been taken when the newest turn was spawned. */
  function LastSpawn(f: Fanout.Fan): nat {
    Fanout.DrainedAt(f.turns, |f.turns| - 1)
  }

  /** When an opening flag is about to be handled, at most 18 frames have been taken since the
      start of the frame `i` that it is for. The turn that is spawned covers the onset exactly
      when those frames and the rest of the run fit into a full pre-buffer and the previous
      turn was spawned no later than the run began. The latter always holds when `silenceMs`
      exceeds 320; then the window starts at most three frames after frame `i`. */
  lemma TurnsSpawnPromptly(env: Env, schedule: seq<Step>) returns (i: nat)
    requires Exec(env, schedule).Some?
    requires var s := Exec(env, schedule).value;
      Fanout.WellFormed(s.fan) && Enabled(env, s, FanFlag) && s.side[0]
    ensures var s := Exec(env, schedule).value;
      var f := Take(env, s, FanFlag).fan; var need := Vad.Need(env.config.minSpeechMs);
      && i < s.heard && FlagAt(env, i, |s.flags|) && Vad.Onset(env.config, env.frames, i)
      && i < s.fan.taken <= i + 18
      && |f.turns| == |s.fan.turns| + 1
      && var t := f.turns[|s.fan.turns|];
      && t.onset == s.fan.taken
      && (CoversOnset(env, t, i) <==>
            s.fan.taken - (i + 1) + need <= 15 && LastSpawn(s.fan) + need <= i + 1)
      && (env.config.silenceMs > 320 ==>
            && LastSpawn(s.fan) + need <= i + 1
            && (CoversOnset(env, t, i) <==> s.fan.taken - (i + 1) + need <= 15)
            && t.start <= i + 3)
  {
    RunsArePrompt(env, schedule);
    var s := Exec(env, schedule).value;
    NewestIsTimely(env, schedule, s.fan);
    i := FlagDue(env, s);
    SpawnsPromptly(env, s.fan, |s.flags|, i);
    FlagSpawns(env, s, i);
  }

  lemma FlagSpawns(env: Env, s: Sys, i: nat)
    requires Fanout.WellFormed(s.fan) && Enabled(env, s, FanFlag) && s.side[0]
    requires i < s.fan.taken <= i + 18 && Covering(env, s.fan, i)
    ensures var f := Take(env, s, FanFlag).fan; var need := Vad.Need(env.config.minSpeechMs);
      && |f.turns| == |s.fan.turns| + 1
      && var t := f.turns[|s.fan.turns|];
      && t.onset == s.fan.taken
      && (CoversOnset(env, t, i) <==>
            s.fan.taken - (i + 1) + need <= 15 && LastSpawn(s.fan) + need <= i + 1)
      && (LastSpawn(s.fan) + need <= i + 1 ==> t.start <= i + 3)
  {
    assert Take(env, s, FanFlag).fan == Fanout.OnStart(s.fan);
  }

  lemma FlagDue(env: Env, s: Sys) returns (i: nat)
    requires Fanout.WellFormed(s.fan) && VadPart(env, s) && SidePart(s) && WaitPart(env, s)
    requires Enabled(env, s, FanFlag) && s.side[0]
    ensures i < s.heard && FlagAt(env, i, |s.flags|) && |s.flags| % 2 == 0
    ensures i < s.fan.taken <= i + 18
  {
    i :| Prompt(env, s, i);
    FlagParity(s);
  }

  lemma SpawnsPromptly(env: Env, f: Fanout.Fan, n: nat, i: nat)
    requires Fanout.Windowed(f) && TurnsOfFlags(f, n) && n % 2 == 0 && FlagAt(env, i, n) && i < f.taken
    requires f.turns != [] ==> Timely(env, |f.turns|, f.turns[|f.turns| - 1])
    ensures Vad.Onset(env.config, env.frames, i) && Covering(env, f, i)
    ensures env.config.silenceMs > 320 ==> LastSpawn(f) + Vad.Need(env.config.minSpeechMs) <= i + 1
  {
    OpensAt(env, i, n);
    CoversIff(env, f, n, i);
    if env.config.silenceMs > 320 { LastSpawnIsEarly(env, f, n, i); }
  }

  /** The turn spawned now covers the onset exactly under the two conditions. */
  ghost predicate Covering(env: Env, f: Fanout.Fan, i: nat)
    requires Fanout.WellFormed(f)
  {
    var need := Vad.Need(env.config.minSpeechMs);
    var g := Fanout.OnStart(f);
    && |g.turns| == |f.turns| + 1
    && var t := g.turns[|f.turns|];
    && t.onset == f.taken
    && t.start == (if f.taken - LastSpawn(f) <= 15 then LastSpawn(f) else f.taken - 15)
    && (CoversOnset(env, t, i) <==> f.taken - (i + 1) + need <= 15 && LastSpawn(f) + need <= i + 1)
  }

  lemma CoversIff(env: Env, f: Fanout.Fan, n: nat, i: nat)
    requires Fanout.Windowed(f) && TurnsOfFlags(f, n) && n % 2 == 0 && i < f.taken
    ensures Covering(env, f, i)
  {
    SpawnedNow(f, n);
  }

  lemma NewestIsTimely(env: Env, schedule: seq<Step>, f: Fanout.Fan)
    requires Exec(env, schedule).Some? && f == Exec(env, schedule).value.fan
    ensures f.turns != [] ==> Timely(env, |f.turns|, f.turns[|f.turns| - 1])
  {
    if f.turns != [] { RunsAreTimely(env, schedule, |f.turns|); }
  }

  lemma LastSpawnIsEarly(env: Env, f: Fanout.Fan, n: nat, i: nat)
    requires f.turns != [] ==> Timely(env, |f.turns|, f.turns[|f.turns| - 1])
    requires n == 2 * |f.turns| && FlagAt(env, i, n) && env.config.silenceMs > 320
    requires Vad.Onset(env.config, env.frames, i)
    ensures LastSpawn(f) + Vad.Need(env.config.minSpeechMs) <= i + 1
  {
    if f.turns != [] {
      var last: nat :| SpawnedFor(env, |f.turns|, f.turns[|f.turns| - 1], last);
      var m := 2 * |f.turns| - 2;
      TwiceIsEven(|f.turns| - 1);
      RunIsLate(env, last, i, m);
    }
  }

  lemma TwiceIsEven(k: nat)
    ensures 2 * k % 2 == 0
  {
  }

  // ----- the bound is attained -----

  /** The default settings, and speech from the first frame on. */
  function Sudden(): Env {
    Env(Vad.Config(800, 200), seq(28, _ => Vad.Frame(true, 0)))
  }

  /** The fanout runs ahead by `k` frames. */
  function Ahead(k: nat): seq<Step> {
    if k == 0 then [] else Ahead(k - 1) + [FanPoll] + [FanTake] + [FanForward]
  }

  function AheadFan(k: nat): Fanout.Fan {
    Fanout.INIT.(taken := k, preBuffer := Fanout.Range(if k < 15 then 0 else k - 15, k))
  }

  function AheadState(k: nat): Sys {
    INIT.(fan := AheadFan(k), vadQueue := Fanout.Range(0, k))
  }

  lemma ExecSnoc(env: Env, schedule: seq<Step>, s: Sys, l: Step)
    requires Exec(env, schedule) == Some(s) && Fanout.WellFormed(s.fan) && Enabled(env, s, l)
    ensures Exec(env, schedule + [l]) == Some(Take(env, s, l))
  {
    assert (schedule + [l])[..|schedule|] == schedule;
  }

  lemma FrameAhead(k: nat)
    ensures Fanout.OnFrame(AheadFan(k)) == AheadFan(k + 1)
  {
    Fanout.BufferedKeepsRange(AheadFan(k).preBuffer, k);
  }

  lemma {:induction false} RunsAhead(k: nat)
    requires k <= 16
    ensures Exec(Sudden(), Ahead(k)) == Some(AheadState(k))
  {
    if k == 0 {
      assert Fanout.Range(0, 0) == [];
    } else {
      var n := k - 1;
      var sched, s := Ahead(n), AheadState(n);
      RunsAhead(n);
      ExecSnoc(Sudden(), sched, s, FanPoll);
      FrameAhead(n);
      var t := s.(phase := Polled);
      ExecSnoc(Sudden(), sched + [FanPoll], t, FanTake);
      var u := t.(fan := AheadFan(k), phase := Sending(n));
      ExecSnoc(Sudden(), sched + [FanPoll] + [FanTake], u, FanForward);
      Fanout.RangeSnoc(0, n);
    }
  }

  /** Sixteen frames ahead, the fanout takes one more for each of `k` frames heard. */
  function Behind(k: nat): seq<Step> {
    if k == 0 then Ahead(16) else Behind(k - 1) + [FanPoll] + [FanTake] + [VadReceive] + [FanForward]
  }

  function BehindState(k: nat): Sys {
    INIT.(fan := AheadFan(16 + k), vadQueue := Fanout.Range(k, 16 + k), heard := k, vad := Vad.State(false, 20 * k, 0))
  }

  lemma {:induction false} RunsBehind(k: nat)
    requires k <= 9
    ensures Exec(Sudden(), Behind(k)) == Some(BehindState(k))
  {
    if k == 0 {
      RunsAhead(16);
    } else {
      RunsBehind(k - 1);
      StepsBehind(Behind(k - 1), k - 1);
    }
  }

  predicate Goes(s: Sys, l: Step, t: Sys) {
    Fanout.WellFormed(s.fan) && Enabled(Sudden(), s, l) && Take(Sudden(), s, l) == t
  }

  lemma ExecGoes(schedule: seq<Step>, s: Sys, l: Step, t: Sys)
    requires Exec(Sudden(), schedule) == Some(s) && Goes(s, l, t)
    ensures Exec(Sudden(), schedule + [l]) == Some(t)
  {
    ExecSnoc(Sudden(), schedule, s, l);
  }

  function TookBehind(n: nat): Sys {
    BehindState(n).(fan := AheadFan(17 + n), phase := Sending(16 + n))
  }

  function HeardBehind(n: nat): Sys {
    TookBehind(n).(vadQueue := Fanout.Range(n + 1, 16 + n), heard := n + 1, vad := Vad.State(false, 20 * n + 20, 0))
  }

  lemma StepsBehind(sched: seq<Step>, n: nat)
    requires n < 9 && Exec(Sudden(), sched) == Some(BehindState(n))
    ensures Exec(Sudden(), sched + [FanPoll] + [FanTake] + [VadReceive] + [FanForward]) == Some(BehindState(n + 1))
  {
    var polled := BehindState(n).(phase := Polled);
    TakesBehind(n);
    HearsBehind(n);
    ForwardsBehind(n);
    ExecGoes(sched, BehindState(n), FanPoll, polled);
    ExecGoes(sched + [FanPoll], polled, FanTake, TookBehind(n));
    ExecGoes(sched + [FanPoll] + [FanTake], TookBehind(n), VadReceive, HeardBehind(n));
    ExecGoes(sched + [FanPoll] + [FanTake] + [VadReceive], HeardBehind(n), FanForward, BehindState(n + 1));
  }

  lemma PollGoes(s: Sys)
    requires Fanout.WellFormed(s.fan) && FanIdle(s) && s.side == []
    ensures Goes(s, FanPoll, s.(phase := Polled))
  {
  }

  lemma TakeGoes(s: Sys, k: nat)
    requires s.fan == AheadFan(k) && k < 28 && s.phase.Polled?
    ensures Goes(s, FanTake, s.(fan := AheadFan(k + 1), phase := Sending(k)))
  {
    FrameAhead(k);
  }

  lemma ForwardGoes(s: Sys, from: nat, k: nat)
    requires s.phase == Sending(k) && s.fan == AheadFan(k + 1) && from <= k < from + 16
    requires s.vadQueue == Fanout.Range(from, k) && !VadDown(s)
    ensures Goes(s, FanForward, s.(phase := Select, vadQueue := Fanout.Range(from, k + 1)))
  {
    Fanout.RangeSnoc(from, k);
  }

  lemma HearGoes(s: Sys, from: nat, k: nat)
    requires Fanout.WellFormed(s.fan) && VadReady(s) && s.heard == from < k && from < 28
    requires s.vadQueue == Fanout.Range(from, k)
    ensures var c := Sudden().config; var f := Vad.Frame(true, 0);
      Goes(s, VadReceive, s.(vadQueue := Fanout.Range(from + 1, k), heard := from + 1,
                             vad := Vad.Step(c, s.vad, f), acts := Vad.Acts(c, s.vad, f)))
  {
    Fanout.RangeSnoc(from, k);
  }

  lemma TakesBehind(n: nat)
    requires n < 9
    ensures var polled := BehindState(n).(phase := Polled);
      Goes(BehindState(n), FanPoll, polled) && Goes(polled, FanTake, TookBehind(n))
  {
    PollGoes(BehindState(n));
    TakeGoes(BehindState(n).(phase := Polled), 16 + n);
  }

  lemma HearsBehind(n: nat)
    requires n < 9
    ensures Goes(TookBehind(n), VadReceive, HeardBehind(n))
  {
    HearGoes(TookBehind(n), n, 16 + n);
  }

  lemma ForwardsBehind(n: nat)
    requires n < 9
    ensures Goes(HeardBehind(n), FanForward, BehindState(n + 1))
  {
    ForwardGoes(HeardBehind(n), n + 1, 16 + n);
  }

  const LATE: seq<Step> :=
    [FanPoll, FanTake, VadReceive, FanForward, FanPoll, VadSend, FanTake, VadSend, VadReceive, FanForward]

  /** The flag for the tenth frame is sent while the fanout is about to take one more. */
  function LateState(n: nat): Sys
    requires n <= 10
  {
    var started, sent := Vad.Started(0), Vad.Side(true);
    if n == 0 then BehindState(9)
    else if n == 1 then LateState(0).(phase := Polled)
    else if n == 2 then LateState(1).(fan := AheadFan(26), phase := Sending(25))
    else if n == 3 then
      LateState(2).(vadQueue := Fanout.Range(10, 25), heard := 10, vad := Vad.State(true, 200, 0), acts := [sent, started])
    else if n == 4 then LateState(3).(phase := Select, vadQueue := Fanout.Range(10, 26))
    else if n == 5 then LateState(4).(phase := Polled)
    else if n == 6 then LateState(5).(acts := [started], sent := [sent], side := [true])
    else if n == 7 then LateState(6).(fan := AheadFan(27), phase := Sending(26))
    else if n == 8 then
      LateState(7).(acts := [], sent := [sent, started], log := [Entry(Orchestrator.SpeechStarted(0), FromVad)])
    else if n == 9 then LateState(8).(vadQueue := Fanout.Range(11, 26), heard := 11, vad := Vad.State(true, 220, 0))
    else LateState(9).(phase := Select, vadQueue := Fanout.Range(11, 27))
  }

  predicate Leads(n: nat)
    requires n < 10
  {
    Goes(LateState(n), LATE[n], LateState(n + 1))
  }

  lemma PollLeads()
    ensures Leads(0) && Leads(4)
  {
    PollGoes(LateState(0));
    PollGoes(LateState(4));
  }

  lemma TakeLeads()
    ensures Leads(1) && Leads(6)
  {
    TakeGoes(LateState(1), 25);
    TakeGoes(LateState(6), 26);
  }

  lemma ForwardLeads()
    ensures Leads(3)
  {
    ForwardGoes(LateState(3), 10, 25);
  }

  lemma ForwardOnLeads()
    ensures Leads(9)
  {
    ForwardGoes(LateState(9), 11, 26);
  }

  lemma HearLeads()
    ensures Leads(2)
  {
    HearGoes(LateState(2), 9, 25);
  }

  lemma HearOnLeads()
    ensures Leads(8)
  {
    HearGoes(LateState(8), 10, 26);
  }

  lemma FlagLeads()
    ensures Leads(5)
  {
  }

  lemma StartLeads()
    ensures Leads(7)
  {
  }

  lemma AllLead(n: nat)
    requires n < 10
    ensures Leads(n)
  {
    PollLeads();
    TakeLeads();
    ForwardLeads();
    ForwardOnLeads();
    HearLeads();
    HearOnLeads();
    FlagLeads();
    StartLeads();
  }

  /** The fanout stays sixteen frames ahead up to the tenth; then the first `n` late steps. */
  function Late(n: nat): seq<Step>
    requires n <= 10
  {
    if n == 0 then Behind(9) else Late(n - 1) + [LATE[n - 1]]
  }

  lemma {:induction false} RunsLate(n: nat)
    requires n <= 10
    ensures Exec(Sudden(), Late(n)) == Some(LateState(n))
  {
    if n == 0 {
      RunsBehind(9);
    } else {
      RunsLate(n - 1);
      AllLead(n - 1);
      ExecGoes(Late(n - 1), LateState(n - 1), LATE[n - 1], LateState(n));
    }
  }

  lemma LastState()
    ensures IsLate(LateState(10))
  {
  }

  predicate IsLate(s: Sys) {
    s.fan == AheadFan(27) && s.phase.Select? && s.side == [true] && s.flags == [] && s.heard == 11
  }

  lemma SpawnsLate(s: Sys)
    requires IsLate(s)
    ensures Fanout.WellFormed(s.fan) && Enabled(Sudden(), s, FanFlag) && s.side[0]
    ensures var f := Take(Sudden(), s, FanFlag).fan; |f.turns| == 1 && f.turns[0].start == 12
  {
  }

  lemma MissesOnset(schedule: seq<Step>, s: Sys) returns (i: nat)
    requires Exec(Sudden(), schedule) == Some(s) && IsLate(s)
    ensures i < 12 && FlagAt(Sudden(), i, 0)
  {
    SpawnsLate(s);
    i := TurnsSpawnPromptly(Sudden(), schedule);
  }

  /** With the default settings there is a schedule in which a turn misses the whole onset: ten
      voiced frames, from frame 0 on, make the detector report speech at frame `i`, and the
      window of the turn starts only after it. */
  lemma OnsetCanBeMissed() returns (schedule: seq<Step>, i: nat)
    ensures Exec(Sudden(), schedule).Some?
    ensures var s := Exec(Sudden(), schedule).value;
      && Fanout.WellFormed(s.fan) && Enabled(Sudden(), s, FanFlag) && s.side[0]
      && FlagAt(Sudden(), i, |s.flags|)
      && var f := Take(Sudden(), s, FanFlag).fan;
      |f.turns| == 1 && f.turns[0].start == 12 && i < 12
  {
    schedule := Late(10);
    RunsLate(10);
    LastState();
    SpawnsLate(LateState(10));
    i := MissesOnset(schedule, LateState(10));
  }
}
