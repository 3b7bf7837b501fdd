/** Which frames each turn is given: the whole window except the frames that found the turn's
    queue full or its provider gone, and where the window ends. */
module Windows {
  import opened Text
  import Fanout
  import opened Pipeline

  // ----- looking back over a schedule -----

  /** The state in which the fanout took frame `j`. */
  function TakingState(env: Env, schedule: seq<Step>, j: nat): Option<Sys> {
    if schedule == [] then None
    else
      var n := |schedule| - 1;
      var before := Exec(env, schedule[..n]);
      if schedule[n].FanTake? && before.Some? && before.value.fan.taken == j then before
      else TakingState(env, schedule[..n], j)
  }

  /** A schedule that spawned a turn took some step last. */
  lemma LastStep(env: Env, schedule: seq<Step>) returns (p: seq<Step>, s: Sys, l: Step)
    requires Exec(env, schedule).Some? && Exec(env, schedule).value.fan.turns != []
    ensures schedule == p + [l] && |p| < |schedule|
    ensures Exec(env, p) == Some(s) && Inv(env, s) && Enabled(env, s, l)
    ensures Exec(env, schedule) == Some(Take(env, s, l))
  {
    if schedule == [] { NothingSpawned(env, schedule); }
    p, s, l := Unfolded(env, schedule);
    RunsKeepInv(env, p);
  }

  lemma NothingSpawned(env: Env, schedule: seq<Step>)
    requires schedule == []
    ensures Exec(env, schedule) == Some(INIT) && INIT.fan.turns == []
  {
  }

  lemma Unfolded(env: Env, schedule: seq<Step>) returns (p: seq<Step>, s: Sys, l: Step)
    requires Exec(env, schedule).Some? && schedule != []
    ensures schedule == p + [l] && Exec(env, p) == Some(s)
    ensures Fanout.WellFormed(s.fan) && Enabled(env, s, l) && Exec(env, schedule) == Some(Take(env, s, l))
  {
    var n := |schedule| - 1;
    p, l := schedule[..n], schedule[n];
    s := Exec(env, p).value;
  }

  predicate OpenIn(s: Sys, id: nat) {
    Fanout.Known(s.fan, id) && s.fan.turns[id - 1].closed.Open?
  }

  /** The unread part of the turn's queue is not full and its provider has not gone. */
  predicate HasRoom(s: Sys, id: nat) {
    Fanout.Known(s.fan, id)
    && var t := s.fan.turns[id - 1];
    !t.finished && |t.sent| - t.read < 200
  }

  /** Frame `j` was taken while turn `id` was open. */
  predicate Offered(env: Env, schedule: seq<Step>, id: nat, j: nat) {
    var b := TakingState(env, schedule, j);
    b.Some? && OpenIn(b.value, id)
  }

  predicate HadRoom(env: Env, schedule: seq<Step>, id: nat, j: nat) {
    var b := TakingState(env, schedule, j);
    b.Some? && HasRoom(b.value, id)
  }

  /** Step `n` of the schedule closed turn `id`, in this way. */
  ghost predicate ClosesAt(env: Env, schedule: seq<Step>, n: nat, id: nat, how: Fanout.Closed) {
    n < |schedule|
    && var before, after := Exec(env, schedule[..n]), Exec(env, schedule[..n + 1]);
    && before.Some? && after.Some? && Fanout.WellFormed(before.value.fan)
    && OpenIn(before.value, id)
    && Fanout.Known(after.value.fan, id) && after.value.fan.turns[id - 1].closed == how
    && ClosesBy(before.value, schedule[n], id, how)
  }

  /** The steps that close a turn: its closing flag, its done message, the opening flag of the
      next turn, and the end of the fanout. */
  predicate ClosesBy(s: Sys, l: Step, id: nat, how: Fanout.Closed) {
    match how
    case Open => false
    case ByFlag => l.FanFlag? && s.side != [] && !s.side[0]
    case ByCancel => l.FanFlag? && s.side != [] && s.side[0]
    case ByDone => l.FanDone? && s.done != [] && s.done[0] == id
    case ByStop => l.FanStop?
  }

  // ----- what a step does to the audio of a turn -----

  predicate SameAudio(t: Fanout.Turn, u: Fanout.Turn) {
    u.start == t.start && u.onset == t.onset && u.stop == t.stop && u.sent == t.sent
  }

  predicate QuietAudio(f: Fanout.Fan, g: Fanout.Fan) {
    && |f.turns| <= |g.turns| && g.taken == f.taken
    && forall k :: 0 <= k < |f.turns| ==> SameAudio(f.turns[k], g.turns[k])
  }

  lemma FlagsAreQuiet(f: Fanout.Fan)
    requires Fanout.WellFormed(f)
    ensures QuietAudio(f, Fanout.OnEnd(f)) && QuietAudio(f, Fanout.OnStop(f))
  {
  }

  lemma StartIsQuiet(f: Fanout.Fan)
    requires Fanout.Windowed(f)
    ensures QuietAudio(f, Fanout.OnStart(f))
  {
  }

  lemma DoneIsQuiet(f: Fanout.Fan, id: nat)
    requires Fanout.WellFormed(f) && Fanout.Known(f, id)
    ensures QuietAudio(f, Fanout.OnDone(f, id))
  {
  }

  lemma OthersAreQuiet(env: Env, s: Sys, l: Step)
    requires Fanout.Windowed(s.fan) && Enabled(env, s, l) && !l.FanTake?
    ensures QuietAudio(s.fan, Take(env, s, l).fan)
  {
    TakeFan(env, s, l);
    match l {
      case FanDone => DoneIsQuiet(s.fan, s.done[0]);
      case FanFlag => StartIsQuiet(s.fan); FlagsAreQuiet(s.fan);
      case FanStop => FlagsAreQuiet(s.fan);
      case _ =>
    }
  }

  /** An open turn is the newest and current one, and its window reaches up to now. */
  lemma OpenReachesNow(f: Fanout.Fan, id: nat)
    requires Fanout.Fenced(f) && Fanout.Windowed(f) && Fanout.Known(f, id) && f.turns[id - 1].closed.Open?
    ensures f.current == Some(Fanout.Active(id, true, true)) && id == |f.turns|
    ensures f.turns[id - 1].stop == f.taken
  {
    assert Fanout.TurnFenced(f, id);
  }

  /** A frame is offered to the open turn, which is sent it if there is room; no other turn
      notices. */
  lemma FrameIsOffered(f: Fanout.Fan, id: nat)
    requires Fanout.Fenced(f) && Fanout.Windowed(f) && Fanout.Known(f, id)
    ensures var t, u := f.turns[id - 1], Fanout.OnFrame(f).turns[id - 1];
      if t.closed.Open? then
        && t.stop == f.taken && u.start == t.start && u.onset == t.onset && u.stop == f.taken + 1
        && u.sent == t.sent + if !t.finished && |t.sent| - t.read < 200 then [f.taken] else []
      else SameAudio(t, u)
  {
    assert Fanout.TurnFenced(f, id);
    if f.turns[id - 1].closed.Open? { OpenReachesNow(f, id); }
    ConcatEmpty(f.turns[id - 1].sent);
  }

  /** A turn that was not there before has been given the pre-buffer and is open. */
  lemma FreshTurns(env: Env, s: Sys, l: Step, id: nat)
    requires Fanout.Fenced(s.fan) && Fanout.Windowed(s.fan) && Enabled(env, s, l)
    requires Fanout.Known(Take(env, s, l).fan, id) && !Fanout.Known(s.fan, id)
    ensures var t := Take(env, s, l).fan.turns[id - 1];
      && t.closed.Open? && t.start <= t.stop == t.onset && t.sent == Fanout.Range(t.start, t.stop)
  {
    TakeFan(env, s, l);
    if l.FanFlag? && s.side[0] {
      if !(s.fan.current.Some? && s.fan.current.value.captureOpen) {
        Fanout.StartedTurns(s.fan);
      }
    }
  }

  // ----- every frame of every window -----

  /** A frame of the pre-buffer was sent; one taken later was offered, and sent exactly if the
      queue had room. */
  ghost predicate Fate(env: Env, schedule: seq<Step>, id: nat, t: Fanout.Turn, j: nat) {
    if j < t.onset then j in t.sent
    else Offered(env, schedule, id, j) && (j in t.sent <==> HadRoom(env, schedule, id, j))
  }

  ghost predicate Fates(env: Env, schedule: seq<Step>, id: nat, t: Fanout.Turn) {
    forall j: nat :: t.start <= j < t.stop ==> Fate(env, schedule, id, t, j)
  }

  lemma TakenBefore(env: Env, p: seq<Step>, l: Step, s: Sys, j: nat)
    requires Exec(env, p) == Some(s) && (l.FanTake? ==> j != s.fan.taken)
    ensures TakingState(env, p + [l], j) == TakingState(env, p, j)
  {
    assert (p + [l])[..|p|] == p;
  }

  lemma TakenNow(env: Env, p: seq<Step>, s: Sys)
    requires Exec(env, p) == Some(s)
    ensures TakingState(env, p + [FanTake], s.fan.taken) == Some(s)
  {
    assert (p + [FanTake])[..|p|] == p;
  }

  lemma QuietFates(env: Env, p: seq<Step>, l: Step, s: Sys, id: nat, t: Fanout.Turn, u: Fanout.Turn)
    requires Exec(env, p) == Some(s) && Fates(env, p, id, t) && SameAudio(t, u)
    requires l.FanTake? ==> t.stop <= s.fan.taken
    ensures Fates(env, p + [l], id, u)
  {
    forall j: nat | u.start <= j < u.stop ensures Fate(env, p + [l], id, u, j) {
      assert Fate(env, p, id, t, j);
      TakenBefore(env, p, l, s, j);
    }
  }

  lemma OfferedFates(env: Env, p: seq<Step>, s: Sys, id: nat, t: Fanout.Turn, u: Fanout.Turn)
    requires Exec(env, p) == Some(s) && Fates(env, p, id, t)
    requires OpenIn(s, id) && t == s.fan.turns[id - 1] && t.onset <= t.stop == s.fan.taken
    requires forall x :: x in t.sent ==> x < t.stop
    requires u.start == t.start && u.onset == t.onset && u.stop == t.stop + 1
    requires u.sent == t.sent + if HasRoom(s, id) then [t.stop] else []
    ensures Fates(env, p + [FanTake], id, u)
  {
    forall j: nat | u.start <= j < u.stop ensures Fate(env, p + [FanTake], id, u, j) {
      if j < t.stop {
        assert Fate(env, p, id, t, j);
        TakenBefore(env, p, FanTake, s, j);
      } else {
        TakenNow(env, p, s);
      }
    }
  }

  lemma StepKeepsFates(env: Env, p: seq<Step>, s: Sys, l: Step, id: nat)
    requires Exec(env, p) == Some(s) && Inv(env, s) && Enabled(env, s, l)
    requires Fanout.Known(s.fan, id) && Fates(env, p, id, s.fan.turns[id - 1])
    requires Fanout.Known(Take(env, s, l).fan, id)
    ensures Fates(env, p + [l], id, Take(env, s, l).fan.turns[id - 1])
  {
    var t, u := s.fan.turns[id - 1], Take(env, s, l).fan.turns[id - 1];
    if l.FanTake? {
      TakeFan(env, s, l);
      FrameFeeds(s, id);
      FrameFates(env, p, s, id, t, u);
    } else {
      OthersAreQuiet(env, s, l);
      QuietFates(env, p, l, s, id, t, u);
    }
  }

  /** How a frame taken in state `s` turns turn `id` from `t` into `u`. */
  ghost predicate Feeds(s: Sys, id: nat, t: Fanout.Turn, u: Fanout.Turn) {
    && Fanout.Known(s.fan, id) && t == s.fan.turns[id - 1]
    && t.onset <= t.stop <= s.fan.taken && (forall x :: x in t.sent ==> x < t.stop)
    && if t.closed.Open? then
        && t.stop == s.fan.taken && u.start == t.start && u.onset == t.onset && u.stop == t.stop + 1
        && u.sent == t.sent + if HasRoom(s, id) then [t.stop] else []
       else SameAudio(t, u)
  }

  lemma FrameFeeds(s: Sys, id: nat)
    requires Fanout.Fenced(s.fan) && Fanout.Windowed(s.fan) && Fanout.Known(s.fan, id)
    requires Fanout.Known(Fanout.OnFrame(s.fan), id)
    ensures Feeds(s, id, s.fan.turns[id - 1], Fanout.OnFrame(s.fan).turns[id - 1])
  {
    FrameIsOffered(s.fan, id);
    WindowOf(s.fan, id);
  }

  lemma FrameFates(env: Env, p: seq<Step>, s: Sys, id: nat, t: Fanout.Turn, u: Fanout.Turn)
    requires Exec(env, p) == Some(s) && Fates(env, p, id, t) && Feeds(s, id, t, u)
    ensures Fates(env, p + [FanTake], id, u)
  {
    if t.closed.Open? {
      OfferedFates(env, p, s, id, t, u);
    } else {
      QuietFates(env, p, FanTake, s, id, t, u);
    }
  }

  lemma WindowOf(f: Fanout.Fan, id: nat)
    requires Fanout.Windowed(f) && Fanout.Known(f, id)
    ensures var t := f.turns[id - 1];
      t.start <= t.onset <= t.stop <= f.taken && forall x :: x in t.sent ==> x < t.stop
  {
    assert Fanout.WindowAt(f.turns, id - 1, f.taken);
  }

  lemma FreshFates(env: Env, schedule: seq<Step>, id: nat, t: Fanout.Turn)
    requires t.start <= t.stop == t.onset && t.sent == Fanout.Range(t.start, t.stop)
    ensures Fates(env, schedule, id, t)
  {
    forall j: nat | t.start <= j < t.stop ensures j in t.sent {
      assert t.sent[j - t.start] == j;
    }
  }

  lemma {:induction false} RunsDecideFates(env: Env, schedule: seq<Step>, id: nat)
    requires Exec(env, schedule).Some? && Fanout.Known(Exec(env, schedule).value.fan, id)
    ensures Fates(env, schedule, id, Exec(env, schedule).value.fan.turns[id - 1])
  {
    var p, s, l := LastStep(env, schedule);
    if Fanout.Known(s.fan, id) {
      RunsDecideFates(env, p, id);
      StepKeepsFates(env, p, s, l, id);
    } else {
      FreshTurns(env, s, l, id);
      FreshFates(env, schedule, id, Take(env, s, l).fan.turns[id - 1]);
    }
  }

  /** A turn has been sent its whole window exactly when its queue had room for every frame
      taken since the turn was spawned. */
  lemma WholeIffRoom(env: Env, schedule: seq<Step>, id: nat)
    requires Exec(env, schedule).Some? && Fanout.Known(Exec(env, schedule).value.fan, id)
    ensures var t := Exec(env, schedule).value.fan.turns[id - 1];
      && t.start <= t.onset <= t.stop
      && (t.sent == Fanout.Range(t.start, t.stop) <==>
            forall j: nat :: t.onset <= j < t.stop ==> HadRoom(env, schedule, id, j))
  {
    RunsKeepInv(env, schedule);
    RunsDecideFates(env, schedule, id);
    var f := Exec(env, schedule).value.fan;
    assert Fanout.WindowAt(f.turns, id - 1, f.taken);
    WholeIff(env, schedule, id, f.turns[id - 1]);
  }

  lemma WholeIff(env: Env, schedule: seq<Step>, id: nat, t: Fanout.Turn)
    requires Fates(env, schedule, id, t) && Fanout.InWindow(t)
    ensures t.sent == Fanout.Range(t.start, t.stop) <==>
      forall j: nat :: t.onset <= j < t.stop ==> HadRoom(env, schedule, id, j)
  {
    if t.sent == Fanout.Range(t.start, t.stop) {
      forall j: nat | t.onset <= j < t.stop ensures HadRoom(env, schedule, id, j) {
        assert Fate(env, schedule, id, t, j);
        assert t.sent[j - t.start] == j;
      }
    }
    if forall j: nat :: t.onset <= j < t.stop ==> HadRoom(env, schedule, id, j) {
      forall j: nat | t.start <= j < t.stop ensures j in t.sent {
        assert Fate(env, schedule, id, t, j);
      }
      assert HoldsAll(t.sent, t.start, t.stop);
      AllIsRange(t.sent, t.start, t.stop);
    }
  }

  ghost predicate HoldsAll(s: seq<nat>, lo: nat, hi: nat) {
    forall j: nat :: lo <= j < hi ==> j in s
  }

  lemma {:induction false} AllIsRange(s: seq<nat>, lo: nat, hi: nat)
    requires lo <= hi && Fanout.Increasing(s, lo, hi) && HoldsAll(s, lo, hi)
    ensures s == Fanout.Range(lo, hi)
  {
    if lo < hi {
      assert lo in s;
      var p, top := s[..|s| - 1], hi - 1;
      TopIsLast(s, p, lo, top);
      AllIsRange(p, lo, top);
      Fanout.RangeSnoc(lo, top);
    } else {
      NoneOutside(s, lo, hi);
    }
  }

  lemma NoneOutside(s: seq<nat>, lo: nat, hi: nat)
    requires Fanout.Increasing(s, lo, hi)
    ensures s != [] ==> lo < hi
    ensures forall k :: 0 <= k < |s| - 1 ==> s[k] + 1 < hi
  {
    if s != [] { assert lo <= s[0] < hi; }
    forall k | 0 <= k < |s| - 1 ensures s[k] + 1 < hi {
      assert s[k] < s[|s| - 1];
    }
  }

  lemma TopIsLast(s: seq<nat>, p: seq<nat>, lo: nat, top: nat)
    requires lo <= top && Fanout.Increasing(s, lo, top + 1) && HoldsAll(s, lo, top + 1)
    requires s != [] ==> p == s[..|s| - 1]
    ensures s == p + [top] && Fanout.Increasing(p, lo, top) && HoldsAll(p, lo, top)
  {
    assert top in s;
    var k :| 0 <= k < |s| && s[k] == top;
    NoneOutside(s, lo, top + 1);
    forall j: nat | lo <= j < top ensures j in p {
      assert j in s;
      var i :| 0 <= i < |s| && s[i] == j;
      assert p[i] == j;
    }
  }

  // ----- where windows end -----

  /** A turn that is closed was closed by some step, and its window ends with the frames taken
      until then. */
  ghost predicate Ended(env: Env, schedule: seq<Step>, id: nat, t: Fanout.Turn) {
    exists n: nat :: ClosesAt(env, schedule, n, id, t.closed) && EndsAt(env, schedule, n, t.stop)
  }

  ghost predicate EndsAt(env: Env, schedule: seq<Step>, n: nat, stop: nat) {
    n <= |schedule|
    && var s := Exec(env, schedule[..n]);
    s.Some? && s.value.fan.taken == stop
  }

  lemma EndedEarlier(env: Env, p: seq<Step>, l: Step, id: nat, t: Fanout.Turn, u: Fanout.Turn)
    requires Ended(env, p, id, t) && u.closed == t.closed && u.stop == t.stop
    ensures Ended(env, p + [l], id, u)
  {
    var n: nat :| ClosesAt(env, p, n, id, t.closed) && EndsAt(env, p, n, t.stop);
    assert (p + [l])[..n] == p[..n] && (p + [l])[..n + 1] == p[..n + 1] && (p + [l])[n] == p[n];
    assert ClosesAt(env, p + [l], n, id, u.closed) && EndsAt(env, p + [l], n, u.stop);
  }

  lemma EndedNow(env: Env, p: seq<Step>, s: Sys, l: Step, id: nat)
    requires Exec(env, p) == Some(s) && Fanout.Fenced(s.fan) && Fanout.Windowed(s.fan) && Enabled(env, s, l)
    requires OpenIn(s, id) && Fanout.Known(Take(env, s, l).fan, id) && !OpenIn(Take(env, s, l), id)
    ensures Ended(env, p + [l], id, Take(env, s, l).fan.turns[id - 1])
  {
    var n, u := |p|, Take(env, s, l).fan.turns[id - 1];
    assert (p + [l])[..n] == p && (p + [l])[..n + 1] == p + [l];
    OpenReachesNow(s.fan, id);
    TakeFan(env, s, l);
    OnlyTheseClose(env, s, l, id);
    assert ClosesAt(env, p + [l], n, id, u.closed);
    assert EndsAt(env, p + [l], n, u.stop);
  }

  lemma OnlyTheseClose(env: Env, s: Sys, l: Step, id: nat)
    requires Fanout.Fenced(s.fan) && Fanout.Windowed(s.fan) && Enabled(env, s, l)
    requires OpenIn(s, id) && Fanout.Known(FanAfter(env, s, l), id)
    requires !FanAfter(env, s, l).turns[id - 1].closed.Open?
    ensures var u := FanAfter(env, s, l).turns[id - 1];
      ClosesBy(s, l, id, u.closed) && u.stop == s.fan.turns[id - 1].stop
  {
    OpenReachesNow(s.fan, id);
  }

  lemma {:induction false} RunsEndWindows(env: Env, schedule: seq<Step>, id: nat)
    requires Exec(env, schedule).Some? && Fanout.Known(Exec(env, schedule).value.fan, id)
    ensures var t := Exec(env, schedule).value.fan.turns[id - 1];
      if t.closed.Open? then t.stop == Exec(env, schedule).value.fan.taken
      else Ended(env, schedule, id, t)
  {
    var p, s, l := LastStep(env, schedule);
    var t := Take(env, s, l);
    if OpenIn(t, id) {
      RunsKeepInv(env, schedule);
      OpenReachesNow(t.fan, id);
    } else if OpenIn(s, id) {
      EndedNow(env, p, s, l, id);
    } else if Fanout.Known(s.fan, id) {
      RunsEndWindows(env, p, id);
      ClosedKeepsEnd(env, s, l, id);
      EndedEarlier(env, p, l, id, s.fan.turns[id - 1], t.fan.turns[id - 1]);
    } else {
      FreshTurns(env, s, l, id);
    }
  }

  lemma ClosedKeepsEnd(env: Env, s: Sys, l: Step, id: nat)
    requires Fanout.Fenced(s.fan) && Fanout.Windowed(s.fan) && Enabled(env, s, l)
    requires Fanout.Known(s.fan, id) && !OpenIn(s, id) && Fanout.Known(Take(env, s, l).fan, id)
    ensures var t, u := s.fan.turns[id - 1], Take(env, s, l).fan.turns[id - 1];
      u.closed == t.closed && u.stop == t.stop
  {
    ClosedStays(env, s, l);
    if l.FanTake? {
      TakeFan(env, s, l);
      FrameIsOffered(s.fan, id);
    } else {
      OthersAreQuiet(env, s, l);
    }
  }

  // ----- which turns are cancelled -----

  /** Step `n` handles an opening flag while turn `id` is the current one. */
  ghost predicate SupersededAt(env: Env, schedule: seq<Step>, n: nat, id: nat) {
    n < |schedule| && schedule[n].FanFlag?
    && var s := Exec(env, schedule[..n]);
    s.Some? && s.value.side != [] && s.value.side[0]
    && s.value.fan.current.Some? && s.value.fan.current.value.turnId == id
  }

  lemma SupersededEarlier(env: Env, p: seq<Step>, l: Step, id: nat)
    ensures (exists n: nat :: SupersededAt(env, p + [l], n, id)) <==>
      (exists n: nat :: SupersededAt(env, p, n, id)) || SupersededAt(env, p + [l], |p|, id)
  {
    var q := p + [l];
    forall n: nat | n < |p| ensures SupersededAt(env, q, n, id) == SupersededAt(env, p, n, id) {
      assert q[..n] == p[..n] && q[n] == p[n];
    }
    if exists n: nat :: SupersededAt(env, p, n, id) {
      var n: nat :| SupersededAt(env, p, n, id);
      assert SupersededAt(env, q, n, id);
    }
  }

  lemma OnlyFlagsCancel(env: Env, s: Sys, l: Step, id: nat)
    requires Fanout.WellFormed(s.fan) && TurnsOfFlags(s.fan, |s.flags|) && Enabled(env, s, l)
    requires l.FanFlag? ==> s.side[0] == (|s.flags| % 2 == 0)
    requires Fanout.Known(s.fan, id) && Fanout.Known(FanAfter(env, s, l), id)
    ensures FanAfter(env, s, l).turns[id - 1].cancelled <==>
      s.fan.turns[id - 1].cancelled || (l.FanFlag? && s.side[0] && Fanout.IsCurrent(s.fan, id))
  {
    match l {
      case FanDone => DoneCancelsNone(s.fan, s.done[0], id);
      case FanFlag => FlagCancels(s.fan, |s.flags|, s.side[0], id);
      case FanTake => FanCancelsNone(s.fan, id);
      case FanStop => FanCancelsNone(s.fan, id);
      case _ =>
    }
  }

  lemma DoneCancelsNone(f: Fanout.Fan, done: nat, id: nat)
    requires Fanout.WellFormed(f) && Fanout.Known(f, done) && Fanout.Known(f, id)
    ensures Fanout.Known(Fanout.OnDone(f, done), id)
    ensures Fanout.OnDone(f, done).turns[id - 1].cancelled == f.turns[id - 1].cancelled
  {
  }

  lemma FanCancelsNone(f: Fanout.Fan, id: nat)
    requires Fanout.WellFormed(f) && Fanout.Known(f, id)
    ensures Fanout.Known(Fanout.OnFrame(f), id) && Fanout.Known(Fanout.OnStop(f), id)
    ensures Fanout.OnFrame(f).turns[id - 1].cancelled == f.turns[id - 1].cancelled
    ensures Fanout.OnStop(f).turns[id - 1].cancelled == f.turns[id - 1].cancelled
  {
  }

  lemma FlagCancels(f: Fanout.Fan, n: nat, speaking: bool, id: nat)
    requires Fanout.WellFormed(f) && TurnsOfFlags(f, n) && speaking == (n % 2 == 0) && Fanout.Known(f, id)
    ensures Fanout.Known(Fanout.OnFlag(f, speaking), id)
    ensures Fanout.OnFlag(f, speaking).turns[id - 1].cancelled <==>
      f.turns[id - 1].cancelled || (speaking && Fanout.IsCurrent(f, id))
  {
    if speaking { StartCancels(f, id); } else { EndCancelsNone(f, id); }
  }

  lemma StartCancels(f: Fanout.Fan, id: nat)
    requires Fanout.WellFormed(f) && Fanout.Known(f, id)
    requires f.current.Some? ==> !f.current.value.captureOpen
    ensures Fanout.Known(Fanout.OnStart(f), id)
    ensures Fanout.OnStart(f).turns[id - 1].cancelled <==> f.turns[id - 1].cancelled || Fanout.IsCurrent(f, id)
  {
  }

  lemma EndCancelsNone(f: Fanout.Fan, id: nat)
    requires Fanout.WellFormed(f) && Fanout.Known(f, id)
    ensures Fanout.Known(Fanout.OnEnd(f), id)
    ensures Fanout.OnEnd(f).turns[id - 1].cancelled == f.turns[id - 1].cancelled
  {
  }

  /** A turn is cancelled if and only if an opening flag was handled while it was the current
      one; never by its own closing flag, and never the newest. */
  lemma {:induction false} RunsCancelSuperseded(env: Env, schedule: seq<Step>, id: nat)
    requires Exec(env, schedule).Some? && Fanout.Known(Exec(env, schedule).value.fan, id)
    ensures Exec(env, schedule).value.fan.turns[id - 1].cancelled <==>
      exists n: nat :: SupersededAt(env, schedule, n, id)
    ensures Exec(env, schedule).value.fan.turns[id - 1].cancelled ==> id < |Exec(env, schedule).value.fan.turns|
  {
    var p, s, l := LastStep(env, schedule);
    TakeFan(env, s, l);
    SupersededEarlier(env, p, l, id);
    LastStepSupersedes(env, p, s, l, id);
    if Fanout.Known(s.fan, id) {
      RunsCancelSuperseded(env, p, id);
      if l.FanFlag? { FlagParity(s); }
      OnlyFlagsCancel(env, s, l, id);
      CancelledIsOld(env, s, l, id);
    } else {
      NeverSuperseded(env, p, id);
      FreshIsNotCancelled(env, s, l, id);
    }
  }

  lemma LastStepSupersedes(env: Env, p: seq<Step>, s: Sys, l: Step, id: nat)
    requires Exec(env, p) == Some(s) && Fanout.WellFormed(s.fan) && Enabled(env, s, l)
    ensures SupersededAt(env, p + [l], |p|, id) <==> l.FanFlag? && s.side[0] && Fanout.IsCurrent(s.fan, id)
  {
    assert (p + [l])[..|p|] == p;
  }

  lemma CancelledIsOld(env: Env, s: Sys, l: Step, id: nat)
    requires Inv(env, s) && Enabled(env, s, l) && Fanout.Known(s.fan, id)
    requires s.fan.turns[id - 1].cancelled ==> id < |s.fan.turns|
    requires FanAfter(env, s, l).turns != [] && Fanout.Known(FanAfter(env, s, l), id)
    requires FanAfter(env, s, l).turns[id - 1].cancelled <==>
      s.fan.turns[id - 1].cancelled || (l.FanFlag? && s.side[0] && Fanout.IsCurrent(s.fan, id))
    ensures FanAfter(env, s, l).turns[id - 1].cancelled ==> id < |FanAfter(env, s, l).turns|
  {
    if l.FanFlag? {
      FlagParity(s);
      Fanout.StartCancelsCurrent(s.fan);
    }
    ClosedStays(env, s, l);
    TakeFan(env, s, l);
    assert Fanout.Known(FanAfter(env, s, l), |s.fan.turns|);
  }

  lemma FreshIsNotCancelled(env: Env, s: Sys, l: Step, id: nat)
    requires Fanout.WellFormed(s.fan) && Enabled(env, s, l)
    requires !Fanout.Known(s.fan, id) && Fanout.Known(FanAfter(env, s, l), id)
    ensures !FanAfter(env, s, l).turns[id - 1].cancelled && !Fanout.IsCurrent(s.fan, id)
  {
    if l.FanFlag? { Fanout.StartCancelsCurrent(s.fan); }
  }

  lemma {:induction false} NeverSuperseded(env: Env, p: seq<Step>, id: nat)
    requires Exec(env, p).Some? && id > |Exec(env, p).value.fan.turns|
    ensures forall n: nat :: !SupersededAt(env, p, n, id)
  {
    if p != [] {
      var q, s, l := Unfolded(env, p);
      RunsKeepInv(env, q);
      TurnsOnlyGrow(env, s, l);
      NeverSuperseded(env, q, id);
      SupersededEarlier(env, q, l, id);
      LastStepSupersedes(env, q, s, l, id);
    }
  }

  lemma TurnsOnlyGrow(env: Env, s: Sys, l: Step)
    requires Fanout.WellFormed(s.fan) && Enabled(env, s, l)
    ensures |Take(env, s, l).fan.turns| >= |s.fan.turns|
  {
    TakeFan(env, s, l);
  }
}
