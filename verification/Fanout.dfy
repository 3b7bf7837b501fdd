/** The audio fanout: the gateway loop of `start_with_handler` in crates/core/src/session.rs.
    Audio frames are named by their position in the ingress stream. */
module Fanout {
  import opened Text

  const PRE_BUFFER_FRAMES: nat := 15
  const ASR_QUEUE: nat := 200

  /** What dropped the sender of a turn's audio, if anything has. */
  datatype Closed = Open | ByFlag | ByDone | ByCancel | ByStop

  /** One spawned ASR turn: its audio channel, cancellation token and completion message.
      `sent` is everything the channel accepted; the provider has read `read` of it. Frames
      from `start` up to `stop` were offered; `onset` frames had been taken at the spawn. */
  datatype Turn = Turn(
    start: nat, onset: nat, stop: nat,
    sent: seq<nat>, read: nat, lost: bool,
    closed: Closed, cancelled: bool,
    finished: bool, doneSent: bool, doneReceived: bool)

  datatype Active = Active(turnId: nat, audioOpen: bool, captureOpen: bool)

  /** Turn ids count from 1: turn `id` is `turns[id - 1]`. */
  datatype Fan = Fan(
    taken: nat, preBuffer: seq<nat>, current: Option<Active>,
    nextTurnId: nat, turns: seq<Turn>, stopped: bool)

  const INIT := Fan(0, [], None, 0, [], false)

  // ----- the steps of the loop -----

  /** A non-blocking send: it fails when the queue is full or its reader is gone. */
  function TrySend(t: Turn, frame: nat): Turn {
    if !t.finished && |t.sent| < t.read + ASR_QUEUE then t.(sent := t.sent + [frame]) else t.(lost := true)
  }

  function Prefill(t: Turn, frames: seq<nat>): (r: Turn)
    ensures r == t.(sent := r.sent, lost := r.lost)
  {
    if frames == [] then t
    else TrySend(Prefill(t, frames[..|frames| - 1]), frames[|frames| - 1])
  }

  function FreshTurn(taken: nat, buffered: nat): Turn
    requires buffered <= taken
  {
    Turn(taken - buffered, taken, taken, [], 0, false, Open, false, false, false, false)
  }

  function Close(t: Turn, why: Closed): Turn {
    if t.closed.Open? then t.(closed := why) else t
  }

  function Shut(a: Active): Active {
    a.(audioOpen := false, captureOpen := false)
  }

  predicate Known(f: Fan, id: nat) { 1 <= id <= |f.turns| }

  predicate WellFormed(f: Fan) {
    && f.nextTurnId == |f.turns|
    && |f.preBuffer| <= f.taken
    && (f.current.Some? ==> Known(f, f.current.value.turnId))
  }

  function SetTurn(f: Fan, id: nat, t: Turn): Fan
    requires Known(f, id)
  {
    f.(turns := f.turns[id - 1 := t])
  }

  function OnDone(f: Fan, id: nat): Fan
    requires WellFormed(f) && Known(f, id)
  {
    var t := f.turns[id - 1].(doneReceived := true);
    if f.current.Some? && f.current.value.turnId == id then SetTurn(f, id, Close(t, ByDone)).(current := None)
    else SetTurn(f, id, t)
  }

  /** A new turn cancels the current one. */
  function Superseded(f: Fan): seq<Turn>
    requires WellFormed(f)
  {
    if f.current.Some? then
      var id := f.current.value.turnId;
      f.turns[id - 1 := Close(f.turns[id - 1], ByCancel).(cancelled := true)]
    else f.turns
  }

  function OnStart(f: Fan): Fan
    requires WellFormed(f)
  {
    if f.current.Some? && f.current.value.captureOpen then f
    else
      var turns := Superseded(f);
      var t := Prefill(FreshTurn(f.taken, |f.preBuffer|), f.preBuffer);
      f.(preBuffer := [], nextTurnId := f.nextTurnId + 1, turns := turns + [t],
         current := Some(Active(f.nextTurnId + 1, true, true)))
  }

  function OnEnd(f: Fan): Fan
    requires WellFormed(f)
  {
    if f.current.None? then f
    else
      var a := f.current.value;
      SetTurn(f, a.turnId, Close(f.turns[a.turnId - 1], ByFlag)).(current := Some(Shut(a)))
  }

  function OnFlag(f: Fan, speaking: bool): Fan
    requires WellFormed(f)
  {
    if speaking then OnStart(f) else OnEnd(f)
  }

  function Buffered(pre: seq<nat>, frame: nat): seq<nat> {
    var b := pre + [frame];
    if |b| > PRE_BUFFER_FRAMES then b[1..] else b
  }

  function OnFrame(f: Fan): Fan
    requires WellFormed(f)
  {
    var g := f.(taken := f.taken + 1, preBuffer := Buffered(f.preBuffer, f.taken));
    if f.current.Some? && f.current.value.captureOpen && f.current.value.audioOpen then
      var id := f.current.value.turnId;
      SetTurn(g, id, TrySend(f.turns[id - 1], f.taken).(stop := f.taken + 1))
    else g
  }

  function OnStop(f: Fan): Fan
    requires WellFormed(f)
  {
    if f.current.None? then f.(stopped := true)
    else
      var a := f.current.value;
      SetTurn(f, a.turnId, Close(f.turns[a.turnId - 1], ByStop)).(current := Some(Shut(a)), stopped := true)
  }

  // ----- what each step leaves alone -----

  /** Whether the turn in place `k` is the current one. */
  predicate IsCurrentAt(f: Fan, k: int) { f.current.Some? && f.current.value.turnId == k + 1 }

  /** A closing flag only drops the sender of the current turn, which goes on transcribing. */
  lemma EndOnlyDropsSender(f: Fan)
    requires WellFormed(f)
    ensures var g := OnEnd(f);
      && |g.turns| == |f.turns|
      && (forall k :: 0 <= k < |f.turns| ==>
            g.turns[k] == f.turns[k].(closed := if IsCurrentAt(f, k) && f.turns[k].closed.Open? then ByFlag
                                                else f.turns[k].closed))
      && g == f.(turns := g.turns, current := if f.current.None? then None
                                              else Some(Active(f.current.value.turnId, false, false)))
  {
  }

  /** So does the end of the fanout, which then takes no more steps. */
  lemma StopOnlyDropsSender(f: Fan)
    requires WellFormed(f)
    ensures var g := OnStop(f);
      && |g.turns| == |f.turns|
      && (forall k :: 0 <= k < |f.turns| ==>
            g.turns[k] == f.turns[k].(closed := if IsCurrentAt(f, k) && f.turns[k].closed.Open? then ByStop
                                                else f.turns[k].closed))
      && g == f.(turns := g.turns, stopped := true,
                 current := if f.current.None? then None else Some(Active(f.current.value.turnId, false, false)))
  {
  }

  /** A done message is recorded, and forgets the turn if it is the current one. */
  lemma DoneOnlyForgets(f: Fan, id: nat)
    requires WellFormed(f) && Known(f, id)
    ensures var g := OnDone(f, id); var t := f.turns[id - 1];
      && |g.turns| == |f.turns|
      && (forall k :: 0 <= k < |f.turns| && k != id - 1 ==> g.turns[k] == f.turns[k])
      && g.turns[id - 1] == t.(doneReceived := true,
                               closed := if IsCurrentAt(f, id - 1) && t.closed.Open? then ByDone else t.closed)
      && g == f.(turns := g.turns, current := if IsCurrentAt(f, id - 1) then None else f.current)
  {
  }

  /** An opening flag during a capture changes nothing. Any other spawns one turn, with the
      next id and an open capture, and cancels and closes the current turn and no other. */
  lemma StartCancelsCurrent(f: Fan)
    requires WellFormed(f)
    ensures var g := OnStart(f);
      if f.current.Some? && f.current.value.captureOpen then g == f
      else
        && |g.turns| == |f.turns| + 1
        && (forall k :: 0 <= k < |f.turns| ==>
              var t := f.turns[k];
              g.turns[k] == if !IsCurrentAt(f, k) then t
                            else t.(cancelled := true, closed := if t.closed.Open? then ByCancel else t.closed))
        && g == f.(turns := g.turns, preBuffer := [], nextTurnId := f.nextTurnId + 1,
                   current := Some(Active(f.nextTurnId + 1, true, true)))
        && var t := g.turns[|f.turns|];
        !t.cancelled && !t.finished && !t.doneSent && !t.doneReceived && t.closed.Open? && t.read == 0
  {
  }

  /** A frame is counted and buffered; only the turn that captures notices, and of it only
      what has been sent, whether a frame was lost, and how far its window reaches. */
  lemma FrameOnlyFeeds(f: Fan)
    requires WellFormed(f)
    ensures var g := OnFrame(f);
      && |g.turns| == |f.turns|
      && (forall k :: 0 <= k < |f.turns| ==>
            var t, u := f.turns[k], g.turns[k];
            if IsCurrentAt(f, k) && f.current.value.captureOpen && f.current.value.audioOpen then
              u == t.(sent := u.sent, lost := t.lost || t.finished || |t.sent| >= t.read + 200, stop := f.taken + 1)
            else u == t)
      && g == f.(turns := g.turns, taken := f.taken + 1, preBuffer := g.preBuffer)
  {
  }

  // ----- fencing -----

  predicate IsCurrent(f: Fan, id: nat) {
    f.current.Some? && f.current.value.turnId == id
  }

  /** Only the current turn can capture, and every other turn has been cancelled or has
      reported that it is done. */
  predicate TurnFenced(f: Fan, id: nat)
    requires Known(f, id)
  {
    var t := f.turns[id - 1];
    if IsCurrent(f, id) then f.current.value.captureOpen == f.current.value.audioOpen == t.closed.Open?
    else !t.closed.Open? && (t.cancelled || t.doneReceived)
  }

  /** Only the newest turn can be current. */
  ghost predicate Fenced(f: Fan) {
    && WellFormed(f)
    && (f.current.Some? ==> f.current.value.turnId == f.nextTurnId)
    && (forall id :: Known(f, id) ==> TurnFenced(f, id))
  }

  lemma DoneKeepsFence(f: Fan, id: nat)
    requires Fenced(f) && Known(f, id)
    ensures Fenced(OnDone(f, id))
  {
    var g := OnDone(f, id);
    forall k | Known(g, k) ensures TurnFenced(g, k) {
      assert TurnFenced(f, k);
    }
  }

  lemma StartKeepsFence(f: Fan)
    requires Fenced(f)
    ensures Fenced(OnStart(f))
  {
    var g := OnStart(f);
    forall id | Known(g, id) ensures TurnFenced(g, id) {
      if Known(f, id) { assert TurnFenced(f, id); }
    }
  }

  lemma EndKeepsFence(f: Fan)
    requires Fenced(f)
    ensures Fenced(OnEnd(f))
  {
    var g := OnEnd(f);
    forall id | Known(g, id) ensures TurnFenced(g, id) {
      if Known(f, id) { assert TurnFenced(f, id); }
    }
  }

  lemma FrameKeepsFence(f: Fan)
    requires Fenced(f)
    ensures Fenced(OnFrame(f))
  {
    var g := OnFrame(f);
    forall id | Known(g, id) ensures TurnFenced(g, id) {
      if Known(f, id) { assert TurnFenced(f, id); }
    }
  }

  lemma StopKeepsFence(f: Fan)
    requires Fenced(f)
    ensures Fenced(OnStop(f))
  {
    var g := OnStop(f);
    forall id | Known(g, id) ensures TurnFenced(g, id) {
      if Known(f, id) { assert TurnFenced(f, id); }
    }
  }

  /** A completion message of an older turn leaves the current turn as it is. */
  lemma LateDoneIsHarmless(f: Fan, id: nat)
    requires Fenced(f) && Known(f, id) && id < f.nextTurnId
    ensures var g := OnDone(f, id);
      && g.current == f.current
      && (f.current.Some? ==> g.turns[f.current.value.turnId - 1] == f.turns[f.current.value.turnId - 1])
  {
  }

  // ----- windows -----

  function Range(lo: nat, hi: nat): (r: seq<nat>)
    requires lo <= hi
    ensures |r| == hi - lo && forall k :: 0 <= k < |r| ==> r[k] == lo + k
  {
    seq(hi - lo, k requires 0 <= k => lo + k)
  }

  ghost predicate Increasing(s: seq<nat>, lo: nat, hi: nat) {
    && (forall k :: 0 <= k < |s| ==> lo <= s[k] < hi)
    && (forall j, k :: 0 <= j < k < |s| ==> s[j] < s[k])
  }

  /** The provider gets frames of the window only, in order and without duplicates, and all
      of them unless a send failed; that happens only when the provider has finished or has
      been sent a whole queue. */
  ghost predicate InWindow(t: Turn) {
    && t.start <= t.onset <= t.stop
    && t.onset <= t.start + PRE_BUFFER_FRAMES
    && t.read <= |t.sent| <= t.read + ASR_QUEUE
    && Increasing(t.sent, t.start, t.stop)
    && (!t.lost ==> |t.sent| == t.stop - t.start)
    && (t.lost ==> t.finished || |t.sent| >= ASR_QUEUE)
  }

  /** Without a failed send, the provider is given exactly the window. */
  lemma NothingLost(t: Turn)
    requires InWindow(t) && !t.lost
    ensures t.sent == Range(t.start, t.stop)
  {
    forall k | 0 <= k < |t.sent| ensures t.sent[k] == t.start + k {
      DenseIncreasing(t.sent, t.start, t.stop, k);
    }
  }

  lemma {:induction false} DenseIncreasing(s: seq<nat>, lo: nat, hi: nat, k: nat)
    requires Increasing(s, lo, hi) && |s| == hi - lo && k < |s|
    ensures s[k] == lo + k
  {
    AtLeast(s, lo, hi, k);
    AtMost(s, lo, hi, k);
  }

  lemma {:induction false} AtLeast(s: seq<nat>, lo: nat, hi: nat, k: nat)
    requires Increasing(s, lo, hi) && k < |s|
    ensures s[k] >= lo + k
  {
    if k > 0 {
      AtLeast(s, lo, hi, k - 1);
    }
  }

  lemma {:induction false} AtMost(s: seq<nat>, lo: nat, hi: nat, k: nat)
    requires Increasing(s, lo, hi) && k < |s|
    ensures s[k] <= hi - |s| + k
    decreases |s| - k
  {
    if k + 1 < |s| {
      AtMost(s, lo, hi, k + 1);
    }
  }

  /** How many frames had been taken when turn number `k`, counting from 0, drained the
      pre-buffer; before the first turn it was empty when nothing had been taken. */
  function DrainedAt(turns: seq<Turn>, k: int): nat
    requires k < |turns|
  {
    if k < 0 then 0 else turns[k].onset
  }

  /** Windows follow each other: one starts 15 frames before its turn is spawned, or where the
      previous turn was spawned if that is later, and is spawned no earlier than the previous
      window stops. */
  ghost predicate WindowAt(turns: seq<Turn>, k: nat, taken: nat)
    requires k < |turns|
  {
    && InWindow(turns[k])
    && turns[k].stop <= taken
    && DrainedAt(turns, k - 1) <= turns[k].start
    && turns[k].onset - turns[k].start == Min(PRE_BUFFER_FRAMES, turns[k].onset - DrainedAt(turns, k - 1))
    && (k > 0 ==> turns[k - 1].stop <= turns[k].onset)
  }

  ghost predicate WindowsOf(turns: seq<Turn>, taken: nat) {
    forall k: nat :: k < |turns| ==> WindowAt(turns, k, taken)
  }

  /** The pre-buffer holds the last 15 frames taken, or all since the last turn drained it. */
  ghost predicate Buffers(f: Fan) {
    && DrainedAt(f.turns, |f.turns| - 1) <= f.taken
    && |f.preBuffer| == Min(PRE_BUFFER_FRAMES, f.taken - DrainedAt(f.turns, |f.turns| - 1))
    && f.preBuffer == Range(f.taken - |f.preBuffer|, f.taken)
  }

  ghost predicate Windowed(f: Fan) {
    && WellFormed(f)
    && Buffers(f)
    && WindowsOf(f.turns, f.taken)
    && (f.current.Some? ==> f.current.value.captureOpen == f.current.value.audioOpen)
    && (f.current.Some? && f.current.value.captureOpen ==>
          f.current.value.turnId == |f.turns| && f.turns[|f.turns| - 1].stop == f.taken)
  }

  predicate SameWindow(t: Turn, u: Turn) {
    && (u.finished ==> t.finished)
    && t == u.(closed := t.closed, cancelled := t.cancelled, finished := t.finished,
            doneSent := t.doneSent, doneReceived := t.doneReceived)
  }

  /** Changing flags, or extending the last window, keeps the windows in order. */
  lemma UpdateKeepsWindows(turns: seq<Turn>, taken: nat, k: nat, t: Turn, now: nat)
    requires WindowsOf(turns, taken) && k < |turns| && taken <= now && t.stop <= now
    requires t.start == turns[k].start && t.onset == turns[k].onset
    requires t.stop == turns[k].stop || k == |turns| - 1
    requires SameWindow(t, turns[k]) || InWindow(t)
    ensures WindowsOf(turns[k := t], now)
  {
    assert WindowAt(turns, k, taken);
    var after := turns[k := t];
    forall j: nat | j < |after| ensures WindowAt(after, j, now) {
      assert WindowAt(turns, j, taken);
      assert DrainedAt(after, j - 1) == DrainedAt(turns, j - 1);
    }
  }

  lemma LaterKeepsWindows(turns: seq<Turn>, taken: nat, now: nat)
    requires WindowsOf(turns, taken) && taken <= now
    ensures WindowsOf(turns, now)
  {
    forall k: nat | k < |turns| ensures WindowAt(turns, k, now) {
      assert WindowAt(turns, k, taken);
    }
  }

  lemma AppendKeepsWindows(turns: seq<Turn>, taken: nat, t: Turn)
    requires WindowsOf(turns, taken) && InWindow(t) && t.stop <= taken
    requires var before := DrainedAt(turns, |turns| - 1);
      before <= t.start && t.onset - t.start == Min(PRE_BUFFER_FRAMES, t.onset - before)
    requires turns != [] ==> turns[|turns| - 1].stop <= t.onset
    ensures WindowsOf(turns + [t], taken)
  {
    var after := turns + [t];
    forall j: nat | j < |after| ensures WindowAt(after, j, taken) {
      assert DrainedAt(after, j - 1) == DrainedAt(turns, j - 1);
      if j < |turns| { assert WindowAt(turns, j, taken); }
    }
  }

  lemma {:induction false} PrefillTakesAll(t: Turn, frames: seq<nat>)
    requires !t.finished && t.sent == [] && t.read == 0 && |frames| <= ASR_QUEUE
    ensures Prefill(t, frames).sent == frames && Prefill(t, frames).lost == t.lost
  {
    if frames != [] {
      var n := |frames| - 1;
      var p := Prefill(t, frames[..n]);
      PrefillTakesAll(t, frames[..n]);
      assert TrySend(p, frames[n]).sent == p.sent + [frames[n]];
    }
  }

  lemma RangeSnoc(lo: nat, hi: nat)
    requires lo <= hi
    ensures Range(lo, hi) + [hi] == Range(lo, hi + 1)
    ensures lo < hi ==> Range(lo, hi)[1..] == Range(lo + 1, hi)
  {
  }

  lemma IncreasingSnoc(s: seq<nat>, lo: nat, hi: nat)
    requires Increasing(s, lo, hi) && lo <= hi
    ensures Increasing(s, lo, hi + 1) && Increasing(s + [hi], lo, hi + 1)
  {
    var t := s + [hi];
    forall j, k | 0 <= j < k < |t| ensures t[j] < t[k] {
      assert t[j] == s[j];
      if k < |s| { assert t[k] == s[k]; }
    }
  }

  lemma AcceptedKeepsWindow(t: Turn, frame: nat)
    requires InWindow(t) && t.stop == frame && |t.sent| < t.read + ASR_QUEUE
    ensures InWindow(t.(sent := t.sent + [frame], stop := frame + 1))
  {
    IncreasingSnoc(t.sent, t.start, frame);
  }

  lemma LostKeepsWindow(t: Turn, frame: nat)
    requires InWindow(t) && t.stop == frame && (t.finished || |t.sent| >= ASR_QUEUE)
    ensures InWindow(t.(lost := true, stop := frame + 1))
  {
    IncreasingSnoc(t.sent, t.start, frame);
  }

  lemma TrySendKeepsWindow(t: Turn, frame: nat)
    requires InWindow(t) && t.stop == frame
    ensures InWindow(TrySend(t, frame).(stop := frame + 1))
  {
    if !t.finished && |t.sent| < t.read + ASR_QUEUE {
      AcceptedKeepsWindow(t, frame);
    } else {
      LostKeepsWindow(t, frame);
    }
  }

  lemma BufferedKeepsRange(pre: seq<nat>, taken: nat)
    requires |pre| <= taken && |pre| <= PRE_BUFFER_FRAMES && pre == Range(taken - |pre|, taken)
    ensures var b := Buffered(pre, taken);
      |b| <= PRE_BUFFER_FRAMES && |b| <= taken + 1 && b == Range(taken + 1 - |b|, taken + 1)
      && taken - |pre| <= taken + 1 - |b|
  {
    RangeSnoc(taken - |pre|, taken);
    RangeSnoc(taken - |pre|, taken + 1);
  }

  lemma FrameKeepsBuffer(f: Fan)
    requires Buffers(f)
    ensures Buffers(f.(taken := f.taken + 1, preBuffer := Buffered(f.preBuffer, f.taken)))
  {
    BufferedKeepsRange(f.preBuffer, f.taken);
  }

  lemma FrameKeepsOrder(f: Fan)
    requires Windowed(f)
    ensures var g := OnFrame(f);
      && WindowsOf(g.turns, g.taken) && |g.turns| == |f.turns|
      && DrainedAt(g.turns, |g.turns| - 1) == DrainedAt(f.turns, |f.turns| - 1)
  {
    LaterKeepsWindows(f.turns, f.taken, f.taken + 1);
    if f.current.Some? && f.current.value.captureOpen && f.current.value.audioOpen {
      var k := |f.turns| - 1;
      assert WindowAt(f.turns, k, f.taken);
      TrySendKeepsWindow(f.turns[k], f.taken);
      UpdateKeepsWindows(f.turns, f.taken, k, TrySend(f.turns[k], f.taken).(stop := f.taken + 1), f.taken + 1);
    }
  }

  lemma FrameKeepsWindows(f: Fan)
    requires Windowed(f)
    ensures Windowed(OnFrame(f))
  {
    FrameKeepsBuffer(f);
    FrameKeepsOrder(f);
  }

  lemma FreshInWindow(f: Fan)
    requires Windowed(f)
    ensures InWindow(FreshTurn(f.taken, |f.preBuffer|).(sent := f.preBuffer))
  {
  }

  lemma CancelKeepsWindows(f: Fan)
    requires Windowed(f) && f.current.Some?
    ensures WindowsOf(Superseded(f), f.taken)
  {
    var k := f.current.value.turnId - 1;
    assert WindowAt(f.turns, k, f.taken);
    UpdateKeepsWindows(f.turns, f.taken, k, Superseded(f)[k], f.taken);
  }

  lemma SpawnKeepsWindows(f: Fan, turns: seq<Turn>)
    requires Windowed(f) && |turns| == |f.turns| && WindowsOf(turns, f.taken)
    requires DrainedAt(turns, |turns| - 1) == DrainedAt(f.turns, |turns| - 1)
    ensures WindowsOf(turns + [FreshTurn(f.taken, |f.preBuffer|).(sent := f.preBuffer)], f.taken)
  {
    FreshInWindow(f);
    if turns != [] { assert WindowAt(turns, |turns| - 1, f.taken); }
    AppendKeepsWindows(turns, f.taken, FreshTurn(f.taken, |f.preBuffer|).(sent := f.preBuffer));
  }

  lemma StartKeepsWindows(f: Fan)
    requires Windowed(f)
    ensures Windowed(OnStart(f))
  {
    if !(f.current.Some? && f.current.value.captureOpen) {
      var g := OnStart(f);
      StartedTurns(f);
      SpawnedTurns(f);
      assert g.preBuffer == Range(g.taken, g.taken);
    }
  }

  /** The fresh turn's queue has room for the whole pre-buffer. */
  lemma StartedTurns(f: Fan)
    requires Windowed(f) && !(f.current.Some? && f.current.value.captureOpen)
    ensures OnStart(f).turns == Superseded(f) + [FreshTurn(f.taken, |f.preBuffer|).(sent := f.preBuffer)]
  {
    var t := FreshTurn(f.taken, |f.preBuffer|);
    PrefillTakesAll(t, f.preBuffer);
    assert Prefill(t, f.preBuffer) == t.(sent := f.preBuffer);
  }

  lemma SpawnedTurns(f: Fan)
    requires Windowed(f)
    ensures WindowsOf(Superseded(f) + [FreshTurn(f.taken, |f.preBuffer|).(sent := f.preBuffer)], f.taken)
  {
    if f.current.Some? {
      CancelKeepsWindows(f);
    }
    SpawnKeepsWindows(f, Superseded(f));
  }

  lemma FlagsKeepWindows(f: Fan, id: nat, t: Turn)
    requires Windowed(f) && Known(f, id) && SameWindow(t, f.turns[id - 1])
    ensures WindowsOf(SetTurn(f, id, t).turns, f.taken)
  {
    assert WindowAt(f.turns, id - 1, f.taken);
    UpdateKeepsWindows(f.turns, f.taken, id - 1, t, f.taken);
  }

  lemma ShutKeepsWindows(f: Fan, why: Closed)
    requires Windowed(f) && f.current.Some?
    ensures var a := f.current.value;
      Windowed(SetTurn(f, a.turnId, Close(f.turns[a.turnId - 1], why)).(current := Some(Shut(a))))
  {
    var a := f.current.value;
    var t := Close(f.turns[a.turnId - 1], why);
    FlagsKeepWindows(f, a.turnId, t);
    SameDrains(f.turns, a.turnId - 1, t);
  }

  /** Changing a turn's flags does not change when it drained the pre-buffer. */
  lemma SameDrains(turns: seq<Turn>, k: nat, t: Turn)
    requires k < |turns| && t.onset == turns[k].onset
    ensures DrainedAt(turns[k := t], |turns| - 1) == DrainedAt(turns, |turns| - 1)
  {
  }

  lemma EndKeepsWindows(f: Fan)
    requires Windowed(f)
    ensures Windowed(OnEnd(f))
  {
    if f.current.Some? { ShutKeepsWindows(f, ByFlag); }
  }

  lemma StopKeepsWindows(f: Fan)
    requires Windowed(f)
    ensures Windowed(OnStop(f))
  {
    if f.current.Some? { ShutKeepsWindows(f, ByStop); }
  }

  lemma DoneKeepsWindows(f: Fan, id: nat)
    requires Windowed(f) && Known(f, id)
    ensures Windowed(OnDone(f, id))
  {
    var t := f.turns[id - 1].(doneReceived := true);
    FlagsKeepWindows(f, id, t);
    FlagsKeepWindows(f, id, Close(t, ByDone));
  }

  /** Two consecutive windows share at most the frames that were pre-buffered. */
  lemma WindowsOverlapLittle(f: Fan, k: nat)
    requires Windowed(f) && 0 < k < |f.turns|
    ensures f.turns[k - 1].stop <= f.turns[k].start + PRE_BUFFER_FRAMES
    ensures f.turns[k - 1].onset <= f.turns[k].start
  {
    assert WindowAt(f.turns, k, f.taken);
  }

  // ----- the object -----

  class FanoutTask {
    var taken: nat
    var preBuffer: seq<nat>
    var currentAsr: Option<Active>
    var nextTurnId: nat
    var turns: seq<Turn>
    var stopped: bool

    ghost function Abs(): Fan
      reads this
    {
      Fan(taken, preBuffer, currentAsr, nextTurnId, turns, stopped)
    }

    constructor ()
      ensures Abs() == INIT
    {
      taken, preBuffer, currentAsr, nextTurnId, turns, stopped := 0, [], None, 0, [], false;
    }

    method DoneArrives(id: nat)
      requires WellFormed(Abs()) && Known(Abs(), id)
      modifies this
      ensures Abs() == OnDone(old(Abs()), id)
    {
      turns := turns[id - 1 := turns[id - 1].(doneReceived := true)];
      if currentAsr.Some? && currentAsr.value.turnId == id {
        turns := turns[id - 1 := Close(turns[id - 1], ByDone)];
        currentAsr := None;
      }
    }

    method FlagArrives(speaking: bool)
      requires WellFormed(Abs())
      modifies this
      ensures Abs() == OnFlag(old(Abs()), speaking)
      ensures !speaking ==>
        && |turns| == |old(turns)| && preBuffer == old(preBuffer) && nextTurnId == old(nextTurnId)
        && (forall k :: 0 <= k < |turns| ==>
              turns[k] == old(turns)[k].(closed :=
                if IsCurrentAt(old(Abs()), k) && old(turns)[k].closed.Open? then ByFlag else old(turns)[k].closed))
    {
      if speaking {
        if currentAsr.Some? {
          if currentAsr.value.captureOpen { return; }
          var id := currentAsr.value.turnId;
          turns := turns[id - 1 := Close(turns[id - 1], ByCancel).(cancelled := true)];
        }
        nextTurnId := nextTurnId + 1;
        var t := DrainPreBuffer();
        turns := turns + [t];
        currentAsr := Some(Active(nextTurnId, true, true));
      } else {
        CloseCapture();
      }
    }

    /** Drops the sender of the current turn, and nothing else. */
    method CloseCapture()
      requires WellFormed(Abs())
      modifies this`turns, this`currentAsr
      ensures Abs() == OnEnd(old(Abs()))
      ensures |turns| == |old(turns)|
      ensures forall k :: 0 <= k < |turns| ==>
        turns[k] == old(turns)[k].(closed :=
          if IsCurrentAt(old(Abs()), k) && old(turns)[k].closed.Open? then ByFlag else old(turns)[k].closed)
    {
      EndOnlyDropsSender(Abs());
      if currentAsr.Some? {
        var id := currentAsr.value.turnId;
        turns := turns[id - 1 := Close(turns[id - 1], ByFlag)];
        currentAsr := Some(Shut(currentAsr.value));
      }
    }

    /** A fresh turn that is sent what the pre-buffer holds. */
    method DrainPreBuffer() returns (t: Turn)
      requires |preBuffer| <= taken
      modifies this`preBuffer
      ensures t == Prefill(FreshTurn(taken, |old(preBuffer)|), old(preBuffer)) && preBuffer == []
    {
      t := FreshTurn(taken, |preBuffer|);
      for i := 0 to |preBuffer|
        invariant t == Prefill(FreshTurn(taken, |preBuffer|), preBuffer[..i])
      {
        t := TrySend(t, preBuffer[i]);
        assert preBuffer[..i + 1][..i] == preBuffer[..i];
      }
      assert preBuffer[..|preBuffer|] == preBuffer;
      preBuffer := [];
    }

    method FrameArrives()
      requires WellFormed(Abs())
      modifies this
      ensures Abs() == OnFrame(old(Abs()))
    {
      preBuffer := preBuffer + [taken];
      if |preBuffer| > PRE_BUFFER_FRAMES {
        preBuffer := preBuffer[1..];
      }
      if currentAsr.Some? && currentAsr.value.captureOpen {
        if currentAsr.value.audioOpen {
          var id := currentAsr.value.turnId;
          turns := turns[id - 1 := TrySend(turns[id - 1], taken).(stop := taken + 1)];
        }
      }
      taken := taken + 1;
    }
  }
}
