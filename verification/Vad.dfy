/** The voice-activity detector: `VadComponent::run` of crates/vad/src/component.rs.
    Whether a frame is voiced (an energy threshold on its samples) is an input. */
module Vad {
  const FRAME_DURATION_MS: nat := 20

  datatype Config = Config(silenceMs: nat, minSpeechMs: nat)

  datatype Frame = Frame(voiced: bool, timestampMs: nat)

  /** What the detector sends, in program order: a flag on the speech-state side
      channel, or an event on the bus. */
  datatype Act =
    | Side(speaking: bool)
    | Started(timestampMs: nat)
    | Ended(timestampMs: nat)
  {
    predicate OnBus() { !Side? }
  }

  datatype State = State(speaking: bool, voicedMs: nat, silenceMs: nat)

  const INIT := State(false, 0, 0)

  // ----- one frame -----

  function Step(c: Config, s: State, f: Frame): State {
    if f.voiced then
      var v := s.voicedMs + FRAME_DURATION_MS;
      State(s.speaking || v >= c.minSpeechMs, v, 0)
    else
      var q := s.silenceMs + FRAME_DURATION_MS;
      var speaking := s.speaking && q < c.silenceMs;
      State(speaking, if speaking then s.voicedMs else 0, q)
  }

  /** The sends of one frame. The flag goes out before SpeechStarted but after SpeechEnded. */
  function Acts(c: Config, s: State, f: Frame): seq<Act> {
    var t := Step(c, s, f);
    if !s.speaking && t.speaking then [Side(true), Started(f.timestampMs)]
    else if s.speaking && !t.speaking then [Ended(f.timestampMs), Side(false)]
    else []
  }

  // ----- a stream of frames -----

  function Fold(c: Config, fs: seq<Frame>): State {
    if fs == [] then INIT else Step(c, Fold(c, fs[..|fs| - 1]), fs[|fs| - 1])
  }

  function Log(c: Config, fs: seq<Frame>): seq<Act> {
    if fs == [] then []
    else
      var n := |fs| - 1;
      Log(c, fs[..n]) + Acts(c, Fold(c, fs[..n]), fs[n])
  }

  /** The timestamp sent when the stream ends during speech. */
  function LastTimestamp(fs: seq<Frame>): nat {
    if fs == [] then 0 else fs[|fs| - 1].timestampMs
  }

  function Closing(c: Config, fs: seq<Frame>): seq<Act> {
    if Fold(c, fs).speaking then [Ended(LastTimestamp(fs))] else []
  }

  /** Everything sent for a stream that ends after `fs`. */
  function FullLog(c: Config, fs: seq<Frame>): seq<Act> {
    Log(c, fs) + Closing(c, fs)
  }

  lemma FoldSnoc(c: Config, fs: seq<Frame>, f: Frame)
    ensures Fold(c, fs + [f]) == Step(c, Fold(c, fs), f)
    ensures Log(c, fs + [f]) == Log(c, fs) + Acts(c, Fold(c, fs), f)
  {
    assert (fs + [f])[..|fs|] == fs;
  }

  /** A stream that ends during speech is closed with the time of its last frame. */
  lemma EndClosesSpeech(c: Config, fs: seq<Frame>)
    ensures Fold(c, fs).speaking ==> fs != [] && FullLog(c, fs) == Log(c, fs) + [Ended(fs[|fs| - 1].timestampMs)]
    ensures !Fold(c, fs).speaking ==> FullLog(c, fs) == Log(c, fs)
  {
    if !Fold(c, fs).speaking { assert Log(c, fs) + [] == Log(c, fs); }
  }

  // ----- the declarative rule -----

  /** How many 20 ms frames a duration needs; a decision takes at least one frame. */
  function Need(ms: nat): nat {
    if ms == 0 then 1 else (ms + FRAME_DURATION_MS - 1) / FRAME_DURATION_MS
  }

  /** The least number of frames, at least one, that last `ms` milliseconds. */
  lemma NeedIsLeast(ms: nat)
    ensures Need(ms) >= 1 && 20 * Need(ms) >= ms && (Need(ms) > 1 ==> 20 * (Need(ms) - 1) < ms)
  {
  }

  /** The last `k` frames up to and including `i` are all voiced (or all silent). */
  ghost predicate Run(fs: seq<Frame>, i: nat, k: nat, voiced: bool) {
    i < |fs| && k <= i + 1 && forall j :: i + 1 - k <= j <= i ==> fs[j].voiced == voiced
  }

  ghost predicate Onset(c: Config, fs: seq<Frame>, i: nat) {
    Run(fs, i, Need(c.minSpeechMs), true)
  }

  ghost predicate Hush(c: Config, fs: seq<Frame>, i: nat) {
    Run(fs, i, Need(c.silenceMs), false)
  }

  /** `k` is the length of the longest run of `voiced` frames at the end of `fs`. */
  ghost predicate Trailing(fs: seq<Frame>, k: nat, voiced: bool) {
    && k <= |fs|
    && (forall j :: |fs| - k <= j < |fs| ==> fs[j].voiced == voiced)
    && (k < |fs| ==> fs[|fs| - k - 1].voiced != voiced)
  }

  lemma {:induction false} CountersAreRuns(c: Config, fs: seq<Frame>)
    ensures var s := Fold(c, fs);
      && s.silenceMs % FRAME_DURATION_MS == 0
      && Trailing(fs, s.silenceMs / FRAME_DURATION_MS, false)
      && (!s.speaking ==>
            && s.voicedMs % FRAME_DURATION_MS == 0
            && Trailing(fs, s.voicedMs / FRAME_DURATION_MS, true))
  {
    if fs != [] {
      var n := |fs| - 1;
      CountersAreRuns(c, fs[..n]);
      var s, t := Fold(c, fs[..n]), Fold(c, fs);
      if fs[n].voiced {
        TrailingStep(fs, s.silenceMs / FRAME_DURATION_MS, false);
        if !t.speaking { TrailingStep(fs, s.voicedMs / FRAME_DURATION_MS, true); }
      } else {
        TrailingStep(fs, s.silenceMs / FRAME_DURATION_MS, false);
        if !t.speaking { TrailingStep(fs, 0, true); }
      }
    }
  }

  /** One more frame makes the run longer or ends it. */
  lemma TrailingStep(fs: seq<Frame>, k: nat, voiced: bool)
    requires fs != []
    requires fs[|fs| - 1].voiced != voiced || Trailing(fs[..|fs| - 1], k, voiced)
    ensures Trailing(fs, if fs[|fs| - 1].voiced == voiced then k + 1 else 0, voiced)
  {
    var n := |fs| - 1;
    if fs[n].voiced == voiced {
      assert forall j :: 0 <= j < n ==> fs[..n][j] == fs[j];
    }
  }

  lemma RunIffTrailing(fs: seq<Frame>, n: nat, k: nat, ms: nat, voiced: bool)
    requires n < |fs| && Trailing(fs[..n + 1], k, voiced)
    ensures Run(fs, n, Need(ms), voiced) <==> fs[n].voiced == voiced && k * FRAME_DURATION_MS >= ms
  {
    var g := fs[..n + 1];
    if k < n + 1 {
      assert g[n - k].voiced != voiced;
    }
    if Need(ms) <= k {
      assert forall j :: n + 1 - Need(ms) <= j <= n ==> fs[j] == g[j];
    }
  }

  /** An edge is sent for frame `n` exactly when the run ending there decides it. */
  lemma EdgeRule(c: Config, fs: seq<Frame>, n: nat)
    requires n < |fs|
    ensures var s, t := Fold(c, fs[..n]), Fold(c, fs[..n + 1]);
      && t.speaking == (if s.speaking then !Hush(c, fs, n) else Onset(c, fs, n))
      && Acts(c, s, fs[n]) ==
           (if !s.speaking && Onset(c, fs, n) then [Side(true), Started(fs[n].timestampMs)]
            else if s.speaking && Hush(c, fs, n) then [Ended(fs[n].timestampMs), Side(false)]
            else [])
  {
    var p, g := fs[..n], fs[..n + 1];
    assert g[..n] == p && g[n] == fs[n];
    CountersAreRuns(c, p);
    CountersAreRuns(c, g);
    var s, t := Fold(c, p), Fold(c, g);
    RunIffTrailing(fs, n, t.silenceMs / FRAME_DURATION_MS, c.silenceMs, false);
    if !s.speaking {
      var k := s.voicedMs / FRAME_DURATION_MS;
      if fs[n].voiced {
        assert Trailing(g, k + 1, true);
        RunIffTrailing(fs, n, k + 1, c.minSpeechMs, true);
      }
    }
  }

  /** Speech is on after `fs` exactly when some frame completed a long enough voiced
      run and no later frame completed a long enough silent run. */
  lemma {:induction false} LatchRule(c: Config, fs: seq<Frame>)
    ensures Fold(c, fs).speaking <==>
      exists i :: 0 <= i < |fs| && Onset(c, fs, i) && forall j :: i < j < |fs| ==> !Hush(c, fs, j)
  {
    if fs != [] {
      var n := |fs| - 1;
      var p := fs[..n];
      LatchRule(c, p);
      EdgeRule(c, fs, n);
      assert fs[..n + 1] == fs;
      forall i | 0 <= i < n
        ensures Onset(c, p, i) == Onset(c, fs, i) && Hush(c, p, i) == Hush(c, fs, i)
      {
        assert forall j :: 0 <= j <= i ==> p[j] == fs[j];
      }
      if Onset(c, fs, n) {
        assert !Hush(c, fs, n) by { assert fs[n].voiced; }
      }
    }
  }

  // ----- alternation -----

  /** The edges visible on the bus: true for SpeechStarted, false for SpeechEnded. */
  function BusEdges(acts: seq<Act>): (r: seq<bool>) {
    if acts == [] then []
    else
      var n := |acts| - 1;
      BusEdges(acts[..n]) + (if acts[n].OnBus() then [acts[n].Started?] else [])
  }

  /** The flags sent on the side channel. */
  function SideEdges(acts: seq<Act>): (r: seq<bool>) {
    if acts == [] then []
    else
      var n := |acts| - 1;
      SideEdges(acts[..n]) + (if acts[n].Side? then [acts[n].speaking] else [])
  }

  /** start, end, start, ... : `n` edges. */
  function Alternating(n: nat): (r: seq<bool>)
    ensures |r| == n
  {
    if n == 0 then [] else Alternating(n - 1) + [n % 2 == 1]
  }

  ghost predicate Alternates(s: seq<bool>) {
    s == Alternating(|s|)
  }

  lemma {:induction false} EdgesConcat(a: seq<Act>, b: seq<Act>)
    ensures BusEdges(a + b) == BusEdges(a) + BusEdges(b)
    ensures SideEdges(a + b) == SideEdges(a) + SideEdges(b)
  {
    if b == [] {
      assert a + b == a;
    } else {
      var n := |b| - 1;
      assert (a + b)[..|a + b| - 1] == a + b[..n];
      EdgesConcat(a, b[..n]);
    }
  }

  lemma EdgesOfActs(c: Config, s: State, f: Frame)
    ensures var e := Acts(c, s, f); var t := Step(c, s, f);
      BusEdges(e) == SideEdges(e) == if s.speaking == t.speaking then [] else [t.speaking]
  {
    var e := Acts(c, s, f);
    if e != [] {
      EdgesConcat([e[0]], [e[1]]);
      assert e == [e[0]] + [e[1]];
      assert e[0] == [e[0]][0] && [e[0]][..0] == [] && [e[1]][..0] == [];
    }
  }

  /** Bus and side channel carry the same strictly alternating edges, starting with a
      start; speech is on exactly when their number is odd. */
  lemma {:induction false} LogAlternates(c: Config, fs: seq<Frame>)
    ensures var l := Log(c, fs);
      && BusEdges(l) == SideEdges(l) && Alternates(BusEdges(l))
      && (Fold(c, fs).speaking <==> |BusEdges(l)| % 2 == 1)
  {
    if fs != [] {
      var p := fs[..|fs| - 1];
      LogAlternates(c, p);
      LogEdgesStep(c, fs);
      EdgeFollows(BusEdges(Log(c, p)), Fold(c, p).speaking, Fold(c, fs).speaking);
    }
  }

  lemma EdgeFollows(e: seq<bool>, was: bool, now: bool)
    requires Alternates(e) && (was <==> |e| % 2 == 1)
    ensures var x := e + if was == now then [] else [now];
      Alternates(x) && (now <==> |x| % 2 == 1)
  {
    if was == now {
      assert e + [] == e;
    } else {
      AlternatesSnoc(e, now);
    }
  }

  /** The last frame of a stream adds at most one edge to each channel. */
  lemma LogEdgesStep(c: Config, fs: seq<Frame>)
    requires fs != []
    ensures var p := fs[..|fs| - 1];
      var now := Fold(c, fs).speaking;
      var e := if Fold(c, p).speaking == now then [] else [now];
      && BusEdges(Log(c, fs)) == BusEdges(Log(c, p)) + e
      && SideEdges(Log(c, fs)) == SideEdges(Log(c, p)) + e
  {
    var n := |fs| - 1;
    var s := Fold(c, fs[..n]);
    EdgesOfActs(c, s, fs[n]);
    EdgesConcat(Log(c, fs[..n]), Acts(c, s, fs[n]));
  }

  lemma AlternatesSnoc(s: seq<bool>, b: bool)
    requires Alternates(s) && b == (|s| % 2 == 0)
    ensures Alternates(s + [b])
  {
    assert Alternating(|s| + 1) == Alternating(|s|) + [(|s| + 1) % 2 == 1];
  }

  lemma {:induction false} AlternatesPrefix(s: seq<bool>, t: seq<bool>)
    requires Alternates(t) && s <= t
    ensures Alternates(s)
  {
    if |s| < |t| {
      var u := t[..|t| - 1];
      assert u == Alternating(|u|);
      assert s <= u;
      AlternatesPrefix(s, u);
    }
  }

  /** Once the audio stream has ended, every SpeechStarted has its SpeechEnded. */
  lemma EndedStreamIsBalanced(c: Config, fs: seq<Frame>)
    ensures var e := BusEdges(FullLog(c, fs)); Alternates(e) && |e| % 2 == 0
  {
    LogAlternates(c, fs);
    EdgesConcat(Log(c, fs), Closing(c, fs));
    if Fold(c, fs).speaking {
      assert Closing(c, fs)[..0] == [];
    }
  }

  function Count(s: seq<bool>, b: bool): nat {
    if s == [] then 0 else Count(s[..|s| - 1], b) + (if s[|s| - 1] == b then 1 else 0)
  }

  lemma {:induction false} CountAlternating(s: seq<bool>)
    requires Alternates(s)
    ensures Count(s, false) == |s| / 2 && Count(s, true) == (|s| + 1) / 2
  {
    if s != [] {
      CountAlternating(s[..|s| - 1]);
    }
  }

  lemma {:induction false} CountConcat(a: seq<bool>, b: seq<bool>, v: bool)
    ensures Count(a + b, v) == Count(a, v) + Count(b, v)
  {
    if b == [] {
      assert a + b == a;
    } else {
      assert (a + b)[..|a + b| - 1] == a + b[..|b| - 1];
      CountConcat(a, b[..|b| - 1], v);
    }
  }

  lemma CountSnoc(s: seq<bool>, b: bool, v: bool)
    ensures Count(s + [b], v) == Count(s, v) + (if b == v then 1 else 0)
  {
    assert (s + [b])[..|s|] == s;
  }

  lemma EdgesSnoc(acts: seq<Act>, a: Act)
    ensures BusEdges(acts + [a]) == BusEdges(acts) + (if a.OnBus() then [a.Started?] else [])
    ensures SideEdges(acts + [a]) == SideEdges(acts) + (if a.Side? then [a.speaking] else [])
  {
    assert (acts + [a])[..|acts|] == acts;
  }

  /** Whatever has been sent so far, no closing flag is out before its SpeechEnded, and no
      SpeechStarted before its opening flag. */
  ghost predicate FlagsInOrder(sent: seq<Act>) {
    && Alternates(BusEdges(sent)) && Alternates(SideEdges(sent))
    && Count(SideEdges(sent), false) <= Count(BusEdges(sent), false)
    && Count(BusEdges(sent), true) <= Count(SideEdges(sent), true)
  }

  lemma {:induction false} FlagsFollowEnds(c: Config, fs: seq<Frame>, k: nat)
    requires k <= |Log(c, fs)|
    ensures FlagsInOrder(Log(c, fs)[..k])
  {
    if fs != [] {
      var n := |fs| - 1;
      var p := fs[..n];
      var before, e := Log(c, p), Acts(c, Fold(c, p), fs[n]);
      assert Log(c, fs) == before + e;
      if k <= |before| {
        assert Log(c, fs)[..k] == before[..k];
        FlagsFollowEnds(c, p, k);
      } else if k == |before| + |e| {
        assert Log(c, fs)[..k] == Log(c, fs);
        LogAlternates(c, fs);
      } else {
        assert Log(c, fs)[..k] == before + [e[0]];
        HalfSent(c, p, fs[n]);
      }
    }
  }

  /** The same for a stream that has ended. */
  lemma FlagsFollowEndsToTheLast(c: Config, fs: seq<Frame>, k: nat)
    requires k <= |FullLog(c, fs)|
    ensures FlagsInOrder(FullLog(c, fs)[..k])
  {
    var l := Log(c, fs);
    if k <= |l| {
      FlagsFollowEnds(c, fs, k);
      assert FullLog(c, fs)[..k] == l[..k];
    } else {
      LastSent(c, fs);
      assert FullLog(c, fs)[..k] == l + Closing(c, fs);
    }
  }

  lemma LastSent(c: Config, fs: seq<Frame>)
    requires Fold(c, fs).speaking
    ensures FlagsInOrder(Log(c, fs) + Closing(c, fs))
  {
    var l, last := Log(c, fs), Ended(LastTimestamp(fs));
    LogAlternates(c, fs);
    EdgesSnoc(l, last);
    assert SideEdges(l) + [] == SideEdges(l);
    var e := BusEdges(l);
    AlternatesSnoc(e, false);
    CountSnoc(e, false, false);
    CountSnoc(e, false, true);
  }

  lemma HalfSent(c: Config, p: seq<Frame>, f: Frame)
    requires Acts(c, Fold(c, p), f) != []
    ensures FlagsInOrder(Log(c, p) + [Acts(c, Fold(c, p), f)[0]])
  {
    var before, a := Log(c, p), Acts(c, Fold(c, p), f)[0];
    LogAlternates(c, p);
    EdgesSnoc(before, a);
    var e := BusEdges(before);
    AlternatesSnoc(e, !Fold(c, p).speaking);
    CountSnoc(e, !Fold(c, p).speaking, false);
    CountSnoc(e, !Fold(c, p).speaking, true);
  }

  // ----- how often edges can come -----

  /** The frames that the turns closed by silence must have used. */
  ghost function Spent(c: Config, fs: seq<Frame>): nat {
    Times(Count(BusEdges(Log(c, fs)), false), Need(c.minSpeechMs) + Need(c.silenceMs))
  }

  function Times(k: nat, w: nat): (r: nat)
    ensures r == k * w
  {
    if k == 0 then 0 else Times(k - 1, w) + w
  }

  /** Each turn that silence closes uses up its own voiced and its own silent frames. */
  lemma TurnsTakeTime(c: Config, fs: seq<Frame>)
    ensures Count(BusEdges(Log(c, fs)), false) * (Need(c.minSpeechMs) + Need(c.silenceMs)) <= |fs|
  {
    TurnBudget(c, fs);
  }

  lemma SpentStep(c: Config, fs: seq<Frame>)
    requires fs != []
    ensures var p := fs[..|fs| - 1];
      Spent(c, fs) == Spent(c, p)
        + if Fold(c, p).speaking && !Fold(c, fs).speaking then Need(c.minSpeechMs) + Need(c.silenceMs) else 0
  {
    var p := fs[..|fs| - 1];
    LogEdgesStep(c, fs);
    EdgeCounts(BusEdges(Log(c, p)), Fold(c, p).speaking, Fold(c, fs).speaking,
               Need(c.minSpeechMs) + Need(c.silenceMs));
  }

  lemma EdgeCounts(e: seq<bool>, was: bool, now: bool, w: nat)
    ensures var x := e + if was == now then [] else [now];
      Times(Count(x, false), w) == Times(Count(e, false), w) + if was && !now then w else 0
  {
    if was == now {
      assert e + [] == e;
    } else {
      CountSnoc(e, now, false);
      if was { TimesNext(Count(e, false), w); }
    }
  }

  lemma TimesNext(k: nat, w: nat)
    ensures Times(k + 1, w) == Times(k, w) + w
  {
  }

  lemma {:induction false} TurnBudget(c: Config, fs: seq<Frame>)
    ensures var s := Fold(c, fs);
      if s.speaking then Spent(c, fs) + Need(c.minSpeechMs) + s.silenceMs / FRAME_DURATION_MS <= |fs|
      else Spent(c, fs) + s.voicedMs / FRAME_DURATION_MS <= |fs|
  {
    if fs == [] {
      assert BusEdges(Log(c, fs)) == [];
    } else {
      var p := fs[..|fs| - 1];
      TurnBudget(c, p);
      CountersAreRuns(c, p);
      SpentStep(c, fs);
    }
  }

  // ----- the loop -----

  /** What gets out when the bus accepts `room` events and then closes: everything
      before the event that fails. */
  ghost predicate CutAt(full: seq<Act>, sent: seq<Act>, room: nat) {
    && sent <= full
    && |BusEdges(sent)| <= room
    && (sent != full ==> full[|sent|].OnBus() && |BusEdges(sent)| == room)
  }

  lemma {:induction false} LogGrows(c: Config, fs: seq<Frame>, i: nat)
    requires i <= |fs|
    ensures Log(c, fs[..i]) <= Log(c, fs)
    ensures i < |fs| ==>
      Log(c, fs[..i]) + Acts(c, Fold(c, fs[..i]), fs[i]) <= Log(c, fs)
  {
    if i == |fs| {
      assert fs[..i] == fs;
    } else {
      var p := fs[..|fs| - 1];
      assert p[..i] == fs[..i];
      LogGrows(c, p, i);
    }
  }

  /** The bus closes while frame `i` is handled: its first `k` sends got out. */
  lemma CutInFrame(c: Config, fs: seq<Frame>, i: nat, k: nat, room: nat)
    requires i < |fs|
    requires var e := Acts(c, Fold(c, fs[..i]), fs[i]);
      && k < |e| && e[k].OnBus() && |BusEdges(Log(c, fs[..i]) + e[..k])| == room
    ensures var sent := Log(c, fs[..i]) + Acts(c, Fold(c, fs[..i]), fs[i])[..k];
      CutAt(Log(c, fs), sent, room) && CutAt(FullLog(c, fs), sent, room)
  {
    LogGrows(c, fs, i);
    var before, e := Log(c, fs[..i]), Acts(c, Fold(c, fs[..i]), fs[i]);
    var sent := before + e[..k];
    assert sent <= before + e && (before + e)[|sent|] == e[k];
  }

  /** The detector's sends. `room` is how many events the bus still takes. */
  class Sender {
    var sent: seq<Act>
    var room: nat

    constructor (room: nat)
      ensures this.sent == [] && this.room == room
    {
      sent, this.room := [], room;
    }

    /** A flag that no one receives is only logged as a warning. */
    method SendSide(speaking: bool)
      modifies this`sent
      ensures sent == old(sent) + [Side(speaking)]
    {
      sent := sent + [Side(speaking)];
    }

    method SendBus(a: Act) returns (ok: bool)
      requires a.OnBus()
      modifies this
      ensures ok == (old(room) > 0)
      ensures sent == if ok then old(sent) + [a] else old(sent)
      ensures room == if ok then old(room) - 1 else 0
    {
      ok := room > 0;
      if ok {
        sent, room := sent + [a], room - 1;
      }
    }

    /** The sends when speech starts: the flag goes out first. */
    method Begin(timestampMs: nat) returns (ok: bool)
      modifies this
      ensures ok == (old(room) > 0)
      ensures sent == old(sent) + if ok then [Side(true), Started(timestampMs)] else [Side(true)]
      ensures room == if ok then old(room) - 1 else 0
    {
      SendSide(true);
      ok := SendBus(Started(timestampMs));
    }

    /** The sends when speech ends: the event goes out first, and without it no flag. */
    method End(timestampMs: nat) returns (ok: bool)
      modifies this
      ensures ok == (old(room) > 0)
      ensures sent == old(sent) + if ok then [Ended(timestampMs), Side(false)] else []
      ensures room == if ok then old(room) - 1 else 0
    {
      ok := SendBus(Ended(timestampMs));
      if ok { SendSide(false); }
    }
  }

  /** What the loop has sent when it stops: it was cancelled with `cancelAt` frames received,
      or the audio ended, or the bus closed. */
  ghost predicate Ran(c: Config, audio: seq<Frame>, cancelAt: nat, sent: seq<Act>, room: nat) {
    if cancelAt <= |audio| then CutAt(Log(c, audio[..cancelAt]), sent, room)
    else CutAt(FullLog(c, audio), sent, room)
  }

  function Heard(audio: seq<Frame>, cancelAt: nat): seq<Frame> {
    if cancelAt <= |audio| then audio[..cancelAt] else audio
  }

  /** Where the loop stands before frame `i`, with room for `room` of `total` events left. */
  ghost predicate At(c: Config, fs: seq<Frame>, i: nat, s: State, timestampMs: nat,
                     sent: seq<Act>, room: nat, total: nat) {
    && i <= |fs|
    && s == Fold(c, fs[..i]) && timestampMs == LastTimestamp(fs[..i])
    && sent == Log(c, fs[..i]) && room + |BusEdges(sent)| == total
  }

  lemma FrameRuns(c: Config, audio: seq<Frame>, cancelAt: nat, i: nat, s: State, timestampMs: nat,
                  sent: seq<Act>, room: nat, total: nat)
    requires var fs := Heard(audio, cancelAt); i < |fs| && At(c, fs, i, s, timestampMs, sent, room, total)
    ensures var fs := Heard(audio, cancelAt);
      var f := fs[i]; var e, t := Acts(c, s, f), Step(c, s, f);
      && (e == [] ==> At(c, fs, i + 1, t, f.timestampMs, sent, room, total))
      && (e != [] && room > 0 ==> At(c, fs, i + 1, t, f.timestampMs, sent + e, room - 1, total))
      && (e != [] && room == 0 ==>
            Ran(c, audio, cancelAt, sent + if e[0].Side? then [e[0]] else [], total))
  {
    var fs := Heard(audio, cancelAt);
    FrameSends(c, fs, i);
    var e := Acts(c, s, fs[i]);
    if e != [] && room == 0 {
      CutInFrame(c, fs, i, if e[0].Side? then 1 else 0, total);
    }
  }

  lemma EndRuns(c: Config, audio: seq<Frame>, cancelAt: nat, i: nat, s: State, timestampMs: nat,
                sent: seq<Act>, room: nat, total: nat)
    requires var fs := Heard(audio, cancelAt); i == |fs| && At(c, fs, i, s, timestampMs, sent, room, total)
    ensures (cancelAt > |audio| && s.speaking && room > 0) || Ran(c, audio, cancelAt, sent, total)
    ensures cancelAt > |audio| && s.speaking && room > 0 ==>
      Ran(c, audio, cancelAt, sent + [Ended(timestampMs)], total)
  {
    var fs := Heard(audio, cancelAt);
    assert fs[..i] == fs;
    EdgesSnoc(sent, Ended(timestampMs));
    if !s.speaking { assert sent + [] == sent; }
  }

  /** The receive loop over an audio stream, until it ends or the detector is cancelled
      with `cancelAt` frames received. */
  method RunLoop(c: Config, audio: seq<Frame>, cancelAt: nat, out: Sender)
    requires out.sent == []
    modifies out
    ensures Ran(c, audio, cancelAt, out.sent, old(out.room))
  {
    ghost var total := out.room;
    var speaking := false;
    var voicedMs: nat, silenceMs: nat, lastTimestampMs: nat := 0, 0, 0;
    var i := 0;
    while true
      invariant At(c, Heard(audio, cancelAt), i, State(speaking, voicedMs, silenceMs),
                   lastTimestampMs, out.sent, out.room, total)
      decreases |audio| - i
    {
      ghost var s := State(speaking, voicedMs, silenceMs);
      if i == cancelAt {
        EndRuns(c, audio, cancelAt, i, s, lastTimestampMs, out.sent, out.room, total);
        return;
      }
      if i == |audio| {
        EndRuns(c, audio, cancelAt, i, s, lastTimestampMs, out.sent, out.room, total);
        if speaking {
          var _ := out.SendBus(Ended(lastTimestampMs));
        }
        return;
      }
      var frame := audio[i];
      FrameRuns(c, audio, cancelAt, i, s, lastTimestampMs, out.sent, out.room, total);
      lastTimestampMs := frame.timestampMs;
      if frame.voiced {
        voicedMs := voicedMs + FRAME_DURATION_MS;
        silenceMs := 0;
        if !speaking && voicedMs >= c.minSpeechMs {
          speaking := true;
          var ok := out.Begin(frame.timestampMs);
          if !ok { return; }
        }
      } else {
        silenceMs := silenceMs + FRAME_DURATION_MS;
        if speaking && silenceMs >= c.silenceMs {
          speaking := false;
          voicedMs := 0;
          var ok := out.End(frame.timestampMs);
          if !ok { return; }
        }
        if !speaking {
          voicedMs := 0;
        }
      }
      i := i + 1;
    }
  }

  /** How the sends of frame `i` extend the log and its bus edges. */
  lemma FrameSends(c: Config, fs: seq<Frame>, i: nat)
    requires i < |fs|
    ensures var before, e := Log(c, fs[..i]), Acts(c, Fold(c, fs[..i]), fs[i]);
      && Fold(c, fs[..i + 1]) == Step(c, Fold(c, fs[..i]), fs[i])
      && Log(c, fs[..i + 1]) == before + e
      && LastTimestamp(fs[..i + 1]) == fs[i].timestampMs
      && |BusEdges(before + e)| == |BusEdges(before)| + (if e == [] then 0 else 1)
      && (e == [] ==> before + e == before)
      && (e != [] && e[0].Side? ==> e[..1] == [e[0]] && |BusEdges(before + e[..1])| == |BusEdges(before)|)
      && e[..0] == [] && before + e[..0] == before
  {
    assert fs[..i + 1] == fs[..i] + [fs[i]];
    FoldSnoc(c, fs[..i], fs[i]);
    var before, e := Log(c, fs[..i]), Acts(c, Fold(c, fs[..i]), fs[i]);
    assert e[..0] == [] && before + [] == before;
    if e != [] {
      TwoSends(before, e[0], e[1]);
      assert e == [e[0], e[1]] && e[..1] == [e[0]];
    }
  }

  lemma TwoSends(before: seq<Act>, a: Act, b: Act)
    requires a.Side? != b.Side?
    ensures |BusEdges(before + [a, b])| == |BusEdges(before)| + 1
    ensures a.Side? ==> |BusEdges(before + [a])| == |BusEdges(before)|
  {
    EdgesSnoc(before, a);
    EdgesSnoc(before + [a], b);
    assert before + [a, b] == before + [a] + [b];
  }
}
