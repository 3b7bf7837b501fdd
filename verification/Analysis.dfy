/** Voiced regions of a recorded call: `analyze_received_audio` of crates/loadtest/src/analysis.rs.
    The energy test on the samples of one window is a parameter. */
module Analysis {
  import opened Text

  const SAMPLE_RATE: nat := 16000

  datatype Config = Config(windowMs: nat, gapThresholdMs: nat, stutterGapMs: nat)

  datatype Region = Region(startMs: nat, endMs: nat)

  datatype CallAnalysis = CallAnalysis(
    recordedMs: nat, voicedMs: nat, silenceMs: nat, firstResponseMs: Option<nat>,
    longestGapMs: nat, gapsOverThreshold: nat, stutters: nat, regions: seq<Region>)

  type Sample = x: int | -32768 <= x < 32768

  function Max(a: nat, b: nat): nat { if a >= b then a else b }
  function Minus(a: nat, b: nat): nat { if a >= b then a - b else 0 }

  function RecordedMs(n: nat): nat { n * 1000 / SAMPLE_RATE }

  function WindowSamples(c: Config): nat { Max(SAMPLE_RATE * c.windowMs / 1000, 1) }

  /** Window `i` exists when some sample falls into it. */
  predicate Exists(c: Config, n: nat, i: nat) { i * WindowSamples(c) < n }

  function StartMs(c: Config, i: nat): nat { i * c.windowMs }

  function EndMs(c: Config, n: nat, i: nat): nat { Min(StartMs(c, i) + c.windowMs, RecordedMs(n)) }

  // ----- regions and runs of windows -----

  /** A maximal run of voiced windows, from `first` up to but not including `end`. */
  datatype Run = Run(first: nat, end: nat)

  ghost predicate IsRun(v: seq<bool>, r: Run) {
    && r.first < r.end <= |v|
    && (forall i :: r.first <= i < r.end ==> v[i])
    && (r.first > 0 ==> !v[r.first - 1])
    && (r.end < |v| ==> !v[r.end])
  }

  /** A region reaches to the end of the silent window that closes it, or, if it is still
      open then, to the end of the recording. */
  function RegionOf(c: Config, n: nat, r: Run, closed: bool): Region {
    Region(StartMs(c, r.first), if closed then EndMs(c, n, r.end) else RecordedMs(n))
  }

  ghost predicate InRun(r: Run, i: nat) { r.first <= i < r.end }

  ghost predicate RunsInOrder(c: Config, n: nat, v: seq<bool>, runs: seq<Run>, regions: seq<Region>) {
    && |runs| == |regions|
    && (forall k :: 0 <= k < |runs| ==> IsRun(v, runs[k]) && regions[k] == RegionOf(c, n, runs[k], runs[k].end < |v|))
    && (forall k :: 0 < k < |runs| ==> runs[k - 1].end < runs[k].first)
  }

  /** The regions are the maximal runs of voiced windows, in order, and no run is missed. */
  ghost predicate RegionsAreRuns(c: Config, n: nat, v: seq<bool>, runs: seq<Run>, regions: seq<Region>) {
    && RunsInOrder(c, n, v, runs, regions)
    && (forall i: nat :: i < |v| && v[i] ==> exists k :: 0 <= k < |runs| && InRun(runs[k], i))
  }

  /** The loop has seen the windows `v`; a run may be open. */
  ghost predicate Seen(c: Config, n: nat, v: seq<bool>, open: Option<nat>, runs: seq<Run>, regions: seq<Region>) {
    && RunsInOrder(c, n, v, runs, regions)
    && (forall k :: 0 <= k < |runs| ==> runs[k].end < |v|)
    && (open.Some? ==>
          IsRun(v, Run(open.value, |v|)) && (runs != [] ==> runs[|runs| - 1].end < open.value))
    && (open.None? ==> v == [] || !v[|v| - 1])
    && (forall i: nat :: i < |v| && v[i] ==>
          (open.Some? && open.value <= i) || exists k :: 0 <= k < |runs| && InRun(runs[k], i))
  }

  lemma RunExtends(v: seq<bool>, b: bool, r: Run)
    requires IsRun(v, r)
    ensures r.end < |v| ==> IsRun(v + [b], r)
    ensures r.end == |v| ==> if b then IsRun(v + [b], Run(r.first, |v| + 1)) else IsRun(v + [b], r)
  {
  }

  lemma OrderExtends(c: Config, n: nat, v: seq<bool>, b: bool, runs: seq<Run>, regions: seq<Region>)
    requires RunsInOrder(c, n, v, runs, regions) && forall k :: 0 <= k < |runs| ==> runs[k].end < |v|
    ensures RunsInOrder(c, n, v + [b], runs, regions)
  {
    forall k | 0 <= k < |runs| ensures IsRun(v + [b], runs[k]) { RunExtends(v, b, runs[k]); }
  }

  lemma SeeVoiced(c: Config, n: nat, v: seq<bool>, open: Option<nat>, runs: seq<Run>, regions: seq<Region>)
    requires Seen(c, n, v, open, runs, regions)
    ensures Seen(c, n, v + [true], Some(if open.Some? then open.value else |v|), runs, regions)
  {
    OrderExtends(c, n, v, true, runs, regions);
    if open.Some? { RunExtends(v, true, Run(open.value, |v|)); }
    forall i: nat | i < |v| + 1 && (v + [true])[i]
      ensures (if open.Some? then open.value else |v|) <= i || exists k :: 0 <= k < |runs| && InRun(runs[k], i)
    {
      if i < |v| { assert v[i]; }
    }
  }

  lemma SeeSilent(c: Config, n: nat, v: seq<bool>, runs: seq<Run>, regions: seq<Region>)
    requires Seen(c, n, v, None, runs, regions)
    ensures Seen(c, n, v + [false], None, runs, regions)
  {
    OrderExtends(c, n, v, false, runs, regions);
    forall i: nat | i < |v| + 1 && (v + [false])[i]
      ensures exists k :: 0 <= k < |runs| && InRun(runs[k], i)
    {
      assert v[i];
    }
  }

  lemma SeeEnd(c: Config, n: nat, v: seq<bool>, first: nat, runs: seq<Run>, regions: seq<Region>)
    requires Seen(c, n, v, Some(first), runs, regions)
    ensures var r := Run(first, |v|);
      Seen(c, n, v + [false], None, runs + [r], regions + [RegionOf(c, n, r, true)])
  {
    var r := Run(first, |v|);
    OrderExtends(c, n, v, false, runs, regions);
    RunExtends(v, false, r);
    var all := runs + [r];
    forall i: nat | i < |v| + 1 && (v + [false])[i]
      ensures exists k :: 0 <= k < |all| && InRun(all[k], i)
    {
      if first <= i {
        assert InRun(all[|runs|], i);
      } else {
        assert v[i];
        var k :| 0 <= k < |runs| && InRun(runs[k], i);
        assert InRun(all[k], i);
      }
    }
  }

  /** After the last window, an open run is closed by the end of the recording. */
  lemma SeenAll(c: Config, n: nat, v: seq<bool>, open: Option<nat>, runs: seq<Run>, regions: seq<Region>)
    requires Seen(c, n, v, open, runs, regions)
    ensures open.None? ==> RegionsAreRuns(c, n, v, runs, regions)
    ensures open.Some? ==>
      var r := Run(open.value, |v|);
      RegionsAreRuns(c, n, v, runs + [r], regions + [RegionOf(c, n, r, false)])
  {
    if open.Some? {
      var all := runs + [Run(open.value, |v|)];
      forall i: nat | i < |v| && v[i] ensures exists k :: 0 <= k < |all| && InRun(all[k], i) {
        if open.value <= i {
          assert InRun(all[|runs|], i);
        } else {
          var k :| 0 <= k < |runs| && InRun(runs[k], i);
          assert InRun(all[k], i);
        }
      }
    }
  }

  lemma TimesMonotone(a: nat, b: nat, w: nat)
    requires a <= b
    ensures a * w <= b * w
  {
  }

  lemma WindowsAreFinite(c: Config, n: nat, i: nat)
    requires Exists(c, n, i)
    ensures i < n
  {
    TimesMonotone(1, WindowSamples(c), i);
  }

  /** The samples of window `i`; the last window may be short. */
  function Chunk(c: Config, samples: seq<Sample>, i: nat): seq<Sample>
    requires Exists(c, |samples|, i)
  {
    var from := i * WindowSamples(c);
    samples[from..Min(from + WindowSamples(c), |samples|)]
  }

  /** `v` says for the first windows whether they are voiced. */
  ghost predicate Judged(c: Config, samples: seq<Sample>, isVoiced: seq<Sample> -> bool, v: seq<bool>) {
    forall i: nat :: i < |v| ==> Exists(c, |samples|, i) && v[i] == isVoiced(Chunk(c, samples, i))
  }

  lemma JudgeNext(c: Config, samples: seq<Sample>, isVoiced: seq<Sample> -> bool, v: seq<bool>)
    requires Judged(c, samples, isVoiced, v) && Exists(c, |samples|, |v|)
    ensures Judged(c, samples, isVoiced, v + [isVoiced(Chunk(c, samples, |v|))])
  {
  }

  /** The verdicts on the windows from `i` on. */
  function VerdictsFrom(c: Config, samples: seq<Sample>, isVoiced: seq<Sample> -> bool, i: nat): seq<bool>
    decreases |samples| - i
  {
    if !Exists(c, |samples|, i) then []
    else
      WindowsAreFinite(c, |samples|, i);
      [isVoiced(Chunk(c, samples, i))] + VerdictsFrom(c, samples, isVoiced, i + 1)
  }

  lemma {:induction false} EachWindowIsJudged(c: Config, samples: seq<Sample>, isVoiced: seq<Sample> -> bool,
                                              v: seq<bool>)
    requires Judged(c, samples, isVoiced, v)
    ensures Verdicts(c, samples, isVoiced, v + VerdictsFrom(c, samples, isVoiced, |v|))
    decreases |samples| - |v|
  {
    var i := |v|;
    if Exists(c, |samples|, i) {
      WindowsAreFinite(c, |samples|, i);
      var b := [isVoiced(Chunk(c, samples, i))];
      JudgeNext(c, samples, isVoiced, v);
      EachWindowIsJudged(c, samples, isVoiced, v + b);
      ConcatAssoc(v, b, VerdictsFrom(c, samples, isVoiced, i + 1));
    } else {
      ConcatEmpty(v);
    }
  }

  /** The verdict on every window of the recording. */
  function VerdictsOf(c: Config, samples: seq<Sample>, isVoiced: seq<Sample> -> bool): seq<bool> {
    VerdictsFrom(c, samples, isVoiced, 0)
  }

  lemma WindowsAreJudged(c: Config, samples: seq<Sample>, isVoiced: seq<Sample> -> bool)
    ensures Verdicts(c, samples, isVoiced, VerdictsOf(c, samples, isVoiced))
  {
    EachWindowIsJudged(c, samples, isVoiced, []);
    ConcatEmpty(VerdictsOf(c, samples, isVoiced));
  }

  /** `v` says for every window of the recording whether it is voiced. */
  ghost predicate Verdicts(c: Config, samples: seq<Sample>, isVoiced: seq<Sample> -> bool, v: seq<bool>) {
    Judged(c, samples, isVoiced, v) && !Exists(c, |samples|, |v|)
  }

  /** What the loop holds after some windows: the open run, and the runs closed so far with
      their regions. */
  datatype Scan = Scan(open: Option<nat>, runs: seq<Run>, regions: seq<Region>)

  function Look(c: Config, n: nat, s: Scan, i: nat, voiced: bool): Scan {
    if voiced then s.(open := Some(if s.open.Some? then s.open.value else i))
    else if s.open.Some? then
      var r := Run(s.open.value, i);
      Scan(None, s.runs + [r], s.regions + [RegionOf(c, n, r, true)])
    else s
  }

  function Scanned(c: Config, n: nat, v: seq<bool>): Scan {
    if v == [] then Scan(None, [], [])
    else
      var i := |v| - 1;
      Look(c, n, Scanned(c, n, v[..i]), i, v[i])
  }

  lemma {:induction false} ScannedIsSeen(c: Config, n: nat, v: seq<bool>)
    ensures var s := Scanned(c, n, v); Seen(c, n, v, s.open, s.runs, s.regions)
  {
    if v != [] {
      var i := |v| - 1;
      ScannedIsSeen(c, n, v[..i]);
      var s := Scanned(c, n, v[..i]);
      assert v[..i] + [v[i]] == v;
      if v[i] {
        SeeVoiced(c, n, v[..i], s.open, s.runs, s.regions);
      } else if s.open.Some? {
        SeeEnd(c, n, v[..i], s.open.value, s.runs, s.regions);
      } else {
        SeeSilent(c, n, v[..i], s.runs, s.regions);
      }
    }
  }

  /** All runs, and their regions, once the recording has ended. */
  function RunsOf(c: Config, n: nat, v: seq<bool>): seq<Run> {
    var s := Scanned(c, n, v);
    if s.open.Some? then s.runs + [Run(s.open.value, |v|)] else s.runs
  }

  function RegionsOf(c: Config, n: nat, v: seq<bool>): seq<Region> {
    var s := Scanned(c, n, v);
    if s.open.Some? then s.regions + [Region(StartMs(c, s.open.value), RecordedMs(n))] else s.regions
  }

  lemma RegionsComeFromRuns(c: Config, n: nat, v: seq<bool>)
    ensures RegionsAreRuns(c, n, v, RunsOf(c, n, v), RegionsOf(c, n, v))
  {
    ScannedIsSeen(c, n, v);
    var s := Scanned(c, n, v);
    SeenAll(c, n, v, s.open, s.runs, s.regions);
  }

  function StartOf(c: Config, open: Option<nat>): Option<nat> {
    if open.Some? then Some(StartMs(c, open.value)) else None
  }

  /** The loop's variables agree with the scan of the windows seen so far. */
  ghost predicate Tracks(c: Config, n: nat, v: seq<bool>, openStartMs: Option<nat>, regions: seq<Region>) {
    var s := Scanned(c, n, v);
    openStartMs == StartOf(c, s.open) && regions == s.regions
  }

  lemma TrackNext(c: Config, n: nat, v: seq<bool>, voiced: bool, openStartMs: Option<nat>, regions: seq<Region>)
    requires Tracks(c, n, v, openStartMs, regions)
    ensures voiced ==>
      Tracks(c, n, v + [true], if openStartMs.Some? then openStartMs else Some(StartMs(c, |v|)), regions)
    ensures !voiced ==> Tracks(c, n, v + [false], None,
      if openStartMs.Some? then regions + [Region(openStartMs.value, EndMs(c, n, |v|))] else regions)
  {
    assert (v + [voiced])[..|v|] == v;
  }

  method BuildRegions(c: Config, samples: seq<Sample>, isVoiced: seq<Sample> -> bool)
    returns (regions: seq<Region>)
    ensures regions == RegionsOf(c, |samples|, VerdictsOf(c, samples, isVoiced))
  {
    regions := [];
    ghost var v: seq<bool> := [];
    ConcatEmpty(VerdictsOf(c, samples, isVoiced));
    var openStartMs: Option<nat> := None;
    var index := 0;
    while Exists(c, |samples|, index)
      invariant |v| == index
      invariant v + VerdictsFrom(c, samples, isVoiced, index) == VerdictsOf(c, samples, isVoiced)
      invariant Tracks(c, |samples|, v, openStartMs, regions)
      decreases |samples| - index
    {
      WindowsAreFinite(c, |samples|, index);
      var startMs := StartMs(c, index);
      var endMs := EndMs(c, |samples|, index);
      var voiced := isVoiced(Chunk(c, samples, index));
      ConcatAssoc(v, [voiced], VerdictsFrom(c, samples, isVoiced, index + 1));
      TrackNext(c, |samples|, v, voiced, openStartMs, regions);
      if voiced {
        if openStartMs.None? { openStartMs := Some(startMs); }
      } else if openStartMs.Some? {
        regions := regions + [Region(openStartMs.value, endMs)];
        openStartMs := None;
      }
      v := v + [voiced];
      index := index + 1;
    }
    ConcatEmpty(v);
    if openStartMs.Some? {
      regions := regions + [Region(openStartMs.value, RecordedMs(|samples|))];
    }
  }

  /** In plain terms: a region starts with its first voiced window, and ends with the silent
      window behind its last, cut off at the end of the recording. */
  lemma RegionsInPlainTerms(c: Config, n: nat, v: seq<bool>, k: nat)
    requires k < |RegionsOf(c, n, v)|
    ensures k < |RunsOf(c, n, v)|
    ensures var run, region := RunsOf(c, n, v)[k], RegionsOf(c, n, v)[k];
      && region.startMs == run.first * c.windowMs
      && (run.end < |v| ==>
            region.endMs == if run.end * c.windowMs + c.windowMs <= n * 1000 / 16000
                            then run.end * c.windowMs + c.windowMs else n * 1000 / 16000)
      && (run.end == |v| ==> region.endMs == n * 1000 / 16000)
  {
    RegionsComeFromRuns(c, n, v);
  }

  /** Windows have 16 samples a millisecond, at least one in all, and leave no sample out. */
  lemma WindowsInPlainTerms(c: Config, samples: seq<Sample>, i: nat)
    ensures var w := if c.windowMs == 0 then 1 else 16 * c.windowMs;
      && (Exists(c, |samples|, i) <==> i * w < |samples|)
      && (Exists(c, |samples|, i) ==>
            var end := if i * w + w <= |samples| then i * w + w else |samples|;
            Chunk(c, samples, i) == samples[i * w..end])
  {
  }

  // ----- where the regions lie -----

  /** Regions are sorted and disjoint, inside the recording. */
  ghost predicate InOrder(regions: seq<Region>, recorded: nat) {
    && (forall k :: 0 <= k < |regions| ==> regions[k].startMs <= regions[k].endMs <= recorded)
    && (forall k :: 0 < k < |regions| ==> regions[k - 1].endMs <= regions[k].startMs)
  }

  lemma WindowInRecording(c: Config, n: nat, i: nat)
    requires Exists(c, n, i)
    ensures StartMs(c, i) <= RecordedMs(n)
  {
    var w := c.windowMs;
    if w == 0 {
      assert StartMs(c, i) == 0;
    } else {
      assert WindowSamples(c) == 16 * w;
      assert i * (16 * w) == 16 * (i * w);
    }
  }

  lemma ClosedBefore(c: Config, n: nat, r: Run, next: Run)
    requires r.end < next.first
    ensures EndMs(c, n, r.end) <= StartMs(c, next.first)
  {
    TimesMonotone(r.end + 1, next.first, c.windowMs);
    assert (r.end + 1) * c.windowMs == StartMs(c, r.end) + c.windowMs;
  }

  lemma RegionsInOrder(c: Config, samples: seq<Sample>, isVoiced: seq<Sample> -> bool,
                       v: seq<bool>, runs: seq<Run>, regions: seq<Region>)
    requires Verdicts(c, samples, isVoiced, v) && RegionsAreRuns(c, |samples|, v, runs, regions)
    ensures InOrder(regions, RecordedMs(|samples|))
  {
    forall k | 0 <= k < |regions|
      ensures regions[k].startMs <= regions[k].endMs <= RecordedMs(|samples|)
      ensures k > 0 ==> regions[k - 1].endMs <= regions[k].startMs
    {
      var r := runs[k];
      assert IsRun(v, r);
      WindowInRecording(c, |samples|, r.first);
      TimesMonotone(r.first, r.end, c.windowMs);
      if k > 0 {
        assert IsRun(v, runs[k - 1]);
        ClosedBefore(c, |samples|, runs[k - 1], r);
        assert regions[k - 1] == RegionOf(c, |samples|, runs[k - 1], true);
      }
    }
  }

  ghost predicate Covers(c: Config, n: nat, r: Region, i: nat) {
    r.startMs <= StartMs(c, i) && EndMs(c, n, i) <= r.endMs
  }

  /** Every voiced window lies inside one region. */
  lemma VoicedWindowsAreCovered(c: Config, samples: seq<Sample>, isVoiced: seq<Sample> -> bool,
                                v: seq<bool>, runs: seq<Run>, regions: seq<Region>, i: nat)
    requires Verdicts(c, samples, isVoiced, v) && RegionsAreRuns(c, |samples|, v, runs, regions)
    requires i < |v| && v[i]
    ensures exists k :: 0 <= k < |regions| && Covers(c, |samples|, regions[k], i)
  {
    var k :| 0 <= k < |runs| && InRun(runs[k], i);
    TimesMonotone(runs[k].first, i, c.windowMs);
    TimesMonotone(i, runs[k].end, c.windowMs);
    assert regions[k] == RegionOf(c, |samples|, runs[k], runs[k].end < |v|);
    assert Covers(c, |samples|, regions[k], i);
  }

  // ----- durations and gaps -----

  function VoicedTotal(regions: seq<Region>): nat {
    if regions == [] then 0
    else
      var r := regions[|regions| - 1];
      VoicedTotal(regions[..|regions| - 1]) + Minus(r.endMs, r.startMs)
  }

  /** The gap before region `k`. */
  function Gap(regions: seq<Region>, k: nat): nat
    requires 0 < k < |regions|
  {
    Minus(regions[k].startMs, regions[k - 1].endMs)
  }

  function GapTotal(regions: seq<Region>): nat {
    if |regions| <= 1 then 0 else GapTotal(regions[..|regions| - 1]) + Gap(regions, |regions| - 1)
  }

  /** Nothing is counted twice and nothing is clamped: the silence before the first region,
      the regions, the gaps and the silence after the last one make up the recording. */
  lemma {:induction false} RecordingIsPartitioned(regions: seq<Region>, recorded: nat)
    requires InOrder(regions, recorded) && regions != []
    ensures var last := regions[|regions| - 1];
      && regions[0].startMs + VoicedTotal(regions) + GapTotal(regions) == last.endMs
      && regions[0].startMs + VoicedTotal(regions) + GapTotal(regions) + (recorded - last.endMs) == recorded
  {
    var p := regions[..|regions| - 1];
    if p == [] {
      assert VoicedTotal(p) == 0;
    } else {
      RecordingIsPartitioned(p, recorded);
      assert forall k :: 0 < k < |p| ==> Gap(p, k) == Gap(regions, k);
    }
  }

  function CountGaps(regions: seq<Region>, atLeast: nat, below: Option<nat>): nat {
    if |regions| <= 1 then 0
    else
      var g := Gap(regions, |regions| - 1);
      CountGaps(regions[..|regions| - 1], atLeast, below)
        + if g >= atLeast && (below.None? || g < below.value) then 1 else 0
  }

  /** The count is the number of gaps that are long enough, and short enough. */
  lemma {:induction false} CountGapsIsNumber(regions: seq<Region>, atLeast: nat, below: Option<nat>)
    ensures CountGaps(regions, atLeast, below) == |GapsWithin(regions, atLeast, below)|
  {
    if |regions| <= 1 {
      assert GapsWithin(regions, atLeast, below) == {};
    } else {
      var n := |regions| - 1;
      CountGapsIsNumber(regions[..n], atLeast, below);
      LastGap(regions, n, atLeast, below);
    }
  }

  lemma LastGap(regions: seq<Region>, n: nat, atLeast: nat, below: Option<nat>)
    requires 0 < n == |regions| - 1
    ensures GapsWithin(regions, atLeast, below) == GapsWithin(regions[..n], atLeast, below)
      + if GapWithin(regions, n, atLeast, below) then {n} else {}
    ensures n !in GapsWithin(regions[..n], atLeast, below)
  {
    forall k | 0 < k < n
      ensures GapWithin(regions[..n], k, atLeast, below) == GapWithin(regions, k, atLeast, below)
    {
    }
  }

  /** The silence before region `k`, none if it starts before the last one ends, is at least
      `atLeast`, and shorter than `below` if that is given. */
  predicate GapWithin(regions: seq<Region>, k: int, atLeast: nat, below: Option<nat>) {
    && 0 < k < |regions|
    && var gap := if regions[k].startMs > regions[k - 1].endMs then regions[k].startMs - regions[k - 1].endMs else 0;
    gap >= atLeast && (below.Some? ==> gap < below.value)
  }

  ghost function GapsWithin(regions: seq<Region>, atLeast: nat, below: Option<nat>): set<int> {
    set k | 0 < k < |regions| && GapWithin(regions, k, atLeast, below)
  }

  ghost predicate IsLongestGap(regions: seq<Region>, longest: nat) {
    && (forall k :: 0 < k < |regions| ==> Gap(regions, k) <= longest)
    && (longest > 0 ==> exists k :: 0 < k < |regions| && Gap(regions, k) == longest)
  }

  method MeasureGaps(c: Config, regions: seq<Region>) returns (longest: nat, over: nat, stutters: nat)
    ensures IsLongestGap(regions, longest)
    ensures over == CountGaps(regions, c.gapThresholdMs, None)
    ensures stutters == CountGaps(regions, 1, Some(c.stutterGapMs))
  {
    longest, over, stutters := 0, 0, 0;
    var k := 1;
    while k < |regions|
      invariant 1 <= k && (k <= |regions| || k == 1)
      invariant forall j :: 0 < j < k && j < |regions| ==> Gap(regions, j) <= longest
      invariant longest > 0 ==> exists j :: 0 < j < k && j < |regions| && Gap(regions, j) == longest
      invariant k <= |regions| ==> over == CountGaps(regions[..k], c.gapThresholdMs, None)
      invariant k <= |regions| ==> stutters == CountGaps(regions[..k], 1, Some(c.stutterGapMs))
      invariant k > |regions| ==> over == stutters == 0
    {
      var gap := Gap(regions, k);
      assert regions[..k + 1][..k] == regions[..k] && Gap(regions[..k + 1], k) == gap;
      if gap > longest { longest := gap; }
      if gap >= c.gapThresholdMs { over := over + 1; }
      if gap > 0 && gap < c.stutterGapMs { stutters := stutters + 1; }
      k := k + 1;
    }
    if regions != [] { assert regions[..k] == regions; }
  }

  /** The first region that ends after the caller stopped talking. */
  function FirstResponse(regions: seq<Region>, txFinished: nat): Option<nat> {
    if regions == [] then None
    else if regions[0].endMs <= txFinished then FirstResponse(regions[1..], txFinished)
    else Some(Minus(regions[0].startMs, txFinished))
  }

  /** Region `k` is the first that is not over by `txFinished`, and starts `delay` after it. */
  ghost predicate Responds(regions: seq<Region>, k: int, txFinished: nat, delay: nat) {
    && 0 <= k < |regions| && regions[k].endMs > txFinished
    && (forall j :: 0 <= j < k ==> regions[j].endMs <= txFinished)
    && (regions[k].startMs <= txFinished ==> delay == 0)
    && (regions[k].startMs > txFinished ==> txFinished + delay == regions[k].startMs)
  }

  lemma {:induction false} FirstResponseIsFirst(regions: seq<Region>, txFinished: nat)
    ensures var r := FirstResponse(regions, txFinished);
      && (r.None? <==> forall k :: 0 <= k < |regions| ==> regions[k].endMs <= txFinished)
      && (r.Some? ==> exists k :: Responds(regions, k, txFinished, r.value))
  {
    if regions != [] && regions[0].endMs <= txFinished {
      var t := regions[1..];
      FirstResponseIsFirst(t, txFinished);
      if FirstResponse(t, txFinished).Some? {
        var k :| Responds(t, k, txFinished, FirstResponse(t, txFinished).value);
        assert Responds(regions, k + 1, txFinished, FirstResponse(t, txFinished).value);
      } else {
        assert forall k :: 0 < k < |regions| ==> regions[k] == t[k - 1];
      }
    } else if regions != [] {
      assert Responds(regions, 0, txFinished, Minus(regions[0].startMs, txFinished));
    }
  }

  // ----- the whole analysis -----

  method AnalyzeReceivedAudio(c: Config, samples: seq<Sample>, txFinished: nat, isVoiced: seq<Sample> -> bool)
    returns (a: CallAnalysis)
    ensures a.regions == RegionsOf(c, |samples|, VerdictsOf(c, samples, isVoiced))
    ensures InOrder(a.regions, a.recordedMs) && a.recordedMs == RecordedMs(|samples|)
    ensures a.voicedMs == VoicedTotal(a.regions) && a.voicedMs + a.silenceMs == a.recordedMs
    ensures a.recordedMs == |samples| * 1000 / 16000 && (a.regions == [] ==> a.voicedMs == 0)
    ensures a.gapsOverThreshold == |GapsWithin(a.regions, c.gapThresholdMs, None)|
    ensures a.stutters == |GapsWithin(a.regions, 1, Some(c.stutterGapMs))|
    ensures a.firstResponseMs == FirstResponse(a.regions, txFinished)
    ensures IsLongestGap(a.regions, a.longestGapMs)
    ensures a.gapsOverThreshold == CountGaps(a.regions, c.gapThresholdMs, None)
    ensures a.stutters == CountGaps(a.regions, 1, Some(c.stutterGapMs))
  {
    var recorded := RecordedMs(|samples|);
    var regions := BuildRegions(c, samples, isVoiced);
    ghost var v := VerdictsOf(c, samples, isVoiced);
    WindowsAreJudged(c, samples, isVoiced);
    RegionsComeFromRuns(c, |samples|, v);
    RegionsInOrder(c, samples, isVoiced, v, RunsOf(c, |samples|, v), regions);
    if regions != [] { RecordingIsPartitioned(regions, recorded); }
    CountGapsIsNumber(regions, c.gapThresholdMs, None);
    CountGapsIsNumber(regions, 1, Some(c.stutterGapMs));
    var voiced := Min(VoicedTotal(regions), recorded);
    var longest, over, stutters := MeasureGaps(c, regions);
    a := CallAnalysis(recorded, voiced, Minus(recorded, voiced), FirstResponse(regions, txFinished),
                      longest, over, stutters, regions);
  }
}
