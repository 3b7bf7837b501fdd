/** Reading a streamed chat completion: `stream_completion` of crates/agent/src/openai.rs.
    Parsing the JSON of one data line is a parameter. */
module LlmStream {
  import opened Text

  const MAX_PARALLEL_TOOL_CALLS: nat := 32

  datatype ToolDelta = ToolDelta(
    index: Option<nat>, id: Option<string>, name: Option<string>, arguments: Option<string>)

  datatype Choice = Choice(content: Option<string>, toolCalls: seq<ToolDelta>)

  type Json = string -> Option<seq<Choice>>

  /** Id, name and arguments of one tool call, as far as they have arrived. */
  datatype Slot = Slot(id: string, name: string, arguments: string)

  const EMPTY_SLOT := Slot("", "", "")

  /** `partials` are the partial responses sent so far. */
  datatype Reply = Reply(fullText: string, calls: seq<Slot>, partials: seq<string>)

  const INIT := Reply("", [], [])

  // ----- lines -----

  datatype Lines = Lines(lines: seq<string>, rest: string)

  function FindNewline(t: string): (r: Option<nat>)
    ensures r.Some? ==> r.value < |t| && t[r.value] == '\n'
  {
    if t == "" then None
    else if t[0] == '\n' then Some(0)
    else
      match FindNewline(t[1..])
      case None => None
      case Some(k) => Some(k + 1)
  }

  function SplitLines(t: string): Lines
    decreases |t|
  {
    match FindNewline(t)
    case None => Lines([], t)
    case Some(k) =>
      var tail := SplitLines(t[k + 1..]);
      Lines([t[..k]] + tail.lines, tail.rest)
  }

  function Terminated(lines: seq<string>): string {
    if lines == [] then "" else lines[0] + "\n" + Terminated(lines[1..])
  }

  predicate OneLine(t: string) { '\n' !in t }

  lemma {:induction false} FindNewlineIsFirst(t: string)
    ensures FindNewline(t).None? <==> OneLine(t)
    ensures FindNewline(t).Some? ==> OneLine(t[..FindNewline(t).value])
  {
    if t != "" && t[0] != '\n' {
      FindNewlineIsFirst(t[1..]);
      assert t == [t[0]] + t[1..];
      if FindNewline(t).Some? {
        var k := FindNewline(t[1..]).value;
        assert t[..k + 1] == [t[0]] + t[1..][..k];
      }
    }
  }

  /** The lines are exactly the newline-terminated lines of the text. */
  lemma {:induction false} SplitLinesIsExact(t: string)
    ensures IsSplit(t, SplitLines(t))
    decreases |t|
  {
    FindNewlineIsFirst(t);
    match FindNewline(t) {
      case None =>
        ConcatEmpty(t);
      case Some(k) =>
        SplitLinesIsExact(t[k + 1..]);
        SplitCons(t, k, SplitLines(t[k + 1..]));
    }
  }

  ghost predicate IsSplit(t: string, s: Lines) {
    && Terminated(s.lines) + s.rest == t
    && OneLine(s.rest)
    && forall k :: 0 <= k < |s.lines| ==> OneLine(s.lines[k])
  }

  lemma SplitCons(t: string, k: nat, tail: Lines)
    requires k < |t| && t[k] == '\n' && OneLine(t[..k]) && IsSplit(t[k + 1..], tail)
    ensures IsSplit(t, Lines([t[..k]] + tail.lines, tail.rest))
  {
    TerminatedCons(t, k, tail);
  }

  lemma TerminatedCons(t: string, k: nat, tail: Lines)
    requires k < |t| && t[k] == '\n' && Terminated(tail.lines) + tail.rest == t[k + 1..]
    ensures Terminated([t[..k]] + tail.lines) + tail.rest == t
  {
    assert ([t[..k]] + tail.lines)[1..] == tail.lines;
    assert t == t[..k] + "\n" + t[k + 1..];
    ConcatAssoc(t[..k] + "\n", Terminated(tail.lines), tail.rest);
  }

  lemma {:induction false} FindNewlineAppend(a: string, b: string)
    requires FindNewline(a).Some?
    ensures FindNewline(a + b) == FindNewline(a)
  {
    if a[0] != '\n' {
      FindNewlineAppend(a[1..], b);
      assert (a + b)[1..] == a[1..] + b;
    }
  }

  lemma SlicesAppend(a: string, b: string, k: nat)
    requires k < |a|
    ensures (a + b)[..k] == a[..k] && (a + b)[k + 1..] == a[k + 1..] + b
  {
  }

  /** Where the text is cut into chunks makes no difference to its lines. */
  lemma {:induction false} SplitLinesAppend(a: string, b: string)
    ensures var s := SplitLines(a); var u := SplitLines(s.rest + b);
      SplitLines(a + b) == Lines(s.lines + u.lines, u.rest)
    decreases |a|
  {
    match FindNewline(a) {
      case None =>
        ConcatEmpty(SplitLines(a + b).lines);
      case Some(k) =>
        FindNewlineAppend(a, b);
        SlicesAppend(a, b, k);
        SplitLinesAppend(a[k + 1..], b);
        var s := SplitLines(a[k + 1..]);
        ConcatAssoc([a[..k]], s.lines, SplitLines(s.rest + b).lines);
    }
  }

  // ----- one line -----

  const PREFIX := "data: "

  function Parse(data: string, json: Json): Option<seq<Choice>> {
    json(data)
  }

  /** The choices of a data line; other lines and lines that do not parse have none. */
  function ChoicesOf(line: string, json: Json): seq<Choice> {
    var t := Trim(line);
    if t == "" || !(PREFIX <= t) then []
    else
      var data := t[|PREFIX|..];
      if data == "[DONE]" then []
      else
        match Parse(data, json)
        case None => []
        case Some(choices) => choices
  }

  /** A data line, with whatever blanks around it, stands for the choices that the text behind
      `data: ` parses to. */
  lemma DataLine(before: string, d: string, after: string, json: Json)
    requires AllBlank(before) && AllBlank(after)
    requires d != "" && !IsWhitespace(d[|d| - 1]) && d != "[DONE]"
    ensures ChoicesOf(before + ("data: " + d) + after, json) ==
      match json(d) case None => [] case Some(choices) => choices
  {
    var t := "data: " + d;
    assert t[0] == 'd' && t[|t| - 1] == d[|d| - 1] && t[6..] == d;
    TrimOf(before, t, after);
    assert "data: " <= t;
  }

  lemma DoneLine(before: string, after: string, json: Json)
    requires AllBlank(before) && AllBlank(after)
    ensures ChoicesOf(before + "data: [DONE]" + after, json) == []
  {
    var t := "data: [DONE]";
    assert t[6..] == "[DONE]";
    TrimOf(before, t, after);
  }

  /** Any other line stands for nothing. */
  lemma OtherLine(line: string, json: Json)
    requires !("data: " <= Trim(line))
    ensures ChoicesOf(line, json) == []
  {
  }

  function Grow(calls: seq<Slot>, n: nat): seq<Slot>
    decreases n - |calls|
  {
    if |calls| >= n then calls else Grow(calls + [EMPTY_SLOT], n)
  }

  function Or(o: Option<string>, old_: string): string {
    if o.Some? then o.value else old_
  }

  function Merge(s: Slot, d: ToolDelta): Slot {
    Slot(Or(d.id, s.id), Or(d.name, s.name), s.arguments + Or(d.arguments, ""))
  }

  function IndexOf(d: ToolDelta): nat { if d.index.Some? then d.index.value else 0 }

  function AddDelta(calls: seq<Slot>, d: ToolDelta): (r: seq<Slot>) {
    var i := IndexOf(d);
    if i >= MAX_PARALLEL_TOOL_CALLS then calls
    else
      var grown := Grow(calls, i + 1);
      GrowLength(calls, i + 1);
      grown[i := Merge(grown[i], d)]
  }

  lemma {:induction false} GrowLength(calls: seq<Slot>, n: nat)
    ensures |Grow(calls, n)| == if |calls| >= n then |calls| else n
    decreases n - |calls|
  {
    if |calls| < n { GrowLength(calls + [EMPTY_SLOT], n); }
  }

  function AddDeltas(calls: seq<Slot>, ds: seq<ToolDelta>): seq<Slot> {
    if ds == [] then calls else AddDelta(AddDeltas(calls, ds[..|ds| - 1]), ds[|ds| - 1])
  }

  function AddChoice(r: Reply, c: Choice): Reply {
    var said := if c.content.Some? then [c.content.value] else [];
    Reply(r.fullText + Or(c.content, ""), AddDeltas(r.calls, c.toolCalls), r.partials + said)
  }

  function AddChoices(r: Reply, cs: seq<Choice>): Reply {
    if cs == [] then r else AddChoice(AddChoices(r, cs[..|cs| - 1]), cs[|cs| - 1])
  }

  function AddLines(r: Reply, lines: seq<string>, json: Json): Reply {
    if lines == [] then r
    else AddChoices(AddLines(r, lines[..|lines| - 1], json), ChoicesOf(lines[|lines| - 1], json))
  }

  lemma {:induction false} AddLinesConcat(r: Reply, a: seq<string>, b: seq<string>, json: Json)
    ensures AddLines(r, a + b, json) == AddLines(AddLines(r, a, json), b, json)
  {
    if b == [] {
      assert a + b == a;
    } else {
      assert (a + b)[..|a + b| - 1] == a + b[..|b| - 1];
      AddLinesConcat(r, a, b[..|b| - 1], json);
    }
  }

  /** A reply and the unfinished line that follows what it was read from. */
  datatype Drained = Drained(reply: Reply, rest: string)

  /** Reading line by line until no newline is left. */
  function Drain(r: Reply, buffer: string, json: Json): Drained
    decreases |buffer|
  {
    match FindNewline(buffer)
    case None => Drained(r, buffer)
    case Some(k) => Drain(AddChoices(r, ChoicesOf(buffer[..k], json)), buffer[k + 1..], json)
  }

  lemma {:induction false} DrainsLines(r: Reply, buffer: string, json: Json)
    ensures var s := SplitLines(buffer);
      Drain(r, buffer, json) == Drained(AddLines(r, s.lines, json), s.rest)
    decreases |buffer|
  {
    match FindNewline(buffer) {
      case None =>
      case Some(k) =>
        var line, tail := buffer[..k], buffer[k + 1..];
        DrainsLines(AddChoices(r, ChoicesOf(line, json)), tail, json);
        FirstLine(r, line, json);
        AddLinesConcat(r, [line], SplitLines(tail).lines, json);
    }
  }

  lemma LineSlices(buffer: string, left: string, from: nat, to: nat, line: string, tail: string)
    requires from <= to < |buffer| && left == buffer[from..]
    requires line == buffer[from..to] && tail == buffer[to + 1..]
    ensures line == left[..to - from] && tail == left[to - from + 1..]
  {
  }

  lemma DrainOne(r: Reply, left: string, k: nat, line: string, tail: string, json: Json)
    requires FindNewline(left) == Some(k) && line == left[..k] && tail == left[k + 1..]
    ensures Drain(r, left, json) == Drain(AddChoices(r, ChoicesOf(line, json)), tail, json)
  {
  }

  lemma DrainSlice(r: Reply, buffer: string, left: string, from: nat, to: nat, line: string, tail: string, json: Json)
    requires from <= to < |buffer| && left == buffer[from..] && FindNewline(left) == Some(to - from)
    requires line == buffer[from..to] && tail == buffer[to + 1..]
    ensures Drain(r, left, json) == Drain(AddChoices(r, ChoicesOf(line, json)), tail, json)
  {
    LineSlices(buffer, left, from, to, line, tail);
    DrainOne(r, left, to - from, line, tail, json);
  }

  lemma FirstLine(r: Reply, line: string, json: Json)
    ensures AddLines(r, [line], json) == AddChoices(r, ChoicesOf(line, json))
  {
    assert [line][..0] == [];
  }

  // ----- the object -----

  /** The variables of the reading loop. */
  class Reader {
    const json: Json
    var lineBuffer: string
    var fullText: string
    var calls: seq<Slot>
    var partials: seq<string>

    ghost function Abs(): Reply
      reads this
    {
      Reply(fullText, calls, partials)
    }

    constructor (json: Json)
      ensures Abs() == INIT && lineBuffer == "" && this.json == json
    {
      this.json := json;
      lineBuffer, fullText, calls, partials := "", "", [], [];
    }

    method HandleDelta(d: ToolDelta)
      modifies this`calls
      ensures calls == AddDelta(old(calls), d)
    {
      var index := if d.index.Some? then d.index.value else 0;
      if index >= MAX_PARALLEL_TOOL_CALLS { return; }
      ghost var target := Grow(calls, index + 1);
      GrowLength(calls, index + 1);
      while |calls| <= index
        invariant Grow(calls, index + 1) == target
        decreases index + 1 - |calls|
      {
        calls := calls + [EMPTY_SLOT];
      }
      var slot := calls[index];
      if d.id.Some? { slot := slot.(id := d.id.value); }
      if d.name.Some? { slot := slot.(name := d.name.value); }
      if d.arguments.Some? {
        slot := slot.(arguments := slot.arguments + d.arguments.value);
      } else {
        ConcatEmpty(slot.arguments);
      }
      calls := calls[index := slot];
    }

    method HandleChoice(c: Choice)
      modifies this`fullText, this`partials, this`calls
      ensures Abs() == AddChoice(old(Abs()), c)
    {
      if c.content.Some? {
        fullText := fullText + c.content.value;
        partials := partials + [c.content.value];
      } else {
        ConcatEmpty(fullText);
        ConcatEmpty(partials);
      }
      ghost var r := Abs();
      for i := 0 to |c.toolCalls|
        invariant Abs() == r.(calls := calls) && calls == AddDeltas(old(calls), c.toolCalls[..i])
      {
        assert c.toolCalls[..i + 1][..i] == c.toolCalls[..i];
        HandleDelta(c.toolCalls[i]);
      }
      assert c.toolCalls[..|c.toolCalls|] == c.toolCalls;
    }

    method HandleLine(line: string)
      modifies this`fullText, this`partials, this`calls
      ensures Abs() == AddChoices(old(Abs()), ChoicesOf(line, json))
    {
      var trimmed := Trim(line);
      if trimmed == "" || !(PREFIX <= trimmed) { return; }
      var data := trimmed[|PREFIX|..];
      if data == "[DONE]" { return; }
      var parsed := Parse(data, json);
      if parsed == None { return; }
      for i := 0 to |parsed.value|
        invariant Abs() == AddChoices(old(Abs()), parsed.value[..i])
      {
        assert parsed.value[..i + 1][..i] == parsed.value[..i];
        HandleChoice(parsed.value[i]);
      }
      assert parsed.value[..|parsed.value|] == parsed.value == ChoicesOf(line, json);
    }

    /** Handles the complete lines of the buffer and says how much of it they take up. */
    method HandleLines(buffer: string) returns (consumed: nat)
      modifies this`fullText, this`partials, this`calls
      ensures consumed <= |buffer| && Drained(Abs(), buffer[consumed..]) == Drain(old(Abs()), buffer, json)
    {
      ghost var goal, left := Drain(Abs(), buffer, json), buffer;
      consumed := 0;
      while true
        invariant consumed <= |buffer| && left == buffer[consumed..]
        invariant Drain(Abs(), left, json) == goal
        decreases |buffer| - consumed
      {
        var rel := FindNewline(buffer[consumed..]);
        if rel == None { return; }
        var abs := consumed + rel.value;
        var line := buffer[consumed..abs];
        ghost var tail := buffer[abs + 1..];
        DrainSlice(Abs(), buffer, left, consumed, abs, line, tail, json);
        HandleLine(line);
        left := tail;
        consumed := abs + 1;
      }
    }

    /** One chunk of the body: its complete lines are handled, the rest stays buffered. */
    method Feed(chunk: string)
      modifies this
      ensures var s := SplitLines(old(lineBuffer) + chunk);
        Abs() == AddLines(old(Abs()), s.lines, json) && lineBuffer == s.rest
    {
      lineBuffer := lineBuffer + chunk;
      DrainsLines(Abs(), lineBuffer, json);
      var consumed := HandleLines(lineBuffer);
      lineBuffer := lineBuffer[consumed..];
    }
  }

  datatype ToolCall = ToolCall(id: string, name: string, arguments: string)

  /** The slots that were both identified and named, in index order. */
  function Finalize(calls: seq<Slot>): seq<ToolCall> {
    if calls == [] then []
    else
      var n := |calls| - 1;
      var s := calls[n];
      Finalize(calls[..n]) + if s.id != "" && s.name != "" then [ToolCall(s.id, s.name, s.arguments)] else []
  }

  datatype Arrival = Chunk(text: string) | Broken | CancelSeen

  datatype Final = Final(text: string, toolCalls: seq<ToolCall>)

  function BodyOf(body: seq<Arrival>): string {
    if body == [] then ""
    else
      var n := |body| - 1;
      BodyOf(body[..n]) + if body[n].Chunk? then body[n].text else ""
  }

  /** How many chunks arrive before the stream breaks, is cancelled or ends. */
  function Chunks(body: seq<Arrival>): (n: nat)
    ensures n <= |body|
  {
    if body == [] || !body[0].Chunk? then 0 else 1 + Chunks(body[1..])
  }

  lemma {:induction false} ChunksUpTo(body: seq<Arrival>, n: nat)
    requires n <= |body| && Complete(body[..n]) && (n < |body| ==> !body[n].Chunk?)
    ensures Chunks(body) == n
  {
    if n > 0 {
      assert body[..n][0] == body[0] && body[1..][..n - 1] == body[..n][1..];
      ChunksUpTo(body[1..], n - 1);
    }
  }

  predicate Complete(body: seq<Arrival>) {
    forall i :: 0 <= i < |body| ==> body[i].Chunk?
  }

  /** What the loop holds once the text `t` has arrived. */
  ghost predicate ReadSoFar(t: string, json: Json, r: Reply, buffer: string) {
    var s := SplitLines(t);
    r == AddLines(INIT, s.lines, json) && buffer == s.rest
  }

  lemma ReadMore(t: string, json: Json, r: Reply, buffer: string, chunk: string)
    requires ReadSoFar(t, json, r, buffer)
    ensures var u := SplitLines(buffer + chunk);
      ReadSoFar(t + chunk, json, AddLines(r, u.lines, json), u.rest)
  {
    SplitLinesAppend(t, chunk);
    AddLinesConcat(INIT, SplitLines(t).lines, SplitLines(buffer + chunk).lines, json);
  }

  /** Reads a whole body. What it sends depends on the text that arrives only, not on how it
      was cut; a broken or cancelled stream has no final response. */
  method StreamCompletion(body: seq<Arrival>, json: Json) returns (partials: seq<string>, final: Option<Final>)
    ensures final.Some? <==> Complete(body)
    ensures var r := AddLines(INIT, SplitLines(BodyOf(body[..Chunks(body)])).lines, json);
      && partials == r.partials
      && (final.Some? ==> Chunks(body) == |body| && final == Some(Final(r.fullText, Finalize(r.calls))))
  {
    var reader := new Reader(json);
    for i := 0 to |body|
      invariant fresh(reader) && reader.json == json
      invariant Complete(body[..i])
      invariant ReadSoFar(BodyOf(body[..i]), json, reader.Abs(), reader.lineBuffer)
    {
      if !body[i].Chunk? {
        ChunksUpTo(body, i);
        return reader.partials, None;
      }
      assert body[..i + 1][..i] == body[..i];
      ReadMore(BodyOf(body[..i]), json, reader.Abs(), reader.lineBuffer, body[i].text);
      reader.Feed(body[i].text);
    }
    assert body[..|body|] == body;
    ChunksUpTo(body, |body|);
    return reader.partials, Some(Final(reader.fullText, Finalize(reader.calls)));
  }

  // ----- what has accumulated -----

  function AllChoices(lines: seq<string>, json: Json): seq<Choice> {
    if lines == [] then [] else AllChoices(lines[..|lines| - 1], json) + ChoicesOf(lines[|lines| - 1], json)
  }

  function AllDeltas(cs: seq<Choice>): seq<ToolDelta> {
    if cs == [] then [] else AllDeltas(cs[..|cs| - 1]) + cs[|cs| - 1].toolCalls
  }

  function Contents(cs: seq<Choice>): seq<string> {
    if cs == [] then []
    else
      var n := |cs| - 1;
      Contents(cs[..n]) + if cs[n].content.Some? then [cs[n].content.value] else []
  }

  /** The argument fragments of one index, in order. */
  function Fragments(ds: seq<ToolDelta>, i: nat): string {
    if ds == [] then ""
    else
      var d := ds[|ds| - 1];
      Fragments(ds[..|ds| - 1], i) + if IndexOf(d) == i then Or(d.arguments, "") else ""
  }

  /** The last id and the last name given for one index. */
  function LastId(ds: seq<ToolDelta>, i: nat): string {
    if ds == [] then ""
    else
      var d := ds[|ds| - 1];
      if IndexOf(d) == i && d.id.Some? then d.id.value else LastId(ds[..|ds| - 1], i)
  }

  function LastName(ds: seq<ToolDelta>, i: nat): string {
    if ds == [] then ""
    else
      var d := ds[|ds| - 1];
      if IndexOf(d) == i && d.name.Some? then d.name.value else LastName(ds[..|ds| - 1], i)
  }

  function SlotAt(calls: seq<Slot>, i: nat): Slot {
    if i < |calls| then calls[i] else EMPTY_SLOT
  }

  lemma {:induction false} GrowKeepsSlots(calls: seq<Slot>, n: nat, i: nat)
    ensures SlotAt(Grow(calls, n), i) == SlotAt(calls, i)
    decreases n - |calls|
  {
    if |calls| < n { GrowKeepsSlots(calls + [EMPTY_SLOT], n, i); }
  }

  /** Per index: the last id and name, and the fragments concatenated in order. Indices out
      of range leave no trace. */
  lemma {:induction false} SlotsAccumulate(ds: seq<ToolDelta>, i: nat)
    requires i < MAX_PARALLEL_TOOL_CALLS
    ensures SlotAt(AddDeltas([], ds), i) == Slot(LastId(ds, i), LastName(ds, i), Fragments(ds, i))
    ensures |AddDeltas([], ds)| <= MAX_PARALLEL_TOOL_CALLS
  {
    if ds != [] {
      var d := ds[|ds| - 1];
      var before := AddDeltas([], ds[..|ds| - 1]);
      SlotsAccumulate(ds[..|ds| - 1], i);
      GrowLength(before, IndexOf(d) + 1);
      GrowKeepsSlots(before, IndexOf(d) + 1, i);
      ConcatEmpty(Fragments(ds[..|ds| - 1], i));
    }
  }

  /** A fragment without an index belongs to call 0, and those from index 32 on to none. */
  lemma FragmentsByIndex(d: ToolDelta, i: nat)
    ensures IndexOf(d) == (if d.index.None? then 0 else d.index.value)
    ensures IndexOf(d) >= 32 ==> AddDeltas([], [d]) == []
    ensures IndexOf(d) < 32 ==> |AddDeltas([], [d])| == IndexOf(d) + 1
  {
    assert [d][..0] == [];
    assert AddDeltas([], [d]) == AddDelta([], d);
    GrowLength([], IndexOf(d) + 1);
  }

  /** A slot becomes a call exactly if it has both an id and a name; calls keep their order. */
  lemma {:induction false} FinalizeConcat(a: seq<Slot>, b: seq<Slot>)
    ensures Finalize(a + b) == Finalize(a) + Finalize(b)
  {
    if b == [] {
      assert a + b == a;
    } else {
      var n := |b| - 1;
      assert (a + b)[..|a + b| - 1] == a + b[..n];
      FinalizeConcat(a, b[..n]);
    }
  }

  lemma FinalizeOne(s: Slot)
    ensures Finalize([s]) == if s.id != "" && s.name != "" then [ToolCall(s.id, s.name, s.arguments)] else []
  {
    assert [s][..0] == [];
  }

  lemma {:induction false} AddDeltasConcat(calls: seq<Slot>, a: seq<ToolDelta>, b: seq<ToolDelta>)
    ensures AddDeltas(calls, a + b) == AddDeltas(AddDeltas(calls, a), b)
  {
    if b == [] {
      assert a + b == a;
    } else {
      assert (a + b)[..|a + b| - 1] == a + b[..|b| - 1];
      AddDeltasConcat(calls, a, b[..|b| - 1]);
    }
  }

  /** A reply is the contents and tool deltas of its choices, nothing else. */
  lemma {:induction false} ChoicesAccumulate(cs: seq<Choice>)
    ensures AddChoices(INIT, cs) == Reply(Flatten(Contents(cs)), AddDeltas([], AllDeltas(cs)), Contents(cs))
  {
    if cs != [] {
      var n := |cs| - 1;
      ChoicesAccumulate(cs[..n]);
      AddDeltasConcat([], AllDeltas(cs[..n]), cs[n].toolCalls);
      var said := if cs[n].content.Some? then [cs[n].content.value] else [];
      FlattenConcat(Contents(cs[..n]), said);
      if said != [] {
        assert said[1..] == [];
        ConcatEmpty(cs[n].content.value);
      }
    }
  }

  lemma {:induction false} AddChoicesConcat(r: Reply, a: seq<Choice>, b: seq<Choice>)
    ensures AddChoices(r, a + b) == AddChoices(AddChoices(r, a), b)
  {
    if b == [] {
      assert a + b == a;
    } else {
      assert (a + b)[..|a + b| - 1] == a + b[..|b| - 1];
      AddChoicesConcat(r, a, b[..|b| - 1]);
    }
  }

  lemma {:induction false} LinesAccumulate(lines: seq<string>, json: Json)
    ensures AddLines(INIT, lines, json) == AddChoices(INIT, AllChoices(lines, json))
  {
    if lines != [] {
      var n := |lines| - 1;
      LinesAccumulate(lines[..n], json);
      AddChoicesConcat(INIT, AllChoices(lines[..n], json), ChoicesOf(lines[n], json));
    }
  }

  /** The final tool calls, index by index. */
  function CallsUpTo(ds: seq<ToolDelta>, n: nat): seq<ToolCall> {
    if n == 0 then []
    else
      var i := n - 1;
      CallsUpTo(ds, i) +
        if LastId(ds, i) != "" && LastName(ds, i) != ""
        then [ToolCall(LastId(ds, i), LastName(ds, i), Fragments(ds, i))]
        else []
  }

  lemma {:induction false} FinalizeUpTo(ds: seq<ToolDelta>, n: nat)
    requires n <= |AddDeltas([], ds)| <= MAX_PARALLEL_TOOL_CALLS
    ensures Finalize(AddDeltas([], ds)[..n]) == CallsUpTo(ds, n)
  {
    if n > 0 {
      FinalizeUpTo(ds, n - 1);
      SlotsAccumulate(ds, n - 1);
      assert AddDeltas([], ds)[..n][..n - 1] == AddDeltas([], ds)[..n - 1];
    }
  }

  lemma NoSlotBeyond(ds: seq<ToolDelta>, i: nat)
    requires |AddDeltas([], ds)| <= i < MAX_PARALLEL_TOOL_CALLS
    ensures LastId(ds, i) == ""
  {
    SlotsAccumulate(ds, i);
  }

  lemma {:induction false} NoCallsBeyond(ds: seq<ToolDelta>, n: nat)
    requires |AddDeltas([], ds)| <= n <= MAX_PARALLEL_TOOL_CALLS
    ensures CallsUpTo(ds, n) == CallsUpTo(ds, |AddDeltas([], ds)|)
  {
    if n > |AddDeltas([], ds)| {
      NoSlotBeyond(ds, n - 1);
      NoCallsBeyond(ds, n - 1);
      ConcatEmpty(CallsUpTo(ds, n - 1));
    }
  }

  /** The response to any body, spelled out: its text is its content deltas concatenated, and
      its tool calls are the identified and named indices below 32 in order, each with its
      last id, its last name and its argument fragments concatenated. */
  lemma ResponseOfLines(lines: seq<string>, json: Json)
    ensures var r := AddLines(INIT, lines, json); var cs := AllChoices(lines, json);
      && r.partials == Contents(cs)
      && r.fullText == Flatten(Contents(cs))
      && Finalize(r.calls) == CallsUpTo(AllDeltas(cs), MAX_PARALLEL_TOOL_CALLS)
  {
    LinesAccumulate(lines, json);
    var cs := AllChoices(lines, json);
    ChoicesAccumulate(cs);
    CallsAccumulate(AllDeltas(cs));
  }

  lemma CallsAccumulate(ds: seq<ToolDelta>)
    ensures Finalize(AddDeltas([], ds)) == CallsUpTo(ds, MAX_PARALLEL_TOOL_CALLS)
  {
    var calls := AddDeltas([], ds);
    SlotsAccumulate(ds, 0);
    FinalizeUpTo(ds, |calls|);
    NoCallsBeyond(ds, MAX_PARALLEL_TOOL_CALLS);
    assert calls[..|calls|] == calls;
  }
}
