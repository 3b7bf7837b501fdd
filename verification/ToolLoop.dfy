/** One turn of the agent: the tool loop of `AgentCore::handle_turn` in crates/agent/src/core.rs. */
module ToolLoop {
  import opened Text
  import opened Memory

  const MAX_TOOL_ITERATIONS: nat := 5

  datatype ToolCall = ToolCall(id: string, name: string)

  /** What one completion streams back: partial responses, then possibly a final one. */
  datatype StreamEvent = Partial(text: string) | Final(text: string, toolCalls: seq<ToolCall>) | Ignored

  /** How the completion itself ends. */
  datatype Outcome = Completed | Cancelled | Failed

  datatype Completion = Completion(events: seq<StreamEvent>, outcome: Outcome)

  /** What the turn sends to the bus. */
  datatype Sent = SentPartial(text: string) | SentFinal(text: string)

  datatype TurnResult = Done | Exhausted | WasCancelled | LlmFailed

  function UserMessage(text: string): Message { Message(User, Some(text), None, None) }
  function AssistantMessage(text: string): Message { Message(Assistant, Some(text), None, None) }

  function Ids(calls: seq<ToolCall>): seq<string> {
    seq(|calls|, i requires 0 <= i < |calls| => calls[i].id)
  }

  function AssistantCalls(text: string, calls: seq<ToolCall>): Message {
    Message(Assistant, Some(text), Some(Ids(calls)), None)
  }

  function ToolResult(id: string, result: string): Message { Message(Tool, Some(result), None, Some(id)) }

  // ----- one completion -----

  datatype Collected = Collected(text: string, toolCalls: seq<ToolCall>, partials: seq<Sent>)

  /** A final response replaces the text of the partial ones. */
  function Collect(events: seq<StreamEvent>): Collected {
    if events == [] then Collected("", [], [])
    else
      var c := Collect(events[..|events| - 1]);
      match events[|events| - 1]
      case Partial(t) => c.(text := c.text + t, partials := c.partials + [SentPartial(t)])
      case Final(t, calls) => c.(text := t, toolCalls := calls)
      case Ignored => c
  }

  /** Each partial response is passed on, in order, and nothing else is. */
  lemma {:induction false} PartialsPassOn(a: seq<StreamEvent>, b: seq<StreamEvent>)
    ensures Collect(a + b).partials == Collect(a).partials + Collect(b).partials
  {
    if b == [] {
      assert a + b == a;
    } else {
      var n := |b| - 1;
      assert (a + b)[..|a + b| - 1] == a + b[..n];
      PartialsPassOn(a, b[..n]);
    }
  }

  lemma OneEvent(e: StreamEvent)
    ensures Collect([e]).partials == if e.Partial? then [SentPartial(e.text)] else []
    ensures Collect([e]).text == (if e.Ignored? then "" else e.text)
    ensures Collect([e]).toolCalls == if e.Final? then e.toolCalls else []
  {
    assert [e][..0] == [];
  }

  function PartialText(events: seq<StreamEvent>): string {
    if events == [] then ""
    else
      var n := |events| - 1;
      PartialText(events[..n]) + if events[n].Partial? then events[n].text else ""
  }

  /** The text and the calls are those of the last final response, extended by the partial
      responses behind it; without one, the partial responses joined, and no calls. */
  lemma {:induction false} LastFinalCounts(a: seq<StreamEvent>, b: seq<StreamEvent>)
    requires forall e :: e in b ==> !e.Final?
    requires a != [] ==> a[|a| - 1].Final?
    ensures Collect(a + b).text == (if a == [] then "" else a[|a| - 1].text) + PartialText(b)
    ensures Collect(a + b).toolCalls == if a == [] then [] else a[|a| - 1].toolCalls
  {
    if b == [] {
      assert a + b == a;
      ConcatEmpty(if a == [] then "" else a[|a| - 1].text);
    } else {
      var n := |b| - 1;
      assert (a + b)[..|a + b| - 1] == a + b[..n] && b[n] in b;
      LastFinalCounts(a, b[..n]);
      var start := if a == [] then "" else a[|a| - 1].text;
      ConcatAssoc(start, PartialText(b[..n]), if b[n].Partial? then b[n].text else "");
      ConcatEmpty(Collect(a + b[..n]).text);
    }
  }

  /** Who says what, and which call a result answers. */
  lemma MessagesAre(text: string, calls: seq<ToolCall>, id: string)
    ensures UserMessage(text).role == User && AssistantMessage(text).role == Assistant
    ensures AssistantCalls(text, calls).role == Assistant && ToolResult(id, text).role == Tool
    ensures UserMessage(text).content == AssistantMessage(text).content == Some(text)
    ensures AssistantCalls(text, calls).content == ToolResult(id, text).content == Some(text)
    ensures UserMessage(text).toolCalls == AssistantMessage(text).toolCalls == None
    ensures var ids := AssistantCalls(text, calls).toolCalls;
      ids.Some? && |ids.value| == |calls| && forall k :: 0 <= k < |calls| ==> ids.value[k] == calls[k].id
    ensures ToolResult(id, text).toolCallId == Some(id)
  {
  }

  /** The loop that receives the events of one completion. */
  method Receive(events: seq<StreamEvent>) returns (text: string, toolCalls: seq<ToolCall>, partials: seq<Sent>)
    ensures Collected(text, toolCalls, partials) == Collect(events)
  {
    text, toolCalls, partials := "", [], [];
    for i := 0 to |events|
      invariant Collected(text, toolCalls, partials) == Collect(events[..i])
    {
      assert events[..i + 1][..i] == events[..i];
      match events[i] {
        case Partial(t) =>
          text := text + t;
          partials := partials + [SentPartial(t)];
        case Final(t, calls) =>
          text := t;
          toolCalls := calls;
        case Ignored =>
      }
    }
    assert events[..|events|] == events;
  }

  // ----- the shape of a turn -----

  /** The LLM and the tools, as the turn finds them: the `n`-th completion, and the result of
      its `k`-th tool call (an error text for unknown, failing and slow tools). */
  datatype World = World(completion: nat -> Completion, toolResult: (nat, nat) -> string)

  function Completions(w: World, n: nat): (r: seq<Completion>)
    ensures |r| == n && forall i: nat :: i < n ==> r[i] == w.completion(i)
  {
    seq(n, i requires 0 <= i < n => w.completion(i))
  }

  predicate AsksForTools(c: Completion) {
    c.outcome.Completed? && Collect(c.events).toolCalls != []
  }

  predicate Answers(c: Completion) {
    c.outcome.Completed? && Collect(c.events).toolCalls == []
  }

  /** The messages of one round: the calls, then the result of each call, in the order of
      the calls and under its id. */
  ghost predicate IsRound(ms: seq<Message>, c: Completion, n: nat, w: World) {
    var calls := Collect(c.events).toolCalls;
    && AsksForTools(c)
    && |ms| == |calls| + 1
    && ms[0] == AssistantCalls(Collect(c.events).text, calls)
    && forall k :: 1 <= k < |ms| ==> ms[k] == ToolResult(calls[k - 1].id, w.toolResult(n, k - 1))
  }

  ghost predicate AreRounds(rounds: seq<seq<Message>>, cs: seq<Completion>, w: World) {
    |rounds| == |cs| && forall i :: 0 <= i < |cs| ==> IsRound(rounds[i], cs[i], i, w)
  }

  function Joined(rounds: seq<seq<Message>>): seq<Message> {
    if rounds == [] then [] else Joined(rounds[..|rounds| - 1]) + rounds[|rounds| - 1]
  }

  function Partials(cs: seq<Completion>): seq<Sent> {
    if cs == [] then [] else Partials(cs[..|cs| - 1]) + Collect(cs[|cs| - 1].events).partials
  }

  /** Rounds and partial responses stand in the order of the completions, each once. */
  lemma {:induction false} RoundsAreJoined(a: seq<seq<Message>>, b: seq<seq<Message>>)
    ensures Joined(a + b) == Joined(a) + Joined(b)
    ensures |a| == 1 ==> Joined(a) == a[0]
  {
    if |a| == 1 { assert a[..0] == []; }
    if b == [] {
      assert a + b == a;
    } else {
      var n := |b| - 1;
      assert (a + b)[..|a + b| - 1] == a + b[..n];
      RoundsAreJoined(a, b[..n]);
      ConcatAssoc(Joined(a), Joined(b[..n]), b[n]);
    }
  }

  lemma {:induction false} PartialsAreJoined(a: seq<Completion>, b: seq<Completion>)
    ensures Partials(a + b) == Partials(a) + Partials(b)
    ensures |a| == 1 ==> Partials(a) == Collect(a[0].events).partials
  {
    if |a| == 1 { assert a[..0] == []; }
    if b == [] {
      assert a + b == a;
    } else {
      var n := |b| - 1;
      assert (a + b)[..|a + b| - 1] == a + b[..n];
      PartialsAreJoined(a, b[..n]);
      ConcatAssoc(Partials(a), Partials(b[..n]), Collect(b[n].events).partials);
    }
  }

  /** A turn over the completions `cs` pushes the user's message, a round of tool calls for
      each completion that asks for tools, and the answer of the last one if there is one. */
  ghost predicate TurnShape(cs: seq<Completion>, w: World, rounds: seq<seq<Message>>,
                            tail: seq<Message>, sent: seq<Sent>, result: TurnResult) {
    && |rounds| <= |cs| <= MAX_TOOL_ITERATIONS
    && AreRounds(rounds, cs[..|rounds|], w)
    && (result.Exhausted? ==> |cs| == |rounds| == MAX_TOOL_ITERATIONS && tail == [] && sent == Partials(cs))
    && (!result.Exhausted? ==> |cs| == |rounds| + 1 && Ending(cs, tail, sent, result))
  }

  ghost predicate Ending(cs: seq<Completion>, tail: seq<Message>, sent: seq<Sent>, result: TurnResult)
    requires cs != []
  {
    var last := cs[|cs| - 1];
    var c := Collect(last.events);
    match result
    case Done =>
      Answers(last) && tail == [AssistantMessage(c.text)] && sent == Partials(cs) + [SentFinal(c.text)]
    case WasCancelled =>
      && last.outcome.Cancelled? && sent == Partials(cs)
      && tail == if Trim(c.text) == "" then [] else [AssistantMessage(c.text)]
    case LlmFailed => last.outcome.Failed? && tail == [] && sent == Partials(cs)
    case Exhausted => false
  }

  method RunTools(c: Completion, text: string, calls: seq<ToolCall>, n: nat, w: World) returns (round: seq<Message>)
    requires AsksForTools(c) && text == Collect(c.events).text && calls == Collect(c.events).toolCalls
    ensures IsRound(round, c, n, w)
  {
    round := [AssistantCalls(text, calls)];
    for i := 0 to |calls|
      invariant |round| == i + 1 && round[0] == AssistantCalls(text, calls)
      invariant forall k :: 1 <= k < |round| ==> round[k] == ToolResult(calls[k - 1].id, w.toolResult(n, k - 1))
    {
      round := round + [ToolResult(calls[i].id, w.toolResult(n, i))];
    }
  }

  /** What to do after a completion that ends the turn. */
  method Finish(c: Completion, text: string) returns (tail: seq<Message>, final: seq<Sent>, result: TurnResult)
    requires !AsksForTools(c) && text == Collect(c.events).text
    ensures forall cs: seq<Completion> :: cs != [] && cs[|cs| - 1] == c ==>
      Ending(cs, tail, Partials(cs) + final, result)
    ensures !result.Exhausted?
  {
    assert forall cs: seq<Completion> :: Partials(cs) + [] == Partials(cs);
    match c.outcome {
      case Failed =>
        return [], [], LlmFailed;
      case Cancelled =>
        return if Trim(text) != "" then [AssistantMessage(text)] else [], [], WasCancelled;
      case Completed =>
        return [AssistantMessage(text)], [SentFinal(text)], Done;
    }
  }

  lemma NextRound(rounds: seq<seq<Message>>, round: seq<Message>, w: World, n: nat)
    requires AreRounds(rounds, Completions(w, n), w) && IsRound(round, w.completion(n), n, w)
    ensures AreRounds(rounds + [round], Completions(w, n + 1), w)
  {
  }

  lemma TurnEnds(rounds: seq<seq<Message>>, w: World, n: nat, tail: seq<Message>, sent: seq<Sent>, result: TurnResult)
    requires AreRounds(rounds, Completions(w, n), w) && n < MAX_TOOL_ITERATIONS && !result.Exhausted?
    requires Ending(Completions(w, n + 1), tail, sent, result)
    ensures TurnShape(Completions(w, n + 1), w, rounds, tail, sent, result)
  {
    assert Completions(w, n + 1)[..n] == Completions(w, n);
  }

  /** One turn. It makes at most five LLM calls; `pushed` is every message it adds to the
      memory, in order. */
  method HandleTurn(transcript: string, w: World)
    returns (pushed: seq<Message>, sent: seq<Sent>, result: TurnResult, calls: nat,
             ghost rounds: seq<seq<Message>>, ghost tail: seq<Message>)
    ensures calls <= MAX_TOOL_ITERATIONS
    ensures pushed == [UserMessage(transcript)] + Joined(rounds) + tail
    ensures TurnShape(Completions(w, calls), w, rounds, tail, sent, result)
  {
    pushed, sent, calls := [UserMessage(transcript)], [], 0;
    rounds, tail := [], [];
    while calls < MAX_TOOL_ITERATIONS
      invariant calls <= MAX_TOOL_ITERATIONS
      invariant pushed == [UserMessage(transcript)] + Joined(rounds) && tail == []
      invariant AreRounds(rounds, Completions(w, calls), w)
      invariant sent == Partials(Completions(w, calls))
    {
      var completion := w.completion(calls);
      ghost var cs := Completions(w, calls + 1);
      assert cs[..calls] == Completions(w, calls);
      calls := calls + 1;
      var text, toolCalls, partials := Receive(completion.events);
      sent := sent + partials;
      if !completion.outcome.Completed? || toolCalls == [] {
        var last, final, how := Finish(completion, text);
        tail := last;
        pushed := pushed + last;
        sent := sent + final;
        result := how;
        TurnEnds(rounds, w, calls - 1, tail, sent, result);
        return;
      }
      var round := RunTools(completion, text, toolCalls, calls - 1, w);
      assert (rounds + [round])[..|rounds|] == rounds;
      ConcatAssoc([UserMessage(transcript)], Joined(rounds), round);
      NextRound(rounds, round, w, calls - 1);
      rounds := rounds + [round];
      pushed := pushed + round;
    }
    ConcatEmpty(pushed);
    assert Completions(w, calls)[..calls] == Completions(w, calls);
    result := Exhausted;
  }

  // ----- what the shape says -----

  function Finals(sent: seq<Sent>): nat {
    if sent == [] then 0 else Finals(sent[..|sent| - 1]) + if sent[|sent| - 1].SentFinal? then 1 else 0
  }

  lemma {:induction false} FinalsConcat(a: seq<Sent>, b: seq<Sent>)
    ensures Finals(a + b) == Finals(a) + Finals(b)
  {
    if b == [] {
      assert a + b == a;
    } else {
      assert (a + b)[..|a + b| - 1] == a + b[..|b| - 1];
      FinalsConcat(a, b[..|b| - 1]);
    }
  }

  lemma {:induction false} CollectSendsNoFinal(events: seq<StreamEvent>)
    ensures Finals(Collect(events).partials) == 0
  {
    if events != [] {
      CollectSendsNoFinal(events[..|events| - 1]);
      match events[|events| - 1] {
        case Partial(t) =>
          FinalsConcat(Collect(events[..|events| - 1]).partials, [SentPartial(t)]);
          assert [SentPartial(t)][..0] == [];
        case _ =>
      }
    }
  }

  lemma {:induction false} PartialsHaveNoFinal(cs: seq<Completion>)
    ensures Finals(Partials(cs)) == 0
  {
    if cs != [] {
      PartialsHaveNoFinal(cs[..|cs| - 1]);
      CollectSendsNoFinal(cs[|cs| - 1].events);
      FinalsConcat(Partials(cs[..|cs| - 1]), Collect(cs[|cs| - 1].events).partials);
    }
  }

  /** A turn sends one final response if one of its completions asks for no tools, and none
      otherwise; in particular none when it runs out of rounds. */
  lemma OneFinalResponse(cs: seq<Completion>, w: World, rounds: seq<seq<Message>>,
                         tail: seq<Message>, sent: seq<Sent>, result: TurnResult)
    requires TurnShape(cs, w, rounds, tail, sent, result)
    ensures var answered := exists i :: 0 <= i < |cs| && Answers(cs[i]);
      Finals(sent) == (if answered then 1 else 0) && (result.Done? <==> answered)
  {
    PartialsHaveNoFinal(cs);
    forall i | 0 <= i < |rounds| ensures !Answers(cs[i]) {
      assert IsRound(rounds[i], cs[..|rounds|][i], i, w);
    }
    if result.Done? {
      var text := Collect(cs[|cs| - 1].events).text;
      FinalsConcat(Partials(cs), [SentFinal(text)]);
      assert [SentFinal(text)][..0] == [];
      assert Answers(cs[|cs| - 1]);
    }
  }
}
