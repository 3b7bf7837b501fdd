/** The trimmed, write-through conversation memory: crates/agent/src/memory.rs. */
module Memory {
  import opened Text

  datatype Role = System | User | Assistant | Tool

  /** A message; an assistant message may carry the ids of the tools it calls. */
  datatype Message = Message(
    role: Role, content: Option<string>, toolCalls: Option<seq<string>>, toolCallId: Option<string>)

  function SystemMessage(text: string): Message {
    Message(System, Some(text), None, None)
  }

  predicate Leads(ms: seq<Message>) { ms != [] && ms[0].role.System? }

  // ----- trimming -----

  /** What the trimming loop leaves of a list, with room for `cap` messages. */
  function Trimmed(ms: seq<Message>, cap: nat): seq<Message>
    decreases |ms|
  {
    if |ms| <= cap then ms
    else if Leads(ms) then
      if |ms| > 1 then Trimmed([ms[0]] + ms[2..], cap) else ms
    else Trimmed(ms[1..], cap)
  }

  /** The last `n` messages, or all of them. */
  function Last(ms: seq<Message>, n: int): seq<Message> {
    if n <= 0 then [] else if |ms| <= n then ms else ms[|ms| - n..]
  }

  /** A list that a system message leads keeps it and the longest suffix of the rest that
      still fits. */
  lemma {:induction false} TrimmedAfterSystem(ms: seq<Message>, cap: nat)
    requires Leads(ms)
    ensures Trimmed(ms, cap) == [ms[0]] + Last(ms[1..], cap - 1)
    decreases |ms|
  {
    if |ms| > cap && |ms| > 1 {
      var t := [ms[0]] + ms[2..];
      TrimmedAfterSystem(t, cap);
      assert t[1..] == ms[2..] == ms[1..][1..];
    }
  }

  /** The first system message that trimming comes across, if any. */
  function FirstSystem(ms: seq<Message>, from: nat, limit: nat): (r: Option<nat>)
    requires from <= limit <= |ms|
    ensures r.Some? ==> from <= r.value < limit && ms[r.value].role.System?
    decreases limit - from
  {
    if from == limit then None
    else if ms[from].role.System? then Some(from)
    else FirstSystem(ms, from + 1, limit)
  }

  lemma {:induction false} FirstSystemShift(ms: seq<Message>, from: nat, limit: nat)
    requires 1 <= from <= limit <= |ms|
    ensures FirstSystem(ms[1..], from - 1, limit - 1) ==
      match FirstSystem(ms, from, limit) case None => None case Some(j) => Some(j - 1)
    decreases limit - from
  {
    if from < limit && !ms[from].role.System? {
      FirstSystemShift(ms, from + 1, limit);
    }
  }

  /** What trimming keeps of any list: its end, behind the first system message that would
      have had to go. */
  lemma {:induction false} TrimmedInGeneral(ms: seq<Message>, cap: nat)
    requires |ms| > cap
    ensures Trimmed(ms, cap) ==
      match FirstSystem(ms, 0, |ms| - cap)
      case None => Last(ms, cap)
      case Some(j) => [ms[j]] + Last(ms[j + 1..], cap - 1)
    decreases |ms|
  {
    if Leads(ms) {
      TrimmedAfterSystem(ms, cap);
    } else {
      var t := ms[1..];
      assert FirstSystem(ms, 0, |ms| - cap) == FirstSystem(ms, 1, |ms| - cap);
      if |t| > cap {
        TrimmedInGeneral(t, cap);
        FirstSystemShift(ms, 1, |ms| - cap);
        LastShift(ms, cap);
        match FirstSystem(ms, 1, |ms| - cap) {
          case None =>
          case Some(j) => TailShift(ms, j);
        }
      }
    }
  }

  lemma LastShift(ms: seq<Message>, n: nat)
    requires |ms| > n + 1
    ensures Last(ms[1..], n) == Last(ms, n)
  {
  }

  lemma TailShift(ms: seq<Message>, j: nat)
    requires 1 <= j < |ms|
    ensures ms[1..][j - 1] == ms[j] && ms[1..][j..] == ms[j + 1..]
  {
  }

  predicate Fits(ms: seq<Message>, cap: nat) {
    |ms| <= cap || (|ms| == 1 && Leads(ms))
  }

  lemma {:induction false} TrimmedFits(ms: seq<Message>, cap: nat)
    ensures Fits(Trimmed(ms, cap), cap)
    ensures Fits(ms, cap) ==> Trimmed(ms, cap) == ms
    ensures Leads(ms) ==> Leads(Trimmed(ms, cap)) && Trimmed(ms, cap)[0] == ms[0]
    decreases |ms|
  {
    if |ms| > cap {
      if Leads(ms) {
        if |ms| > 1 { TrimmedFits([ms[0]] + ms[2..], cap); }
      } else {
        TrimmedFits(ms[1..], cap);
      }
    }
  }

  /** Trimming after every message leaves what trimming once at the end leaves. */
  lemma {:induction false} TrimmedPush(ms: seq<Message>, m: Message, cap: nat)
    ensures Trimmed(Trimmed(ms, cap) + [m], cap) == Trimmed(ms + [m], cap)
    decreases |ms|
  {
    if |ms| > cap {
      if Leads(ms) {
        if |ms| > 1 {
          var t := [ms[0]] + ms[2..];
          TrimmedPush(t, m, cap);
          assert [(ms + [m])[0]] + (ms + [m])[2..] == t + [m];
        }
      } else {
        TrimmedPush(ms[1..], m, cap);
        assert (ms + [m])[1..] == ms[1..] + [m];
      }
    }
  }

  /** The list after pushing `ps` one by one. */
  function Pushed(ms: seq<Message>, ps: seq<Message>, cap: nat): seq<Message> {
    if ps == [] then Trimmed(ms, cap)
    else Trimmed(Pushed(ms, ps[..|ps| - 1], cap) + [ps[|ps| - 1]], cap)
  }

  lemma {:induction false} PushedIsTrimmedOnce(ms: seq<Message>, ps: seq<Message>, cap: nat)
    ensures Pushed(ms, ps, cap) == Trimmed(ms + ps, cap)
  {
    if ps == [] {
      ConcatEmpty(ms);
    } else {
      var n := |ps| - 1;
      PushedIsTrimmedOnce(ms, ps[..n], cap);
      TrimmedPush(ms + ps[..n], ps[n], cap);
      assert (ms + ps[..n]) + [ps[n]] == ms + ps;
    }
  }

  /** However many messages follow, the memory is the leading system message and the longest
      suffix of the others that fits. */
  lemma ConversationKeepsSystemAndSuffix(ms: seq<Message>, ps: seq<Message>, cap: nat)
    requires Leads(ms)
    ensures Pushed(ms, ps, cap) == [ms[0]] + Last(ms[1..] + ps, cap - 1)
  {
    PushedIsTrimmedOnce(ms, ps, cap);
    TrimmedAfterSystem(ms + ps, cap);
    assert (ms + ps)[1..] == ms[1..] + ps;
  }

  // ----- the system prompt -----

  function WithPrompt(ms: seq<Message>, prompt: Option<string>): seq<Message> {
    if prompt.Some? && !Leads(ms) then [SystemMessage(prompt.value)] + ms else ms
  }

  function ExistingPrompt(ms: seq<Message>): Option<string> {
    if Leads(ms) then ms[0].content else None
  }

  /** Only the first message may be a system message. */
  predicate OneSystemAtMost(ms: seq<Message>) {
    forall i :: 0 < i < |ms| ==> !ms[i].role.System?
  }

  function Reprompted(ms: seq<Message>, prompt: Option<string>): seq<Message> {
    match prompt
    case Some(p) => if Leads(ms) then [ms[0].(content := Some(p))] + ms[1..] else [SystemMessage(p)] + ms
    case None => if Leads(ms) then ms[1..] else ms
  }

  /** A list for which it does not: a second system message follows the prompt. */
  lemma SecondPromptMovesUp(cap: nat)
    requires cap >= 2
    ensures var ms := [SystemMessage("a"), SystemMessage("b")];
      Fits(ms, cap) && ExistingPrompt(Trimmed(Reprompted(ms, None), cap)) == Some("b")
  {
  }

  /** Setting no prompt removes the prompt, except when a second system message moves up. */
  lemma PromptIsGoneIff(ms: seq<Message>, cap: nat)
    requires Fits(ms, cap)
    ensures var after := if ExistingPrompt(ms) == None then ms else Trimmed(Reprompted(ms, None), cap);
      ExistingPrompt(after) == None
      <==> ExistingPrompt(ms) == None || |ms| == 1 || !ms[1].role.System? || ms[1].content == None
  {
    TrimmedFits(Reprompted(ms, None), cap);
  }

  /** What loading a stored conversation makes of it. */
  function Prepared(stored: Option<seq<Message>>, prompt: Option<string>, cap: nat): seq<Message> {
    Trimmed(WithPrompt(if stored.Some? then stored.value else [], prompt), cap)
  }

  // ----- what a caller does with a memory -----

  datatype Op = PushOp(message: Message) | PromptOp(prompt: Option<string>) | SnapshotOp | ClearOp

  /** What an operation makes of a loaded list. */
  function Applied(ms: seq<Message>, op: Op, cap: nat): seq<Message> {
    match op
    case PushOp(m) => Trimmed(ms + [m], cap)
    case PromptOp(p) => if ExistingPrompt(ms) == p then ms else Trimmed(Reprompted(ms, p), cap)
    case SnapshotOp => ms
    case ClearOp => []
  }

  function AppliedAll(ms: seq<Message>, ops: seq<Op>, cap: nat): seq<Message> {
    if ops == [] then ms else Applied(AppliedAll(ms, ops[..|ops| - 1], cap), ops[|ops| - 1], cap)
  }

  // ----- what a conversation amounts to -----

  /** The leading system message, if any, and all other messages. */
  datatype Conversation = Conversation(head: Option<Message>, rest: seq<Message>)

  ghost predicate Plain(ms: seq<Message>) {
    forall m :: m in ms ==> !m.role.System?
  }

  ghost predicate Proper(cv: Conversation) {
    (cv.head.Some? ==> cv.head.value.role.System?) && Plain(cv.rest)
  }

  /** What a memory shows of a conversation: the system message, and as much of the end of the
      rest as fits. */
  function Shown(cv: Conversation, cap: nat): seq<Message> {
    match cv.head
    case None => Last(cv.rest, cap)
    case Some(h) => [h] + Last(cv.rest, cap - 1)
  }

  /** What an operation makes of the conversation. Only taking the prompt away loses anything:
      what it had pushed out does not come back. */
  function Continued(cv: Conversation, op: Op, cap: nat): Conversation {
    match op
    case PushOp(m) => cv.(rest := cv.rest + [m])
    case PromptOp(Some(p)) =>
      cv.(head := Some(if cv.head.Some? then cv.head.value.(content := Some(p)) else SystemMessage(p)))
    case PromptOp(None) =>
      if cv.head.Some? && cv.head.value.content.Some? then Conversation(None, Last(cv.rest, cap - 1)) else cv
    case SnapshotOp => cv
    case ClearOp => Conversation(None, [])
  }

  function ContinuedAll(cv: Conversation, ops: seq<Op>, cap: nat): Conversation {
    if ops == [] then cv
    else Continued(ContinuedAll(cv, ops[..|ops| - 1], cap), ops[|ops| - 1], cap)
  }

  predicate PushesNoSystem(op: Op) { op.PushOp? ==> !op.message.role.System? }

  predicate KeepsPrompt(op: Op) { !(op.PromptOp? && op.prompt.None?) }

  lemma LastOfLast(ms: seq<Message>, n: int, k: int)
    requires k <= n
    ensures Last(Last(ms, n), k) == Last(ms, k) && Last(Last(ms, k), n) == Last(ms, k)
  {
  }

  lemma LastOfPush(ms: seq<Message>, m: Message, n: int)
    ensures Last(Last(ms, n) + [m], n) == Last(ms + [m], n)
  {
  }

  lemma TrimmedBehind(h: Message, rest: seq<Message>, cap: nat)
    requires h.role.System?
    ensures Trimmed([h] + rest, cap) == [h] + Last(rest, cap - 1)
  {
    TrimmedAfterSystem([h] + rest, cap);
    assert ([h] + rest)[1..] == rest;
  }

  lemma {:induction false} TrimmedPlain(ms: seq<Message>, cap: nat)
    requires Plain(ms)
    ensures Trimmed(ms, cap) == Last(ms, cap)
    decreases |ms|
  {
    if |ms| > cap {
      assert ms[0] in ms;
      TrimmedPlain(ms[1..], cap);
      assert Last(ms[1..], cap) == Last(ms, cap);
    }
  }

  lemma LastIsPlain(ms: seq<Message>, n: int)
    requires Plain(ms)
    ensures Plain(Last(ms, n))
  {
  }

  lemma PushContinues(cv: Conversation, m: Message, cap: nat)
    requires Proper(cv) && !m.role.System?
    ensures Trimmed(Shown(cv, cap) + [m], cap) == Shown(cv.(rest := cv.rest + [m]), cap)
  {
    match cv.head {
      case None =>
        LastIsPlain(cv.rest, cap);
        TrimmedPlain(Last(cv.rest, cap) + [m], cap);
        LastOfPush(cv.rest, m, cap);
      case Some(h) =>
        var l := Last(cv.rest, cap - 1);
        ConcatAssoc([h], l, [m]);
        TrimmedBehind(h, l + [m], cap);
        LastOfPush(cv.rest, m, cap - 1);
    }
  }

  lemma PromptContinues(cv: Conversation, p: string, cap: nat)
    requires Proper(cv)
    ensures Applied(Shown(cv, cap), PromptOp(Some(p)), cap) == Shown(Continued(cv, PromptOp(Some(p)), cap), cap)
  {
    var l := Last(cv.rest, cap - 1);
    LastOfLast(cv.rest, cap, cap - 1);
    LastOfLast(cv.rest, cap - 1, cap - 1);
    match cv.head {
      case None =>
        LastIsPlain(cv.rest, cap);
        assert !Leads(Shown(cv, cap));
        TrimmedBehind(SystemMessage(p), Last(cv.rest, cap), cap);
      case Some(h) =>
        var shown := Shown(cv, cap);
        assert shown[1..] == l && ExistingPrompt(shown) == h.content;
        TrimmedBehind(h.(content := Some(p)), l, cap);
    }
  }

  lemma UnpromptContinues(cv: Conversation, cap: nat)
    requires Proper(cv)
    ensures Applied(Shown(cv, cap), PromptOp(None), cap) == Shown(Continued(cv, PromptOp(None), cap), cap)
  {
    match cv.head {
      case None =>
        LastIsPlain(cv.rest, cap);
        assert !Leads(Shown(cv, cap));
      case Some(h) =>
        var l, shown := Last(cv.rest, cap - 1), Shown(cv, cap);
        assert shown[1..] == l && ExistingPrompt(shown) == h.content;
        LastIsPlain(cv.rest, cap - 1);
        TrimmedPlain(l, cap);
    }
  }

  lemma ProperStays(cv: Conversation, op: Op, cap: nat)
    requires Proper(cv) && PushesNoSystem(op)
    ensures Proper(Continued(cv, op, cap))
  {
    LastIsPlain(cv.rest, cap - 1);
  }

  /** One operation on the list is one operation on the conversation it shows. */
  lemma OpContinues(cv: Conversation, op: Op, cap: nat)
    requires Proper(cv) && PushesNoSystem(op)
    ensures Applied(Shown(cv, cap), op, cap) == Shown(Continued(cv, op, cap), cap)
  {
    match op {
      case PushOp(m) => PushContinues(cv, m, cap);
      case PromptOp(Some(p)) => PromptContinues(cv, p, cap);
      case PromptOp(None) => UnpromptContinues(cv, cap);
      case SnapshotOp =>
      case ClearOp =>
    }
  }

  /** After any operations the list shows the conversation they amount to. */
  lemma {:induction false} OpsContinue(cv: Conversation, ops: seq<Op>, cap: nat)
    requires Proper(cv) && forall op :: op in ops ==> PushesNoSystem(op)
    ensures AppliedAll(Shown(cv, cap), ops, cap) == Shown(ContinuedAll(cv, ops, cap), cap)
    ensures Proper(ContinuedAll(cv, ops, cap))
  {
    if ops != [] {
      var n := |ops| - 1;
      OpsContinue(cv, ops[..n], cap);
      assert ops[n] in ops;
      OpContinues(ContinuedAll(cv, ops[..n], cap), ops[n], cap);
      ProperStays(ContinuedAll(cv, ops[..n], cap), ops[n], cap);
    }
  }

  /** The messages pushed since the last clear. */
  function Said(before: seq<Message>, ops: seq<Op>): seq<Message> {
    if ops == [] then before
    else
      var said := Said(before, ops[..|ops| - 1]);
      match ops[|ops| - 1]
      case PushOp(m) => said + [m]
      case ClearOp => []
      case _ => said
  }

  /** The prompt last set, unless cleared. */
  function PromptNow(before: Option<string>, ops: seq<Op>): Option<string> {
    if ops == [] then before
    else
      match ops[|ops| - 1]
      case PromptOp(p) => p
      case ClearOp => None
      case _ => PromptNow(before, ops[..|ops| - 1])
  }

  function Prompted(prompt: Option<string>): Option<Message> {
    if prompt.Some? then Some(SystemMessage(prompt.value)) else None
  }

  /** While prompts are set and replaced, but not taken away except by clearing, the list is
      the system message of the current prompt and the longest suffix of the messages pushed
      since the last clear that fits. */
  lemma ListIsPromptAndSuffix(before: Option<string>, said: seq<Message>, ops: seq<Op>, cap: nat)
    requires Plain(said)
    requires forall op :: op in ops ==> PushesNoSystem(op) && KeepsPrompt(op)
    ensures AppliedAll(Shown(Conversation(Prompted(before), said), cap), ops, cap)
      == Shown(Conversation(Prompted(PromptNow(before, ops)), Said(said, ops)), cap)
  {
    var cv := Conversation(Prompted(before), said);
    OpsContinue(cv, ops, cap);
    PromptAndSaid(before, said, ops, cap);
  }

  lemma {:induction false} PromptAndSaid(before: Option<string>, said: seq<Message>, ops: seq<Op>, cap: nat)
    requires forall op :: op in ops ==> KeepsPrompt(op)
    ensures ContinuedAll(Conversation(Prompted(before), said), ops, cap)
      == Conversation(Prompted(PromptNow(before, ops)), Said(said, ops))
  {
    if ops != [] {
      var n := |ops| - 1;
      PromptAndSaid(before, said, ops[..n], cap);
      assert ops[n] in ops && KeepsPrompt(ops[n]);
    }
  }

  /** Loading shows the stored conversation, behind its own system message if it has one. */
  lemma LoadShows(stored: seq<Message>, prompt: Option<string>, cap: nat)
    requires OneSystemAtMost(stored)
    ensures Prepared(Some(stored), prompt, cap)
      == Shown(if Leads(stored) then Conversation(Some(stored[0]), stored[1..])
               else Conversation(Prompted(prompt), stored), cap)
  {
    if Leads(stored) {
      assert stored == [stored[0]] + stored[1..];
      TrimmedBehind(stored[0], stored[1..], cap);
    } else if prompt.Some? {
      TrimmedBehind(SystemMessage(prompt.value), stored, cap);
    } else {
      TrimmedPlain(stored, cap);
    }
  }

  // ----- the objects -----

  /** Whether operation `k` on a store fails. */
  predicate Fails(script: nat -> bool, k: nat) { script(k) }

  ghost predicate AnyFails(script: nat -> bool, from: nat, to: nat) {
    exists k: nat :: from <= k < to && Fails(script, k)
  }

  /** The backend's copy of one session. The operations on it are counted, and `script` says
      which of them fail; a save or clear that fails may still have changed the copy. */
  class Store {
    const script: nat -> bool
    var stored: Option<seq<Message>>
    var ops: nat

    constructor (stored: Option<seq<Message>>, script: nat -> bool)
      ensures this.stored == stored && this.script == script && ops == 0
    {
      this.stored, this.script, ops := stored, script, 0;
    }

    method Load() returns (ok: bool, messages: Option<seq<Message>>)
      modifies this`ops
      ensures ok == !Fails(script, old(ops)) && ops == old(ops) + 1
      ensures ok ==> messages == stored
    {
      ok := !Fails(script, ops);
      ops := ops + 1;
      messages := if ok then stored else None;
    }

    method Save(messages: seq<Message>) returns (ok: bool)
      modifies this
      ensures ok == !Fails(script, old(ops)) && ops == old(ops) + 1
      ensures ok ==> stored == Some(messages)
    {
      ok := !Fails(script, ops);
      ops := ops + 1;
      stored := *;
      if ok { stored := Some(messages); }
    }

    method Clear() returns (ok: bool)
      modifies this
      ensures ok == !Fails(script, old(ops)) && ops == old(ops) + 1
      ensures ok ==> stored == None
    {
      ok := !Fails(script, ops);
      ops := ops + 1;
      stored := *;
      if ok { stored := None; }
    }
  }

  /** The backend's copy is the list; absent counts as empty. */
  predicate Synced(stored: Option<seq<Message>>, messages: seq<Message>) {
    stored == Some(messages) || (stored == None && messages == [])
  }

  /** A backend `was` with `from` operations behind it stays attached exactly if none of the
      operations since has failed. */
  ghost predicate AttachedUnlessFailed(was: Store?, from: nat, now: Store?)
    reads was
  {
    && (was == null ==> now == null)
    && (was != null ==> from <= was.ops && now == if AnyFails(was.script, from, was.ops) then null else was)
  }

  class ConversationMemory {
    const cap: nat
    var messages: seq<Message>
    var backend: Store?
    var loaded: bool
    var systemPrompt: Option<string>

    /** While a backend is attached its copy is the list, the list fits, and a configured
        prompt has its system message. */
    ghost predicate Valid()
      reads this, backend
    {
      && (!loaded ==> messages == [] && backend != null)
      && (loaded && backend != null ==> Synced(backend.stored, messages))
      && (loaded ==> Fits(messages, cap))
      && (loaded && systemPrompt.Some? ==> Leads(messages))
    }

    /** The list, or what loading it will give. */
    ghost function Current(): seq<Message>
      requires Valid()
      reads this, backend
    {
      if loaded then messages
      else Prepared(if Fails(backend.script, backend.ops) then None else backend.stored, systemPrompt, cap)
    }

    ghost function Ops(): nat
      reads this, backend
    {
      if backend == null then 0 else backend.ops
    }

    /** A memory without a backend. */
    constructor Local(maxTurns: nat)
      ensures Valid() && loaded && backend == null && messages == [] && cap == 2 * maxTurns
      ensures systemPrompt == None
    {
      cap, messages, backend, loaded, systemPrompt := 2 * maxTurns, [], null, true, None;
    }

    constructor WithBackend(maxTurns: nat, prompt: Option<string>, store: Store)
      ensures Valid() && !loaded && backend == store && cap == 2 * maxTurns && systemPrompt == prompt
    {
      cap, messages, backend, loaded, systemPrompt := 2 * maxTurns, [], store, false, prompt;
    }

    method TrimToMaxTurns() returns (trimmed: bool)
      modifies this`messages
      ensures messages == Trimmed(old(messages), cap)
      ensures trimmed <==> |old(messages)| > cap
    {
      trimmed := false;
      while |messages| > cap
        invariant Trimmed(messages, cap) == Trimmed(old(messages), cap)
        invariant |messages| <= |old(messages)|
        invariant if trimmed then |old(messages)| > cap else messages == old(messages)
        decreases |messages|
      {
        trimmed := true;
        if Leads(messages) {
          if |messages| > 1 {
            messages := [messages[0]] + messages[2..];
          } else {
            break;
          }
        } else {
          messages := messages[1..];
        }
      }
    }

    /** Writes the list through to an attached backend, in one operation. */
    method Persist()
      modifies this`backend, backend
      ensures AttachedUnlessFailed(old(backend), old(Ops()), backend)
      ensures old(backend) != null ==> old(backend).ops == old(Ops()) + 1
      ensures backend != null ==> backend.stored == Some(messages)
    {
      if backend != null {
        var ok := backend.Save(messages);
        if !ok { backend := null; }
      }
    }

    /** Loads the stored list at the first use; a backend that cannot load is given up. The
        list is written back only if loading has changed it. */
    method EnsureLoaded()
      requires Valid()
      modifies this`messages, this`backend, this`loaded, backend
      ensures Valid() && loaded && messages == old(Current())
      ensures AttachedUnlessFailed(old(backend), old(Ops()), backend)
      ensures old(loaded) && old(backend) != null ==> old(backend).ops == old(Ops())
      ensures !old(loaded) && (Fails(old(backend).script, old(Ops())) || (Synced(old(backend.stored), messages) && |messages| <= cap)) ==>
        old(backend).ops == old(Ops()) + 1
    {
      if loaded { return; }
      var ok, found := backend.Load();
      if ok {
        if found.Some? { messages := found.value; }
      } else {
        backend := null;
      }
      loaded := true;
      var persistNeeded := Prepare();
      if persistNeeded {
        Persist();
      }
    }

    /** Puts the configured prompt in front if there is none, and trims. */
    method Prepare() returns (changed: bool)
      modifies this`messages
      ensures messages == Trimmed(WithPrompt(old(messages), systemPrompt), cap)
      ensures Fits(messages, cap) && (systemPrompt.Some? ==> Leads(messages))
      ensures !changed ==> messages == old(messages)
      ensures messages == old(messages) && |messages| <= cap ==> !changed
    {
      changed := ApplySystemPromptIfMissing();
      TrimmedFits(messages, cap);
      var trimmed := TrimToMaxTurns();
      changed := changed || trimmed;
    }

    method ApplySystemPromptIfMissing() returns (inserted: bool)
      modifies this`messages
      ensures messages == WithPrompt(old(messages), systemPrompt)
      ensures inserted <==> systemPrompt.Some? && !Leads(old(messages))
    {
      inserted := systemPrompt.Some? && !Leads(messages);
      if inserted { messages := [SystemMessage(systemPrompt.value)] + messages; }
    }

    /** Appends and trims, without the backend. */
    method PushLocal(m: Message)
      modifies this`messages
      ensures messages == Trimmed(old(messages) + [m], cap)
    {
      messages := messages + [m];
      var _ := TrimToMaxTurns();
    }

    method Push(m: Message)
      requires Valid()
      modifies this`messages, this`backend, this`loaded, backend
      ensures Valid() && loaded && messages == Applied(old(Current()), PushOp(m), cap)
      ensures AttachedUnlessFailed(old(backend), old(Ops()), backend)
      ensures backend != null ==> backend.stored == Some(messages)
    {
      EnsureLoaded();
      TrimmedFits(messages + [m], cap);
      PushLocal(m);
      Persist();
    }

    method Snapshot() returns (ms: seq<Message>)
      requires Valid()
      modifies this`messages, this`backend, this`loaded, backend
      ensures Valid() && loaded && ms == messages == old(Current())
      ensures AttachedUnlessFailed(old(backend), old(Ops()), backend)
      ensures old(loaded) && old(backend) != null ==> old(backend).ops == old(Ops())
      ensures !old(loaded) && (Fails(old(backend).script, old(Ops())) || (Synced(old(backend.stored), messages) && |messages| <= cap)) ==>
        old(backend).ops == old(Ops()) + 1
    {
      EnsureLoaded();
      ms := messages;
    }

    method SetSystemPrompt(prompt: Option<string>)
      requires Valid()
      modifies this, backend
      ensures Valid() && loaded && systemPrompt == prompt
      ensures messages == Applied(old(Current()), PromptOp(prompt), cap)
      ensures prompt.Some? || OneSystemAtMost(old(Current())) ==> ExistingPrompt(messages) == prompt
      ensures AttachedUnlessFailed(old(backend), old(Ops()), backend)
    {
      EnsureLoaded();
      systemPrompt := prompt;
      if ExistingPrompt(messages) == prompt { return; }
      match prompt {
        case Some(p) =>
          if Leads(messages) {
            messages := [messages[0].(content := Some(p))] + messages[1..];
          } else {
            messages := [SystemMessage(p)] + messages;
          }
        case None =>
          if Leads(messages) {
            messages := messages[1..];
          }
      }
      TrimmedFits(messages, cap);
      var _ := TrimToMaxTurns();
      Persist();
    }

    method Clear()
      requires Valid()
      modifies this, backend
      ensures Valid() && loaded && messages == Applied(old(Current()), ClearOp, cap) && systemPrompt == None
      ensures AttachedUnlessFailed(old(backend), old(Ops()), backend)
      ensures backend != null ==> backend.stored == None
    {
      EnsureLoaded();
      messages := [];
      systemPrompt := None;
      if backend != null {
        var ok := backend.Clear();
        if !ok { backend := null; }
      }
    }
  }

  // ----- a whole conversation -----

  method Perform(mem: ConversationMemory, op: Op)
    requires mem.Valid()
    modifies mem, mem.backend
    ensures mem.Valid() && mem.loaded && mem.messages == Applied(old(mem.Current()), op, mem.cap)
    ensures AttachedUnlessFailed(old(mem.backend), old(mem.Ops()), mem.backend)
  {
    match op {
      case PushOp(m) => mem.Push(m);
      case PromptOp(p) => mem.SetSystemPrompt(p);
      case SnapshotOp => var _ := mem.Snapshot();
      case ClearOp => mem.Clear();
    }
  }

  /** Any operations on a memory: its list is what they amount to, whatever the backend does;
      the backend stays attached exactly if nothing it was asked has failed, and while it is
      attached its copy is the list. */
  method Converse(mem: ConversationMemory, ops: seq<Op>)
    requires mem.Valid()
    modifies mem, mem.backend
    ensures mem.Valid()
    ensures mem.Current() == AppliedAll(old(mem.Current()), ops, mem.cap)
    ensures AttachedUnlessFailed(old(mem.backend), old(mem.Ops()), mem.backend)
    ensures ops != [] ==> mem.loaded
    ensures mem.loaded && mem.backend != null ==> Synced(mem.backend.stored, mem.messages)
  {
    for i := 0 to |ops|
      invariant mem.Valid() && (i > 0 ==> mem.loaded)
      invariant mem.Current() == AppliedAll(old(mem.Current()), ops[..i], mem.cap)
      invariant AttachedUnlessFailed(old(mem.backend), old(mem.Ops()), mem.backend)
    {
      assert ops[..i + 1][..i] == ops[..i];
      Perform(mem, ops[i]);
    }
    assert ops[..|ops|] == ops;
  }

  // ----- reloading -----

  /** A synced memory loads back exactly as it is. */
  lemma LoadedAgain(stored: Option<seq<Message>>, ms: seq<Message>, prompt: Option<string>, cap: nat)
    requires Synced(stored, ms) && Fits(ms, cap) && (prompt.Some? ==> Leads(ms))
    ensures Prepared(stored, prompt, cap) == ms
  {
    TrimmedFits(ms, cap);
  }

  /** A new memory for the same session, prompt and limit shows the same conversation if the
      first operation on the backend, the load, does not fail; otherwise it starts anew. It
      needs no second operation if there is room for any turn. */
  method Reload(mem: ConversationMemory, maxTurns: nat) returns (ms: seq<Message>, attached: bool)
    requires mem.Valid() && mem.loaded && mem.backend != null && mem.cap == 2 * maxTurns
    modifies mem.backend
    ensures var loads := !Fails(mem.backend.script, old(mem.backend.ops));
      && ms == (if loads then mem.messages else Prepared(None, mem.systemPrompt, mem.cap))
      && attached == !AnyFails(mem.backend.script, old(mem.backend.ops), mem.backend.ops)
      && (maxTurns > 0 ==> attached == loads)
  {
    LoadedAgain(mem.backend.stored, mem.messages, mem.systemPrompt, mem.cap);
    var again := new ConversationMemory.WithBackend(maxTurns, mem.systemPrompt, mem.backend);
    ms := again.Snapshot();
    attached := again.backend != null;
  }
}
