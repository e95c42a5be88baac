/**
 * The agent loop (AgentService): up to fifteen request/response iterations
 * over one chat history. Each iteration after the first is announced by a
 * spacer event, every third one from the fourth on first appends a format
 * reminder, and the reply is consumed by the stream parser; a completed
 * finish field ends the turn, a streamed action runs the tool and feeds its
 * result back, and anything else is sent as an answer while the loop goes
 * on. An exhausted loop adds the truncation notice; a turn that was not
 * aborted by an exception is recorded in session memory.
 *
 * The model backend is a function from the iteration number and the history
 * sent to the tokens of its reply; clock readings are parameters.
 */
module Agent {
  import opened Values
  import opened StreamUtils
  import opened AgentStream
  import opened SessionMemory
  import opened Tools

  const MaxIterations: nat := 15

  const ReminderText: string := "REMEMBER: JSON format only - {'thought': '...', 'action': {...}} or {'thought': '...', 'finish': '...'}"
  const TruncationNotice: string := "\n\nI've reached the maximum number of steps. Please try a more specific question."

  /** The format reminder appended to the history. */
  const Reminder: Message := Message(System, ReminderText)

  /** The `agent_process` event with content "\n" that separates iterations. */
  const SpacerEvent: Event := AgentProcess(Spacer, "\n")

  /** Iteration `k` (counting from 1) appends the reminder. */
  predicate ReminderDue(k: int) {
    k % 3 == 1 && k > 1
  }

  /** Within the cap the reminder falls on iterations 4, 7, 10 and 13. */
  lemma ReminderIterations(k: int)
    requires 1 <= k <= MaxIterations
    ensures ReminderDue(k) <==> k == 4 || k == 7 || k == 10 || k == 13
  {
  }

  // ---------------------------------------------------------------------------
  // _setup_chat_history

  /** The system prompt, the rendered session window, then the user's prompt. */
  function InitialHistory(systemPrompt: string, loops: seq<AgentLoop>, prompt: string): (r: seq<Message>)
    ensures |r| == 2 + 2 * |loops|
    ensures r[0] == Message(System, systemPrompt) && r[|r| - 1] == Message(User, prompt)
    ensures forall i :: 0 <= i < |loops| ==>
      r[1 + 2 * i] == Message(User, QuestionPrefix + loops[i].userMessage) &&
      r[2 + 2 * i] == Message(Assistant, AnalysisPrefix + loops[i].finalAnswer)
  {
    var context := ContextMessages(loops);
    var r := [Message(System, systemPrompt)] + context + [Message(User, prompt)];
    assert forall j :: 0 <= j < |context| ==> r[1 + j] == context[j];
    r
  }

  // ---------------------------------------------------------------------------
  // _handle_tool_execution

  /** `if job_name` on a str or None. */
  predicate JobGiven(job: Option<string>) {
    job.Some? && job.value != ""
  }

  /** The tool name and the raw input: `json.loads(text)["action"]["name"]` and `[...]["input"]`. */
  function RawAction(c: Codec, text: string): Outcome<(Json, Json)> {
    match c.loads(text)
    case None => Raised("JSONDecodeError")
    case Some(data) =>
      var action :- Subscript(data, "action");
      var name :- Subscript(action, "name");
      var input :- Subscript(action, "input");
      Returned((name, input))
  }

  /** A string input is parsed as JSON when it can be and becomes `{"query": s}` when it cannot. */
  function ParsedInput(c: Codec, raw: Json): Json {
    if raw.JStr? then
      match c.loads(raw.s)
      case Some(v) => v
      case None => JObj(map["query" := raw])
    else raw
  }

  /** The input handed to the tool: parsed, with the job name added to a dict that lacks one. */
  function NormalisedInput(c: Codec, raw: Json, job: Option<string>): Json {
    var input := ParsedInput(c, raw);
    if input.JObj? && JobGiven(job) && "job_name" !in input.fields then
      JObj(input.fields["job_name" := JStr(job.value)])
    else input
  }

  /**
   * Normalisation only ever adds `job_name`: a dict input keeps every key it
   * had, an existing `job_name` is never replaced, and the job name is added
   * exactly when it is given and missing; an undecodable string becomes a
   * `query` dict.
   */
  lemma NormalisationAddsJobOnly(c: Codec, raw: Json, job: Option<string>)
    ensures var parsed := ParsedInput(c, raw);
      var r := NormalisedInput(c, raw, job);
      && (parsed.JObj? <==> r.JObj?)
      && (!parsed.JObj? ==> r == parsed)
      && (parsed.JObj? ==>
            && r.fields.Keys == parsed.fields.Keys + (if JobGiven(job) then {"job_name"} else {})
            && (forall k :: k in parsed.fields ==> r.fields[k] == parsed.fields[k])
            && (JobGiven(job) && "job_name" !in parsed.fields ==> r.fields["job_name"] == JStr(job.value)))
    ensures raw.JStr? && c.loads(raw.s).None? ==> ParsedInput(c, raw) == JObj(map["query" := raw])
    ensures !raw.JStr? ==> ParsedInput(c, raw) == raw
  {
  }

  const ToolResultPrefix: string := "Tool result: "

  /** The two messages that feed a tool result back. */
  function ToolMessages(c: Codec, text: string, result: Json): seq<Message> {
    [Message(Assistant, text), Message(User, ToolResultPrefix + c.dumps(result))]
  }

  /** The history and tool results after _handle_tool_execution; any exception leaves both unchanged. */
  function ToolStep(c: Codec, h: Handlers, job: Option<string>, text: string, history: seq<Message>, results: seq<Json>): (seq<Message>, seq<Json>) {
    match RawAction(c, text)
    case Raised(_) => (history, results)
    case Returned((name, raw)) =>
      match ExecuteTool(c, h, name, NormalisedInput(c, raw, job))
      case Raised(_) => (history, results)
      case Returned(result) =>
        (history + ToolMessages(c, text, result), results + [result])
  }

  /** The tool ran: the action decoded and the dispatcher returned. */
  predicate ToolRan(c: Codec, h: Handlers, job: Option<string>, text: string) {
    && RawAction(c, text).Returned?
    && ExecuteTool(c, h, RawAction(c, text).value.0, NormalisedInput(c, RawAction(c, text).value.1, job)).Returned?
  }

  /**
   * A tool step grows the history by exactly 0 or 2 messages: by 2, the raw
   * reply and the serialised result, exactly when the tool ran, and then the
   * result is also added to the tool results; otherwise nothing changes.
   */
  lemma ToolStepDelta(c: Codec, h: Handlers, job: Option<string>, text: string, history: seq<Message>, results: seq<Json>)
    ensures var r := ToolStep(c, h, job, text, history, results);
      && (!ToolRan(c, h, job, text) ==> r.0 == history && r.1 == results)
      && (ToolRan(c, h, job, text) ==>
            var result := ExecuteTool(c, h, RawAction(c, text).value.0, NormalisedInput(c, RawAction(c, text).value.1, job)).value;
            r.0 == history + ToolMessages(c, text, result) && r.1 == results + [result])
  {
  }

  /** A reply that is not JSON, or has no `action` with `name` and `input`, changes nothing. */
  lemma MalformedActionIgnored(c: Codec, h: Handlers, job: Option<string>, text: string, history: seq<Message>, results: seq<Json>)
    requires RawAction(c, text).Raised?
    ensures ToolStep(c, h, job, text, history, results) == (history, results)
  {
  }

  /** An unknown tool name is not an error here: its "not found" response is fed back like any result. */
  lemma UnknownToolFedBack(c: Codec, h: Handlers, job: Option<string>, text: string, history: seq<Message>, results: seq<Json>)
    requires RawAction(c, text).Returned?
    requires var name := RawAction(c, text).value.0; Hashable(name) && !(name.JStr? && name.s in Registry)
    ensures var nf := NotFound(c, RawAction(c, text).value.0);
      ToolStep(c, h, job, text, history, results) == (history + ToolMessages(c, text, nf), results + [nf])
  {
  }

  /** _handle_tool_execution, step by step; each failure point returns the lists unchanged. */
  method HandleToolExecution(c: Codec, h: Handlers, accumulatedResponse: string, chatHistory: seq<Message>,
                             toolResultsUsed: seq<Json>, job: Option<string>)
    returns (history: seq<Message>, results: seq<Json>)
    ensures history == ToolStep(c, h, job, accumulatedResponse, chatHistory, toolResultsUsed).0
    ensures results == ToolStep(c, h, job, accumulatedResponse, chatHistory, toolResultsUsed).1
  {
    history, results := chatHistory, toolResultsUsed;
    var responseData := c.loads(accumulatedResponse);
    if responseData.None? {
      return;
    }
    var action := Subscript(responseData.value, "action");
    if action.Raised? {
      return;
    }
    var toolName := Subscript(action.value, "name");
    if toolName.Raised? {
      return;
    }
    var toolInput := Subscript(action.value, "input");
    if toolInput.Raised? {
      return;
    }
    assert RawAction(c, accumulatedResponse) == Returned((toolName.value, toolInput.value));
    var input := toolInput.value;
    if input.JStr? {
      var parsed := c.loads(input.s);
      if parsed.Some? {
        input := parsed.value;
      } else {
        input := JObj(map["query" := input]);
      }
    }
    assert input == ParsedInput(c, toolInput.value);
    if input.JObj? && JobGiven(job) && "job_name" !in input.fields {
      input := JObj(input.fields["job_name" := JStr(job.value)]);
    }
    assert input == NormalisedInput(c, toolInput.value, job);
    var toolResult := ExecuteTool(c, h, toolName.value, input);
    if toolResult.Raised? {
      return;
    }
    results := results + [toolResult.value];
    var reply := Message(Assistant, accumulatedResponse);
    var fed := Message(User, ToolResultPrefix + c.dumps(toolResult.value));
    history := history + [reply];
    history := history + [fed];
    assert history == chatHistory + ToolMessages(c, accumulatedResponse, toolResult.value);
  }

  // ---------------------------------------------------------------------------
  // The loop of process_agent_message

  /** What the loop runs against: the codec, the tool handlers, and the model backend. */
  datatype Env = Env(codec: Codec, handlers: Handlers, reply: (nat, seq<Message>) -> seq<string>)

  /**
   * The loop's variables after an iteration: its number, the history, every
   * history sent to the backend so far, the events yielded, the tool results
   * and `final_answer`.
   */
  datatype LoopState = LoopState(
    iteration: nat,
    history: seq<Message>,
    requests: seq<seq<Message>>,
    events: seq<Event>,
    toolResults: seq<Json>,
    finalAnswer: string)

  /** How one iteration ends: on to the next, `break` on a finish, or an exception. */
  datatype StepEnd = Next(st: LoopState) | Break(st: LoopState) | Abort(st: LoopState, error: string)

  /** How the loop ends: on a finish, by exhausting the cap, or by an exception. */
  datatype LoopEnd = Finished(st: LoopState) | Exhausted(st: LoopState) | Aborted(st: LoopState, error: string)

  /** The history sent in the iteration after `st`: with the reminder when it is due. */
  function Request(st: LoopState): seq<Message> {
    st.history + (if ReminderDue(st.iteration + 1) then [Reminder] else [])
  }

  /** The events before the reply of the iteration after `st`: the spacer, except on the first. */
  function Opening(st: LoopState): seq<Event> {
    st.events + (if st.iteration + 1 > 1 then [SpacerEvent] else [])
  }

  /**
   * The rest of an iteration once the reply has been consumed: `started` is
   * the state with the new iteration number, the history sent and the
   * opening events.
   */
  function Settle(env: Env, job: Option<string>, started: LoopState, reply: StreamEnd): (r: StepEnd)
    ensures r.st.iteration == started.iteration && r.st.requests == started.requests
  {
    match reply
    case Failed(events, error) => Abort(started.(events := started.events + events), error)
    case Ended(events, accumulated, complete, actionStreamed, finalAnswer) =>
      if complete then
        Break(started.(events := started.events + events, finalAnswer := accumulated))
      else if actionStreamed then
        var tool := ToolStep(env.codec, env.handlers, job, accumulated, started.history, started.toolResults);
        Next(started.(history := tool.0, toolResults := tool.1, events := started.events + events, finalAnswer := finalAnswer))
      else
        Next(started.(events := started.events + events + [FinalAnswer(accumulated)], finalAnswer := accumulated))
  }

  /** The state at the start of the iteration after `st`, before the reply. */
  function Started(st: LoopState): LoopState {
    LoopState(st.iteration + 1, Request(st), st.requests + [Request(st)], Opening(st), st.toolResults, st.finalAnswer)
  }

  /** One iteration of the loop body. */
  function Iteration(env: Env, job: Option<string>, st: LoopState): (r: StepEnd)
    ensures r.st.iteration == st.iteration + 1 && r.st.requests == st.requests + [Request(st)]
  {
    var started := Started(st);
    Settle(env, job, started, Stream(env.codec, env.reply(started.iteration, started.history)))
  }

  /** An iteration body numbers the iterations and records the history it sends. */
  ghost predicate Advances(step: LoopState -> StepEnd) {
    forall s :: step(s).st.iteration == s.iteration + 1 && step(s).st.requests == s.requests + [Request(s)]
  }

  /** The while loop over an iteration body: from `st` on, until a finish, an exception or the cap. */
  function Run(step: LoopState -> StepEnd, st: LoopState): LoopEnd
    requires st.iteration <= MaxIterations && Advances(step)
    decreases MaxIterations - st.iteration
  {
    if st.iteration == MaxIterations then Exhausted(st)
    else
      match step(st)
      case Next(s) => Run(step, s)
      case Break(s) => Finished(s)
      case Abort(s, error) => Aborted(s, error)
  }

  /** The loop body of process_agent_message, as a function of the loop's state. */
  function Body(env: Env, job: Option<string>): (r: LoopState -> StepEnd)
    ensures Advances(r)
  {
    s => Iteration(env, job, s)
  }

  /** The iterations from `st` on, until a finish, an exception or the cap. */
  function Loop(env: Env, job: Option<string>, st: LoopState): LoopEnd
    requires st.iteration <= MaxIterations
  {
    Run(Body(env, job), st)
  }

  /** The state before the first iteration. `final_answer` is not yet bound; it is always set before it is read. */
  function Initial(history: seq<Message>): LoopState {
    LoopState(0, history, [], [], [], "")
  }

  /** What the caller sees of a turn, and the answer recorded in session memory, if any. */
  datatype Reply = Reply(events: seq<Event>, error: Option<string>, recorded: Option<string>)

  /** The answer after an exhausted loop: the notice alone, or appended to the last answer. */
  function Exhaust(answer: string): (r: string)
    ensures |r| == (if answer == "" then 0 else |answer|) + |TruncationNotice|
    ensures r[|r| - |TruncationNotice|..] == TruncationNotice
    ensures answer == "" ==> r == TruncationNotice
    ensures answer != "" ==> r[..|answer|] == answer
  {
    if answer == "" then TruncationNotice else answer + TruncationNotice
  }

  /** The code after the loop: the while-else of an exhausted loop, then the record of a non-empty answer. */
  function Conclude(end: LoopEnd): Reply {
    match end
    case Aborted(s, error) => Reply(s.events, Some(error), None)
    case Finished(s) => Reply(s.events, None, if s.finalAnswer != "" then Some(s.finalAnswer) else None)
    case Exhausted(s) =>
      var answer := Exhaust(s.finalAnswer);
      Reply(s.events + [RawText(answer)], None, if answer != "" then Some(answer) else None)
  }

  /** A whole turn from its initial history. */
  function AgentReply(env: Env, job: Option<string>, history: seq<Message>): Reply {
    Conclude(Loop(env, job, Initial(history)))
  }

  /** The branches after the stream of one iteration. */
  method SettleReply(env: Env, job: Option<string>, started: LoopState, streamed: StreamEnd) returns (r: StepEnd)
    ensures r == Settle(env, job, started, streamed)
  {
    var events := started.events + streamed.events;
    if streamed.Failed? {
      return Abort(started.(events := events), streamed.error);
    }
    var finalAnswer := streamed.finalAnswer;
    if streamed.isComplete {
      finalAnswer := streamed.accumulated;
      return Break(started.(events := events, finalAnswer := finalAnswer));
    }
    if streamed.actionStreamed {
      var history, results := HandleToolExecution(env.codec, env.handlers, streamed.accumulated, started.history, started.toolResults, job);
      return Next(started.(history := history, toolResults := results, events := events, finalAnswer := finalAnswer));
    }
    finalAnswer := streamed.accumulated;
    events := events + [FinalAnswer(finalAnswer)];
    r := Next(started.(events := events, finalAnswer := finalAnswer));
  }

  /** One iteration of process_agent_message's loop body. */
  method RunIteration(env: Env, job: Option<string>, st: LoopState) returns (r: StepEnd)
    ensures r == Iteration(env, job, st)
  {
    var iteration := st.iteration + 1;
    var events := st.events;
    if iteration > 1 {
      events := events + [SpacerEvent];
    }
    var history := st.history;
    if iteration % 3 == 1 && iteration > 1 {
      history := history + [Reminder];
    }
    var started := LoopState(iteration, history, st.requests + [history], events, st.toolResults, st.finalAnswer);
    assert ReminderDue(iteration) <==> iteration % 3 == 1 && iteration > 1;
    assert history == Request(st) && events == Opening(st);
    assert started == Started(st);
    var streamed := ProcessAiStream(env.codec, env.reply(iteration, history));
    r := SettleReply(env, job, started, streamed);
  }

  /** The while loop of process_agent_message, with how it ended: `break`, the cap, or an exception. */
  method RunLoop(env: Env, job: Option<string>, chatHistory: seq<Message>) returns (end: LoopEnd)
    ensures end == Loop(env, job, Initial(chatHistory))
  {
    var st := Initial(chatHistory);
    while st.iteration < MaxIterations
      invariant st.iteration <= MaxIterations
      invariant Loop(env, job, Initial(chatHistory)) == Loop(env, job, st)
      decreases MaxIterations - st.iteration
    {
      var step := RunIteration(env, job, st);
      if step.Abort? {
        return Aborted(step.st, step.error);
      }
      if step.Break? {
        return Finished(step.st);
      }
      st := step.st;
    }
    end := Exhausted(st);
  }

  /** The agent service over the process-wide session table. */
  class AgentService {
    const systemPrompt: string
    const sessions: SessionManager

    constructor (systemPrompt: string, sessions: SessionManager)
      ensures this.systemPrompt == systemPrompt && this.sessions == sessions
    {
      this.systemPrompt := systemPrompt;
      this.sessions := sessions;
    }

    /** _setup_chat_history: reading the context refreshes the session's timestamp. */
    method SetupChatHistory(prompt: string, sessionId: string, now: real) returns (chatHistory: seq<Message>)
      requires sessions.Valid()
      modifies sessions
      ensures sessions.Valid()
      ensures sessions.sessions == Touch(old(sessions.sessions), sessionId, now)
      ensures chatHistory == InitialHistory(systemPrompt, LoopsOf(old(sessions.sessions), sessionId), prompt)
    {
      chatHistory := [Message(System, systemPrompt)];
      var contextMessages := sessions.GetContextForAi(sessionId, now);
      chatHistory := chatHistory + contextMessages;
      chatHistory := chatHistory + [Message(User, prompt)];
    }

    /**
     * process_agent_message: the events of the turn and the exception that
     * ended it, if any. `now` is the clock when the context is read,
     * `recordNow` and `stamp` the two readings of add_agent_loop.
     */
    method ProcessAgentMessage(env: Env, prompt: string, sessionId: string, job: Option<string>,
                               now: real, recordNow: real, stamp: real)
      returns (events: seq<Event>, error: Option<string>)
      requires sessions.Valid()
      modifies sessions
      ensures sessions.Valid()
      ensures var reply := AgentReply(env, job, InitialHistory(systemPrompt, LoopsOf(old(sessions.sessions), sessionId), prompt));
        && events == reply.events && error == reply.error
        && sessions.sessions == (
             var touched := Touch(old(sessions.sessions), sessionId, now);
             if reply.recorded.Some? then AddLoop(touched, sessionId, AgentLoop(prompt, reply.recorded.value, stamp), recordNow)
             else touched)
    {
      var chatHistory := SetupChatHistory(prompt, sessionId, now);
      var end := RunLoop(env, job, chatHistory);
      if end.Aborted? {
        return end.st.events, Some(end.error);
      }
      var finalAnswer := end.st.finalAnswer;
      events := end.st.events;
      if end.Exhausted? {
        finalAnswer := Exhaust(finalAnswer);
        events := events + [RawText(finalAnswer)];
      }
      if finalAnswer != "" {
        sessions.AddAgentLoop(sessionId, prompt, finalAnswer, recordNow, stamp);
      }
      error := None;
    }
  }

  // ---------------------------------------------------------------------------
  // Properties of the loop

  /** Over any iteration body, the loop runs at most to the cap, each iteration keeping the requests before it. */
  lemma {:induction false} RunBounded(step: LoopState -> StepEnd, st: LoopState)
    requires st.iteration <= MaxIterations && Advances(step) && |st.requests| == st.iteration
    ensures var e := Run(step, st);
      && st.iteration <= e.st.iteration <= MaxIterations
      && |e.st.requests| == e.st.iteration
      && e.st.requests[..|st.requests|] == st.requests
      && (e.Exhausted? ==> e.st.iteration == MaxIterations)
      && (!e.Exhausted? ==> e.st.iteration > st.iteration)
    decreases MaxIterations - st.iteration
  {
    if st.iteration < MaxIterations {
      var next := step(st);
      assert next.st.requests[..|st.requests|] == st.requests;
      if next.Next? {
        RunBounded(step, next.st);
        var e := Run(step, st);
        assert e.st.requests[..|next.st.requests|] == next.st.requests;
        assert e.st.requests[..|st.requests|] == e.st.requests[..|next.st.requests|][..|st.requests|];
      }
    }
  }

  /**
   * The loop never runs past the cap and sends exactly one request per
   * iteration, keeping the earlier ones; it stops by exhaustion only at the cap.
   */
  lemma LoopBounded(env: Env, job: Option<string>, st: LoopState)
    requires st.iteration <= MaxIterations && |st.requests| == st.iteration
    ensures var e := Loop(env, job, st);
      && st.iteration <= e.st.iteration <= MaxIterations
      && |e.st.requests| == e.st.iteration
      && e.st.requests[..|st.requests|] == st.requests
      && (e.Exhausted? ==> e.st.iteration == MaxIterations)
      && (!e.Exhausted? ==> e.st.iteration > st.iteration)
  {
    RunBounded(Body(env, job), st);
  }

  /** A turn sends between 1 and 15 requests, the first with the initial history, and exactly 15 when it is exhausted. */
  lemma TurnRequests(env: Env, job: Option<string>, history: seq<Message>)
    ensures var e := Loop(env, job, Initial(history));
      && 1 <= |e.st.requests| <= MaxIterations
      && e.st.requests[0] == history
      && (e.Exhausted? ==> |e.st.requests| == MaxIterations)
  {
    var st := Initial(history);
    LoopBounded(env, job, st);
    var step := Iteration(env, job, st);
    assert !ReminderDue(1) && Request(st) == history + [];
    assert history + [] == history && [] + [history] == [history];
    assert step.st.requests == [history];
    if step.Next? {
      LoopBounded(env, job, step.st);
      var e := Loop(env, job, st);
      assert e.st.requests[..1] == [history];
      assert e.st.requests[0] == e.st.requests[..1][0];
    }
  }

  /** `iteration - 1` spacers after `iteration` iterations. */
  function Gaps(iteration: nat): nat {
    if iteration == 0 then 0 else iteration - 1
  }

  lemma CountNarrationSingle(e: Event, n: Narration)
    ensures CountNarration([e], n) == (if e.AgentProcess? && e.narration == n then 1 else 0)
  {
    assert [e][1..] == [];
  }

  /**
   * One iteration opens with the spacer exactly when it is not the first,
   * keeps the events before it, and yields no other spacer.
   */
  lemma IterationSpacers(env: Env, job: Option<string>, st: LoopState)
    ensures var r := Iteration(env, job, st).st;
      && r.events[..|Opening(st)|] == Opening(st)
      && (st.iteration > 0 ==> r.events[|st.events|] == SpacerEvent)
      && CountNarration(r.events, Spacer) == CountNarration(st.events, Spacer) + (if st.iteration > 0 then 1 else 0)
  {
    var started := Started(st);
    var tokens := env.reply(started.iteration, started.history);
    var reply := Stream(env.codec, tokens);
    ReplyNarratesOnce(env.codec, tokens);
    var text := if st.iteration > 0 then [SpacerEvent] else [];
    CountNarrationAppend(st.events, text, Spacer);
    if st.iteration > 0 {
      CountNarrationSingle(SpacerEvent, Spacer);
    } else {
      assert text == [];
    }
    CountNarrationAppend(Opening(st), reply.events, Spacer);
    var r := Iteration(env, job, st).st;
    if reply.Ended? && !reply.isComplete && !reply.actionStreamed {
      CountNarrationAppend(Opening(st) + reply.events, [FinalAnswer(reply.accumulated)], Spacer);
      CountNarrationSingle(FinalAnswer(reply.accumulated), Spacer);
      assert r.events == Opening(st) + (reply.events + [FinalAnswer(reply.accumulated)]);
    }
    assert r.events[..|Opening(st)|] == Opening(st);
  }

  /** An iteration body that adds one spacer on every iteration but the first, keeping the earlier events. */
  ghost predicate SpacesIterations(step: LoopState -> StepEnd) {
    forall s: LoopState :: s.events <= step(s).st.events &&
      CountNarration(step(s).st.events, Spacer) == CountNarration(s.events, Spacer) + (if s.iteration > 0 then 1 else 0)
  }

  lemma {:induction false} RunSpacers(step: LoopState -> StepEnd, st: LoopState)
    requires st.iteration <= MaxIterations && Advances(step) && SpacesIterations(step)
    requires CountNarration(st.events, Spacer) == Gaps(st.iteration)
    ensures var e := Run(step, st);
      CountNarration(e.st.events, Spacer) == Gaps(e.st.iteration) && st.events <= e.st.events
    decreases MaxIterations - st.iteration
  {
    if st.iteration < MaxIterations {
      var next := step(st);
      if next.Next? {
        RunSpacers(step, next.st);
      }
    }
  }

  /** Over the loop, there is one spacer between each two consecutive iterations and no other. */
  lemma LoopSpacers(env: Env, job: Option<string>, st: LoopState)
    requires st.iteration <= MaxIterations
    requires CountNarration(st.events, Spacer) == Gaps(st.iteration)
    ensures var e := Loop(env, job, st);
      CountNarration(e.st.events, Spacer) == Gaps(e.st.iteration) && st.events <= e.st.events
  {
    BodySpaces(env, job);
    RunSpacers(Body(env, job), st);
  }

  lemma BodySpaces(env: Env, job: Option<string>)
    ensures SpacesIterations(Body(env, job))
  {
    var step := Body(env, job);
    forall s: LoopState
      ensures s.events <= step(s).st.events
      ensures CountNarration(step(s).st.events, Spacer) == CountNarration(s.events, Spacer) + (if s.iteration > 0 then 1 else 0)
    {
      IterationSpacers(env, job, s);
      assert s.events <= Opening(s);
    }
  }

  /** The events of a turn hold exactly one spacer per iteration after the first. */
  lemma TurnSpacers(env: Env, job: Option<string>, history: seq<Message>)
    ensures var e := Loop(env, job, Initial(history));
      e.st.iteration >= 1 && CountNarration(Conclude(e).events, Spacer) == e.st.iteration - 1
  {
    var e := Loop(env, job, Initial(history));
    LoopSpacers(env, job, Initial(history));
    LoopBounded(env, job, Initial(history));
    if e.Exhausted? {
      var answer := Exhaust(e.st.finalAnswer);
      CountNarrationAppend(e.st.events, [RawText(answer)], Spacer);
      CountNarrationSingle(RawText(answer), Spacer);
    }
  }

  /** The number of reminders in a list of messages. */
  function CountReminders(messages: seq<Message>): nat {
    if messages == [] then 0 else (if messages[0] == Reminder then 1 else 0) + CountReminders(messages[1..])
  }

  lemma {:induction false} CountRemindersAppend(a: seq<Message>, b: seq<Message>)
    ensures CountReminders(a + b) == CountReminders(a) + CountReminders(b)
    decreases |a|
  {
    if a == [] {
      assert a + b == b;
    } else {
      assert (a + b)[1..] == a[1..] + b;
      CountRemindersAppend(a[1..], b);
    }
  }

  /** How many of the iterations 1 .. n append the reminder. */
  function Due(n: nat): nat {
    if n == 0 then 0 else Due(n - 1) + (if ReminderDue(n) then 1 else 0)
  }

  /** The count in closed form: one reminder per three iterations after the first. */
  lemma {:induction false} DueClosedForm(n: nat)
    requires n >= 1
    ensures Due(n) == (n - 1) / 3
  {
    if n > 1 {
      DueClosedForm(n - 1);
    }
  }

  /** A tool step only appends to the history, and never a reminder. */
  lemma ToolStepReminders(c: Codec, h: Handlers, job: Option<string>, text: string, history: seq<Message>, results: seq<Json>)
    ensures var r := ToolStep(c, h, job, text, history, results).0;
      history <= r && CountReminders(r) == CountReminders(history)
  {
    ToolStepDelta(c, h, job, text, history, results);
    if ToolRan(c, h, job, text) {
      var result := ExecuteTool(c, h, RawAction(c, text).value.0, NormalisedInput(c, RawAction(c, text).value.1, job)).value;
      var tool := ToolMessages(c, text, result);
      CountRemindersAppend(history, tool);
      assert CountReminders(tool) == 0 by {
        assert tool[1..][1..] == [];
        assert CountReminders(tool[1..]) == 0;
      }
    }
  }

  /** Settling a reply keeps the history sent, possibly followed by the tool messages. */
  lemma SettleReminders(env: Env, job: Option<string>, started: LoopState, reply: StreamEnd)
    ensures var r := Settle(env, job, started, reply).st.history;
      started.history <= r && CountReminders(r) == CountReminders(started.history)
  {
    if reply.Ended? && !reply.isComplete && reply.actionStreamed {
      ToolStepReminders(env.codec, env.handlers, job, reply.accumulated, started.history, started.toolResults);
    }
  }

  /**
   * One iteration appends the reminder to the history exactly when it is
   * due, just before its request, and otherwise sends the history as it
   * was; the history is never shortened, and the tool messages are not
   * reminders.
   */
  lemma IterationReminders(env: Env, job: Option<string>, st: LoopState)
    ensures var k := st.iteration + 1;
      && (ReminderDue(k) ==> Request(st) == st.history + [Reminder])
      && (!ReminderDue(k) ==> Request(st) == st.history)
      && Request(st) <= Iteration(env, job, st).st.history
      && CountReminders(Iteration(env, job, st).st.history) == CountReminders(st.history) + (if ReminderDue(k) then 1 else 0)
  {
    var k := st.iteration + 1;
    var extra := if ReminderDue(k) then [Reminder] else [];
    CountRemindersAppend(st.history, extra);
    if ReminderDue(k) {
      assert CountReminders(extra) == 1 by { assert extra[1..] == []; }
    } else {
      assert st.history + extra == st.history;
    }
    var started := Started(st);
    SettleReminders(env, job, started, Stream(env.codec, env.reply(started.iteration, started.history)));
  }

  /** An iteration body that never shortens the history. */
  ghost predicate KeepsHistory(step: LoopState -> StepEnd) {
    forall s: LoopState :: s.history <= step(s).st.history
  }

  lemma {:induction false} RunHistoryGrows(step: LoopState -> StepEnd, st: LoopState)
    requires st.iteration <= MaxIterations && Advances(step) && KeepsHistory(step)
    ensures st.history <= Run(step, st).st.history
    decreases MaxIterations - st.iteration
  {
    if st.iteration < MaxIterations && step(st).Next? {
      RunHistoryGrows(step, step(st).st);
    }
  }

  /** Over the loop the history only grows. */
  lemma LoopHistoryGrows(env: Env, job: Option<string>, st: LoopState)
    requires st.iteration <= MaxIterations
    ensures st.history <= Loop(env, job, st).st.history
  {
    BodyKeepsHistory(env, job);
    RunHistoryGrows(Body(env, job), st);
  }

  lemma BodyKeepsHistory(env: Env, job: Option<string>)
    ensures KeepsHistory(Body(env, job))
  {
    var step := Body(env, job);
    forall s: LoopState
      ensures s.history <= step(s).st.history
    {
      IterationReminders(env, job, s);
      assert s.history <= Request(s);
    }
  }

  /** An iteration body that adds one reminder exactly on the iterations where it is due. */
  ghost predicate RemindsOnDue(step: LoopState -> StepEnd) {
    forall s: LoopState :: CountReminders(step(s).st.history) == CountReminders(s.history) + (if ReminderDue(s.iteration + 1) then 1 else 0)
  }

  lemma {:induction false} RunReminders(step: LoopState -> StepEnd, st: LoopState)
    requires st.iteration <= MaxIterations && Advances(step) && RemindsOnDue(step)
    ensures CountReminders(Run(step, st).st.history) + Due(st.iteration) ==
            CountReminders(st.history) + Due(Run(step, st).st.iteration)
    decreases MaxIterations - st.iteration
  {
    if st.iteration < MaxIterations && step(st).Next? {
      RunReminders(step, step(st).st);
    }
  }

  /** Over the loop the history gains one reminder for each of the iterations 4, 7, 10 and 13 that ran. */
  lemma LoopReminders(env: Env, job: Option<string>, st: LoopState)
    requires st.iteration <= MaxIterations
    ensures CountReminders(Loop(env, job, st).st.history) + Due(st.iteration) ==
            CountReminders(st.history) + Due(Loop(env, job, st).st.iteration)
  {
    BodyReminds(env, job);
    RunReminders(Body(env, job), st);
  }

  lemma BodyReminds(env: Env, job: Option<string>)
    ensures RemindsOnDue(Body(env, job))
  {
    var step := Body(env, job);
    forall s: LoopState
      ensures CountReminders(step(s).st.history) == CountReminders(s.history) + (if ReminderDue(s.iteration + 1) then 1 else 0)
    {
      ReminderCount(env, job, s);
      assert step(s) == Iteration(env, job, s);
    }
  }

  lemma ReminderCount(env: Env, job: Option<string>, st: LoopState)
    ensures CountReminders(Iteration(env, job, st).st.history) == CountReminders(st.history) + (if ReminderDue(st.iteration + 1) then 1 else 0)
  {
    IterationReminders(env, job, st);
  }

  /** An exhausted turn has appended exactly four reminders. */
  lemma ExhaustedTurnReminders(env: Env, job: Option<string>, history: seq<Message>)
    requires Loop(env, job, Initial(history)).Exhausted?
    ensures CountReminders(Loop(env, job, Initial(history)).st.history) == CountReminders(history) + 4
  {
    LoopReminders(env, job, Initial(history));
    LoopBounded(env, job, Initial(history));
    DueClosedForm(MaxIterations);
  }

  /** A text holding a terminated finish field is not empty. */
  lemma TerminatedNotEmpty(s: string)
    requires ScanFinish(s).Terminated?
    ensures s != ""
  {
    var k := Find(s, FinishMarker).value;
    assert OccursAt(s, FinishMarker, k);
  }

  /**
   * An iteration that breaks does so on a completed reply: its final answer
   * is the raw accumulated reply, which holds a terminated finish field, and
   * its last event is the `final_answer` event with that field's text.
   */
  lemma IterationBreaks(env: Env, job: Option<string>, st: LoopState)
    requires Iteration(env, job, st).Break?
    ensures var s := Iteration(env, job, st).st;
      && ScanFinish(s.finalAnswer).Terminated?
      && s.finalAnswer != ""
      && s.events != [] && s.events[|s.events| - 1] == FinalAnswer(ScanFinish(s.finalAnswer).answer)
  {
    var started := Started(st);
    var tokens := env.reply(started.iteration, started.history);
    ReplyEnding(env.codec, tokens);
    StreamFinalEvent(env.codec, tokens, "", "", {}, None);
    var s := Iteration(env, job, st).st;
    TerminatedNotEmpty(s.finalAnswer);
  }

  /** A state after a finish: the raw reply holds a terminated finish field, announced by the last event. */
  predicate Concluded(s: LoopState) {
    && ScanFinish(s.finalAnswer).Terminated?
    && s.finalAnswer != ""
    && s.events != [] && s.events[|s.events| - 1] == FinalAnswer(ScanFinish(s.finalAnswer).answer)
  }

  /** An iteration body whose every `break` leaves a concluded state. */
  ghost predicate BreaksConcluded(step: LoopState -> StepEnd) {
    forall s: LoopState :: step(s).Break? ==> Concluded(step(s).st)
  }

  lemma {:induction false} RunFinishes(step: LoopState -> StepEnd, st: LoopState)
    requires st.iteration <= MaxIterations && Advances(step) && BreaksConcluded(step)
    requires Run(step, st).Finished?
    ensures Concluded(Run(step, st).st)
    decreases MaxIterations - st.iteration
  {
    if step(st).Next? {
      RunFinishes(step, step(st).st);
    }
  }

  /** A finished loop ended on such an iteration. */
  lemma LoopFinishes(env: Env, job: Option<string>, st: LoopState)
    requires st.iteration <= MaxIterations && Loop(env, job, st).Finished?
    ensures var s := Loop(env, job, st).st;
      && ScanFinish(s.finalAnswer).Terminated?
      && s.finalAnswer != ""
      && s.events != [] && s.events[|s.events| - 1] == FinalAnswer(ScanFinish(s.finalAnswer).answer)
  {
    BodyBreaksConcluded(env, job);
    RunFinishes(Body(env, job), st);
  }

  lemma BodyBreaksConcluded(env: Env, job: Option<string>)
    ensures BreaksConcluded(Body(env, job))
  {
    var step := Body(env, job);
    forall s: LoopState | step(s).Break?
      ensures Concluded(step(s).st)
    {
      IterationBreaks(env, job, s);
    }
  }

  /**
   * How a turn concludes: an exception is passed on and nothing is
   * recorded; otherwise an answer is always recorded. A finished turn
   * records the raw reply text; an exhausted one yields and records the
   * truncation notice, alone or after the last answer.
   */
  lemma TurnConclusion(env: Env, job: Option<string>, history: seq<Message>)
    ensures var e := Loop(env, job, Initial(history));
      var reply := Conclude(e);
      && (reply.error.Some? <==> e.Aborted?)
      && (reply.recorded.Some? <==> !e.Aborted?)
      && (e.Aborted? ==> reply.error == Some(e.error) && reply.events == e.st.events)
      && (e.Finished? ==> reply.recorded == Some(e.st.finalAnswer) && ScanFinish(e.st.finalAnswer).Terminated?
                          && reply.events == e.st.events)
      && (e.Exhausted? ==>
            && reply.recorded == Some(Exhaust(e.st.finalAnswer))
            && reply.events == e.st.events + [RawText(Exhaust(e.st.finalAnswer))]
            && (e.st.finalAnswer == "" ==> reply.recorded == Some(TruncationNotice)))
  {
    var e := Loop(env, job, Initial(history));
    if e.Finished? {
      LoopFinishes(env, job, Initial(history));
    }
  }

  /**
   * A reply with neither a finish field nor an action does not end the
   * turn: its text is sent as a `final_answer` event, becomes the current
   * answer, and the loop goes on with the history unchanged.
   */
  lemma PlainAnswerContinues(env: Env, job: Option<string>, st: LoopState)
    requires var r := Stream(env.codec, env.reply(st.iteration + 1, Request(st)));
      r.Ended? && !r.isComplete && !r.actionStreamed
    ensures var reply := Stream(env.codec, env.reply(st.iteration + 1, Request(st)));
      var step := Iteration(env, job, st);
      && step.Next?
      && step.st.history == Request(st)
      && step.st.finalAnswer == reply.accumulated
      && step.st.events[|step.st.events| - 1] == FinalAnswer(reply.accumulated)
      && step.st.toolResults == st.toolResults
  {
  }

  /** Over a body that always goes on with the same answer, the loop is exhausted with that answer. */
  lemma {:induction false} RunRepeats(step: LoopState -> StepEnd, st: LoopState, answer: string)
    requires st.iteration <= MaxIterations && Advances(step)
    requires forall s :: step(s).Next? && step(s).st.finalAnswer == answer
    ensures Run(step, st).Exhausted?
    ensures st.iteration < MaxIterations ==> Run(step, st).st.finalAnswer == answer
    decreases MaxIterations - st.iteration
  {
    if st.iteration < MaxIterations {
      RunRepeats(step, step(st).st, answer);
    }
  }

  /**
   * A backend that always replies with the same plain text exhausts the
   * turn, the text being the answer of its last iteration.
   */
  lemma RepeatedPlainAnswer(env: Env, job: Option<string>, st: LoopState, tokens: seq<string>)
    requires st.iteration <= MaxIterations
    requires forall k, h :: env.reply(k, h) == tokens
    requires var r := Stream(env.codec, tokens); r.Ended? && !r.isComplete && !r.actionStreamed
    ensures var e := Loop(env, job, st);
      && e.Exhausted?
      && (st.iteration < MaxIterations ==> e.st.finalAnswer == Stream(env.codec, tokens).accumulated)
  {
    var step := Body(env, job);
    forall s: LoopState
      ensures step(s).Next? && step(s).st.finalAnswer == Stream(env.codec, tokens).accumulated
    {
      assert env.reply(s.iteration + 1, Request(s)) == tokens;
      PlainAnswerContinues(env, job, s);
    }
    RunRepeats(step, st, Stream(env.codec, tokens).accumulated);
  }

  /** The turn-level form: the recorded answer is the repeated text with the notice. */
  lemma RepeatedPlainTurn(env: Env, job: Option<string>, history: seq<Message>, tokens: seq<string>)
    requires forall k, h :: env.reply(k, h) == tokens
    requires var r := Stream(env.codec, tokens); r.Ended? && !r.isComplete && !r.actionStreamed
    ensures AgentReply(env, job, history).recorded == Some(Exhaust(Stream(env.codec, tokens).accumulated))
    ensures AgentReply(env, job, history).error == None
  {
    RepeatedPlainAnswer(env, job, Initial(history), tokens);
  }
}
