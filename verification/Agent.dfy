/** The agentic loop: the input gate `handleUserInput` (app.js:244-263) and the
    bounded request/act/observe cycle `agenticLoop` (app.js:322-370). The model
    behind `callLLM` is an oracle that sees the conversation log; within a turn
    the log grows between calls, so any sequence of replies can be expressed. */
module Agent {
  import opened Wrappers
  import opened JsText
  import opened Protocol
  import opened Conversation
  import opened Tools

  /** The cap on tool-dispatching iterations per turn. */
  const MaxLoops: nat := 10

  /** `callLLM`: the model's next message (text and/or requested tool calls), or
      the transport error it throws. */
  datatype LlmReply =
    | Reply(content: Option<string>, toolCalls: Option<seq<ToolCall>>)
    | TransportFailure(message: string)

  /** The reply asks for at least one tool call. */
  predicate RequestsTools(reply: LlmReply) {
    reply.Reply? && reply.toolCalls.Some? && |reply.toolCalls.value| > 0
  }

  /** What the chatbot talks to: the model and the tools' external effects. */
  datatype Oracles = Oracles(llm: seq<Message> -> LlmReply, tools: ToolOracles)

  /** What the loop calls: the model, and the handler that appends the answers to
      the tool calls of an assistant entry. The loop is stated for any handler;
      `Wired` plugs in `handleToolCalls`. */
  datatype Driver = Driver(llm: seq<Message> -> LlmReply,
                           handle: (seq<Message>, seq<ToolCall>) -> seq<Message>)

  function Wired(o: Oracles): Driver {
    Driver(o.llm, (log, calls) => HandleToolCalls(log, calls, o.tools))
  }

  /** The handler appends exactly one answer per call, in call order. */
  ghost predicate AnswersInOrder(handle: (seq<Message>, seq<ToolCall>) -> seq<Message>,
                                 log: seq<Message>, calls: seq<ToolCall>)
  {
    var r := handle(log, calls);
    |r| == |log| + |calls| && r[..|log|] == log && AnswersCalls(r[|log|..], calls)
  }

  ghost predicate Answering(d: Driver) {
    forall log, calls :: AnswersInOrder(d.handle, log, calls)
  }

  /** `handleToolCalls` answers every call in order. */
  lemma WiredIsAnswering(o: Oracles)
    ensures Answering(Wired(o))
  {
    forall log, calls ensures AnswersInOrder(Wired(o).handle, log, calls) {
      HandleToolCallsAnswersCalls(log, calls, o.tools);
    }
  }

  /** One tool-dispatching iteration: the assistant entry with its calls is
      appended, then the answer to every call. */
  function Round(log: seq<Message>, content: Option<string>, calls: seq<ToolCall>, d: Driver)
    : seq<Message>
  {
    d.handle(log + [AssistantMessage(content, calls)], calls)
  }

  /** Reference trajectory: starting from `from`, `n` iterations in which the
      model asked for tools lead to `to`. */
  ghost predicate Trajectory(d: Driver, from: seq<Message>, to: seq<Message>, n: nat)
    decreases n
  {
    if n == 0 then to == from
    else
      var reply := d.llm(from);
      && RequestsTools(reply)
      && Trajectory(d, Round(from, reply.content, reply.toolCalls.value, d), to, n - 1)
  }

  /** How the `while` loop is left: normally, with the counter and the
      `tasksCompleted` flag (and the final reply's text, which is only rendered),
      or by the exception `callLLM` throws. */
  datatype LoopExit =
    | Exited(log: seq<Message>, loopCount: nat, tasksCompleted: bool, finalContent: Option<string>)
    | Aborted(log: seq<Message>, loopCount: nat, error: string)

  /** The `while (loopCount < maxLoops)` loop, from counter value `loopCount`. */
  function RunLoop(log: seq<Message>, d: Driver, loopCount: nat): (r: LoopExit)
    requires loopCount <= MaxLoops
    ensures loopCount <= r.loopCount <= MaxLoops
    ensures r.Exited? ==> (r.tasksCompleted <==> r.loopCount < MaxLoops)
    ensures r.Exited? && r.tasksCompleted ==>
              d.llm(r.log).Reply? && !RequestsTools(d.llm(r.log)) && r.finalContent == d.llm(r.log).content
    ensures r.Aborted? ==> d.llm(r.log) == TransportFailure(r.error)
    decreases MaxLoops - loopCount
  {
    if loopCount >= MaxLoops then Exited(log, loopCount, false, None)
    else
      match d.llm(log)
      case TransportFailure(message) => Aborted(log, loopCount, message)
      case Reply(content, toolCalls) =>
        if toolCalls.Some? && |toolCalls.value| > 0 then
          var calls := toolCalls.value;
          RunLoop(Round(log, content, calls, d), d, loopCount + 1)
        else Exited(log, loopCount, true, content)
  }

  /** An iteration in which the model asks for tools runs one round and goes on
      with the next counter value. */
  lemma RunLoopStep(log: seq<Message>, d: Driver, loopCount: nat)
    requires loopCount < MaxLoops && RequestsTools(d.llm(log))
    ensures var reply := d.llm(log);
            RunLoop(log, d, loopCount)
              == RunLoop(Round(log, reply.content, reply.toolCalls.value, d), d, loopCount + 1)
  {
  }

  /** The loop follows the reference trajectory: from counter value `loopCount`
      it performs `r.loopCount - loopCount` tool-dispatching iterations. */
  lemma {:induction false} RunLoopFollowsTrajectory(log: seq<Message>, d: Driver, loopCount: nat)
    requires loopCount <= MaxLoops
    ensures var r := RunLoop(log, d, loopCount);
            Trajectory(d, log, r.log, r.loopCount - loopCount)
    decreases MaxLoops - loopCount
  {
    var r := RunLoop(log, d, loopCount);
    if loopCount < MaxLoops && RequestsTools(d.llm(log)) {
      var reply := d.llm(log);
      var next := Round(log, reply.content, reply.toolCalls.value, d);
      RunLoopStep(log, d, loopCount);
      RunLoopFollowsTrajectory(next, d, loopCount + 1);
      TrajectoryStep(d, log, r.log, r.loopCount - loopCount);
    }
  }

  /** With an answering handler, a trajectory of `n` iterations appends exactly
      `n` complete rounds behind the log it started on. */
  lemma {:induction false} TrajectoryAppendsRounds(d: Driver, from: seq<Message>, to: seq<Message>, n: nat)
    requires Answering(d) && Trajectory(d, from, to, n)
    ensures |to| >= |from| && to[..|from|] == from && IsRounds(to[|from|..], n)
    decreases n
  {
    if n == 0 {
      assert to[|from|..] == [];
    } else {
      var reply := d.llm(from);
      var next := Round(from, reply.content, reply.toolCalls.value, d);
      TrajectoryAppendsRounds(d, next, to, n - 1);
      RoundExtends(from, reply.content, reply.toolCalls.value, d, to, n - 1);
    }
  }

  /** The loop only appends: from counter value `loopCount` it adds exactly
      `r.loopCount - loopCount` complete rounds behind the log it started on. */
  lemma RunLoopAppendsRounds(log: seq<Message>, d: Driver, loopCount: nat)
    requires loopCount <= MaxLoops && Answering(d)
    ensures var r := RunLoop(log, d, loopCount);
            |r.log| >= |log| && r.log[..|log|] == log && IsRounds(r.log[|log|..], r.loopCount - loopCount)
  {
    var r := RunLoop(log, d, loopCount);
    RunLoopFollowsTrajectory(log, d, loopCount);
    TrajectoryAppendsRounds(d, log, r.log, r.loopCount - loopCount);
  }

  /** With an answering handler, one iteration appends exactly one round to the
      log: the reply's assistant entry with its calls, then one answer per call,
      in call order. */
  lemma RoundIsOneRound(log: seq<Message>, content: Option<string>, calls: seq<ToolCall>, d: Driver)
    requires |calls| > 0 && Answering(d)
    ensures var next := Round(log, content, calls, d);
            && |next| == |log| + 1 + |calls| && next[..|log|] == log
            && next[|log|] == AssistantMessage(content, calls)
            && AnswersCalls(next[|log| + 1..], calls)
    ensures var next := Round(log, content, calls, d);
            IsRounds(next[|log|..], 1)
  {
    var a := AssistantMessage(content, calls);
    var withCall := log + [a];
    var next := Round(log, content, calls, d);
    assert AnswersInOrder(d.handle, withCall, calls);
    assert next[..|log|] == log by {
      assert next[..|withCall|][..|log|] == next[..|log|];
    }
    var one := next[|log|..];
    assert one == [a] + next[|withCall|..] by {
      assert next == withCall + next[|withCall|..];
    }
    assert one[1..|calls| + 1] == next[|withCall|..];
    assert one[|calls| + 1..] == [];
  }

  /** A log that continues one round with `m` more rounds continues the log
      before that round with `m + 1` rounds. */
  lemma RoundExtends(log: seq<Message>, content: Option<string>, calls: seq<ToolCall>, d: Driver,
                     final: seq<Message>, m: nat)
    requires |calls| > 0 && Answering(d)
    requires var next := Round(log, content, calls, d);
             |final| >= |next| && final[..|next|] == next && IsRounds(final[|next|..], m)
    ensures |final| >= |log| && final[..|log|] == log && IsRounds(final[|log|..], m + 1)
  {
    RoundIsOneRound(log, content, calls, d);
    ExtendRounds(log, Round(log, content, calls, d), final, m);
  }

  /** Unfolding the trajectory by its first iteration. */
  lemma TrajectoryStep(d: Driver, from: seq<Message>, to: seq<Message>, n: nat)
    requires n > 0 && RequestsTools(d.llm(from))
    requires Trajectory(d, Round(from, d.llm(from).content, d.llm(from).toolCalls.value, d), to, n - 1)
    ensures Trajectory(d, from, to, n)
  {
  }

  /** The three terminal states of a turn. Every one keeps the entries appended so
      far, and none of them rolls anything back. */
  datatype TurnOutcome =
    | Completed(log: seq<Message>, loopCount: nat, finalContent: Option<string>)
    | Bounded(log: seq<Message>, loopCount: nat)
    | Failed(log: seq<Message>, loopCount: nat, error: string)

  /** `agenticLoop` on a log that already holds the user's message: run the loop
      with `handleToolCalls` as the handler, then report the bound if the counter
      reached it, and completion otherwise. */
  function AgenticLoop(log: seq<Message>, d: Driver): (r: TurnOutcome)
    ensures r.loopCount <= MaxLoops
    ensures r.Bounded? <==> (!r.Failed? && r.loopCount == MaxLoops)
    ensures r.Completed? ==> r.loopCount < MaxLoops
    ensures r.log == RunLoop(log, d, 0).log && r.loopCount == RunLoop(log, d, 0).loopCount
    ensures r.Completed? ==>
              d.llm(r.log).Reply? && !RequestsTools(d.llm(r.log)) && r.finalContent == d.llm(r.log).content
    ensures r.Failed? ==> d.llm(r.log) == TransportFailure(r.error)
  {
    match RunLoop(log, d, 0)
    case Aborted(l, n, e) => Failed(l, n, e)
    case Exited(l, n, done, final) =>
      if n >= MaxLoops then Bounded(l, n)
      else
        assert done;
        Completed(l, n, final)
  }

  /** A turn only appends to the log: its rounds, one per iteration, each the
      assistant entry with its calls and then one answer per call. */
  lemma AgenticLoopAppendsRounds(log: seq<Message>, d: Driver)
    requires Answering(d)
    ensures var r := AgenticLoop(log, d);
            |r.log| >= |log| && r.log[..|log|] == log && IsRounds(r.log[|log|..], r.loopCount)
  {
    RunLoopAppendsRounds(log, d, 0);
  }

  /** A turn performs exactly the iterations the reference trajectory prescribes. */
  lemma AgenticLoopFollowsTrajectory(log: seq<Message>, d: Driver)
    ensures var r := AgenticLoop(log, d);
            Trajectory(d, log, r.log, r.loopCount)
  {
    RunLoopFollowsTrajectory(log, d, 0);
  }

  /** Bounded termination is reached whenever the model keeps asking for tools,
      whatever the tools do. */
  lemma {:induction false} RunLoopBoundedWhenModelNeverStops(log: seq<Message>, d: Driver, loopCount: nat)
    requires loopCount <= MaxLoops
    requires forall h :: RequestsTools(d.llm(h))
    ensures RunLoop(log, d, loopCount).Exited?
    ensures RunLoop(log, d, loopCount).loopCount == MaxLoops
    decreases MaxLoops - loopCount
  {
    if loopCount < MaxLoops {
      var reply := d.llm(log);
      assert RequestsTools(reply);
      RunLoopBoundedWhenModelNeverStops(
        Round(log, reply.content, reply.toolCalls.value, d), d, loopCount + 1);
    }
  }

  /** At exactly ten iterations the turn ends in the bounded state, even though
      the model still asks for tools; tool failures do not end it earlier. */
  lemma BoundedWhenModelNeverStops(log: seq<Message>, d: Driver)
    requires Answering(d) && forall h :: RequestsTools(d.llm(h))
    ensures AgenticLoop(log, d).Bounded? && AgenticLoop(log, d).loopCount == MaxLoops
    ensures |AgenticLoop(log, d).log| >= |log| && IsRounds(AgenticLoop(log, d).log[|log|..], MaxLoops)
  {
    RunLoopBoundedWhenModelNeverStops(log, d, 0);
    AgenticLoopAppendsRounds(log, d);
  }

  /** The trajectory is determined by the model and the handler: two runs of the
      reference trajectory from the same log with the same number of iterations
      end on the same log. */
  lemma {:induction false} TrajectoryDeterministic(d: Driver, from: seq<Message>, a: seq<Message>,
                                                   b: seq<Message>, n: nat)
    requires Trajectory(d, from, a, n) && Trajectory(d, from, b, n)
    ensures a == b
    decreases n
  {
    if n > 0 {
      var reply := d.llm(from);
      TrajectoryDeterministic(d, Round(from, reply.content, reply.toolCalls.value, d), a, b, n - 1);
    }
  }

  // ---------------------------------------------------------------------------
  // The input gate and the session.

  datatype Config = Config(baseURL: string, apiKey: string, model: string)

  /** The chatbot's state between events: the log, the busy flag, the settings. */
  datatype Session = Session(messages: seq<Message>, isProcessing: bool, config: Config)

  /** What one submission did: nothing, demo mode (outside the agent), or a turn. */
  datatype Gate = Ignored | DemoMode(userMessage: string) | Ran(outcome: TurnOutcome)

  datatype Step = Step(session: Session, gate: Gate)

  /** The loop may start only with both an API key and a base URL. */
  predicate Configured(c: Config) {
    c.apiKey != "" && c.baseURL != ""
  }

  /** `handleUserInput`: blank input or a turn in progress changes nothing; an
      unconfigured client goes to demo mode and leaves the log alone; otherwise
      the trimmed message is appended and a turn runs, after which the busy flag
      is clear whatever the outcome. */
  function HandleUserInput(s: Session, input: string, d: Driver): (r: Step)
    ensures AllWhitespace(input) || s.isProcessing ==> r == Step(s, Ignored)
    ensures r.gate.DemoMode? <==> !AllWhitespace(input) && !s.isProcessing && !Configured(s.config)
    ensures r.gate.DemoMode? ==> r.session == s && r.gate.userMessage == Trim(input)
    ensures r.gate.Ran? <==> !AllWhitespace(input) && !s.isProcessing && Configured(s.config)
    ensures r.gate.Ran? ==> r.session == Session(r.gate.outcome.log, false, s.config)
    ensures r.gate.Ran? ==> r.gate.outcome == AgenticLoop(s.messages + [UserMessage(Trim(input))], d)
  {
    var message := Trim(input);
    TrimEmptyIffBlank(input);
    if message == [] || s.isProcessing then Step(s, Ignored)
    else if !Configured(s.config) then Step(s, DemoMode(message))
    else
      var start := s.messages + [UserMessage(message)];
      var outcome := AgenticLoop(start, d);
      Step(Session(outcome.log, false, s.config), Ran(outcome))
  }

  /** A submission that runs a turn appends the trimmed user message and then
      one complete round per iteration of the turn. */
  lemma HandleUserInputAppendsRounds(s: Session, input: string, d: Driver)
    requires Answering(d)
    ensures var r := HandleUserInput(s, input, d);
            r.gate.Ran? ==>
              var start := s.messages + [UserMessage(Trim(input))];
              && |r.session.messages| >= |start| && r.session.messages[..|start|] == start
              && IsRounds(r.session.messages[|start|..], r.gate.outcome.loopCount)
  {
    var r := HandleUserInput(s, input, d);
    if r.gate.Ran? {
      AgenticLoopAppendsRounds(s.messages + [UserMessage(Trim(input))], d);
    }
  }

  /** A well-formed log followed by a user message and complete rounds is
      well-formed. */
  lemma RoundsAfterUserMessageKeepWellFormed(messages: seq<Message>, message: string,
                                             final: seq<Message>, n: nat)
    requires WellFormed(messages)
    requires var start := messages + [UserMessage(message)];
             |final| >= |start| && final[..|start|] == start && IsRounds(final[|start|..], n)
    ensures WellFormed(final)
  {
    var start := messages + [UserMessage(message)];
    UserMessageIsWellFormed(message);
    WellFormedAppend(messages, [UserMessage(message)]);
    RoundsAreWellFormed(final[|start|..], n);
    WellFormedAppend(start, final[|start|..]);
    assert start + final[|start|..] == final;
  }

  /** A fresh session: empty log, idle. */
  function NewSession(config: Config): Session {
    Session([], false, config)
  }

  /** A sequence of submissions, one after another. */
  function RunSession(s: Session, inputs: seq<string>, d: Driver): Session
    decreases |inputs|
  {
    if inputs == [] then s
    else RunSession(HandleUserInput(s, inputs[0], d).session, inputs[1..], d)
  }

  /** One submission on an idle session with a well-formed log leaves it idle,
      well-formed, with the same settings, and with the old log as a prefix. */
  lemma SubmissionKeepsInvariant(s: Session, input: string, d: Driver)
    requires Answering(d) && WellFormed(s.messages) && !s.isProcessing
    ensures var next := HandleUserInput(s, input, d).session;
            && WellFormed(next.messages) && !next.isProcessing && next.config == s.config
            && |next.messages| >= |s.messages| && next.messages[..|s.messages|] == s.messages
  {
    var r := HandleUserInput(s, input, d);
    HandleUserInputAppendsRounds(s, input, d);
    if r.gate.Ran? {
      var start := s.messages + [UserMessage(Trim(input))];
      var final := r.session.messages;
      RoundsAfterUserMessageKeepWellFormed(s.messages, Trim(input), final, r.gate.outcome.loopCount);
      assert final[..|s.messages|] == start[..|s.messages|] by {
        assert final[..|start|][..|s.messages|] == final[..|s.messages|];
      }
    } else {
      assert r.session == s;
    }
  }

  /** Across a whole session the log only grows, stays well-formed (every `tool`
      entry answers a call of the assistant entry before it, and no call is left
      unanswered), and the busy flag is clear between submissions. */
  lemma {:induction false} SessionInvariant(s: Session, inputs: seq<string>, d: Driver)
    requires Answering(d) && WellFormed(s.messages) && !s.isProcessing
    ensures var r := RunSession(s, inputs, d);
            && WellFormed(r.messages) && Paired(r.messages) && !r.isProcessing
            && |r.messages| >= |s.messages| && r.messages[..|s.messages|] == s.messages
            && r.config == s.config
    decreases |inputs|
  {
    var r := RunSession(s, inputs, d);
    if inputs == [] {
      WellFormedIsPaired(s.messages);
    } else {
      var next := HandleUserInput(s, inputs[0], d).session;
      SubmissionKeepsInvariant(s, inputs[0], d);
      SessionInvariant(next, inputs[1..], d);
      assert r.messages[..|next.messages|][..|s.messages|] == r.messages[..|s.messages|];
    }
  }

  /** From a fresh session of the chatbot, whose handler is `handleToolCalls`,
      every reachable log is well-formed. */
  lemma FreshSessionStaysWellFormed(config: Config, inputs: seq<string>, o: Oracles)
    ensures WellFormed(RunSession(NewSession(config), inputs, Wired(o)).messages)
    ensures Paired(RunSession(NewSession(config), inputs, Wired(o)).messages)
  {
    WiredIsAnswering(o);
    SessionInvariant(NewSession(config), inputs, Wired(o));
  }
}
