/**
 * The tool-calling loop of `Me.chat` as a function of the opening message
 * list, a way of executing one tool call, and a scripted, finite sequence of model
 * responses: response k is what the model returns to its k-th call in the
 * turn. The loop is stated for any way of executing a call; `Me.Chat`
 * runs it with `Dispatch.Execute`.
 */
module Conversation {
  import opened Wrappers
  import opened Messages
  import opened Tools
  import opened Dispatch

  /** How a turn ended: with the model's answer, with a tool call raising, or with the script used up. */
  datatype End = Answered(reply: Option<string>) | ToolFailed(error: CallError) | ScriptExhausted

  /** The message list when the loop stopped, how many tool-call rounds ran, and how it stopped. */
  datatype ChatRun = ChatRun(transcript: seq<Message>, rounds: nat, end: End)

  /** What a tool-call round appends: the model's message, then the results of its calls. */
  function Block(exec: Executor, response: Response): seq<Message>
  {
    [CompletionMessage(response.completion)] + RunCalls(exec, response.completion.toolCalls).results
  }

  /** A run continued after `rounds` earlier rounds. */
  function After(rounds: nat, run: ChatRun): ChatRun
  {
    ChatRun(run.transcript, rounds + run.rounds, run.end)
  }

  /** The loop: each "tool_calls" response runs its calls and appends its block; any other response ends the turn. */
  function Converse(exec: Executor, messages: seq<Message>, script: seq<Response>): ChatRun
    decreases |script|
  {
    if script == [] then ChatRun(messages, 0, ScriptExhausted)
    else
      var response := script[0];
      if response.finishReason != ToolCallsReason then ChatRun(messages, 0, Answered(response.completion.content))
      else
        var batch := RunCalls(exec, response.completion.toolCalls);
        if batch.error.Some? then ChatRun(messages, 0, ToolFailed(batch.error.value))
        else After(1, Converse(exec, messages + Block(exec, response), script[1..]))
  }

  /** The notifications pushed during the loop, in order. */
  ghost function Notified(exec: Executor, messages: seq<Message>, script: seq<Response>): seq<string>
    decreases |script|
  {
    if script == [] || script[0].finishReason != ToolCallsReason then []
    else
      var batch := RunCalls(exec, script[0].completion.toolCalls);
      if batch.error.Some? then batch.notices
      else batch.notices + Notified(exec, messages + Block(exec, script[0]), script[1..])
  }

  /**
   * Part way through the loop: `rounds` rounds have run, the message list is
   * `messages`, `rest` is the script still to come and `sent` the pushes so
   * far; going on from here yields the run `goal` and the pushes `finalSent`.
   */
  ghost predicate Resumes(exec: Executor, goal: ChatRun, finalSent: seq<string>,
                          rounds: nat, messages: seq<Message>, rest: seq<Response>, sent: seq<string>)
  {
    goal == After(rounds, Converse(exec, messages, rest)) && finalSent == sent + Notified(exec, messages, rest)
  }

  /** Before the first model call, the loop resumes with no rounds run. */
  lemma ResumeStart(exec: Executor, messages: seq<Message>, script: seq<Response>, sent: seq<string>)
    ensures Resumes(exec, Converse(exec, messages, script), sent + Notified(exec, messages, script), 0, messages, script, sent)
  {
  }

  /** A round of tool calls that all succeed: its block is appended, its pushes made, and the loop goes on. */
  lemma ResumeToolRound(exec: Executor, goal: ChatRun, finalSent: seq<string>,
                        rounds: nat, messages: seq<Message>, rest: seq<Response>, sent: seq<string>)
    requires Resumes(exec, goal, finalSent, rounds, messages, rest, sent)
    requires rest != [] && ToolRound(exec, rest[0])
    ensures Resumes(exec, goal, finalSent, rounds + 1, messages + Block(exec, rest[0]), rest[1..],
                    sent + RunCalls(exec, rest[0].completion.toolCalls).notices)
  {
    var batch := RunCalls(exec, rest[0].completion.toolCalls);
    var next := messages + Block(exec, rest[0]);
    assert sent + (batch.notices + Notified(exec, next, rest[1..])) == sent + batch.notices + Notified(exec, next, rest[1..]);
  }

  /** A response that is not "tool_calls" ends the turn with its content and no further push. */
  lemma ResumeAnswer(exec: Executor, goal: ChatRun, finalSent: seq<string>,
                     rounds: nat, messages: seq<Message>, rest: seq<Response>, sent: seq<string>)
    requires Resumes(exec, goal, finalSent, rounds, messages, rest, sent)
    requires rest != [] && rest[0].finishReason != ToolCallsReason
    ensures goal == ChatRun(messages, rounds, Answered(rest[0].completion.content)) && finalSent == sent
  {
  }

  /** A round whose calls raise ends the turn with the error, after the pushes made before it. */
  lemma ResumeToolFailure(exec: Executor, goal: ChatRun, finalSent: seq<string>,
                          rounds: nat, messages: seq<Message>, rest: seq<Response>, sent: seq<string>)
    requires Resumes(exec, goal, finalSent, rounds, messages, rest, sent)
    requires rest != [] && rest[0].finishReason == ToolCallsReason
    requires RunCalls(exec, rest[0].completion.toolCalls).error.Some?
    ensures goal == ChatRun(messages, rounds, ToolFailed(RunCalls(exec, rest[0].completion.toolCalls).error.value))
    ensures finalSent == sent + RunCalls(exec, rest[0].completion.toolCalls).notices
  {
  }

  /** A script used up ends the turn where it stands. */
  lemma ResumeExhausted(exec: Executor, goal: ChatRun, finalSent: seq<string>,
                        rounds: nat, messages: seq<Message>, sent: seq<string>)
    requires Resumes(exec, goal, finalSent, rounds, messages, [], sent)
    ensures goal == ChatRun(messages, rounds, ScriptExhausted) && finalSent == sent
  {
  }

  /** A response that asks for tools, all of whose calls succeed. */
  ghost predicate ToolRound(exec: Executor, response: Response)
  {
    response.finishReason == ToolCallsReason && RunCalls(exec, response.completion.toolCalls).error == None
  }

  /** The blocks of a sequence of tool-call rounds, concatenated. */
  function Appended(exec: Executor, script: seq<Response>): seq<Message>
  {
    if script == [] then [] else Block(exec, script[0]) + Appended(exec, script[1..])
  }

  /**
   * The loop runs the tool-call rounds at the head of the script and stops
   * at the first response that is not "tool_calls" (answering with its
   * content), at the first round whose calls raise, or when the script is
   * used up.
   */
  lemma {:induction false} ConverseRounds(exec: Executor, messages: seq<Message>, script: seq<Response>)
    ensures var run := Converse(exec, messages, script);
      && run.rounds <= |script|
      && (forall k :: 0 <= k < run.rounds ==> ToolRound(exec, script[k]))
      && (run.end == ScriptExhausted <==> run.rounds == |script|)
      && (run.end.Answered? ==>
            run.rounds < |script| && script[run.rounds].finishReason != ToolCallsReason
            && run.end.reply == script[run.rounds].completion.content)
      && (run.end.ToolFailed? ==>
            run.rounds < |script| && script[run.rounds].finishReason == ToolCallsReason
            && RunCalls(exec, script[run.rounds].completion.toolCalls).error == Some(run.end.error))
    decreases |script|
  {
    if script != [] && ToolRound(exec, script[0]) {
      var next := messages + Block(exec, script[0]);
      ConverseRounds(exec, next, script[1..]);
      var rest := Converse(exec, next, script[1..]);
      forall k | 0 <= k < rest.rounds + 1 ensures ToolRound(exec, script[k]) {
        if k > 0 { assert script[k] == script[1..][k - 1]; }
      }
    }
  }

  /** What the loop leaves in the message list: the opening messages, then the block of each round it ran. */
  lemma {:induction false} ConverseTranscript(exec: Executor, messages: seq<Message>, script: seq<Response>)
    ensures var run := Converse(exec, messages, script);
      run.rounds <= |script| && run.transcript == messages + Appended(exec, script[..run.rounds])
    decreases |script|
  {
    if script != [] && ToolRound(exec, script[0]) {
      var next := messages + Block(exec, script[0]);
      ConverseTranscript(exec, next, script[1..]);
      var rest := Converse(exec, next, script[1..]);
      assert script[..rest.rounds + 1] == [script[0]] + script[1..][..rest.rounds];
    }
  }

  /** The opening messages are never changed: the loop only appends. */
  lemma ConverseKeepsPrefix(exec: Executor, messages: seq<Message>, script: seq<Response>)
    ensures messages <= Converse(exec, messages, script).transcript
  {
    ConverseTranscript(exec, messages, script);
  }

  /**
   * The messages appended alternate between a model message with tool calls
   * and the results for exactly those calls, in order, each carrying its
   * call's id.
   */
  ghost predicate Paired(tail: seq<Message>)
    decreases |tail|
  {
    tail == [] ||
    (&& tail[0].CompletionMessage?
     && var calls := tail[0].completion.toolCalls;
     && |calls| < |tail|
     && (forall j :: 0 <= j < |calls| ==> tail[1 + j].ToolResult? && tail[1 + j].toolCallId == calls[j].id)
     && Paired(tail[1 + |calls|..]))
  }

  lemma {:induction false} AppendedPaired(exec: Executor, script: seq<Response>)
    requires forall k :: 0 <= k < |script| ==> ToolRound(exec, script[k])
    ensures Paired(Appended(exec, script))
  {
    if script != [] {
      var calls := script[0].completion.toolCalls;
      var results := RunCalls(exec, calls).results;
      assert ToolRound(exec, script[0]);
      RunCallsPairs(exec, calls);
      var tail := Appended(exec, script);
      AppendedPaired(exec, script[1..]);
      assert tail == [CompletionMessage(script[0].completion)] + results + Appended(exec, script[1..]);
      assert forall j :: 0 <= j < |calls| ==> tail[1 + j] == results[j];
      assert tail[1 + |calls|..] == Appended(exec, script[1..]);
    }
  }

  /** Every tool-call request the loop appends is answered, in order, by a result with its id. */
  lemma ConversePairsCalls(exec: Executor, messages: seq<Message>, script: seq<Response>)
    ensures |messages| <= |Converse(exec, messages, script).transcript|
    ensures Paired(Converse(exec, messages, script).transcript[|messages|..])
  {
    ConverseRounds(exec, messages, script);
    ConverseTranscript(exec, messages, script);
    var run := Converse(exec, messages, script);
    AppendedPaired(exec, script[..run.rounds]);
    assert run.transcript[|messages|..] == Appended(exec, script[..run.rounds]);
  }

  /** What a sequence of rounds adds to the message list: one model message plus one result per call, each. */
  function Growth(script: seq<Response>): nat
  {
    if script == [] then 0 else 1 + |script[0].completion.toolCalls| + Growth(script[1..])
  }

  lemma {:induction false} AppendedLength(exec: Executor, script: seq<Response>)
    requires forall k :: 0 <= k < |script| ==> ToolRound(exec, script[k])
    ensures |Appended(exec, script)| == Growth(script)
  {
    if script != [] {
      assert ToolRound(exec, script[0]);
      RunCallsPairs(exec, script[0].completion.toolCalls);
      AppendedLength(exec, script[1..]);
    }
  }

  /** The message list grows by exactly 1 + |tool_calls| per round the loop runs. */
  lemma ConverseGrowth(exec: Executor, messages: seq<Message>, script: seq<Response>)
    ensures var run := Converse(exec, messages, script);
      run.rounds <= |script| && |run.transcript| == |messages| + Growth(script[..run.rounds])
  {
    ConverseRounds(exec, messages, script);
    ConverseTranscript(exec, messages, script);
    var run := Converse(exec, messages, script);
    AppendedLength(exec, script[..run.rounds]);
  }

  /** The notifications of a sequence of rounds, concatenated. */
  function NoticesOf(exec: Executor, script: seq<Response>): seq<string>
  {
    if script == [] then [] else RunCalls(exec, script[0].completion.toolCalls).notices + NoticesOf(exec, script[1..])
  }

  /** The notifications pushed: those of every completed round, then those pushed before a failing call. */
  lemma {:induction false} NotifiedByRounds(exec: Executor, messages: seq<Message>, script: seq<Response>)
    ensures var run := Converse(exec, messages, script);
      && run.rounds <= |script|
      && Notified(exec, messages, script) ==
           NoticesOf(exec, script[..run.rounds])
           + (if run.end.ToolFailed? && run.rounds < |script| then RunCalls(exec, script[run.rounds].completion.toolCalls).notices else [])
    decreases |script|
  {
    if script == [] || script[0].finishReason != ToolCallsReason {
      assert script[..0] == [];
    } else if RunCalls(exec, script[0].completion.toolCalls).error.Some? {
      assert script[..0] == [];
    } else {
      var next := messages + Block(exec, script[0]);
      NotifiedByRounds(exec, next, script[1..]);
      var rest := Converse(exec, next, script[1..]);
      var batch := RunCalls(exec, script[0].completion.toolCalls);
      var failed := if rest.end.ToolFailed? && rest.rounds < |script| - 1
        then RunCalls(exec, script[1..][rest.rounds].completion.toolCalls).notices else [];
      assert Notified(exec, next, script[1..]) == NoticesOf(exec, script[1..][..rest.rounds]) + failed;
      assert script[..rest.rounds + 1] == [script[0]] + script[1..][..rest.rounds];
      assert NoticesOf(exec, script[..rest.rounds + 1]) == batch.notices + NoticesOf(exec, script[1..][..rest.rounds]);
      if rest.rounds + 1 < |script| {
        assert script[rest.rounds + 1] == script[1..][rest.rounds];
      }
    }
  }
}
