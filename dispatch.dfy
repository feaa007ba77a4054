/**
 * Resolving and running a batch of tool calls (`Me.handle_tool_call`), as
 * functions: what one call does, what a batch pushes and returns, and where
 * a failing call stops it. The batch is stated for any way of executing one
 * call; the model's own is `Execute`.
 */
module Dispatch {
  import opened Wrappers
  import opened Messages
  import opened Tools

  /** One call: resolved by name; a registered tool is invoked, an unknown name yields `{}`. */
  function Execute(call: ToolCall): (r: Result<Execution, CallError>)
    ensures Resolve(call.name) == None ==> r == Success(Execution([], EmptyObject))
    ensures Resolve(call.name).Some? ==>
      var tool := Resolve(call.name).value;
      (r.Success? <==> call.arguments.Keys <= Parameters(tool) && Required(tool) <= call.arguments.Keys)
    ensures r.Success? && Resolve(call.name).Some? ==> r.value.payload == Recorded && |r.value.notices| == 1
  {
    match Resolve(call.name)
    case Some(tool) => Invoke(tool, call.arguments)
    case None => Success(Execution([], EmptyObject))
  }

  /** A way of executing one call. */
  type Executor = ToolCall -> Result<Execution, CallError>

  /** The tool-role message answering `call` with what its execution returned. */
  function ResultMessage(call: ToolCall, x: Execution): Message
  {
    ToolResult(Dumps(x.payload), call.id)
  }

  /**
   * A batch so far: the notifications pushed, the result messages built, and
   * the error that aborted it, if any.
   */
  datatype Batch = Batch(notices: seq<string>, results: seq<Message>, error: Option<CallError>)

  /** The calls run left to right; the first failing call aborts the batch. */
  function RunCalls(exec: Executor, calls: seq<ToolCall>): Batch
    decreases |calls|
  {
    if calls == [] then Batch([], [], None)
    else
      var prev := RunCalls(exec, calls[..|calls| - 1]);
      var call := calls[|calls| - 1];
      if prev.error.Some? then prev
      else
        match exec(call)
        case Failure(e) => Batch(prev.notices, prev.results, Some(e))
        case Success(x) => Batch(prev.notices + x.notices, prev.results + [ResultMessage(call, x)], None)
  }

  /**
   * A batch succeeds exactly when every call does; then there is one result
   * per call, in call order, each answering its call's id.
   */
  lemma {:induction false} RunCallsPairs(exec: Executor, calls: seq<ToolCall>)
    ensures RunCalls(exec, calls).error == None <==> forall i :: 0 <= i < |calls| ==> exec(calls[i]).Success?
    ensures RunCalls(exec, calls).error == None ==>
      && |RunCalls(exec, calls).results| == |calls|
      && forall i :: 0 <= i < |calls| ==>
           exec(calls[i]).Success? && RunCalls(exec, calls).results[i] == ResultMessage(calls[i], exec(calls[i]).value)
  {
    if calls != [] {
      var n := |calls| - 1;
      RunCallsPairs(exec, calls[..n]);
      assert forall i :: 0 <= i < n ==> calls[..n][i] == calls[i];
    }
  }

  /** Once a prefix of the batch has failed, the remaining calls are not run. */
  lemma {:induction false} RunCallsErrorPersists(exec: Executor, calls: seq<ToolCall>, k: nat)
    requires k <= |calls|
    requires RunCalls(exec, calls[..k]).error.Some?
    ensures RunCalls(exec, calls) == RunCalls(exec, calls[..k])
    decreases |calls| - k
  {
    if k < |calls| {
      assert calls[..k + 1][..k] == calls[..k];
      RunCallsErrorPersists(exec, calls, k + 1);
    } else {
      assert calls[..k] == calls;
    }
  }

  /**
   * The first failing call aborts the batch with its error; only the calls
   * before it have pushed their notifications.
   */
  lemma RunCallsStopsAtFirstFailure(exec: Executor, calls: seq<ToolCall>, k: nat)
    requires k < |calls| && exec(calls[k]).Failure?
    requires forall i :: 0 <= i < k ==> exec(calls[i]).Success?
    ensures RunCalls(exec, calls).error == Some(exec(calls[k]).error)
    ensures RunCalls(exec, calls).notices == RunCalls(exec, calls[..k]).notices
  {
    var pre := calls[..k];
    forall i | 0 <= i < |pre| ensures exec(pre[i]).Success? {
      assert pre[i] == calls[i];
    }
    RunCallsPairs(exec, pre);
    var upto := calls[..k + 1];
    assert upto[..|upto| - 1] == pre;
    RunCallsErrorPersists(exec, calls, k + 1);
  }

  /** The notifications of every call, in call order. */
  function SentBy(exec: Executor, calls: seq<ToolCall>): seq<string>
  {
    if calls == [] then []
    else (match exec(calls[0]) case Success(x) => x.notices case Failure(_) => []) + SentBy(exec, calls[1..])
  }

  lemma {:induction false} SentByAppend(exec: Executor, calls: seq<ToolCall>, call: ToolCall)
    ensures SentBy(exec, calls + [call]) == SentBy(exec, calls) + SentBy(exec, [call])
  {
    if calls != [] {
      assert (calls + [call])[1..] == calls[1..] + [call];
      SentByAppend(exec, calls[1..], call);
    }
  }

  /** A successful batch pushes each call's notifications, in call order. */
  lemma {:induction false} RunCallsNotices(exec: Executor, calls: seq<ToolCall>)
    ensures RunCalls(exec, calls).error == None ==> RunCalls(exec, calls).notices == SentBy(exec, calls)
  {
    if calls != [] {
      var n := |calls| - 1;
      RunCallsNotices(exec, calls[..n]);
      assert calls[..n] + [calls[n]] == calls;
      SentByAppend(exec, calls[..n], calls[n]);
    }
  }

  /** The number of calls naming a registered tool. */
  function CountRegistered(calls: seq<ToolCall>): nat
  {
    if calls == [] then 0
    else (if Resolve(calls[0].name).Some? then 1 else 0) + CountRegistered(calls[1..])
  }

  lemma {:induction false} SentByExecuteCount(calls: seq<ToolCall>)
    requires forall i :: 0 <= i < |calls| ==> Execute(calls[i]).Success?
    ensures |SentBy(Execute, calls)| == CountRegistered(calls)
  {
    if calls != [] {
      assert Execute(calls[0]).Success?;
      SentByExecuteCount(calls[1..]);
    }
  }

  /**
   * A successful batch of `handle_tool_call` pushes exactly one notification
   * per call of a registered tool, and none for unknown names.
   */
  lemma NotifiesOncePerRecording(calls: seq<ToolCall>)
    requires RunCalls(Execute, calls).error == None
    ensures |RunCalls(Execute, calls).notices| == CountRegistered(calls)
  {
    RunCallsPairs(Execute, calls);
    RunCallsNotices(Execute, calls);
    SentByExecuteCount(calls);
  }

  /** An unknown tool name does not stop the batch: its call is answered with `{}`. */
  lemma UnknownToolYieldsEmptyObject(calls: seq<ToolCall>, i: nat)
    requires i < |calls| && Resolve(calls[i].name) == None
    requires forall j :: 0 <= j < |calls| && j != i ==> Execute(calls[j]).Success?
    ensures RunCalls(Execute, calls).error == None && |RunCalls(Execute, calls).results| == |calls|
    ensures RunCalls(Execute, calls).results[i] == ToolResult("{}", calls[i].id)
  {
    RunCallsPairs(Execute, calls);
  }

  /** Every advertised tool is dispatchable, and the registry holds nothing that is not advertised. */
  lemma DescriptorsMatchRegistry()
    ensures forall d :: d in Descriptors ==>
      Resolve(d.name).Some? && d.properties == Parameters(Resolve(d.name).value) && d.required == Required(Resolve(d.name).value)
    ensures forall n :: Resolve(n).Some? ==> exists d :: d in Descriptors && d.name == n
  {
  }

  /** A call whose arguments conform to the advertised schema of its tool never raises. */
  lemma ConformingCallSucceeds(call: ToolCall, d: Descriptor)
    requires d in Descriptors && d.name == call.name && Conforms(d, call.arguments)
    ensures Execute(call).Success? && Execute(call).value.payload == Recorded
  {
  }
}
