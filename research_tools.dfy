/**
 * The two research tools, `research_architecture_decision` and
 * `quick_research`: the order of their checks (approval, client
 * configuration), the run against the remote, the poll loop, and the
 * conversion of every exception into an "error" reply.
 *
 * `parallel_client` is the parameter `client` (null when not configured);
 * the user's answer to the approval prompt is the parameter `approved`.
 */
module ResearchTools {
  import opened Wrappers
  import opened Processors
  import opened TaskRun
  import opened ResultParsing

  /** The dict a tool returns, by its "status" key. */
  datatype ToolResult =
    | Complete(content: PyValue, citations: Option<seq<CitationGroup>>, processor: string, runId: string)
    | Cancelled(message: string)
    | Error(message: string)
  {
    function Status(): string {
      match this
      case Complete(_, _, _, _) => "complete"
      case Cancelled(_) => "cancelled"
      case Error(_) => "error"
    }
  }

  const CancelledMessage: string := "Research cancelled by user"
  const NotConfiguredMessage: string := "Parallel AI client not configured. Set PARALLEL_API_KEY in .env file."
  const QuickNotConfiguredMessage: string := "Parallel AI client not configured."
  const FailurePrefix: string := "Research failed: "
  /** The tier `quick_research` always uses. */
  const QuickProcessor: string := "lite"

  /**
   * Create a run, poll until an answer ends polling, fetch the result: the
   * value the try-block gets, or the text of the first exception.
   */
  function RunOutcome(s: Script, from: nat): Reply<TaskResult>
    requires RunEnds(s, from)
  {
    if s.createError.Some? then Raises(s.createError.value)
    else
      match s.replies[FirstStop(s.replies, from)]
      case Raises(e) => Raises(e)
      case Returns(_) => s.result
  }

  /**
   * The whole try-block up to the success log: the run, then `len(content)`
   * on the extracted content, which raises a `TypeError` when a dict's
   * "output" entry has no length.
   */
  function TryOutcome(s: Script, from: nat): Reply<TaskResult>
    requires RunEnds(s, from)
  {
    match RunOutcome(s, from)
    case Raises(e) => Raises(e)
    case Returns(result) =>
      match ExtractContent(result).LenError()
      case Some(e) => Raises(e)
      case None => Returns(result)
  }

  /** The calls that sequence makes, in order. */
  function RunCalls(s: Script, from: nat, query: string, processor: string): seq<Call>
    requires RunEnds(s, from)
  {
    if s.createError.Some? then [CreateCall(query, processor)]
    else
      var stop := FirstStop(s.replies, from);
      var fetch := if s.replies[stop].Raises? then [] else [ResultCall(s.runId)];
      [CreateCall(query, processor)] + Repeat(RetrieveCall(s.runId), stop - from + 1) + fetch
  }

  /** The fake's poll cursor after that sequence. */
  function PollsAfter(s: Script, from: nat): nat
    requires RunEnds(s, from)
  {
    if s.createError.Some? then from else FirstStop(s.replies, from) + 1
  }

  /**
   * In every run: the first call creates the run with the query and tier;
   * every later call but possibly the last is a status request for the run
   * id; the result is fetched at most once, as the very last call, and only
   * after a status answer reported the run inactive.
   */
  lemma ResultFetchedOnceAfterPolling(s: Script, from: nat, query: string, processor: string)
    requires RunEnds(s, from)
    ensures var cs := RunCalls(s, from, query, processor);
      && cs[0] == CreateCall(query, processor)
      && (forall i :: 0 < i < |cs| - 1 ==> cs[i] == RetrieveCall(s.runId))
      && (forall i :: 0 <= i < |cs| - 1 ==> !cs[i].ResultCall?)
      && (s.createError.Some? ==> cs == [CreateCall(query, processor)])
      && (cs[|cs| - 1].ResultCall? <==>
            s.createError.None? && s.replies[FirstStop(s.replies, from)].Returns?)
      && (s.createError.None? ==>
            |cs| == 1 + (FirstStop(s.replies, from) - from + 1) + (if cs[|cs| - 1].ResultCall? then 1 else 0))
  {
  }

  /**
   * What `research_architecture_decision` replies. The query only travels to
   * the remote with the create call, so the reply does not depend on it.
   */
  function ResearchOutcome(requested: string, approved: bool, remote: Option<RemoteState>): ToolResult
    requires approved && remote.Some? ==> RunEnds(remote.value.script, remote.value.polls)
  {
    var processor := NormaliseProcessor(requested);
    if !approved then Cancelled(CancelledMessage)
    else if remote.None? then Error(NotConfiguredMessage)
    else
      match TryOutcome(remote.value.script, remote.value.polls)
      case Raises(e) => Error(FailurePrefix + e)
      case Returns(result) =>
        Complete(ExtractContent(result), Some(CitationsOf(result)), processor, remote.value.script.runId)
  }

  /** What `quick_research` replies; like the full tool's, it does not depend on the query. */
  function QuickOutcome(remote: Option<RemoteState>): ToolResult
    requires remote.Some? ==> RunEnds(remote.value.script, remote.value.polls)
  {
    if remote.None? then Error(QuickNotConfiguredMessage)
    else
      match TryOutcome(remote.value.script, remote.value.polls)
      case Raises(e) => Error(e)
      case Returns(result) => Complete(ExtractContent(result), None, QuickProcessor, remote.value.script.runId)
  }

  /**
   * Approval is asked before the client is looked at: a declined request is
   * cancelled whether or not a client is configured, and an approved one
   * without a client is an error.
   */
  lemma ApprovalBeforeClientCheck(requested: string, remote: Option<RemoteState>)
    ensures ResearchOutcome(requested, false, remote) == Cancelled(CancelledMessage)
    ensures ResearchOutcome(requested, false, remote).Status() == "cancelled"
    ensures ResearchOutcome(requested, true, None) == Error(NotConfiguredMessage)
  {
  }

  /**
   * A full-research reply is "complete" exactly when the remote run raised
   * nothing and the extracted content has a length; it then carries the
   * normalised tier, the created run's id, the content and the parsed
   * citations. An exception from the remote, or the `TypeError` of
   * `len(content)`, becomes "error" with the message "Research failed: "
   * followed by the exception text.
   */
  lemma ResearchOutcomeShape(requested: string, approved: bool, remote: Option<RemoteState>)
    requires approved && remote.Some? ==> RunEnds(remote.value.script, remote.value.polls)
    ensures var r := ResearchOutcome(requested, approved, remote);
      && r.Status() in {"complete", "cancelled", "error"}
      && (r.Complete? <==>
            && approved && remote.Some?
            && RunOutcome(remote.value.script, remote.value.polls).Returns?
            && ExtractContent(RunOutcome(remote.value.script, remote.value.polls).value).LenError().None?)
      && (r.Complete? ==>
            && r.processor == NormaliseProcessor(requested) && r.processor in ValidProcessors
            && r.runId == remote.value.script.runId
            && r.citations == Some(CitationsOf(RunOutcome(remote.value.script, remote.value.polls).value))
            && r.content == ExtractContent(RunOutcome(remote.value.script, remote.value.polls).value)
            && r.content.LenError().None?)
      && (approved && remote.Some? && RunOutcome(remote.value.script, remote.value.polls).Raises? ==>
            r == Error(FailurePrefix + RunOutcome(remote.value.script, remote.value.polls).message))
      && (approved && remote.Some? && RunOutcome(remote.value.script, remote.value.polls).Returns?
            && ExtractContent(RunOutcome(remote.value.script, remote.value.polls).value).LenError().Some? ==>
            r == Error(FailurePrefix + ExtractContent(RunOutcome(remote.value.script, remote.value.polls).value).LenError().value))
  {
  }

  /**
   * Quick research never asks for approval and is never cancelled; without
   * a client it is an error; on success its tier is always "lite" and its
   * reply has no citations; the bare text of an exception, from the remote
   * or from `len(content)`, is the error message.
   */
  lemma QuickOutcomeShape(remote: Option<RemoteState>)
    requires remote.Some? ==> RunEnds(remote.value.script, remote.value.polls)
    ensures var r := QuickOutcome(remote);
      && r.Status() != "cancelled"
      && (remote.None? ==> r == Error(QuickNotConfiguredMessage))
      && (r.Complete? ==> r.processor == QuickProcessor && r.citations.None? && r.runId == remote.value.script.runId)
      && (r.Complete? ==> r.content.LenError().None?)
      && (remote.Some? && r.Error? ==> r.message == TryOutcome(remote.value.script, remote.value.polls).message)
  {
  }

  /**
   * When a client is configured, quick research behaves like an approved
   * full research at tier "lite", except that it lists no citations and its
   * error messages lack the "Research failed: " prefix. Without a client the
   * two report different not-configured messages.
   */
  lemma QuickMatchesLiteResearch(remote: Option<RemoteState>)
    requires remote.Some? ==> RunEnds(remote.value.script, remote.value.polls)
    ensures var q, f := QuickOutcome(remote), ResearchOutcome(QuickProcessor, true, remote);
      && q.Status() == f.Status()
      && (q.Complete? ==> q.content == f.content && q.processor == f.processor && q.runId == f.runId)
      && (remote.Some? && q.Error? ==> f.message == FailurePrefix + q.message)
      && (remote.None? ==> q == Error(QuickNotConfiguredMessage) && f == Error(NotConfiguredMessage))
  {
  }

  /**
   * Helper for `UnsizedOutputEntryIsError`: the `TypeError` text for an int,
   * with the string concatenation spelled out for the solver.
   */
  lemma IntHasNoLen()
    ensures Other("5", "int", false).LenError() == Some("object of type 'int' has no len()")
  {
    var built := "object of type '" + "int" + "' has no len()";
    var e := "object of type 'int' has no len()";
    assert |built| == |e|;
    assert forall i | 0 <= i < |e| :: built[i] == e[i];
    assert built == e;
    assert Other("5", "int", false).LenError() == Some(built);
  }

  /** Helper for `UnsizedOutputEntryIsError`: the same text with the full tool's prefix. */
  lemma PrefixedIntHasNoLen()
    ensures FailurePrefix + "object of type 'int' has no len()" == "Research failed: object of type 'int' has no len()"
  {
    var built := FailurePrefix + "object of type 'int' has no len()";
    var e := "Research failed: object of type 'int' has no len()";
    assert |built| == |e|;
    assert forall i | 0 <= i < |e| :: built[i] == e[i];
  }

  /**
   * A dict content whose "output" entry is an int makes the success log's
   * `len(content)` raise, so both tools reply "error" although every remote
   * call succeeded.
   */
  lemma UnsizedOutputEntryIsError()
    ensures var remote := Some(RemoteState(Script("run-1", None, [Returns(RunStatus(false, "completed"))],
      Returns(TaskResult(Some(TaskOutput(None, Some(Dict(map["output" := Other("5", "int", false)], "{'output': 5}"))))))), 0));
      && ResearchOutcome("pro", true, remote) == Error("Research failed: object of type 'int' has no len()")
      && QuickOutcome(remote) == Error("object of type 'int' has no len()")
  {
    var content := Dict(map["output" := Other("5", "int", false)], "{'output': 5}");
    var result := TaskResult(Some(TaskOutput(None, Some(content))));
    var s := Script("run-1", None, [Returns(RunStatus(false, "completed"))], Returns(result));
    assert FirstStop(s.replies, 0) == 0;
    IntHasNoLen();
    PrefixedIntHasNoLen();
    assert ExtractContent(result) == Other("5", "int", false);
    assert TryOutcome(s, 0) == Raises("object of type 'int' has no len()");
  }

  /**
   * The poll loop: request the status until an answer ends polling,
   * counting the answers that report an active run; an exception from a
   * status request ends it too.
   */
  method AwaitCompletion(client: TaskRunClient, runId: string) returns (r: Reply<nat>)
    requires Terminates(client.script, client.polls)
    modifies client
    ensures var stop := FirstStop(client.script.replies, old(client.polls));
      && client.polls == stop + 1
      && client.calls == old(client.calls) + Repeat(RetrieveCall(runId), stop + 1 - old(client.polls))
      && r == match client.script.replies[stop]
              case Raises(e) => Raises(e)
              case Returns(_) => Returns(stop - old(client.polls))
    ensures r.Returns? ==>
      r.value == CountActive(client.script.replies[old(client.polls)..FirstStop(client.script.replies, old(client.polls))])
  {
    var pollCount: nat := 0;
    ghost var from := client.polls;
    ghost var stop := FirstStop(client.script.replies, client.polls);
    while true
      invariant client.polls == old(client.polls) + pollCount <= stop
      invariant client.calls == old(client.calls) + Repeat(RetrieveCall(runId), pollCount)
      decreases stop - client.polls
    {
      var status := client.Retrieve(runId);
      assert Repeat(RetrieveCall(runId), pollCount) + [RetrieveCall(runId)] == Repeat(RetrieveCall(runId), pollCount + 1);
      if status.Raises? {
        return Raises(status.message);
      }
      if !status.value.isActive {
        ActiveCountBeforeStop(client.script.replies, from);
        return Returns(pollCount);
      }
      pollCount := pollCount + 1;
    }
  }

  /** `research_architecture_decision`. */
  method ResearchArchitectureDecision(client: TaskRunClient?, query: string, requested: string, approved: bool)
    returns (r: ToolResult, ghost shown: ApprovalRequest)
    requires approved && client != null ==> RunEnds(client.script, client.polls)
    modifies client
    ensures shown == ApprovalRequestFor(query, NormaliseProcessor(requested))
    ensures r == ResearchOutcome(requested, approved, old(StateOf(client)))
    ensures client != null && !approved ==> client.calls == old(client.calls) && client.polls == old(client.polls)
    ensures client != null && approved ==>
      && client.calls == old(client.calls) + RunCalls(client.script, old(client.polls), query, NormaliseProcessor(requested))
      && client.polls == PollsAfter(client.script, old(client.polls))
  {
    var processor := NormaliseProcessor(requested);
    shown := ApprovalRequestFor(query, processor);
    if !approved {
      r := Cancelled(CancelledMessage);
      return;
    }
    if client == null {
      r := Error(NotConfiguredMessage);
      return;
    }
    var run := client.Create(query, processor);
    if run.Raises? {
      r := Error(FailurePrefix + run.message);
      return;
    }
    var polled := AwaitCompletion(client, run.value.runId);
    if polled.Raises? {
      r := Error(FailurePrefix + polled.message);
      return;
    }
    var result := client.Result(run.value.runId);
    if result.Raises? {
      r := Error(FailurePrefix + result.message);
      return;
    }
    var citations := ParseCitations(result.value);
    var content := ExtractContent(result.value);
    var lenError := content.LenError();
    if lenError.Some? {
      r := Error(FailurePrefix + lenError.value);
      return;
    }
    r := Complete(content, Some(citations), processor, run.value.runId);
    return;
  }

  /** `quick_research`. */
  method QuickResearch(client: TaskRunClient?, query: string) returns (r: ToolResult)
    requires client != null ==> RunEnds(client.script, client.polls)
    modifies client
    ensures r == QuickOutcome(old(StateOf(client)))
    ensures client != null ==>
      && client.calls == old(client.calls) + RunCalls(client.script, old(client.polls), query, QuickProcessor)
      && client.polls == PollsAfter(client.script, old(client.polls))
  {
    if client == null {
      return Error(QuickNotConfiguredMessage);
    }
    var run := client.Create(query, QuickProcessor);
    if run.Raises? {
      return Error(run.message);
    }
    var polled := AwaitCompletion(client, run.value.runId);
    if polled.Raises? {
      return Error(polled.message);
    }
    var result := client.Result(run.value.runId);
    if result.Raises? {
      return Error(result.message);
    }
    var content := ExtractContent(result.value);
    var lenError := content.LenError();
    if lenError.Some? {
      return Error(lenError.value);
    }
    return Complete(content, None, QuickProcessor, run.value.runId);
  }
}
