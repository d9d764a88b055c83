/**
 * The remote research API as the tools see it (`task_run.create`,
 * `task_run.retrieve`, `task_run.result`), replaced by a scripted fake: the
 * run id it hands out, whether creation raises, the successive answers to
 * status requests and the answer to the result request. The fake records
 * every call it receives, so that what a tool asked of the remote can be
 * stated.
 */
module TaskRun {
  import opened Wrappers

  /**
   * A Python value as far as the tools inspect it: a string, a dict, or any
   * other object. Each non-string value carries its own `str()` form, which
   * the model does not compute; any other object also carries its type's
   * name and whether `len()` accepts it (a list does, an int or `None` does
   * not).
   */
  datatype PyValue =
    | Str(s: string)
    | Dict(entries: map<string, PyValue>, repr: string)
    | Other(repr: string, typeName: string, sized: bool)
  {
    /** Python's `str()` of the value. */
    function ToStr(): string {
      match this
      case Str(s) => s
      case Dict(_, r) => r
      case Other(r, _, _) => r
    }

    /** The text of the `TypeError` that `len()` raises on the value, if it raises one. */
    function LenError(): Option<string> {
      match this
      case Other(_, t, false) => Some("object of type '" + t + "' has no len()")
      case _ => None
    }
  }

  /** One cited source; `None` or a missing field stands for an absent attribute. */
  datatype Cite = Cite(url: Option<string>, excerpts: Option<seq<string>>, title: Option<string>)

  /** One entry of `result.output.basis`. */
  datatype BasisItem = BasisItem(
    field: Option<string>,
    confidence: Option<string>,
    reasoning: Option<string>,
    citations: Option<seq<Cite>>
  )

  datatype TaskOutput = TaskOutput(basis: Option<seq<BasisItem>>, content: Option<PyValue>)

  /** What `task_run.result` returns. */
  datatype TaskResult = TaskResult(output: Option<TaskOutput>)

  /** What `task_run.retrieve` returns. */
  datatype RunStatus = RunStatus(isActive: bool, status: string)

  /** What `task_run.create` returns. */
  datatype Run = Run(runId: string)

  /** The effect of one remote call: it returns a value or raises an exception with the given text. */
  datatype Reply<T> = Returns(value: T) | Raises(message: string)

  /** A call received by the remote. */
  datatype Call =
    | CreateCall(input: string, processor: string)
    | RetrieveCall(runId: string)
    | ResultCall(runId: string)

  /** The behaviour of the fake remote, fixed when it is built. */
  datatype Script = Script(
    runId: string,
    createError: Option<string>,
    replies: seq<Reply<RunStatus>>,
    result: Reply<TaskResult>
  )

  /** The fake's state as a value: its script and how many status requests it has answered. */
  datatype RemoteState = RemoteState(script: Script, polls: nat)

  /** A status answer after which a poll loop does not poll again: an inactive run, or an exception. */
  predicate EndsPolling(r: Reply<RunStatus>) {
    r.Raises? || !r.value.isActive
  }

  /**
   * The position of the first answer at or after `from` that ends polling,
   * or a position past the end when there is none.
   */
  function FirstStop(replies: seq<Reply<RunStatus>>, from: nat): (k: nat)
    decreases |replies| - from
    ensures from <= k
    ensures from <= |replies| ==> k <= |replies|
    ensures k < |replies| ==> EndsPolling(replies[k])
    ensures forall i :: from <= i < k ==> i < |replies| && !EndsPolling(replies[i])
  {
    if from >= |replies| || EndsPolling(replies[from]) then from
    else FirstStop(replies, from + 1)
  }

  /** The script will, at or after status answer `from`, give one that ends polling. */
  predicate Terminates(s: Script, from: nat) {
    FirstStop(s.replies, from) < |s.replies|
  }

  /** A run the script allows: when creation succeeds, polling from `from` ends. */
  predicate RunEnds(s: Script, from: nat) {
    s.createError.None? ==> Terminates(s, from)
  }

  /** The number of answers that report an active run. */
  function CountActive(replies: seq<Reply<RunStatus>>): nat {
    if replies == [] then 0
    else (if EndsPolling(replies[0]) then 0 else 1) + CountActive(replies[1..])
  }

  /**
   * Every answer before the first one that ends polling reports an active
   * run: a loop that stops there has seen exactly `FirstStop - from` active
   * reports.
   */
  lemma {:induction false} ActiveCountBeforeStop(replies: seq<Reply<RunStatus>>, from: nat)
    requires from <= |replies|
    ensures CountActive(replies[from..FirstStop(replies, from)]) == FirstStop(replies, from) - from
    decreases |replies| - from
  {
    var k := FirstStop(replies, from);
    if k != from {
      ActiveCountBeforeStop(replies, from + 1);
      assert replies[from..k][1..] == replies[from + 1..k];
    }
  }

  /** `n` copies of the call `c`. */
  function Repeat(c: Call, n: nat): seq<Call> {
    seq(n, _ => c)
  }

  /** The scripted remote; `parallel_client` when it is configured. */
  class TaskRunClient {
    const script: Script
    /** How many status requests have been answered so far. */
    var polls: nat
    /** Every call received, oldest first. */
    var calls: seq<Call>

    constructor (script: Script)
      ensures this.script == script && polls == 0 && calls == []
    {
      this.script := script;
      polls := 0;
      calls := [];
    }

    function State(): RemoteState
      reads this
    {
      RemoteState(script, polls)
    }

    /** `task_run.create(input=..., processor=...)`. */
    method Create(input: string, processor: string) returns (r: Reply<Run>)
      modifies this`calls
      ensures calls == old(calls) + [CreateCall(input, processor)]
      ensures script.createError.Some? ==> r == Raises(script.createError.value)
      ensures script.createError.None? ==> r == Returns(Run(script.runId))
    {
      calls := calls + [CreateCall(input, processor)];
      match script.createError
      case Some(e) => r := Raises(e);
      case None => r := Returns(Run(script.runId));
    }

    /** `task_run.retrieve(run_id)`: the next scripted status answer. */
    method Retrieve(runId: string) returns (r: Reply<RunStatus>)
      requires polls < |script.replies|
      modifies this`calls, this`polls
      ensures r == script.replies[old(polls)] && polls == old(polls) + 1
      ensures calls == old(calls) + [RetrieveCall(runId)]
    {
      r := script.replies[polls];
      polls := polls + 1;
      calls := calls + [RetrieveCall(runId)];
    }

    /** `task_run.result(run_id)`. */
    method Result(runId: string) returns (r: Reply<TaskResult>)
      modifies this`calls
      ensures r == script.result
      ensures calls == old(calls) + [ResultCall(runId)]
    {
      r := script.result;
      calls := calls + [ResultCall(runId)];
    }
  }

  /** The state of `parallel_client`, `None` when it is not configured. */
  function StateOf(client: TaskRunClient?): Option<RemoteState>
    reads client
  {
    if client == null then None else Some(client.State())
  }
}
