# Parallel AI research bridge: a Dafny model of the research tools

This project models the decision and transformation logic of `server.py`, the
protocol server that sends natural-language research questions to Parallel
AI's task-run API. It covers the two tools the server exposes:

- `research_architecture_decision` takes a query and a processor tier. It
  normalises the tier, builds an approval prompt from the cost and time tables,
  asks the user for approval and checks that a client is configured. It then
  creates a remote run, polls the run's status until the run is no longer
  active, fetches the result, and parses it into content and citation groups.
- `quick_research` does the same at the fixed tier `"lite"`. It asks for no
  approval and parses no citations.

Modules:

- `Wrappers` (`wrappers.dfy`): `Option`, which stands for a Python attribute
  that may be absent.
- `Processors` (`processors.dfy`): the nine accepted tiers, the default `"pro"`,
  the cost and time tables with their `"unknown"` fallback, and the approval
  prompt's facts.
- `TaskRun` (`task_run.dfy`): the remote API as a scripted fake, the class
  `TaskRunClient`. It holds the run id it hands out, an optional exception for
  `create`, the successive answers to `retrieve` and the answer to `result`,
  and it logs every call it receives. The module also defines the result
  record the remote returns (`TaskResult`, `TaskOutput`, `BasisItem`, `Cite`,
  `PyValue`) and `FirstStop`, the position of the first status answer that
  ends polling.
- `ResultParsing` (`result_parsing.dfy`): citation parsing (the nested loops
  as the method `ParseCitations`, specified by the function `CitationsOf`) and
  content extraction.
- `ResearchTools` (`research_tools.dfy`): the poll loop `AwaitCompletion`,
  the two tools as methods over a nullable client, and their replies as the
  functions `ResearchOutcome` and `QuickOutcome`, with lemmas about the order
  of the checks and the calls made.

`parallel_client` is a parameter of the tool methods; `null` means the client
is not configured. The user's answer to the approval prompt is the boolean
parameter `approved`. A Python exception raised by a remote call is the value
`Raises(text)`, where the text is the exception's `str()`.

`server.py` keeps no job registry, no job lifecycle states, no elapsed-time
accounting and no chunking of results: each tool call runs to completion and
returns its reply directly, and this model does the same.

## Model

| member | source | states |
|---|---|---|
| `Processors.NormaliseProcessor` | server.py:190-208 | the tier used is always one of the nine listed tiers; a listed tier is kept unchanged and any other string becomes `"pro"` |
| `Processors.NormaliseIdempotent` | server.py:191-208 | normalising a normalised tier changes nothing |
| `Processors.EstimatesCoverEveryTier` | server.py:210-232 | every listed tier has an entry in both the cost table and the time table, and neither entry is `"unknown"` |
| `Processors.ApprovalEstimatesKnown` | server.py:234-252 | the approval prompt for a normalised tier shows the query, that tier, and its time and cost entries; it never falls back to `"unknown"` |
| `TaskRun.TaskRunClient.Create` | server.py:282 | `task_run.create` is logged with its input and tier; it returns the run id or raises the scripted exception |
| `TaskRun.TaskRunClient.Retrieve` | server.py:292 | `task_run.retrieve` is logged and returns the next scripted status answer, advancing the cursor by one |
| `TaskRun.TaskRunClient.Result` | server.py:307 | `task_run.result` is logged and returns the scripted result or raises |
| `TaskRun.FirstStop` | server.py:290-304 | the poll loop's stopping point: the first answer at or after the cursor that reports an inactive run or raises; every answer before it reports an active run |
| `TaskRun.ActiveCountBeforeStop` | server.py:290-301 | the number of active reports before the stopping point equals its distance from the cursor, which is the value `poll_count` reaches |
| `ResultParsing.ParseCitations` | server.py:310-340 | the nested append loops build exactly `CitationsOf(result)` |
| `ResultParsing.CitationGroupsFollowBasis` | server.py:310-340 | there is one group per basis item and one entry per cite, both in source order; absent `field`, `confidence`, `reasoning`, `url` and `title` become `None` and absent `excerpts` becomes `[]`; without `output` or `basis` the list is empty |
| `ResultParsing.ExtractContent` | server.py:342-349 | no `output` or no `output.content` gives `""`; a dict with an `"output"` entry gives that entry itself, whatever its type; the content is a string except exactly when it is such an entry that is not a string; a string content is the `str()` form of the `"output"` entry when the dict has one and of the content itself otherwise; string content passes through unchanged |
| `ResearchTools.AwaitCompletion` | server.py:290-304 | the loop asks for the status until the first answer that ends polling, and makes exactly one status request per answer up to and including it; it returns `poll_count`, which equals the number of active answers it saw, or the exception raised by a status request |
| `ResearchTools.ResultFetchedOnceAfterPolling` | server.py:282-307 | a run first creates the remote run with the query and tier, then makes only status requests for that run, one per answer up to the stopping point; the result is fetched at most once, as the last call, and only when the stopping answer was an inactive status |
| `ResearchTools.ApprovalBeforeClientCheck` | server.py:254-272 | a declined approval gives `"cancelled"` whatever the client; an approved request without a client gives the not-configured error |
| `ResearchTools.ResearchOutcomeShape` | server.py:343-375 | the full tool's reply is `"complete"` exactly when approved, configured, no remote call raised and the content has a length; it then carries the normalised tier, the run id, the content and the parsed citations; a remote exception, or the `TypeError` of `len(content)` in the success log, becomes `"error"` with `"Research failed: "` before its text |
| `ResearchTools.QuickOutcomeShape` | server.py:412-467 | quick research is never cancelled; without a client it is an error; on success its tier is `"lite"`, it has no citations and its content has a length; the bare text of an exception, from the remote or from `len(content)`, is the error message |
| `ResearchTools.QuickMatchesLiteResearch` | server.py:412-467 | when a client is configured, quick research gives the same status, content, tier and run id as an approved full research at `"lite"`, and only the error prefix and the citations differ; without a client the two give their own not-configured errors |
| `ResearchTools.UnsizedOutputEntryIsError` | server.py:343-356 | a content dict `{"output": 5}` makes both tools reply `"error"` with `object of type 'int' has no len()` (prefixed by `"Research failed: "` in the full tool), although every remote call succeeded |
| `ResearchTools.ResearchArchitectureDecision` | server.py:144-375 | the approval prompt shown is the one for the query and the normalised tier; the reply is `ResearchOutcome`; a declined request makes no remote call; an approved one with a client makes exactly the calls of `RunCalls` at the normalised tier |
| `ResearchTools.QuickResearch` | server.py:378-467 | the reply is `QuickOutcome`; with a client it makes exactly the calls of `RunCalls` at tier `"lite"` |

## Left out

- A remote that reports an active run forever: the source then polls without end. When run creation succeeds, the tool methods require the scripted remote to reach an answer that ends polling (`RunEnds`).
- Exceptions are modelled where they come from the three remote calls and from `len(content)` in the success log. Other exceptions are not modelled: from `ctx.report_progress`, from an attribute present with a value of the wrong type (such as `citations` holding `None`, which the `Option` fields cannot express), and from a failing `str()`.
- `ResultParsing.CitationGroupsFollowBasis`: an `excerpts` attribute that is present but holds `None` is copied as `None` by the source; the model cannot express it and gives `[]`.
- Approval prompt: the exact text of the elicitation message is not modelled, only the query, tier, time and cost it shows. `ctx.elicit` itself is the boolean `approved`. A missing `approval.data` is not modelled.
- The `poll_count` value in `research_architecture_decision` is only logged. The model returns it from `AwaitCompletion`, and `quick_research`, whose loop has no counter, ignores it.
- Sleeping between polls (10 seconds, or 5 for quick research) is left out: timing is not modelled.
- Logging (`SystemLogger`, `log_*`) and progress reports are left out. The one exception is the `len(content)` the success log evaluates, which can raise and so decides the reply; the model keeps it as a length check on the content.
- MCP server registration, the session prompt and `mcp.run()` are framework glue and are left out.
- Start-up configuration (`app_lifespan`: reading `PARALLEL_API_KEY`, importing and building the SDK client) is I/O. Only its outcome, a client or `null`, is modelled.
- `test_logger.py` and `test_rotation.py` only exercise log files on disk and are not part of this model.
- The fake hands out the same run id on every `create` and answers status requests from one queue whatever run id is asked for.
