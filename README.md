# bk-long-running, modelled in Dafny

`index.js` is a reporting script for one Buildkite organisation. It does three things:

- It pages through the organisation's pipelines and keeps those not yet converted to YAML steps.
- It pages through the organisation's running builds and keeps those that have run longer than `MINUTES` minutes.
- It writes both lists as one Markdown document.

This project models the four pieces of logic inside that script. The network, the environment, the clock and the file system become inputs and outputs.

- `paging.dfy` (module `Paging`) models `pagedGet`. The server is an oracle: a sequence of replies, where reply `k` answers the request for page `k + 1`. A reply is a JSON array of records (`Records`), any other JSON value (`NotArray`), or a rejected request (`Rejected`). A request beyond the end of the oracle rejects. `PagedGet` is the `while (true)` loop with its `page` counter. It returns:
  - the requests it issued;
  - the handler calls `func(data, page)` it made, in order;
  - whether it completed or rejected.
- `records.dfy` (module `Records`) holds the pipeline and build records and what the handlers keep of them. It also holds the keep/drop tests as predicates and the filtered lists as specification functions (`Unconverted`, `LongRunning`), with the lemmas about them.
- `text.dfy` (module `Text`) models `String.prototype.trim` as ECMA-262 defines it: it removes leading and trailing WhiteSpace and LineTerminator characters.
- `markdown.dfy` (module `Markdown`) gives the report text (`Document`) and the `md +=` loops that build it (`Render`). It also proves the report's line-by-line shape against an independent `split("\n")`.
- `run.dfy` (module `Run`) models `go()`:
  - class `Results` holds the two accumulators `allPipelines` and `longBuilds`, which the page handlers `AddPipelines` and `AddLongBuilds` push onto with `for` loops;
  - `Go` runs both paginations, feeds each page to its handler in page order and renders the report;
  - `Go` returns `None` when a request rejects (the script then logs the error and writes nothing).
- `seqs.dfy` and `wrappers.dfy` hold the generic filter/concatenate combinators and `Option`.

`index.js` has no CSV output, no per-pipeline last-build lookup, no containment test for the upload command and no suffix on the repository URL, and the model has none of them either. The model follows the code: the first step's command must EQUAL `buildkite-agent pipeline upload` (`UploadWithArgumentsKept` shows that a longer command is kept).

## Model

| member | source | states |
|---|---|---|
| `Paging.RequestQuery` | index.js:21-25 | The request for `page` has the caller's keys plus `per_page` and `page`. Every other caller key keeps its value. `page` is the page number. `per_page` is the caller's value when that value is truthy, and 100 otherwise. |
| `Paging.Handled` | index.js:27-32 | The pages handed to the handler are the replies before the first one that is not a non-empty array. Each handed page is a non-empty array, in reply order, and the reply right after them (if any) stops the loop. |
| `Paging.HandledUnique` | index.js:27-32 | Those three facts determine the handed pages uniquely. |
| `Paging.Issued` | index.js:19-29 | Exactly one more request is issued than pages are handled, and request `k` (0-based) asks for page `k + 1`: page 1 first, then consecutive pages. |
| `Paging.LastRequestIsStop` | index.js:27-32 | The last request asks for the page whose reply stopped the loop: that reply is empty, not an array, or a rejection. |
| `Paging.LaterRepliesIgnored` | index.js:20-33 | Once a reply has stopped the loop normally, later replies change neither the handled pages nor the requests: no later page is ever requested. |
| `Paging.PagedGet` | index.js:18-34 | The loop issues exactly the requests of `Issued`. It calls the handler once per handled page, in order, with 1-based page numbers. It completes iff some reply stopped it without rejecting. |
| `Text.TrimStart` | index.js:56 | The result is a suffix of the input, everything removed is whitespace, and the result does not start with whitespace. |
| `Text.TrimEnd` | index.js:56 | The result is a prefix of the input, everything removed is whitespace, and the result does not end with whitespace. |
| `Text.Trim` | index.js:56 | `name.trim()` is no longer than `name`, and it neither starts nor ends with whitespace. |
| `Text.TrimCuts` | index.js:56 | What `trim` removes on either side is whitespace: `s == left + trim(s) + right`. |
| `Text.TrimPadded` | index.js:56 | `trim` removes exactly the surrounding whitespace: whitespace + `t` + whitespace trims to `t` whenever `t` has no whitespace at either end. |
| `Text.TrimIdempotent` | index.js:56 | Trimming twice is trimming once. |
| `Records.EmptyStepsDropped` | index.js:47-49 | A pipeline with no steps leaves the pipeline output exactly as if it were absent. |
| `Records.UploadPipelineDropped` | index.js:51-53 | A pipeline whose first step command equals the upload command leaves the output exactly as if it were absent. |
| `Records.OtherPipelineKept` | index.js:45-60 | Every other pipeline with at least one step contributes exactly one summary, at its own position. The summary has the trimmed name, `https://github.com/` + `provider.settings.repository`, and the slug and `web_url` unchanged. |
| `Records.UnconvertedMembers` | index.js:44-61 | A summary is in the output iff some kept pipeline of the input produced it. |
| `Records.UnconvertedAcrossPages` | index.js:43-62 | Pipelines spread over several pages are reported in arrival order, as if they had come on one page. |
| `Records.UploadWithArgumentsKept` | index.js:51-52 | The test is strict equality: any command that is the upload command followed by a non-empty suffix keeps the pipeline. |
| `Records.RepoOneTrimmed` | index.js:56 | `" Repo One ".trim()` is `"Repo One"`. |
| `Records.SamplePipelineSummary` | index.js:45-59 | The pipeline `" Repo One "` with a `make build` step on `org/repo1` is kept as `Repo One` with repo `https://github.com/org/repo1`. |
| `Records.BuildContribution` | index.js:69-79 | A build contributes one entry iff `now - started_at > MINUTES * 60000`. The entry has `web_url`, `creator.email` and `creator.name` verbatim, at the build's own position. Duplicates are not merged. |
| `Records.ThresholdIsStrict` | index.js:73 | A build that has run for exactly the threshold is not listed. |
| `Records.HigherThresholdFewerBuilds` | index.js:73 | Raising `MINUTES` never lists more builds. |
| `Records.SampleBuild` | index.js:70-78 | A build started 90 minutes before `now` is listed with a 60-minute threshold and not with a 120-minute one. |
| `Records.LongRunningAcrossPages` | index.js:68-81 | Builds spread over several pages are listed in arrival order, as if they had come on one page. |
| `Markdown.Render` | index.js:84-94 | The `md +=` loops build exactly `Document`: the builds heading, one bullet per long-running build, the repos heading, then one bullet per pipeline. |
| `Markdown.DocumentJoined` | index.js:84-94 | The report is, newline-terminated line by line: an empty line, `## long-running builds`, an empty line, the build bullets, an empty line, `## unconverted repos`, an empty line, the pipeline bullets. |
| `Markdown.DocumentLines` | index.js:84-94 | When no field holds a newline, splitting the report at newlines gives back exactly those lines, in order, followed by one empty piece. |
| `Run.Results.constructor` | index.js:37-38 | Both accumulators start empty. |
| `Run.Results.AddPipelines` | index.js:43-62 | The pipeline handler appends `Unconverted(page)` to `allPipelines` and leaves `longBuilds` alone. |
| `Run.Results.AddLongBuilds` | index.js:68-81 | The build handler appends `LongRunning(page, now, MINUTES)` to `longBuilds` and leaves `allPipelines` alone. |
| `Run.Go` | index.js:36-97 | The run makes all pipeline requests, then, only if that pagination completed, all running-build requests (`state=running`). It writes the report of all kept builds and pipelines in arrival order, or nothing when a request rejected. |
| `Run.ReportIgnoresLaterReplies` | index.js:40-94 | Replies after the two stopping replies cannot change the written report. |

## Left out

- The HTTP layer of `get` (index.js:9-16) is replaced by the oracle of replies: `node-fetch`, the bearer token header, `res.json()`, URL encoding with `querystring.stringify` and the `console.info` line. A request is modelled as its endpoint and its query map.
- Running out of oracle replies is treated like a rejected request. A server that returns non-empty pages forever would make the script run forever, and a finite oracle cannot express that.
- The environment reads (`BK_TOKEN`, `BK_ORG`, `MINUTES`, `OUT`) and dotenv loading are not modelled: the organisation and the threshold are parameters. The JavaScript coercion of the `MINUTES` string is not modelled either. For example, an unset `MINUTES` gives `NaN`, and then no build is ever listed. The model takes a natural number.
- `new Date()` and the ISO-8601 parsing of `started_at` are not modelled: both are integer milliseconds. The script reads the clock once per build, but the model uses one `now` for the whole build pagination.
- JavaScript numbers are doubles. The model's integers are exact, which agrees with the script for every millisecond timestamp and threshold below 2^53.
- `fs.writeFileSync` is not modelled: `Go` returns the text it would write. The error logging of `go().catch` is not modelled either: `Go` returns `None`.
- Crashes on malformed records are not modelled: records are well-formed datatypes. For example, a missing `provider` throws even for a pipeline without steps (index.js:46), and a missing `creator` throws only for a build over the threshold (index.js:76), since a shorter-running build is skipped before `creator.email` is read. A step without a `command` is modelled (`None`); such a pipeline is kept.
- The server-side `state=running` filter is only modelled as the query sent. The handler itself never looks at a build's state, and neither does the model.
- `async`/`await` is not modelled. `PagedGet` records the handler calls, and `Go` applies the handler methods to those pages in the same order after the loop. The order matches the script's, and the handlers do not influence the requests. When a request rejects, nothing is written, so handler effects on earlier pages are unobservable.
