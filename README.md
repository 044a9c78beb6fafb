# Impact evaluator: a verified model of `run()`

This project models the decision procedure of a CI action. The action decides whether a push
touched a file that already has an open security alert. It resolves its inputs, falling back to
the ambient workflow context. It stops early on a newly created branch, whose "before" commit is
forty zeros. Otherwise it fetches three lists from the hosting API: the files changed between the
two commits, the open code-scanning alerts, and the open Dependabot alerts. It logs every alert
path that is one of the changed files, and sets the output `impacted_file_touched` to `"true"` or
`"false"`. The three calls the action makes into its host (`core.info`, `core.setOutput`,
`core.setFailed`) are recorded, in order, as a trace of `Sinks.Event` values.

Layout, one module per concern of `src/run.ts`:

- `outcome.dfy` (`Outcome`): `Option` for optional response fields. `Result` for a step that
  yields a value or throws an error with a message.
- `sinks.dfy` (`Sinks`): the trace events, and `Count`, the number of calls made to one sink.
- `configuration.dfy` (`Configuration`): the five input reads and the `||` fallback to the
  context.
- `alerts.dfy` (`Alerts`): the response shapes the action reads, and the three path extractions.
- `evaluation.dfy` (`Evaluation`): the matching rule. `Evaluate` is the method with the two
  matching loops. It is proved equal to the pure `Decision` and `MatchLog`.
- `run.dfy` (`Run`): `RunTrace` is the whole invocation as a pure function. `Run` is the
  step-by-step method, proved equal to it. The lemmas here cover the short-circuit, success and
  failure traces.
- `scenarios.dfy` (`Scenarios`): the four unit-test scenarios, plus one exact-matching example,
  as concrete lemmas.

Inputs and remote results are parameters. Each input read (`Inputs`) and each remote call
(`Run.Remote`) is a `Result`: either the value returned or the message of the error thrown. The
ambient context (`Configuration.Context`) is four plain strings.

## Model

| member | source | states |
|---|---|---|
| `Configuration.OrElseFallback` | src/run.ts:9-12 | an empty input is replaced by the context value, a non-empty one is kept unchanged; the result is empty only if both are |
| `Configuration.ResolveConfigSucceeds` | src/run.ts:6-12 | resolution succeeds iff all five reads succeed; repo, owner, before and current each fall back to the context when empty; the token is taken as read |
| `Configuration.ResolveConfigFails` | src/run.ts:6-12 | a failed resolution carries the message of the first read, in source order, that threw |
| `Alerts.ChangedFiles` | src/run.ts:31 | an absent `files` list gives no changed files; otherwise there is one filename per entry, in order |
| `Alerts.CodeScanningPaths` | src/run.ts:40-42 | the extracted paths are never more than the alerts, and exactly as many iff every alert has a path |
| `Alerts.CodeScanningPathsFilter` | src/run.ts:40-42 | extraction is map-then-filter: one alert gives its `most_recent_instance.location.path` or nothing, and extraction distributes over concatenation, so alert order is kept |
| `Alerts.DependabotPaths` | src/run.ts:55 | one manifest path per Dependabot alert, in alert order: the i-th path is the i-th alert's `dependency.manifest_path` |
| `Alerts.CodeScanningPathsMembers` | src/run.ts:40-42 | a path is extracted iff some alert carries it |
| `Evaluation.Matches` | src/run.ts:61 | a list of matches is never longer than the alert paths it filters |
| `Evaluation.MatchesMembers` | src/run.ts:61 | a path is a match iff it is an alert path and an exact element of the changed files |
| `Evaluation.MatchesMultiplicity` | src/run.ts:60-65 | a matching path occurs among the matches as often as among the alert paths, so duplicate alerts give duplicate lines; a non-matching path never occurs |
| `Evaluation.MatchesFilter` | src/run.ts:60-72 | one path is kept iff it is a changed file; the matches of a concatenation are the matches of each part, in order |
| `Evaluation.DecisionIsIntersection` | src/run.ts:58-72 | the decision is true iff the set of code-scanning and Dependabot paths meets the set of changed files |
| `Evaluation.Evaluate` | src/run.ts:58-72 | the two loops set the flag to the decision, which is true iff some alert path is a changed file; they log the code-scanning match lines, then the Dependabot ones |
| `Evaluation.MatchLogShape` | src/run.ts:60-72 | the match log has one `CodeScanning matching file: p` line per code-scanning match, in order, then one `Dependabot matching file: p` line per Dependabot match; it neither sets the output nor reports failure |
| `Evaluation.DecisionTraceText` | src/run.ts:74-75 | the decision is emitted as output `impacted_file_touched` = `"true"`/`"false"`, followed by the line `Final decision: impacted_file_touched=<decision>` |
| `Run.Run` | src/run.ts:4-83 | the step-by-step invocation produces exactly the trace `RunTrace` gives for the same inputs, context and remote results |
| `Run.BranchCreatedShortCircuit` | src/run.ts:14-20 | when the resolved before SHA is the sentinel, the trace is the branch-created line, output `"false"`, then the final line; it is the same whatever the remote calls return; the output is set once and no failure is reported |
| `Run.BranchCreatedShaIsFortyZeros` | src/run.ts:15 | the sentinel is forty `'0'` characters |
| `Run.SucceededRun` | src/run.ts:22-75 | a successful run past the sentinel logs `Fetching changed files...` first, then every match line, then sets the output once to the decision; the last line is the final decision and agrees with the output; no failure is reported |
| `Run.FailedRun` | src/run.ts:76-81 | when a read or remote call throws, the trace ends with one `setFailed` carrying that step's message, and it never sets the output; past resolution, the fetching line comes first |
| `Run.OutputOrFailure` | src/run.ts:5-82 | every invocation either sets the output once or reports failure once, never both; it reports failure iff a read or a remote call that is reached throws |
| `Scenarios.TestInputsResolve` | src/run.test.ts:33-42 | the test inputs are used as supplied, and `before-sha` is not the sentinel |
| `Scenarios.CodeScanningMatch` | src/run.test.ts:32-68 | a changed file with a code-scanning alert gives the whole trace: the fetching line, its `CodeScanning matching file:` line, output `"true"`, then the final line reporting `true` |
| `Scenarios.DependabotMatch` | src/run.test.ts:70-104 | a changed manifest with a Dependabot alert gives the whole trace: the fetching line, its `Dependabot matching file:` line, output `"true"`, then the final line reporting `true` |
| `Scenarios.NoMatch` | src/run.test.ts:106-132 | with no alerts the trace is the fetching line, output `"false"`, then the final line reporting `false` |
| `Scenarios.ReadThrows` | src/run.test.ts:134-142 | when every input read throws `Test error`, the trace is a single `setFailed("Test error")` and the output is never set |
| `Scenarios.ExactMatchOnly` | src/run.ts:61 | paths differing in case, or by a leading `./`, do not match: the whole trace is the fetching line, output `"false"`, then the final line reporting `false`, with no match line |

## Left out

- Octokit client construction (`github.getOctokit(token)`, src/run.ts:7) is a foreign library call. The token is read, and its read can throw, but no failure of the client constructor is modelled. It matters for an empty `github_token`, which gets no fallback (src/run.ts:6). The library's `getOctokit` rejects an empty token, so the source calls `setFailed` at src/run.ts:7, before the other reads and the sentinel check. For that input the model goes on past the token, so `Run.BranchCreatedShortCircuit` and `Run.OutputOrFailure` can report an output where the source reports a failure.
- Request parameters of the three remote calls (src/run.ts:24-29, 34-38, 45-47) are left out: owner, repo, base/head, `state: 'open'`, the Dependabot URL and its `Accept` header. Each call's result is a parameter, so the model does not say which request produced it.
- `async`/`await` is not modelled. The calls run one after another, with no concurrency.
- Errors are represented by their message alone. JavaScript's `String(error)` for thrown values that are not `Error` objects (src/run.ts:80) is not modelled separately.
- `Configuration.Context`: the context getters (`github.context.repo`, `payload.before`/`after`) are plain strings here. The model does not cover the getter throwing when the repository variable is unset, or a payload field being `undefined`.
- `Alerts.CodeScanningPaths`: the filter drops only `undefined` paths. A JSON `null` path would pass it in JavaScript. The model does not distinguish `null` from an absent path.
- A malformed response that throws is modelled as that remote call failing. The model has no separate parsing step. Three cases throw. A `null` entry or a non-array `files` in the comparison throws at src/run.ts:31. A non-array `data` or a `null` alert in the code-scanning response throws at src/run.ts:40-41. A Dependabot alert whose `dependency` is missing or `null` throws at src/run.ts:55. Each of these throws inside the `try`, after its call has returned and before any further line is logged. So the trace gets the same `setFailed` at the same place as when the call itself fails.
- A file entry without `filename` (src/run.ts:31), or a Dependabot alert whose `dependency` has no `manifest_path` (src/run.ts:55), does not throw. It yields `undefined`. The model has no such entries: every `Alerts.ChangedFile` has a filename and every `Alerts.Dependency` has a manifest path. An `undefined` alert path matches no string filename. So when only the alert is incomplete, the source's trace is that of the same list without that alert. When both lists hold an `undefined`, `includes` matches the two, and the source logs `Dependabot matching file: undefined` and decides `"true"`. The model does not cover this.
- Pagination of alert lists is not modelled. Each list is whatever the single call returns.
- The Jest mocking machinery in src/run.test.ts is not modelled. Its scenarios appear only as the lemmas in `Scenarios`.
