/** One invocation of the action: resolve, short-circuit on a new branch, fetch, evaluate, and
    report through the host's sinks. */
module Run {
  import opened Outcome
  import opened Sinks
  import opened Configuration
  import opened Alerts
  import opened Evaluation

  /** What each of the three remote calls returns, in call order, or the error it throws
      (a malformed response included). */
  datatype Remote = Remote(
    comparison: Result<Comparison>,
    codeScanning: Result<seq<CodeScanningAlert>>,
    dependabot: Result<seq<DependabotAlert>>)

  /** The hosting platform's "no previous commit": forty zeros. */
  const BranchCreatedSha := "0000000000000000000000000000000000000000"
  const BranchCreatedLine := "Branch created, skipping action."
  const FetchingLine := "Fetching changed files..."

  /** The trace of a run on a newly created branch. */
  function SkipTrace(): seq<Event> {
    [Info(BranchCreatedLine)] + DecisionTrace(false)
  }

  /** The trace from the first remote call on: a failing call ends it with that call's message. */
  function FetchTrace(remote: Remote): seq<Event> {
    match remote.comparison
    case Err(m) => [SetFailed(m)]
    case Ok(comparison) =>
      match remote.codeScanning
      case Err(m) => [SetFailed(m)]
      case Ok(csAlerts) =>
        match remote.dependabot
        case Err(m) => [SetFailed(m)]
        case Ok(depAlerts) =>
          EvaluationTrace(ChangedFiles(comparison), CodeScanningPaths(csAlerts), DependabotPaths(depAlerts))
  }

  /** The whole trace of one invocation. */
  function RunTrace(inputs: Inputs, ctx: Context, remote: Remote): seq<Event> {
    match ResolveConfig(inputs, ctx)
    case Err(m) => [SetFailed(m)]
    case Ok(cfg) =>
      if cfg.beforeSha == BranchCreatedSha then SkipTrace()
      else [Info(FetchingLine)] + FetchTrace(remote)
  }

  /** The invocation fails: a read throws, or, past the short-circuit, a remote call does. */
  predicate Fails(inputs: Inputs, ctx: Context, remote: Remote) {
    match ResolveConfig(inputs, ctx)
    case Err(_) => true
    case Ok(cfg) =>
      cfg.beforeSha != BranchCreatedSha &&
      (remote.comparison.Err? || remote.codeScanning.Err? || remote.dependabot.Err?)
  }

  /** The action, step by step, appending each host call to the trace. */
  method Run(inputs: Inputs, ctx: Context, remote: Remote) returns (trace: seq<Event>)
    ensures trace == RunTrace(inputs, ctx, remote)
  {
    trace := [];
    var resolved := ResolveConfig(inputs, ctx);
    if resolved.Err? {
      trace := trace + [SetFailed(resolved.message)];
      return;
    }
    var cfg := resolved.value;
    if cfg.beforeSha == BranchCreatedSha {
      trace := trace + [Info(BranchCreatedLine)];
      trace := trace + [SetOutput(OutputName, "false")];
      trace := trace + [Info(FinalLabel + "false")];
      return;
    }
    assert RunTrace(inputs, ctx, remote) == [Info(FetchingLine)] + FetchTrace(remote);
    trace := trace + [Info(FetchingLine)];
    if remote.comparison.Err? {
      trace := trace + [SetFailed(remote.comparison.message)];
      return;
    }
    var changedFiles := ChangedFiles(remote.comparison.value);
    if remote.codeScanning.Err? {
      trace := trace + [SetFailed(remote.codeScanning.message)];
      return;
    }
    var codeScanningFiles := CodeScanningPaths(remote.codeScanning.value);
    if remote.dependabot.Err? {
      trace := trace + [SetFailed(remote.dependabot.message)];
      return;
    }
    var dependabotFiles := DependabotPaths(remote.dependabot.value);
    assert FetchTrace(remote) == EvaluationTrace(changedFiles, codeScanningFiles, dependabotFiles);
    var touched, matchLog := Evaluate(changedFiles, codeScanningFiles, dependabotFiles);
    trace := trace + matchLog;
    trace := trace + [SetOutput(OutputName, BoolText(touched))];
    trace := trace + [Info(FinalLabel + BoolText(touched))];
    assert trace == [Info(FetchingLine)] + (matchLog + DecisionTrace(touched));
  }

  /** On a new branch the trace is the three skip events whatever the remote calls would
      return: none of them is consulted. */
  lemma {:induction false} BranchCreatedShortCircuit(inputs: Inputs, ctx: Context, remote: Remote, other: Remote)
    requires ResolveConfig(inputs, ctx).Ok?
    requires ResolveConfig(inputs, ctx).value.beforeSha == BranchCreatedSha
    ensures RunTrace(inputs, ctx, remote) == RunTrace(inputs, ctx, other)
    ensures RunTrace(inputs, ctx, remote) == [
      Info("Branch created, skipping action."),
      SetOutput("impacted_file_touched", "false"),
      Info("Final decision: impacted_file_touched=false")]
    ensures Count(RunTrace(inputs, ctx, remote), OutputSink) == 1
    ensures Count(RunTrace(inputs, ctx, remote), FailureSink) == 0
    ensures !Fails(inputs, ctx, remote)
  {
    DecisionTraceText(false);
    var t := SkipTrace();
    assert t[1..][1..][1..] == [];
    assert Count(t, OutputSink) == Count(t[1..], OutputSink) == 1 + Count(t[1..][1..], OutputSink);
  }

  /** The sentinel has exactly forty characters, all of them '0'. */
  lemma BranchCreatedShaIsFortyZeros()
    ensures |BranchCreatedSha| == 40
    ensures forall i :: 0 <= i < |BranchCreatedSha| ==> BranchCreatedSha[i] == '0'
  {
  }

  /** A successful run past the short-circuit: the fetching line, every match line, the output
      set once to the decision, and the final decision line agreeing with it. */
  lemma SucceededRun(inputs: Inputs, ctx: Context, remote: Remote)
    requires ResolveConfig(inputs, ctx).Ok?
    requires ResolveConfig(inputs, ctx).value.beforeSha != BranchCreatedSha
    requires remote.comparison.Ok? && remote.codeScanning.Ok? && remote.dependabot.Ok?
    ensures var changed := ChangedFiles(remote.comparison.value);
      var cs := CodeScanningPaths(remote.codeScanning.value);
      var dep := DependabotPaths(remote.dependabot.value);
      var d := Decision(changed, cs, dep);
      var t := RunTrace(inputs, ctx, remote);
      && (d <==> exists p :: p in cs + dep && p in changed)
      && t == [Info(FetchingLine)] + MatchLog(changed, cs, dep) +
              [SetOutput(OutputName, BoolText(d)), Info(FinalLine(d))]
      && Count(t, OutputSink) == 1
      && Count(t, FailureSink) == 0
      && t[|t| - 2] == SetOutput("impacted_file_touched", if d then "true" else "false")
      && t[|t| - 1] == Info("Final decision: impacted_file_touched=" + if d then "true" else "false")
  {
    var changed := ChangedFiles(remote.comparison.value);
    var cs := CodeScanningPaths(remote.codeScanning.value);
    var dep := DependabotPaths(remote.dependabot.value);
    var d := Decision(changed, cs, dep);
    DecisionIsIntersection(changed, cs, dep);
    MatchLogShape(changed, cs, dep);
    var log := MatchLog(changed, cs, dep);
    CountAppend([Info(FetchingLine)], log, OutputSink);
    CountAppend([Info(FetchingLine)], log, FailureSink);
    CountAppend([Info(FetchingLine)] + log, DecisionTrace(d), OutputSink);
    CountAppend([Info(FetchingLine)] + log, DecisionTrace(d), FailureSink);
  }

  /** A failing run ends with one failure report carrying the message of the step that threw,
      and never sets the output. */
  lemma FailedRun(inputs: Inputs, ctx: Context, remote: Remote)
    requires Fails(inputs, ctx, remote)
    ensures var t := RunTrace(inputs, ctx, remote);
      && Count(t, OutputSink) == 0
      && Count(t, FailureSink) == 1
      && 1 <= |t| <= 2
      && t[|t| - 1].SetFailed?
      && (ResolveConfig(inputs, ctx).Err? ==> t == [SetFailed(ResolveConfig(inputs, ctx).message)])
      && (ResolveConfig(inputs, ctx).Ok? ==> t[0] == Info("Fetching changed files..."))
      && (ResolveConfig(inputs, ctx).Ok? && remote.comparison.Err? ==>
            t[1] == SetFailed(remote.comparison.message))
      && (ResolveConfig(inputs, ctx).Ok? && remote.comparison.Ok? && remote.codeScanning.Err? ==>
            t[1] == SetFailed(remote.codeScanning.message))
      && (ResolveConfig(inputs, ctx).Ok? && remote.comparison.Ok? && remote.codeScanning.Ok? && remote.dependabot.Err? ==>
            t[1] == SetFailed(remote.dependabot.message))
  {
  }

  /** Every invocation ends in exactly one of the two reports: the output is set once, or the
      failure is reported once, the latter exactly when the invocation fails. */
  lemma OutputOrFailure(inputs: Inputs, ctx: Context, remote: Remote)
    ensures var t := RunTrace(inputs, ctx, remote);
      && Count(t, OutputSink) + Count(t, FailureSink) == 1
      && (Count(t, FailureSink) == 1 <==> Fails(inputs, ctx, remote))
  {
    match ResolveConfig(inputs, ctx)
    case Err(_) =>
      FailedRun(inputs, ctx, remote);
    case Ok(cfg) =>
      if cfg.beforeSha == BranchCreatedSha {
        BranchCreatedShortCircuit(inputs, ctx, remote, remote);
      } else if Fails(inputs, ctx, remote) {
        FailedRun(inputs, ctx, remote);
      } else {
        SucceededRun(inputs, ctx, remote);
      }
  }
}
