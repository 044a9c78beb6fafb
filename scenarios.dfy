/** The four scenarios of the action's unit tests, as concrete instances of the model. */
module Scenarios {
  import opened Outcome
  import opened Sinks
  import opened Configuration
  import opened Alerts
  import opened Evaluation
  import opened Run

  /** The inputs every succeeding scenario supplies. */
  function TestInputs(): Inputs {
    Inputs(Ok("test-token"), Ok("test-repo"), Ok("test-owner"), Ok("before-sha"), Ok("current-sha"))
  }

  function Changed(path: string): Result<Comparison> {
    Ok(Comparison(Some([ChangedFile(path)])))
  }

  function CodeScanningAlertAt(path: string): CodeScanningAlert {
    CodeScanningAlert(Some(Instance(Some(Location(Some(path))))))
  }

  /** The inputs are all supplied and are used as they are; "before-sha" is no sentinel. */
  lemma TestInputsResolve(ctx: Context)
    ensures ResolveConfig(TestInputs(), ctx)
      == Ok(Config("test-token", "test-repo", "test-owner", "before-sha", "current-sha"))
    ensures "before-sha" != BranchCreatedSha
  {
  }

  /** A changed file with a code-scanning alert: its match line, then output "true". */
  lemma CodeScanningMatch(ctx: Context)
    ensures RunTrace(TestInputs(), ctx,
        Remote(Changed("src/vulnerable-file.js"), Ok([CodeScanningAlertAt("src/vulnerable-file.js")]), Ok([]))) == [
      Info("Fetching changed files..."),
      Info("CodeScanning matching file: " + "src/vulnerable-file.js"),
      SetOutput("impacted_file_touched", "true"),
      Info("Final decision: impacted_file_touched=true")]
  {
    var path := "src/vulnerable-file.js";
    var remote := Remote(Changed(path), Ok([CodeScanningAlertAt(path)]), Ok([]));
    TestInputsResolve(ctx);
    assert ChangedFiles(remote.comparison.value) == [path];
    assert CodeScanningPaths(remote.codeScanning.value) == [path];
    assert DependabotPaths(remote.dependabot.value) == [];
    assert Matches([path], [path]) == [path];
    assert Matches([path], []) == [];
    SucceededRun(TestInputs(), ctx, remote);
    DecisionTraceText(true);
    assert RunTrace(TestInputs(), ctx, remote)
      == [Info(FetchingLine), Info(CodeScanningLabel + path)] + DecisionTrace(true);
  }

  /** A changed manifest with a Dependabot alert: its match line, then output "true". */
  lemma DependabotMatch(ctx: Context)
    ensures RunTrace(TestInputs(), ctx,
        Remote(Changed("package.json"), Ok([]), Ok([DependabotAlert(Dependency("package.json"))]))) == [
      Info("Fetching changed files..."),
      Info("Dependabot matching file: " + "package.json"),
      SetOutput("impacted_file_touched", "true"),
      Info("Final decision: impacted_file_touched=true")]
  {
    var path := "package.json";
    var remote := Remote(Changed(path), Ok([]), Ok([DependabotAlert(Dependency(path))]));
    TestInputsResolve(ctx);
    assert ChangedFiles(remote.comparison.value) == [path];
    assert CodeScanningPaths(remote.codeScanning.value) == [];
    assert DependabotPaths(remote.dependabot.value) == [path];
    assert Matches([path], [path]) == [path];
    assert Matches([path], []) == [];
    SucceededRun(TestInputs(), ctx, remote);
    DecisionTraceText(true);
    assert RunTrace(TestInputs(), ctx, remote)
      == [Info(FetchingLine), Info(DependabotLabel + path)] + DecisionTrace(true);
  }

  /** No alert at all: output "false" and the final decision line says so. */
  lemma NoMatch(ctx: Context)
    ensures RunTrace(TestInputs(), ctx, Remote(Changed("src/other-file.js"), Ok([]), Ok([]))) == [
      Info("Fetching changed files..."),
      SetOutput("impacted_file_touched", "false"),
      Info("Final decision: impacted_file_touched=false")]
  {
    var remote := Remote(Changed("src/other-file.js"), Ok([]), Ok([]));
    TestInputsResolve(ctx);
    SucceededRun(TestInputs(), ctx, remote);
    DecisionTraceText(false);
  }

  /** Reading the inputs throws: the failure is reported with the error's message and there is
      no output. */
  lemma ReadThrows(ctx: Context, remote: Remote)
    ensures var e := Err("Test error");
      var t := RunTrace(Inputs(e, e, e, e, e), ctx, remote);
      && t == [SetFailed("Test error")]
      && Count(t, OutputSink) == 0
  {
  }

  /** Matching compares exact strings: a path differing only in case or by a leading "./"
      does not match, and the run decides "false". */
  lemma ExactMatchOnly(ctx: Context)
    ensures Matches(["src/App.js"], ["src/app.js", "./src/App.js"]) == []
    ensures RunTrace(TestInputs(), ctx, Remote(Changed("src/App.js"),
        Ok([CodeScanningAlertAt("src/app.js")]), Ok([DependabotAlert(Dependency("./src/App.js"))]))) == [
      Info("Fetching changed files..."),
      SetOutput("impacted_file_touched", "false"),
      Info("Final decision: impacted_file_touched=false")]
  {
    var remote := Remote(Changed("src/App.js"),
      Ok([CodeScanningAlertAt("src/app.js")]), Ok([DependabotAlert(Dependency("./src/App.js"))]));
    TestInputsResolve(ctx);
    assert ChangedFiles(remote.comparison.value) == ["src/App.js"];
    assert CodeScanningPaths(remote.codeScanning.value) == ["src/app.js"];
    assert DependabotPaths(remote.dependabot.value) == ["./src/App.js"];
    assert Matches(["src/App.js"], ["src/app.js"]) == [];
    assert Matches(["src/App.js"], ["./src/App.js"]) == [];
    SucceededRun(TestInputs(), ctx, remote);
    DecisionTraceText(false);
  }
}
