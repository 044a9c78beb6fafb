/** Cross-referencing the alert paths with the changed files: the decision and its log. */
module Evaluation {
  import opened Sinks

  const CodeScanningLabel := "CodeScanning matching file: "
  const DependabotLabel := "Dependabot matching file: "
  const OutputName := "impacted_file_touched"
  const FinalLabel := "Final decision: impacted_file_touched="

  /** The alert paths that occur, as exact strings, among the changed files: in list order,
      duplicates kept. */
  function Matches<T(==)>(changed: seq<T>, paths: seq<T>): (m: seq<T>)
    ensures |m| <= |paths|
  {
    if paths == [] then []
    else (if paths[0] in changed then [paths[0]] else []) + Matches(changed, paths[1..])
  }

  /** One log line `prefix + p` per path p, in order. */
  function InfoLines(prefix: string, ps: seq<string>): seq<Event> {
    seq(|ps|, k requires 0 <= k < |ps| => Info(prefix + ps[k]))
  }

  /** The match lines: code-scanning matches first, then Dependabot matches. */
  function MatchLog(changed: seq<string>, cs: seq<string>, dep: seq<string>): seq<Event> {
    InfoLines(CodeScanningLabel, Matches(changed, cs)) + InfoLines(DependabotLabel, Matches(changed, dep))
  }

  /** The decision: some alert path matched. */
  function Decision(changed: seq<string>, cs: seq<string>, dep: seq<string>): bool {
    Matches(changed, cs) != [] || Matches(changed, dep) != []
  }

  /** A boolean as JavaScript prints it. */
  function BoolText(b: bool): string {
    if b then "true" else "false"
  }

  function FinalLine(d: bool): string {
    FinalLabel + BoolText(d)
  }

  /** Setting the output, then logging the final decision. */
  function DecisionTrace(d: bool): seq<Event> {
    [SetOutput(OutputName, BoolText(d)), Info(FinalLine(d))]
  }

  /** The two events as the host sees them. */
  lemma DecisionTraceText(d: bool)
    ensures DecisionTrace(d) == [
      SetOutput("impacted_file_touched", if d then "true" else "false"),
      Info(if d then "Final decision: impacted_file_touched=true" else "Final decision: impacted_file_touched=false")]
  {
    var line := FinalLine(d);
    var text := if d then "Final decision: impacted_file_touched=true" else "Final decision: impacted_file_touched=false";
    assert |line| == |text|;
    forall i | 0 <= i < |line| ensures line[i] == text[i] {
    }
    assert line == text;
  }

  /** Everything the evaluation emits once the three lists are known. */
  function EvaluationTrace(changed: seq<string>, cs: seq<string>, dep: seq<string>): seq<Event> {
    MatchLog(changed, cs, dep) + DecisionTrace(Decision(changed, cs, dep))
  }

  /** The two matching loops: each path found among the changed files is logged and sets the
      one flag, which is never cleared. */
  method Evaluate(changed: seq<string>, cs: seq<string>, dep: seq<string>)
    returns (touched: bool, log: seq<Event>)
    ensures touched == Decision(changed, cs, dep)
    ensures touched <==> exists p :: p in cs + dep && p in changed
    ensures log == MatchLog(changed, cs, dep)
  {
    touched := false;
    log := [];
    for i := 0 to |cs|
      invariant log == InfoLines(CodeScanningLabel, Matches(changed, cs[..i]))
      invariant touched == (Matches(changed, cs[..i]) != [])
    {
      MatchStep(changed, CodeScanningLabel, cs, i);
      if cs[i] in changed {
        log := log + [Info(CodeScanningLabel + cs[i])];
        touched := true;
      }
    }
    assert cs[..|cs|] == cs;
    for i := 0 to |dep|
      invariant log == InfoLines(CodeScanningLabel, Matches(changed, cs)) + InfoLines(DependabotLabel, Matches(changed, dep[..i]))
      invariant touched == (Matches(changed, cs) != [] || Matches(changed, dep[..i]) != [])
    {
      MatchStep(changed, DependabotLabel, dep, i);
      if dep[i] in changed {
        log := log + [Info(DependabotLabel + dep[i])];
        touched := true;
      }
    }
    assert dep[..|dep|] == dep;
    DecisionIsIntersection(changed, cs, dep);
  }

  /** One iteration of a matching loop extends the matches and their lines by at most `paths[i]`. */
  lemma MatchStep(changed: seq<string>, prefix: string, paths: seq<string>, i: nat)
    requires i < |paths|
    ensures paths[i] in changed ==>
      && Matches(changed, paths[..i + 1]) == Matches(changed, paths[..i]) + [paths[i]]
      && InfoLines(prefix, Matches(changed, paths[..i + 1]))
         == InfoLines(prefix, Matches(changed, paths[..i])) + [Info(prefix + paths[i])]
    ensures paths[i] !in changed ==>
      Matches(changed, paths[..i + 1]) == Matches(changed, paths[..i])
  {
    assert paths[..i + 1] == paths[..i] + [paths[i]];
    MatchesSnoc(changed, paths[..i], paths[i]);
    if paths[i] in changed {
      InfoLinesAppend(prefix, Matches(changed, paths[..i]), [paths[i]]);
    }
  }

  lemma {:induction false} MatchesAppend<T>(changed: seq<T>, a: seq<T>, b: seq<T>)
    ensures Matches(changed, a + b) == Matches(changed, a) + Matches(changed, b)
  {
    if a == [] {
      assert a + b == b;
    } else {
      assert (a + b)[1..] == a[1..] + b;
      MatchesAppend(changed, a[1..], b);
      assert Matches(changed, a + b)
        == (if a[0] in changed then [a[0]] else []) + Matches(changed, a[1..] + b);
    }
  }

  lemma MatchesSnoc<T>(changed: seq<T>, a: seq<T>, p: T)
    ensures Matches(changed, a + [p]) == Matches(changed, a) + (if p in changed then [p] else [])
  {
    MatchesAppend(changed, a, [p]);
    assert [p][1..] == [];
  }

  lemma InfoLinesAppend(prefix: string, a: seq<string>, b: seq<string>)
    ensures InfoLines(prefix, a + b) == InfoLines(prefix, a) + InfoLines(prefix, b)
  {
  }

  /** A path is among the matches exactly when it is an alert path and a changed file. */
  lemma {:induction false} MatchesMembers<T>(changed: seq<T>, paths: seq<T>)
    ensures forall p :: p in Matches(changed, paths) <==> p in paths && p in changed
  {
    if paths != [] {
      MatchesMembers(changed, paths[1..]);
      assert paths == [paths[0]] + paths[1..];
    }
  }

  /** Each alert path occurs among the matches as often as among the alerts when it is a
      changed file, and not at all otherwise: duplicate alerts give duplicate matches. */
  lemma {:induction false} MatchesMultiplicity<T>(changed: seq<T>, paths: seq<T>, p: T)
    ensures multiset(Matches(changed, paths))[p] == if p in changed then multiset(paths)[p] else 0
  {
    if paths != [] {
      MatchesMultiplicity(changed, paths[1..], p);
      assert paths == [paths[0]] + paths[1..];
    }
  }

  /** Matching is a filter: a single path is kept exactly when it is a changed file, and the
      matches of a concatenation are those of its first part followed by those of its second,
      so the matches keep the alerts' order. */
  lemma MatchesFilter<T>(changed: seq<T>)
    ensures Matches(changed, []) == []
    ensures forall p :: Matches(changed, [p]) == if p in changed then [p] else []
    ensures forall a, b :: Matches(changed, a + b) == Matches(changed, a) + Matches(changed, b)
  {
    forall p ensures Matches(changed, [p]) == if p in changed then [p] else [] {
      assert [p][1..] == [];
    }
    forall a, b ensures Matches(changed, a + b) == Matches(changed, a) + Matches(changed, b) {
      MatchesAppend(changed, a, b);
    }
  }

  /** The decision is true exactly when the alert paths and the changed files intersect. */
  lemma DecisionIsIntersection(changed: seq<string>, cs: seq<string>, dep: seq<string>)
    ensures Decision(changed, cs, dep) <==> (set p | p in cs + dep) * (set p | p in changed) != {}
    ensures Decision(changed, cs, dep) <==> exists p :: p in cs + dep && p in changed
  {
    MatchesMembers(changed, cs);
    MatchesMembers(changed, dep);
    if Decision(changed, cs, dep) {
      var p := if Matches(changed, cs) != [] then Matches(changed, cs)[0] else Matches(changed, dep)[0];
      assert p in (set p | p in cs + dep) * (set p | p in changed);
    }
  }

  /** The match log holds one line per match, code-scanning lines first, and only log calls. */
  lemma MatchLogShape(changed: seq<string>, cs: seq<string>, dep: seq<string>)
    ensures var log := MatchLog(changed, cs, dep);
      var csm := Matches(changed, cs);
      var depm := Matches(changed, dep);
      && |log| == |csm| + |depm|
      && (forall k :: 0 <= k < |csm| ==> log[k] == Info(CodeScanningLabel + csm[k]))
      && (forall k :: 0 <= k < |depm| ==> log[|csm| + k] == Info(DependabotLabel + depm[k]))
      && Count(log, OutputSink) == 0
      && Count(log, FailureSink) == 0
  {
    CountZero(MatchLog(changed, cs, dep), OutputSink);
    CountZero(MatchLog(changed, cs, dep), FailureSink);
  }
}
