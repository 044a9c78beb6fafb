/** The three remote responses, reduced to the fields the action reads, and the path lists
    extracted from them. */
module Alerts {
  import opened Outcome

  /** One entry of a compare-commits response's `files`. */
  datatype ChangedFile = ChangedFile(filename: string)

  /** The `data` of a compare-commits response; its `files` list may be absent. */
  datatype Comparison = Comparison(files: Option<seq<ChangedFile>>)

  /** A code-scanning alert with its optional `most_recent_instance.location.path`. */
  datatype Location = Location(path: Option<string>)
  datatype Instance = Instance(location: Option<Location>)
  datatype CodeScanningAlert = CodeScanningAlert(mostRecentInstance: Option<Instance>)

  /** A Dependabot alert with its `dependency.manifest_path`. */
  datatype Dependency = Dependency(manifestPath: string)
  datatype DependabotAlert = DependabotAlert(dependency: Dependency)

  /** `files.map(file => file.filename)` */
  function FileNames(files: seq<ChangedFile>): seq<string> {
    seq(|files|, i requires 0 <= i < |files| => files[i].filename)
  }

  /** The changed-file paths of a comparison; an absent `files` list counts as empty. */
  function ChangedFiles(c: Comparison): (names: seq<string>)
    ensures c.files.None? ==> names == []
    ensures c.files.Some? ==> |names| == |c.files.value|
    ensures c.files.Some? ==> forall i :: 0 <= i < |names| ==> names[i] == c.files.value[i].filename
  {
    match c.files
    case None => []
    case Some(files) => FileNames(files)
  }

  /** `alert.most_recent_instance?.location?.path` */
  function AlertPath(a: CodeScanningAlert): Option<string> {
    match a.mostRecentInstance
    case None => None
    case Some(instance) =>
      match instance.location
      case None => None
      case Some(location) => location.path
  }

  predicate HasPath(a: CodeScanningAlert) {
    AlertPath(a).Some?
  }

  /** The code-scanning paths: each alert's path, alerts without one dropped. */
  function CodeScanningPaths(alerts: seq<CodeScanningAlert>): (paths: seq<string>)
    ensures |paths| <= |alerts|
    ensures |paths| == |alerts| <==> forall i :: 0 <= i < |alerts| ==> HasPath(alerts[i])
  {
    if alerts == [] then []
    else
      match AlertPath(alerts[0])
      case Some(p) => [p] + CodeScanningPaths(alerts[1..])
      case None => CodeScanningPaths(alerts[1..])
  }

  /** `data.map(alert => alert.dependency.manifest_path)` */
  function DependabotPaths(alerts: seq<DependabotAlert>): (paths: seq<string>)
    ensures |paths| == |alerts|
    ensures forall i :: 0 <= i < |alerts| ==> paths[i] == alerts[i].dependency.manifestPath
  {
    seq(|alerts|, i requires 0 <= i < |alerts| => alerts[i].dependency.manifestPath)
  }

  lemma {:induction false} CodeScanningPathsAppend(a: seq<CodeScanningAlert>, b: seq<CodeScanningAlert>)
    ensures CodeScanningPaths(a + b) == CodeScanningPaths(a) + CodeScanningPaths(b)
  {
    if a == [] {
      assert a + b == b;
    } else {
      assert (a + b)[1..] == a[1..] + b;
      CodeScanningPathsAppend(a[1..], b);
      assert CodeScanningPaths(a + b)
        == (if HasPath(a[0]) then [AlertPath(a[0]).value] else []) + CodeScanningPaths(a[1..] + b);
    }
  }

  /** Extraction is map-then-filter: one alert gives its path or nothing, and the paths of a
      concatenation are those of its first part followed by those of its second, so the paths
      keep the alerts' order. */
  lemma CodeScanningPathsFilter()
    ensures CodeScanningPaths([]) == []
    ensures forall a :: CodeScanningPaths([a]) == if HasPath(a) then [AlertPath(a).value] else []
    ensures forall a, b :: CodeScanningPaths(a + b) == CodeScanningPaths(a) + CodeScanningPaths(b)
  {
    forall a ensures CodeScanningPaths([a]) == if HasPath(a) then [AlertPath(a).value] else [] {
      assert [a][1..] == [];
    }
    forall a, b ensures CodeScanningPaths(a + b) == CodeScanningPaths(a) + CodeScanningPaths(b) {
      CodeScanningPathsAppend(a, b);
    }
  }

  /** A path is extracted exactly when some alert carries it. */
  lemma {:induction false} CodeScanningPathsMembers(alerts: seq<CodeScanningAlert>, p: string)
    ensures p in CodeScanningPaths(alerts) <==> exists i :: 0 <= i < |alerts| && AlertPath(alerts[i]) == Some(p)
  {
    if alerts != [] {
      CodeScanningPathsMembers(alerts[1..], p);
      if exists i :: 0 <= i < |alerts| && AlertPath(alerts[i]) == Some(p) {
        var i :| 0 <= i < |alerts| && AlertPath(alerts[i]) == Some(p);
        if i > 0 {
          assert alerts[i] == alerts[1..][i - 1];
        }
      }
      if exists j :: 0 <= j < |alerts[1..]| && AlertPath(alerts[1..][j]) == Some(p) {
        var j :| 0 <= j < |alerts[1..]| && AlertPath(alerts[1..][j]) == Some(p);
        assert alerts[1..][j] == alerts[j + 1];
      }
    }
  }
}
