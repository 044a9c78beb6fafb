/** Resolving the action's inputs, with the ambient workflow context as fallback. */
module Configuration {
  import opened Outcome

  /** The values of the ambient workflow context the action falls back to:
      the repository's name and owner, and the push payload's before/after hashes. */
  datatype Context = Context(repo: string, owner: string, before: string, after: string)

  /** What reading each of the five inputs yields, or the error the read throws. */
  datatype Inputs = Inputs(
    githubToken: Result<string>,
    repo: Result<string>,
    owner: Result<string>,
    beforeSha: Result<string>,
    currentSha: Result<string>)

  /** The resolved configuration of one invocation. */
  datatype Config = Config(token: string, repo: string, owner: string, beforeSha: string, currentSha: string)

  /** `supplied || ambient` on strings: JavaScript's `||` keeps its left operand when it is
      truthy, and the empty string is the only falsy string. */
  function OrElse(supplied: string, ambient: string): string {
    if supplied != "" then supplied else ambient
  }

  /** The reads happen in source order (token, repo, owner, before, current); the first one
      that throws ends the resolution with its message. */
  function ResolveConfig(inputs: Inputs, ctx: Context): Result<Config> {
    var token :- inputs.githubToken;
    var repo :- inputs.repo;
    var owner :- inputs.owner;
    var before :- inputs.beforeSha;
    var current :- inputs.currentSha;
    Ok(Config(token, OrElse(repo, ctx.repo), OrElse(owner, ctx.owner),
              OrElse(before, ctx.before), OrElse(current, ctx.after)))
  }

  /** An empty input gives way to the ambient value; a non-empty one is kept as it is.
      The result is empty only when both are. */
  lemma OrElseFallback(supplied: string, ambient: string)
    ensures supplied == "" ==> OrElse(supplied, ambient) == ambient
    ensures supplied != "" ==> OrElse(supplied, ambient) == supplied
    ensures OrElse(supplied, ambient) == "" <==> supplied == "" && ambient == ""
  {
  }

  /** Resolution succeeds exactly when every read succeeds; each of repo, owner, before and
      current falls back to its ambient value, the token never does. */
  lemma ResolveConfigSucceeds(inputs: Inputs, ctx: Context)
    ensures ResolveConfig(inputs, ctx).Ok? <==>
      inputs.githubToken.Ok? && inputs.repo.Ok? && inputs.owner.Ok? &&
      inputs.beforeSha.Ok? && inputs.currentSha.Ok?
    ensures ResolveConfig(inputs, ctx).Ok? ==>
      var cfg := ResolveConfig(inputs, ctx).value;
      && cfg.token == inputs.githubToken.value
      && (inputs.repo.value == "" ==> cfg.repo == ctx.repo)
      && (inputs.repo.value != "" ==> cfg.repo == inputs.repo.value)
      && (inputs.owner.value == "" ==> cfg.owner == ctx.owner)
      && (inputs.owner.value != "" ==> cfg.owner == inputs.owner.value)
      && (inputs.beforeSha.value == "" ==> cfg.beforeSha == ctx.before)
      && (inputs.beforeSha.value != "" ==> cfg.beforeSha == inputs.beforeSha.value)
      && (inputs.currentSha.value == "" ==> cfg.currentSha == ctx.after)
      && (inputs.currentSha.value != "" ==> cfg.currentSha == inputs.currentSha.value)
  {
  }

  /** A failed resolution carries the message of the first read, in source order, that threw. */
  lemma ResolveConfigFails(inputs: Inputs, ctx: Context)
    ensures inputs.githubToken.Err? ==>
      ResolveConfig(inputs, ctx) == Err(inputs.githubToken.message)
    ensures inputs.githubToken.Ok? && inputs.repo.Err? ==>
      ResolveConfig(inputs, ctx) == Err(inputs.repo.message)
    ensures inputs.githubToken.Ok? && inputs.repo.Ok? && inputs.owner.Err? ==>
      ResolveConfig(inputs, ctx) == Err(inputs.owner.message)
    ensures inputs.githubToken.Ok? && inputs.repo.Ok? && inputs.owner.Ok? && inputs.beforeSha.Err? ==>
      ResolveConfig(inputs, ctx) == Err(inputs.beforeSha.message)
    ensures inputs.githubToken.Ok? && inputs.repo.Ok? && inputs.owner.Ok? && inputs.beforeSha.Ok? &&
            inputs.currentSha.Err? ==>
      ResolveConfig(inputs, ctx) == Err(inputs.currentSha.message)
  {
  }
}
