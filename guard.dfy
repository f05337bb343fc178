/** The overwrite guard and the output fallback shared by all three branches. */
module OverwriteGuard {
  import opened Wrappers

  /** The refusal used by the project-file and manifest branches. */
  const ConfigOverwriteMsg: string :=
    "It looks like you want to overwrite your input file. Add the force property to do that in your config file."
  /** The refusal used by the command-line branch. */
  const FlagOverwriteMsg: string :=
    "It looks like you want to overwrite your input file. Add the force flag to do that."

  /** JavaScript truthiness of an optional string: absent and "" are falsy. */
  predicate Given(output: Option<string>) {
    output.Some? && output.value != ""
  }

  /** JavaScript truthiness of an optional boolean: only `true` is truthy. */
  predicate Forced(force: Option<bool>) {
    force == Some(true)
  }

  /**
   * `!output && !force` refuses with `refusal`; otherwise the output is `output || input`.
   */
  function Guard(input: string, output: Option<string>, force: Option<bool>, refusal: string): (r: Result<string>)
    ensures r.Ok? <==> Given(output) || Forced(force)
    ensures r.Err? ==> r.msg == refusal
    ensures r.Ok? && !Given(output) ==> r.value == input
    ensures r.Ok? && Given(output) ==> r.value == output.value
  {
    if !Given(output) && !Forced(force) then Err(refusal)
    else Ok(if Given(output) then output.value else input)
  }

  /** The input path is chosen as the output only when forced or when it was asked for by name. */
  lemma NoSilentOverwrite(input: string, output: Option<string>, force: Option<bool>, refusal: string)
    ensures Guard(input, output, force, refusal) == Ok(input) ==> Forced(force) || output == Some(input)
  {
  }

  /** An empty output counts as no output at all. */
  lemma EmptyOutputIsAbsent(input: string, force: Option<bool>, refusal: string)
    ensures Guard(input, Some(""), force, refusal) == Guard(input, None, force, refusal)
  {
  }
}
