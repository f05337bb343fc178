/**
 * The top level of the command: choose exactly one configuration source (project file, then the
 * manifest's `betterConfig` field, then the command-line flags), check it, apply defaults, run the
 * overwrite guard and decide whether `generate` is called and with which four arguments.
 */
module Resolver {
  import opened Wrappers
  import opened Json
  import opened Schema
  import opened OverwriteGuard
  import opened Normalizer

  const InvalidFileMsg: string := "Invalid config file"
  const InvalidManifestMsg: string := "Invalid config in package.json"

  /** The flag parser's default for `--schemas`. */
  const DefaultFlagSchemas: seq<StrOrInt> := [Str("public")]

  /** The flags as the argument parser hands them to the handler; `input` is demanded by the parser. */
  datatype CliArgs = CliArgs(
    input: string,
    output: Option<string>,
    force: Option<bool>,
    prettier: Option<string>,
    schemas: Option<seq<StrOrInt>>)

  /**
   * What one run reads at start-up: the parsed `.betterrc.json` if the file exists, the
   * manifest's `betterConfig` field if it has one, and the parsed flags.
   */
  datatype Env = Env(rcFile: Option<Json>, betterConfig: Option<Json>, cli: CliArgs)

  /** The one source a run consults. */
  datatype Source = ProjectFile(raw: Json) | Manifest(raw: Json) | Flags(args: CliArgs)

  /** Either one call `generate(input, output, prettier, schemas)` or one diagnostic line and no call. */
  datatype Outcome =
    | Generate(input: string, output: string, prettier: string, schemas: seq<string>)
    | Fail(msg: string)

  /** The branch choice: the file when it exists, else a truthy manifest field, else the flags. */
  function Select(env: Env): (s: Source)
    ensures s.ProjectFile? <==> env.rcFile.Some?
    ensures s.Manifest? <==> env.rcFile.None? && env.betterConfig.Some? && Truthy(env.betterConfig.value)
    ensures s.ProjectFile? ==> s.raw == env.rcFile.value
    ensures s.Manifest? ==> s.raw == env.betterConfig.value
    ensures s.Flags? ==> s.args == env.cli
  {
    if env.rcFile.Some? then ProjectFile(env.rcFile.value)
    else if env.betterConfig.Some? && Truthy(env.betterConfig.value) then Manifest(env.betterConfig.value)
    else Flags(env.cli)
  }

  /**
   * A file or manifest branch: check the shape, guard, fall back, call. It fails with the
   * shape message exactly on a non-conforming payload, with the config-file refusal when the
   * payload gives neither a non-empty output nor force true, and otherwise generates from the
   * payload's own fields and the defaults.
   */
  function ResolveConfig(raw: Json, invalid: string): (o: Outcome)
    ensures !Conforms(raw) ==> o == Fail(invalid)
    ensures Conforms(raw) && !JsonAsksForOutput(raw) && !JsonAsksForForce(raw) ==> o == Fail(ConfigOverwriteMsg)
    ensures Conforms(raw) && (JsonAsksForOutput(raw) || JsonAsksForForce(raw)) ==>
      var f := raw.fields;
      && o.Generate?
      && JStr(o.input) == f["input"]
      && o.output == (if JsonAsksForOutput(raw) then f["output"].s else o.input)
      && o.prettier == (if "prettier" in f then f["prettier"].s else DefaultPrettier)
      && o.schemas == (if "schemas" in f then StringsOf(f["schemas"].items) else DefaultSchemas)
  {
    match Validate(raw, invalid)
    case Err(m) => Fail(m)
    case Ok(c) =>
      match Guard(c.input, c.output, c.force, ConfigOverwriteMsg)
      case Err(m) => Fail(m)
      case Ok(out) => Generate(c.input, out, c.prettier, c.schemas)
  }

  /**
   * The command-line handler: guard, fall back, normalize the schema list, call. It fails with
   * the flag refusal when neither a non-empty output nor force true is given, and otherwise
   * generates from the flags and the parser's defaults.
   */
  function ResolveFlags(a: CliArgs): (o: Outcome)
    ensures !Given(a.output) && !Forced(a.force) ==> o == Fail(FlagOverwriteMsg)
    ensures Given(a.output) || Forced(a.force) ==>
      && o.Generate?
      && o.input == a.input
      && o.output == (if Given(a.output) then a.output.value else a.input)
      && (a.prettier.None? ==> o.prettier == DefaultPrettier)
      && (a.prettier.Some? ==> o.prettier == a.prettier.value)
      && (a.schemas.None? ==> o.schemas == DefaultSchemas)
      && (a.schemas.Some? ==> o.schemas == Normalized(a.schemas.value))
  {
    match Guard(a.input, a.output, a.force, FlagOverwriteMsg)
    case Err(m) => Fail(m)
    case Ok(out) => Generate(a.input, out, a.prettier.GetOr(DefaultPrettier), Normalized(a.schemas.GetOr(DefaultFlagSchemas)))
  }

  /** The raw `output` of a JSON source is a non-empty string. */
  predicate JsonAsksForOutput(raw: Json) {
    raw.JObj? && "output" in raw.fields && raw.fields["output"].JStr? && raw.fields["output"].s != ""
  }

  /** The selected source gives a non-empty output path. */
  predicate AsksForOutput(src: Source) {
    match src
    case ProjectFile(raw) => JsonAsksForOutput(raw)
    case Manifest(raw) => JsonAsksForOutput(raw)
    case Flags(a) => Given(a.output)
  }

  /** The raw `force` of a JSON source is true. */
  predicate JsonAsksForForce(raw: Json) {
    raw.JObj? && "force" in raw.fields && raw.fields["force"] == JBool(true)
  }

  /** The selected source sets `force` to true. */
  predicate AsksForForce(src: Source) {
    match src
    case ProjectFile(raw) => JsonAsksForForce(raw)
    case Manifest(raw) => JsonAsksForForce(raw)
    case Flags(a) => Forced(a.force)
  }

  /** The message the branch prints when its payload fails the shape (the flags have none). */
  function InvalidMsgOf(src: Source): (m: string) {
    if src.ProjectFile? then InvalidFileMsg else InvalidManifestMsg
  }

  /** The refusal the branch prints when the guard blocks. */
  function OverwriteMsgOf(src: Source): (m: string) {
    if src.Flags? then FlagOverwriteMsg else ConfigOverwriteMsg
  }

  /** One run of the resolver. */
  function Resolve(env: Env): (o: Outcome)
    // the destructive default is never taken silently
    ensures o.Generate? ==> AsksForOutput(Select(env)) || AsksForForce(Select(env))
    ensures o.Generate? && !AsksForOutput(Select(env)) ==> o.output == o.input
    // a failure is the branch's own shape message or its own overwrite message, and nothing else
    ensures o.Fail? ==> o.msg == OverwriteMsgOf(Select(env)) || (!Select(env).Flags? && o.msg == InvalidMsgOf(Select(env)))
  {
    match Select(env)
    case ProjectFile(raw) => ResolveConfig(raw, InvalidFileMsg)
    case Manifest(raw) => ResolveConfig(raw, InvalidManifestMsg)
    case Flags(a) => ResolveFlags(a)
  }

  /** When `.betterrc.json` exists, only its contents matter, whether or not they pass the check. */
  lemma FileTakesPrecedence(env: Env, betterConfig: Option<Json>, cli: CliArgs)
    requires env.rcFile.Some?
    ensures Resolve(env) == ResolveConfig(env.rcFile.value, InvalidFileMsg)
    ensures Resolve(env) == Resolve(Env(env.rcFile, betterConfig, cli))
  {
  }

  /** With no project file and a truthy manifest field, the flags are never consulted. */
  lemma ManifestBeforeFlags(env: Env, cli: CliArgs)
    requires env.rcFile.None? && env.betterConfig.Some? && Truthy(env.betterConfig.value)
    ensures Resolve(env) == ResolveConfig(env.betterConfig.value, InvalidManifestMsg)
    ensures Resolve(env) == Resolve(env.(cli := cli))
  {
  }

  /** With no project file and no truthy manifest field, the flags decide, and a falsy field counts as no field. */
  lemma FlagsOtherwise(env: Env)
    requires env.rcFile.None? && !(env.betterConfig.Some? && Truthy(env.betterConfig.value))
    ensures Resolve(env) == ResolveFlags(env.cli)
    ensures Resolve(env) == Resolve(env.(betterConfig := None))
  {
  }

  /** On success an absent `prettier` becomes ".prettierrc" and an absent schema list ["public"], whichever source was used. */
  lemma DefaultsApply(env: Env)
    ensures
      var o, src := Resolve(env), Select(env);
      o.Generate? ==>
        && (!src.Flags? && "prettier" !in src.raw.fields ==> o.prettier == DefaultPrettier)
        && (!src.Flags? && "schemas" !in src.raw.fields ==> o.schemas == DefaultSchemas)
        && (src.Flags? && src.args.prettier.None? ==> o.prettier == DefaultPrettier)
        && (src.Flags? && src.args.schemas.None? ==> o.schemas == DefaultSchemas)
  {
  }

  /** A payload that fails the shape stops the run with its branch's message, never falling through. */
  lemma InvalidPayloadStops(env: Env)
    requires !Select(env).Flags? && !Conforms(Select(env).raw)
    ensures Resolve(env) == Fail(InvalidMsgOf(Select(env)))
  {
  }

  /**
   * The script's top level as it runs: the same branches, with the schema list of the
   * command-line branch built by the accumulating loop.
   */
  method Run(env: Env) returns (o: Outcome)
    ensures o == Resolve(env)
  {
    if env.rcFile.Some? {
      o := ResolveConfig(env.rcFile.value, InvalidFileMsg);
    } else if env.betterConfig.Some? && Truthy(env.betterConfig.value) {
      o := ResolveConfig(env.betterConfig.value, InvalidManifestMsg);
    } else {
      var argv := env.cli;
      if !Given(argv.output) && !Forced(argv.force) {
        return Fail(FlagOverwriteMsg);
      }
      var output := if Given(argv.output) then argv.output.value else argv.input;
      var prettier := argv.prettier.GetOr(DefaultPrettier);
      var schemaArgs := argv.schemas.GetOr(DefaultFlagSchemas);
      var schemas := Normalize(schemaArgs);
      assert schemas == Normalized(schemaArgs);
      o := Generate(argv.input, output, prettier, schemas);
    }
  }

  /** A project file `{"input":"types.ts","force":true}` generates in place with both defaults. */
  lemma ForcedProjectFileExample(betterConfig: Option<Json>, cli: CliArgs)
    ensures Resolve(Env(Some(JObj(map["input" := JStr("types.ts"), "force" := JBool(true)])), betterConfig, cli))
      == Generate("types.ts", "types.ts", ".prettierrc", ["public"])
  {
  }

  /** The flags `-i schema.ts -o out.ts -s auth -s public` generate `out.ts` from both schemas in that order. */
  lemma FlagsExample()
    ensures Resolve(Env(None, None, CliArgs("schema.ts", Some("out.ts"), None, None, Some([Str("auth"), Str("public")]))))
      == Generate("schema.ts", "out.ts", ".prettierrc", ["auth", "public"])
  {
  }

  /** A project file `{"input":"a.ts"}` is refused with the config-file wording of the overwrite message. */
  lemma UnforcedProjectFileExample(betterConfig: Option<Json>, cli: CliArgs)
    ensures Resolve(Env(Some(JObj(map["input" := JStr("a.ts")])), betterConfig, cli)) == Fail(ConfigOverwriteMsg)
  {
  }

  /** A project file with an undeclared key is refused whatever its other fields are. */
  lemma ExtraKeyExample(betterConfig: Option<Json>, cli: CliArgs)
    ensures Resolve(Env(Some(JObj(map["input" := JStr("a.ts"), "extra" := JBool(true)])), betterConfig, cli))
      == Fail(InvalidFileMsg)
  {
    var raw := JObj(map["input" := JStr("a.ts"), "extra" := JBool(true)]);
    assert !FieldConforms("extra", raw.fields["extra"]);
  }
}
