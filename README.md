# Configuration resolution of better-supabase-types

This project models the command-line entry point of better-supabase-types (`src/index.ts`), the
part that decides how the type generator is run. One run reads three competing configuration
sources and consults exactly one of them, first match wins:

1. `.betterrc.json`, when the file exists;
2. otherwise the `betterConfig` field of `package.json`, when it is truthy in the JavaScript sense;
3. otherwise the command-line flags.

A JSON source is checked against a strict object shape (`input` string, required; `output` string;
`force` boolean; `prettier` string, default `.prettierrc`; `schemas` array of strings, default
`["public"]`; no other key). A failing payload prints a fixed message ("Invalid config file" or
"Invalid config in package.json") and stops. The run never falls through to a later source. The
overwrite guard then refuses when no non-empty `output` is given and `force` is not `true`; the
JSON branches and the flag branch use different wordings. Otherwise the output falls back to
`input`. The flag branch also turns the parsed `--schemas` list (strings and numbers) into strings.
Finally `generate(input, output, prettier, schemas)` is called exactly once.

Modules:

- `Wrappers` (`wrappers.dfy`): `Option` and `Result`.
- `Json` (`json.dfy`): the parsed JSON value and JavaScript truthiness.
- `Decimal` (`decimal.dfy`): `Number.prototype.toString` on integers, with its reading partner.
- `Schema` (`schema.dfy`): the strict shape, its saved defaults, and an encoder that is its inverse.
- `OverwriteGuard` (`guard.dfy`): the guard and the output fallback.
- `Normalizer` (`normalizer.dfy`): the `reduce` over the schema list. It is a function
  `Normalized` plus a loop `Normalize` proved equal to it.
- `Resolver` (`resolver.dfy`): the source choice, the three branches, the top-level `Run` and the
  properties of a whole run.

Inputs that the program reads from disk, from `package.json` or from `process.argv` are given to
the model already parsed, in the record `Resolver.Env`. The call to `generate` and the printed
diagnostic are the two shapes of `Resolver.Outcome`. So a run makes at most one call, and it makes
one exactly when it does not fail.

The code accepts some payloads that one might expect it to refuse, and the model keeps them:

- `input` may be the empty string, because `z.string()` accepts it.
- `schemas` may be `[]` or contain `""` in a JSON source.
- A JSON source with `output: ""` and `force: true` writes to `input`.

## Model

| member | source | states |
|---|---|---|
| `Json.FalsyValues` | src/index.ts:46 | `Json.Truthy`, the JavaScript truthiness that decides whether the manifest field is used, is false exactly for null, false, 0 and "" |
| `Decimal.NatToDecimal` | src/index.ts:136 | the text of a natural number is non-empty, all digits, and starts with '0' only for zero |
| `Decimal.IntToDecimal` | src/index.ts:136 | the text of an integer starts with '-' exactly for negatives, followed by digits without a leading zero |
| `Decimal.NatDecimalRoundTrip` | src/index.ts:136 | reading the digits of a natural number back gives the number |
| `Decimal.IntDecimalRoundTrip` | src/index.ts:136 | reading the text of any integer back gives the integer |
| `Decimal.IntToDecimalInjective` | src/index.ts:136 | distinct numbers never get the same text |
| `Schema.Validate` | src/index.ts:15-31 | succeeds exactly when the payload conforms to the strict shape; on failure it gives exactly the branch's message; on success every given key is kept verbatim, absent optional keys stay absent, and absent `prettier` and `schemas` take their defaults |
| `Schema.Encode` | src/index.ts:15-23 | a configuration written out is an object holding only declared keys |
| `Schema.ValidateEncode` | src/index.ts:15-23 | every configuration written out conforms and reads back as itself |
| `Schema.ValidateMessageOnlyLabels` | src/index.ts:48-61 | the file and manifest checks accept the same payloads, with the same result; only the failure message differs |
| `Schema.ValidateRejects` | src/index.ts:15-31 | a non-object, a missing or non-string `input`, a non-string `output` or `prettier`, a non-boolean `force`, a `schemas` that is not an array of strings, or any undeclared key gives exactly the failure message |
| `OverwriteGuard.Guard` | src/index.ts:33-39 | proceeds exactly when a non-empty output is given or force is true, else fails with the given refusal; the output is the given one when non-empty, else the input |
| `OverwriteGuard.NoSilentOverwrite` | src/index.ts:33-39 | the input is chosen as the output only when forced or when it was named as the output |
| `OverwriteGuard.EmptyOutputIsAbsent` | src/index.ts:120-128 | an empty output behaves exactly like no output |
| `Normalizer.EntryString` | src/index.ts:132-137 | a string entry is kept verbatim; a numeric entry becomes its decimal text |
| `Normalizer.Normalized` | src/index.ts:130-139 | the list has the same length as the input, with each entry converted in place |
| `Normalizer.Normalize` | src/index.ts:131-139 | the accumulating loop yields, position by position, the converted entry |
| `Normalizer.NormalizedAppend` | src/index.ts:131-139 | normalizing a concatenation concatenates the normalized parts |
| `Normalizer.NormalizedStrings` | src/index.ts:132-134 | a list of strings only is passed through unchanged |
| `Normalizer.NormalizedKeepsNumbersApart` | src/index.ts:135-137 | two different numbers never collapse into one schema name |
| `Normalizer.NormalizedNumberReadsBack` | src/index.ts:135-137 | a converted number reads back as the number |
| `Normalizer.NormalizedMixedExample` | src/index.ts:130-139 | `["public", 2, "audit"]` becomes `["public", "2", "audit"]` |
| `Resolver.Select` | src/index.ts:14-76 | the file branch exactly when the file exists; the manifest branch exactly when there is no file and the field is truthy; the flag branch otherwise |
| `Resolver.Resolve` | src/index.ts:14-147 | a generation happens only when the chosen source gives a non-empty output or force true; without a given output it writes to the input; every failure carries the chosen branch's own shape or overwrite message |
| `Resolver.FileTakesPrecedence` | src/index.ts:14-46 | with the file present, the result depends on the file alone, valid or not; the manifest and the flags can be anything |
| `Resolver.ManifestBeforeFlags` | src/index.ts:46-76 | with no file and a truthy field, the result depends on the field alone |
| `Resolver.FlagsOtherwise` | src/index.ts:76-147 | with no file and no truthy field, the flags decide, and a falsy field is the same as none |
| `Resolver.ResolveConfig` | src/index.ts:29-45 | a JSON branch (also lines 59-75) fails with its shape message exactly on a non-conforming payload, fails with the config-file overwrite message when neither a non-empty output nor force true is given, and otherwise generates with the payload's input, its output or the input, and its prettier and schemas or their defaults |
| `Resolver.ResolveFlags` | src/index.ts:120-141 | the flag handler fails with the flag overwrite message when neither a non-empty output nor force true is given, and otherwise generates with the flags' input, output or input, prettier or ".prettierrc", and normalized schemas or ["public"] |
| `Resolver.DefaultsApply` | src/index.ts:20-21 | in all three branches (also lines 53-54, 102 and 114) a generation uses ".prettierrc" for an absent prettier and ["public"] for absent schemas |
| `Resolver.InvalidPayloadStops` | src/index.ts:29-61 | a payload failing the shape ends the run with "Invalid config file" or "Invalid config in package.json", by branch |
| `Resolver.Run` | src/index.ts:14-147 | the script's top level, building the schema list with the loop, gives the same outcome as `Resolve` |
| `Resolver.ForcedProjectFileExample` | src/index.ts:33-43 | `{"input":"types.ts","force":true}` generates `("types.ts", "types.ts", ".prettierrc", ["public"])` |
| `Resolver.FlagsExample` | src/index.ts:119-141 | `-i schema.ts -o out.ts -s auth -s public` generates `("schema.ts", "out.ts", ".prettierrc", ["auth", "public"])` |
| `Resolver.UnforcedProjectFileExample` | src/index.ts:33-36 | `{"input":"a.ts"}` fails with the config-file overwrite message |
| `Resolver.ExtraKeyExample` | src/index.ts:15-31 | `{"input":"a.ts","extra":true}` fails with "Invalid config file" |

## Left out

- Filesystem access (`fs.existsSync`, `fs.readFileSync`) and `JSON.parse` are not modelled. Their results are inputs of `Resolver.Env`. Malformed JSON, which throws uncaught, is not a modelled outcome. Neither is a missing `package.json`, or a `package.json` that is not an object.
- The argument parser is not modelled: tokenising, aliases, `requiresArg`, `.strict()` rejection of unknown flags and `.help()`. `.demandOption(['input'])` is not modelled either, since the parser stops a run without `input` before the handler. `Resolver.CliArgs` is the record the handler receives. Its `prettier` and `schemas` are optional so that the defaults of lines 102 and 114 are part of the model.
- zod's error objects are not modelled; only success or failure of the declared shape is.
- `generate` in `./generate` is not part of this model. A call to it is the `Generate` outcome carrying its four arguments.
- `console.log` versus `console.error`, and process exit, are not modelled; a failure keeps only its message.
- Decimal.IntToDecimal: integers only, without the exponent form JavaScript uses from 10^21 and without floating-point precision loss; non-integer JSON numbers and numeric list entries are not represented.
- Schema lists holding booleans or nested values on the command line are not represented; `Normalizer.StrOrInt` has strings and integers only.
