# google-translate-cli, modelled in Dafny

A model of the command-line tool that translates the string values of a JSON
dictionary into one or more languages with Google Translate. Two parts are
modelled:

- **the dictionary-translation engine** (`translateDictionary`, module
  `Engine` in `engine.dfy`). It issues one provider call per key. It records
  each success in a scratch object under its own key. A failure is reported
  and leaves that key unset. When every call has settled, it rebuilds the
  result in the input's key order.
- **the argument handling of `main`** (module `Cli` in `cli.dfy`). It turns
  the four arguments and two filesystem facts into a plan: usage help, an
  abort with a message, or one job per output language. It then runs the
  engine once per job.

How the model represents the source:

- A JavaScript object is a `Dictionary<V>`: its own keys in insertion order,
  plus a map from keys to values. `Put` is `obj[k] = v`. `Get` is `obj[k]`,
  with `None` standing for `undefined`.
- The provider (`google-translate-api`) is an oracle `Translator` from a
  `Request(text, from, to)` to `Some(text)` or `None` (the promise rejected).
- The concurrent settling of the calls is a `completion` sequence. It lists
  every key exactly once, in any order, and is processed sequentially.
- `TranslateDictionary` is proved equal to `Translated`, a pure definition
  that never mentions `completion`. So the output is the same for every
  completion order.
- The filesystem facts are parameters. `inputExists` is the result of
  `fs.existsSync`. `PathKind` is what `fs.lstatSync` finds at the output
  path: nothing, a directory, or something else. `path.join` is an abstract
  `PathJoin` function.

## Model

| member | source | states |
|---|---|---|
| `Engine.Put` | app.js:23 | assigning a key keeps the object well formed (distinct keys); a new key is appended to the key order and an existing key keeps its place; the assigned key reads back its value and every other key is unchanged |
| `Engine.Dispatch` | app.js:17-21 | exactly one call per key, issued in the input's key order, on that key's own value, with `fromLanguage` and `toLanguage` passed through unchanged (the `auto` sentinel is not interpreted) |
| `Engine.Succeeded` | app.js:22-23 | the scratch object's keys are exactly the keys whose call succeeded; with a duplicate-free completion order each key is written at most once (the contract does not state their order: completion order comes from the definition) |
| `Engine.Failed` | app.js:24-25 | the warnings hold only failed requests, and the request of every key whose call failed is among them (the contract does not state their order: completion order comes from the definition) |
| `Engine.SettledOnce` | app.js:22-26 | each settled call either writes its key or reports exactly one warning: the writes and the warnings together number the calls |
| `Engine.Settle` | app.js:22-28 | after all calls settle, in any completion order, the scratch object holds each successful key's own translated text and leaves each failed key unset; the warnings are exactly one per failed call, in completion order (`Failed`) |
| `Engine.Rebuild` | app.js:30-34 | the output lists the input's keys in the input's order, each mapped to its scratch value, and equals the order-free reference result `Translated` |
| `Engine.TranslateDictionary` | app.js:15-37 | for every completion order, the output equals `Translated(dict, from, to, translate)`; one call per key in key order with the tags unchanged; the scratch object's insertion order follows completion; exactly one warning per failed call (`Failed`), and the call returns normally |
| `Engine.TranslatedOutcome` | app.js:30-34 | the output has exactly the input's keys in the input's order; a key maps to `Some(text)` when its call succeeded with that text and to `None` (undefined) when it failed; a key not in the input is absent |
| `Engine.FailureIsolation` | app.js:24-26 | making one request fail keeps every key, turns exactly the keys with that request into `None`, and leaves every other key's translation unchanged |
| `Engine.AllFail` | app.js:24-26 | when every call fails, the output still has every input key, each mapped to `None` |
| `Engine.TranslatedEmpty` | app.js:17 | an empty dictionary yields an empty output (and, by `TranslateDictionary`, no calls) |
| `Engine.TitleContentScenario` | app.js:15-37 | `{"Title": "Hello World", "Content": "A simple test."}`, from `en` to `fr`, with only the first value translating, gives `Title` its translation and `Content` undefined, in the order Title, Content |
| `Cli.Split` | app.js:88 | `split(",")` gives at least one piece; no piece holds a comma; joining the pieces with commas gives back the argument |
| `Cli.SplitJoin` | app.js:88 | splitting comma-free pieces joined by commas gives back exactly those pieces, in order |
| `Cli.Jobs` | app.js:111-117 | one job per output language, in list order; the target is `join(outputPath, lang + ".json")` for a directory and `outputPath` itself otherwise |
| `Cli.PlanAsWritten` | app.js:79-105 | as written, the program crashes exactly when the arguments pass the earlier checks and nothing exists at the output path, because `lstatSync` throws there; in every other case (help, the aborts, and the run whenever something exists at the output path) it plans exactly what `MakePlan` plans |
| `Cli.MakePlan` | app.js:79-117 | help exactly when there are not 4 arguments; a missing input file aborts; an empty language list aborts; several languages with a non-directory output path abort; otherwise the plan runs with the input file, `.` turned into `auto`, one job per comma-separated language in order, each with its target path; it never crashes |
| `Cli.MissingOutputFileCrashes` | app.js:101 | the usage text's own example `app en.json fr.json en fr`, run before `fr.json` exists, crashes as written and translates into `fr.json` once corrected |
| `Cli.DirectoryPlan` | app.js:88-117 | with an existing output directory, a comma-joined language list plans exactly those languages in order, each with its own file in the directory |
| `Cli.RunJobs` | app.js:111-127 | the jobs run in turn; job i saves, to its target file, the engine's result for its language, from the plan's source language passed on unchanged |
| `Cli.Execute` | app.js:79-127 | the plan is the corrected `MakePlan`; help and aborts save nothing; a run saves, for each of the plan's jobs in order, the engine's result for that language from the plan's source language to that job's target |

## Findings

| source | as written | input that shows it | evidently intended | confidence | as-written member | corrected member |
|---|---|---|---|---|---|---|
| app.js:101 | `fs.lstatSync(outputPath)` throws ENOENT when nothing exists at the output path. `main` is async and its promise is never handled, so the program stops with an unhandled rejection. | `app en.json fr.json en fr` with `en.json` present and `fr.json` not yet created (the first example of the usage text) | a missing output path is a file to create. It is not a directory, so a single language writes to it, and several languages abort with "Output directory not found" | high; not executed | `Cli.PlanAsWritten`, `Cli.MissingOutputFileCrashes` | `Cli.MakePlan` |

`Cli.Execute` plans with the corrected `Cli.MakePlan` and passes a run's source language and jobs to `Cli.RunJobs`.

## Left out

- The provider call itself (`google-translate-api`, app.js:3 and 19) is a network library. It is modelled as the `Translator` oracle. Its error detail is not modelled, and neither is the possibility that the same request gets different answers.
- Promise scheduling (`map` fan-out, `Promise.all`, app.js:17-28) is not modelled. Concurrency is a completion order processed sequentially. A call that never settles (the engine would hang) is outside the model.
- `Engine.Succeeded`: the contract states which keys are listed and that none repeats, not their order. Completion order comes from the definition.
- `Engine.Failed`: the contract states which requests are listed, not their order. Completion order comes from the definition.
- `Engine.Settle`: the warning's text (`console.warn`) is reduced to the failed request. The error detail is not kept.
- `Object.keys` ordering rules (integer-like keys first) are not modelled. The key order is a given duplicate-free sequence.
- Keys inherited from `Object.prototype` are not modelled. In the source, a failed key named `toString` would read an inherited function from the scratch object, not `undefined`. Worse, a key named `__proto__` (an own key after `JSON.parse`) is dropped from the output: the assignments at app.js:23 and app.js:33 only set the prototype. That is the one input where the source breaks "the output has the input's keys", which `Engine.TranslatedOutcome` proves for the model.
- Non-string dictionary values are not modelled. JSON may hold numbers or nested objects; the model takes values as strings.
- `loadDictionary` and `saveDictionary` (app.js:60-73) are file and JSON I/O. They are not part of the model. A save is the pair (file, dictionary). `JSON.stringify` dropping undefined values is not modelled.
- `path.join` platform semantics (app.js:114) are not modelled. `PathJoin` is abstract.
- `lstatSync` does not follow symbolic links, so a link to a directory counts as `NotDirectory`. Which kind a path has is a parameter.
- Console messages, the `help` text and language listing, the exit code (app.js:119-129, 135-190), and the `process.hrtime` timing (app.js:121-125) are not modelled.
- The commented-out sequential version (app.js:38-52) is not modelled.
