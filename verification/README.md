# qmd collection setup, modelled in Dafny

`context-manager/scripts/qmd_setup.py` keeps one named qmd collection in sync
with a `.context` directory. It does this by running the external `qmd`
executable in a fixed order. First it looks `qmd` up on PATH. Then it runs
`qmd list` to see whether the collection exists. After that it either
refreshes the collection (`update`, `embed`) or creates it (`init`,
`update`, `embed`, `status`).

This project models the controller's decisions as pure functions:

- which calls it makes, in which order;
- what each call's result means;
- what `setup` returns;
- what exit code `main` ends with.

Every external effect is an input: a `QmdSetup.World`, plus the resolved
path and whether it exists, for construction. The `World` holds:

- whether `qmd` is on PATH;
- one `Outcome` per subprocess call: it exited with a code and stdout, it
  timed out, or it raised;
- the JSON decoder, as a function from text to an optional decoded value.

A run is the sequence of calls made (`Which | List | Init | Update | Embed | Status`)
together with how `setup` ended: it returned a boolean, or an exception
escaped it.

Modules:

- `Base`: `Option` and `Result`.
- `Json`: decoded JSON values and Python truthiness.
- `Text`: Python's `needle in hay` on strings. It is proved equal to a
  declarative substring definition.
- `QmdSetup`: the `QmdSetup` class. This covers construction, commands, the
  five step wrappers and `setup`, with scenario lemmas.
- `StepTable`: a second, table-driven definition of `setup`. It has two
  fixed plans of steps, and each step either proceeds, aborts or crashes.
  `SetupFollowsTable` proves that it agrees with `QmdSetup.Setup` on every
  input.
- `Cli`: `main`. This covers construction errors, the `--status` branch and
  the exit codes.

Behaviours of the code worth knowing, modelled as written:

- Refresh path: `setup` throws away the update and embed results and
  returns `True` (lines 166-169), so a failed embed does not fail this
  path. `QmdSetup.RefreshPathNeverCreates` and
  `QmdSetup.RefreshIgnoresEmbedOutcome` state this.
- Status on the create path: a truthy status that is not a dict makes
  `status.get` raise (lines 184-188; see Findings).
- Empty collection name: `collection or DEFAULT_COLLECTION` (line 24) turns
  `""` into `"context"`, just like a missing name.

## Model

| member | source | states |
|---|---|---|
| QmdSetup.New | context-manager/scripts/qmd_setup.py:20-27 | Construction succeeds exactly when the directory exists. It keeps the resolved path. The collection name is never empty: an absent or empty name becomes "context", and any other name is kept. A missing directory gives ContextDirNotFound with the path as given. |
| QmdSetup.Command | context-manager/scripts/qmd_setup.py:37-132 | The PATH lookup runs no process. Every other call runs `qmd` with its own verb (list, init, update, embed, status) and a positive timeout. List takes no further arguments. Every call except list is scoped with `--collection <name>`. Only init receives `--source <dir>`, together with the `**/*.md` pattern. Status ends with `--json`. |
| QmdSetup.CollectionExists | context-manager/scripts/qmd_setup.py:34-45 | True exactly when list produced stdout that contains the collection name as a substring. The exit code is ignored. A timeout or an exception gives false. |
| QmdSetup.CreateCollection | context-manager/scripts/qmd_setup.py:47-75 | True exactly when init exited with code 0. A non-zero exit, a timeout or an exception gives false. |
| QmdSetup.UpdateCollection | context-manager/scripts/qmd_setup.py:77-96 | True for every outcome: zero exit, non-zero exit, timeout and exception. |
| QmdSetup.EmbedDocuments | context-manager/scripts/qmd_setup.py:98-122 | True exactly when embed exited with code 0. |
| QmdSetup.GetStatus | context-manager/scripts/qmd_setup.py:124-139 | Returns a value exactly when status exited with 0 and its stdout decodes, and then the value is the decoded stdout. A non-zero exit, an undecodable stdout, a timeout or an exception all give None. |
| QmdSetup.WrappersFollowPolicy | context-manager/scripts/qmd_setup.py:47-122 | Init, update and embed each report success exactly when the tool exited with 0 or the step is not fatal on failure. Init and embed are fatal; update is not. |
| QmdSetup.Setup | context-manager/scripts/qmd_setup.py:141-193 | Calls follow the fixed order and each is made at most once. The trace is a prefix of lookup, list, init, update, embed, status, or it is exactly the refresh sequence. The trace is the lookup alone exactly when qmd is missing. Init is called exactly when qmd is present and either force is set or the collection looks absent. A false result ends the trace at a failed lookup, a failed init or a failed embed. Status is asked only after init and embed succeeded. An exception escapes exactly when the status report is truthy and not a dict. |
| QmdSetup.ToolMissingFailsAtOnce | context-manager/scripts/qmd_setup.py:154-159 | Without qmd on PATH, setup returns false after the lookup alone. |
| QmdSetup.RefreshPathNeverCreates | context-manager/scripts/qmd_setup.py:161-169 | If the collection exists and force is off, the trace is exactly lookup, list, update, embed. Init never runs, and setup returns true. |
| QmdSetup.RefreshIgnoresEmbedOutcome | context-manager/scripts/qmd_setup.py:166-169 | On the refresh path, changing the embed outcome changes nothing about the run. |
| QmdSetup.CreatePathStartsWithInit | context-manager/scripts/qmd_setup.py:161-173 | If force is set or the collection is absent, init comes straight after list. If init fails, setup returns false and nothing else runs. |
| QmdSetup.StatusOutcomeBestEffort | context-manager/scripts/qmd_setup.py:124-139 | For every status outcome and decoder, setup makes the same calls, and it returns false exactly when it did before. Status never makes setup return false. A truthy status that is not a dict can still make it crash (see Findings); when neither status report crashes, the whole run is unchanged. |
| QmdSetup.ConstructedNameNotInEmptyListing | context-manager/scripts/qmd_setup.py:22-45 | With an existing directory, construction succeeds, and the resulting collection is never found in an empty listing, whatever name (or none) was given. |
| QmdSetup.UpdateOutcomeIrrelevant | context-manager/scripts/qmd_setup.py:166-177 | For every world and force flag, replacing the update outcome leaves the whole run unchanged. |
| QmdSetup.NoRunEndsAtUpdate | context-manager/scripts/qmd_setup.py:175-177 | No run ever stops at update, so the update check in setup is dead code. |
| QmdSetup.CreatePathEmbedFailureIsFatal | context-manager/scripts/qmd_setup.py:179-181 | On the create path, after a successful init, a failed embed makes setup return false. Status is not asked. |
| QmdSetup.CreatePathSucceeds | context-manager/scripts/qmd_setup.py:183-193 | On the create path, when init and embed succeed, the trace ends with exactly one status call. Setup returns true unless the status report raises. |
| QmdSetup.TruthyNonObjectStatusCrashesSetup | context-manager/scripts/qmd_setup.py:184-188 | As written, after a successful init and embed, setup crashes when the status decodes to a truthy value that is not a dict: a non-empty list, `true`, a non-zero number or a non-empty string. |
| QmdSetup.SetupGuarded | context-manager/scripts/qmd_setup.py:183-193 | The corrected setup never crashes and makes the same calls as the original. Whenever the original does not crash, the corrected setup returns the same result. Once status is asked, it returns true. |
| QmdSetup.GuardedCreatePathSucceeds | context-manager/scripts/qmd_setup.py:183-193 | With the guard, successful init and embed give the full create trace and true, whatever status yields. |
| Text.Contains | context-manager/scripts/qmd_setup.py:43 | Python's `name in stdout` is true exactly when the name occurs at some index of stdout. |
| Text.EmptyNeedleAlwaysFound | context-manager/scripts/qmd_setup.py:43 | The empty string is in every stdout. This is why the never-empty collection name matters. |
| Text.PartOfLongerNameFound | context-manager/scripts/qmd_setup.py:43 | A name that is only part of a longer listed name still counts as existing. The existence check can report a false positive. |
| StepTable.Drive | context-manager/scripts/qmd_setup.py:171-193 | Running a plan yields a prefix of the plan's calls. It succeeds exactly when every step proceeds, and then it makes every call. Otherwise it stops at the first step that aborts or crashes. |
| StepTable.RefreshPlanAlwaysProceeds | context-manager/scripts/qmd_setup.py:166-169 | The refresh plan always runs update and embed and succeeds. |
| StepTable.CreatePlanRun | context-manager/scripts/qmd_setup.py:171-193 | The create plan stops at a failed init or a failed embed. Otherwise it reaches the status report. |
| StepTable.SetupFollowsTable | context-manager/scripts/qmd_setup.py:141-193 | For every input, setup's nested conditionals produce the same run as the table-driven plans. |
| Cli.StatusOnly | context-manager/scripts/qmd_setup.py:226-241 | Status mode exits with 0 exactly when qmd is present, the collection is listed and the status is truthy. Otherwise it exits with 1. It only looks up, lists and asks status, and it asks status exactly when the collection is listed. |
| Cli.Main | context-manager/scripts/qmd_setup.py:221-251 | The exit code is 0 or 1. A missing directory exits with 1 before any call. Setup mode makes setup's calls and exits with 0 exactly when setup returned true. Status mode behaves exactly like the status branch on the constructed controller, and it never creates, updates or embeds. |
| Cli.MissingDirExitsBeforeAnyCall | context-manager/scripts/qmd_setup.py:223-248 | A missing context directory exits with 1 with an empty trace, in both modes. |
| Cli.StatusModeFailures | context-manager/scripts/qmd_setup.py:226-241 | In status mode, each of these exits with 1: an unavailable tool (after the lookup alone), an unlisted collection (after lookup and list), or a falsy or absent status. |
| Cli.ToolMissingExitsOne | context-manager/scripts/qmd_setup.py:226-244 | In both modes, a missing qmd makes main exit with 1 after the lookup alone. |
| Cli.StatusModeAgreesWithSetup | context-manager/scripts/qmd_setup.py:226-236 | Status mode stops after the lookup exactly when setup does. It asks for status exactly when setup without force takes the refresh path. |
| Cli.CrashedSetupExitsOne | context-manager/scripts/qmd_setup.py:243-251 | If the status report raises inside setup, the top-level handler turns it into exit code 1, after the full create trace. |

## Left out

- The real `subprocess.run`, `shutil.which` and wall-clock timeouts are not modelled. They are foreign I/O, so each call's outcome is an input, and a timeout is one more failure variant.
- `json.loads` is not modelled. It is a decoder function passed in, and only its result matters. NaN and Infinity literals and the distinction between int and float are not modelled, because numbers are reals.
- `Path.resolve()` and the existence test are inputs to construction. Exceptions that `resolve` itself might raise are not modelled.
- Printed output is not modelled: messages, emoji, stderr text, installation guidance, and the pretty-printed status JSON. It is presentation only.
- argparse parsing errors (exit code 2 and usage text) are not modelled. The model starts from parsed arguments.
- Exceptions from printing (for example, a console that cannot encode emoji) are not modelled. The only exception modelled inside setup is the status report's `.get` on a non-dict.
- QmdSetup.GetStatus: a stdout of `null` decodes to `Some(JNull)`, while Python's `get_status` returns `None` for it. Both are falsy and every caller only tests truthiness, so behaviour is the same. "Returns a value" in its row therefore includes a decoded JSON null.
- QmdSetup.Command: the contract only says each timeout is positive. The definition carries the exact values (10, 30, 60, 300 and 10 seconds), but wall-clock time is not modelled.

## Findings

| source | as written | input that shows it | evidently intended | confidence | as-written member | corrected member |
|---|---|---|---|---|---|---|
| context-manager/scripts/qmd_setup.py:184-188 | After a successful create, any truthy decoded status goes through `if status:` and then `status.get(...)`. Only a dict has `.get`. | `qmd init`, `qmd embed` and `qmd status` all exit with 0, and status prints `[1]` (or `true`, `5`, `"ok"`). `.get` raises AttributeError, and `main` exits with 1 although the collection was created and embedded. | Status reporting is best-effort, so setup returns True once init and embed succeeded. | medium; not executed | QmdSetup.TruthyNonObjectStatusCrashesSetup | QmdSetup.SetupGuarded |

`Cli.Main` models the program as it is, so it calls the as-written
`QmdSetup.Setup`. `QmdSetup.SetupGuarded` is the corrected definition.
`QmdSetup.GuardedCreatePathSucceeds` proves the intended property about it.
