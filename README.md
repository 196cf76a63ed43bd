# devvy launcher — a Dafny model

devvy is a small interactive launcher for development tools. It looks at a
project directory, decides which toolchain the project uses (rye for Python,
cargo for Rust, bunx/astro for Astro, nix for Nix), and then shows a numbered
menu. Each menu choice runs the matching external command in the project
directory, sometimes after asking the user for packages, a flake URL or a
confirmation.

This project models two pieces of that program and proves properties of them:

- **Project classification** (`ProjectDetector`). A directory is the finite
  set of its entry names. `Detect` is the first-match-wins chain over
  `pyproject.toml`, `Cargo.toml`, `astro.config.mjs`, and finally any name
  ending in `.nix` or the exact name `.flake`.
- **The interactive session** (`EnvironmentManager`), in two layers:
  - Functions state what one menu choice does. This covers the static menu
    tables, the range check, exit, the "init" confirmation gate, dispatch to
    the per-type handler, the argument vectors each handler builds, and the
    "press Enter" pause. `Interact` folds those steps over a whole session.
  - The class `Session` implements them imperatively. It has a `cwd` field
    for the process working directory and a `log` of every external
    invocation together with the directory it ran in. It also holds the
    answers the terminal still has to deliver.
  - Each handler method, `HandleChoice` and `StartInteractive` is proved
    equal to its specification function. `StartInteractive` also proves that
    the working directory is the project directory while commands run, and is
    restored on every way out.
- **Python string behaviour** (`Text`). These are the string operations the
  launcher relies on:
  - `str.split()` with no separator: it recovers the tokens from any typing
    of them with whitespace runs between and around them, and keeps every
    non-whitespace character;
  - `str.lower() == "y"`, shown to accept exactly "y" and "Y";
  - `str.endswith`.
- **`Optional`**. This holds the `Option` type used for Python's `None`.

How the terminal is modelled:
- Menu input is a script of `Option<int>`. `None` is a prompt that click
  aborted; the loop catches it.
- Every other prompt, the pause included, reads from a script of
  `Option<string>`. `None` is a read that was cut short, and reading past the
  end of the script is one too.
- Each "nix develop" looks for `flake.nix` in the project directory at that
  moment. The answers come from a third script of booleans, so the file may
  appear or disappear between choices, for example after `nix flake init` in
  the terminal that "nix shell" opens.
- A cut-short click prompt raises `click.Abort`, which the loop catches. A
  cut-short pause (`input()`) raises EOFError or KeyboardInterrupt. The loop
  does not catch those, so they end the session, but the working directory is
  still restored.
- Starting a program whose arguments hold a NUL character raises `ValueError`
  before anything starts. The loop catches it like an aborted prompt: the
  handler stops there and the pause is skipped. An answer can only bring a
  NUL into the arguments of the commands that pass it on; for cargo add and
  remove, the tokens before the first one holding a NUL have already run.

Two behaviours of the code are kept as written:
- The "nixos-rebuild" entry is drawn in the warning colour, but it is not
  confirmation-gated; only the command type "init" is.
- The Nix handler has no branch for "rebuild", so choosing it runs nothing and
  still pauses (`RebuildRunsNothing`).

## Model

| member | source | states |
|---|---|---|
| ProjectDetector.Detect | src/devvy/project_detector.py:17-27 | A returned type has its marker present and no marker of a higher-priority type is present; the result is `None` exactly when no marker of any type is present |
| ProjectDetector.DetectIsHighestPriority | src/devvy/project_detector.py:17-27 | `Detect` returns `t` if and only if `t`'s marker is present and no higher-ranked marker is, so the priority order fixes the result |
| ProjectDetector.DetectRules | src/devvy/project_detector.py:19-26 | `pyproject.toml` gives Python whatever else is present; `Cargo.toml` without it gives Rust; `astro.config.mjs` without both gives Astro; with none of the three, the result is Nix iff some name ends in ".nix" or equals ".flake" |
| ProjectDetector.DetectNoneIff | src/devvy/project_detector.py:27 | The result is `None` iff no entry name is a marker of any kind |
| ProjectDetector.DetectIgnoresOtherEntries | src/devvy/project_detector.py:17-27 | Adding an entry that is no marker never changes the classification |
| ProjectDetector.DetectExamples | src/devvy/project_detector.py:19-26 | Cargo.toml alone is Rust; pyproject.toml beats Cargo.toml; flake.nix is Nix; an empty directory is no project |
| Text.EndsWithIff | src/devvy/project_detector.py:25 | `EndsWith(s, suffix)` holds exactly when `s` is some string followed by `suffix` |
| Text.IsSpace | src/devvy/environment_manager.py:134 | The characters `str.split()` splits on: exactly those for which Python's `str.isspace()` holds (ASCII tab to carriage return, the file/group/record/unit separators, space, and the Unicode space characters) |
| Text.Split | src/devvy/environment_manager.py:134 | Every token of `str.split()` is non-empty and holds no whitespace |
| Text.SplitSkipsSpace | src/devvy/environment_manager.py:134 | Leading whitespace of any kind and length does not change the split |
| Text.SplitSpaced | src/devvy/environment_manager.py:134 | Tokens typed with any non-empty whitespace runs between them and any whitespace before and after split back into exactly those tokens, in order |
| Text.SplitEmptyIff | src/devvy/environment_manager.py:149 | The split of an answer is empty iff the answer is all whitespace, so a blank answer adds no crate |
| Text.SplitKeeps | src/devvy/environment_manager.py:134 | A non-whitespace character occurs in some token iff it occurs in the answer |
| Text.Lower | src/devvy/environment_manager.py:107-113 | The result has the argument's length and each character is that character lower-cased |
| Text.Affirmative | src/devvy/environment_manager.py:107-113 | An answer is taken as "yes" iff its lower-case form is "y" |
| Text.AffirmativeIff | src/devvy/environment_manager.py:107-113 | An answer whose lower-case form is "y" is exactly "y" or "Y"; every other answer, the empty one included, is a "no" |
| EnvironmentManager.MenuOptions | src/devvy/environment_manager.py:57-94 | The tables have 5, 7, 5 and 6 entries, end with ("exit", exit) and have no other exit entry |
| EnvironmentManager.OptionStyle | src/devvy/environment_manager.py:47-52 | A name is drawn in the warning colour iff it ends in "init" or is "nixos-rebuild", and in the success colour iff it is "exit" |
| EnvironmentManager.OptionStyleByCommand | src/devvy/environment_manager.py:46-52 | In every table the warning colour marks exactly the init and rebuild entries and the success colour exactly the exit entry |
| EnvironmentManager.Launchable | src/devvy/environment_manager.py:134 | `subprocess.run` starts an argument vector iff no argument holds a NUL character; otherwise it raises `ValueError` before anything starts |
| EnvironmentManager.Launch | src/devvy/environment_manager.py:140 | A handler's last `subprocess.run`: a startable vector is issued and the handler returns normally; any other issues nothing and the handler raises the `ValueError` that line 32 catches |
| EnvironmentManager.Refused | src/devvy/environment_manager.py:133-134 | An answer ends its handler with an exception iff the prompt was cut short (`click.Abort`) or the answer holds a NUL (`ValueError` when it is passed on) |
| EnvironmentManager.LaunchableSplit | src/devvy/environment_manager.py:134 | A fixed command followed by the tokens of an answer can be started iff the answer holds no NUL character |
| EnvironmentManager.FirstNul | src/devvy/environment_manager.py:149-150 | The count of tokens before the first one holding a NUL: all of those are NUL-free, and the token at that index holds one |
| EnvironmentManager.EachToken | src/devvy/environment_manager.py:149-154 | One `[tool, op, token]` invocation per token, in token order |
| EnvironmentManager.EachTokenUntilNul | src/devvy/environment_manager.py:149-154 | The loop runs `[tool, op, token]` for the tokens in order, all of them when the answer holds no NUL and otherwise those before the first token holding one, and raises iff the answer holds a NUL |
| EnvironmentManager.PythonCommand | src/devvy/environment_manager.py:129-142 | At most one rye invocation; only add and remove read an answer; the handler raises iff add or remove gets a cut-short or NUL-holding answer, and then runs nothing. The vector of each branch is stated in `PythonAddRemove`, `RyeSync` and `InitIsGated` |
| EnvironmentManager.RustCommand | src/devvy/environment_manager.py:144-173 | Every invocation is of cargo; add, remove and build read one answer; it raises iff add or remove gets a cut-short or NUL-holding answer, or build a cut-short one. The vectors of each branch are stated in `RustAddRemove`, `CargoRunCheck`, `RustBuildRelease` and `InitIsGated` |
| EnvironmentManager.AstroCommand | src/devvy/environment_manager.py:175-186 | At most one bunx invocation; only add reads an answer, and it raises iff that answer is cut short or holds a NUL, running nothing |
| EnvironmentManager.ShellCommand | src/devvy/environment_manager.py:193-195 | The command starts `nix shell`; it has more iff the answer is non-empty, and then "-p" and the answer's tokens follow (a whitespace-only answer gives "-p" and no package); it can be started iff the answer holds no NUL |
| EnvironmentManager.DevelopCommand | src/devvy/environment_manager.py:203-205 | The command starts `nix develop`; it has a third argument iff the answer is non-empty, and that argument is the answer itself, unsplit |
| EnvironmentManager.NixCommand | src/devvy/environment_manager.py:188-214 | At most one invocation, of alacritty or nix; shell, build, run and (with flake.nix) develop read one answer, and the handler raises iff that answer is cut short or holds a NUL, running nothing. The vector of each branch is stated in `NixShell`, `NixDevelop`, `NixBuildRun` and `RebuildRunsNothing` |
| EnvironmentManager.Dispatch | src/devvy/environment_manager.py:117-124 | Whatever the project type, the handler reads at most one answer, and it raises only when that answer is cut short or holds a NUL |
| EnvironmentManager.Finish | src/devvy/environment_manager.py:124-127 | The pause comes iff the handler returned normally; it reads one answer and a cut-short read there escapes; the invocations are the handler's |
| EnvironmentManager.Choose | src/devvy/environment_manager.py:96-127 | Leaving reads, runs and pauses nothing; a pause happens only on a choice that goes on or escapes; an escape is always a pause |
| EnvironmentManager.ChoiceOutOfRange | src/devvy/environment_manager.py:99-127 | A number outside 1..len(options) continues with no invocation, no answer read and no pause |
| EnvironmentManager.ChoiceStopIff | src/devvy/environment_manager.py:100-103 | A choice stops the loop iff it is the last (exit) entry, and stopping reads nothing, runs nothing and does not pause |
| EnvironmentManager.ChooseDispatches | src/devvy/environment_manager.py:117-126 | An entry that is neither exit nor gated runs its handler on the answers as they stand, keeps its invocations, and pauses iff the handler did not raise |
| EnvironmentManager.IsGated | src/devvy/environment_manager.py:106 | Only the command type init asks for confirmation, whatever its display name or colour |
| EnvironmentManager.InitIsGated | src/devvy/environment_manager.py:106-115 | An init entry asks first: an aborted answer aborts; an answer other than "y"/"Y" continues with nothing run and no pause; "y"/"Y" runs exactly `[tool, "init"]` and pauses |
| EnvironmentManager.RebuildRunsNothing | src/devvy/environment_manager.py:188-214 | "nixos-rebuild" is warning-styled but not gated, runs no invocation and still pauses |
| EnvironmentManager.PythonAddRemove | src/devvy/environment_manager.py:131-138 | rye add/remove issue exactly one invocation `["rye", op] + tokens` and pause; an answer holding a NUL runs nothing and skips the pause |
| EnvironmentManager.RustAddRemove | src/devvy/environment_manager.py:146-154 | cargo add/remove issue one `["cargo", op, token]` per token, in order, and pause; with a NUL in the answer only the tokens before the first NUL-holding one run and the pause is skipped |
| EnvironmentManager.RustBuildRelease | src/devvy/environment_manager.py:159-171 | cargo build issues exactly `cargo build`, followed by "--release" iff the answer is "y" or "Y" and by nothing else, and pauses |
| EnvironmentManager.RyeSync | src/devvy/environment_manager.py:139-140 | rye sync runs exactly `rye sync`, reads nothing before the pause, and pauses |
| EnvironmentManager.CargoRunCheck | src/devvy/environment_manager.py:155-158 | cargo run and cargo check run exactly `cargo run` and `cargo check`, read nothing before the pause, and pause |
| EnvironmentManager.NixBuildRun | src/devvy/environment_manager.py:207-214 | nix build and nix run issue exactly `nix build <url>` and `nix run <url>`, with the answer as one unsplit argument, and pause; a URL holding a NUL runs nothing and skips the pause |
| EnvironmentManager.AstroAdd | src/devvy/environment_manager.py:177-180 | astro add runs `bunx astro add` with the answer as one unsplit argument and pauses; an answer holding a NUL runs nothing |
| EnvironmentManager.AstroUnderBun | src/devvy/environment_manager.py:181-186 | dev, check and build run `bunx --bun astro` with their own subcommand, read nothing before the pause, and pause |
| EnvironmentManager.NixShell | src/devvy/environment_manager.py:190-196 | nix shell always runs `alacritty -e nix shell`, followed by "-p" and the tokens only when the answer is non-empty; an answer holding a NUL runs nothing |
| EnvironmentManager.NixDevelop | src/devvy/environment_manager.py:197-206 | Without flake.nix at that moment nothing runs, nothing is read and the pause still comes; otherwise `nix develop` runs with a non-empty answer as one unsplit argument, unless the answer holds a NUL |
| EnvironmentManager.ChecksFlake | src/devvy/environment_manager.py:198 | A choice looks for `flake.nix` iff it is the Nix "nix develop" entry; no other choice consults the filesystem |
| EnvironmentManager.FlakeLookedUpEachTime | src/devvy/environment_manager.py:197-206 | `flake.nix` is looked for anew at every "nix develop": missing at the first choice (nothing runs) and present at the second, the second runs `nix develop` |
| EnvironmentManager.DeclinedCargoInit | src/devvy/environment_manager.py:106-115 | Answering "n" to the cargo init confirmation runs nothing and consumes only that answer |
| EnvironmentManager.RyeAddTwoPackages | src/devvy/environment_manager.py:131-134 | Typing "requests flask" after "rye add" runs exactly `rye add requests flask` |
| EnvironmentManager.CargoAddStopsAtNul | src/devvy/environment_manager.py:146-150 | Typing "a b\0c" after "cargo add" runs `cargo add a` only, and the loop goes on without a pause |
| EnvironmentManager.Interact | src/devvy/environment_manager.py:26-33 | A session shows at most one pause per number typed; the menu input left over is empty when the script ran out and shorter than the script when the loop ended itself; each "nix develop" takes the next `flake.nix` lookup |
| EnvironmentManager.InteractSkipsInvalidChoices | src/devvy/environment_manager.py:28-33 | An aborted menu prompt or an out-of-range number leaves the rest of the session exactly as if it had not been typed |
| EnvironmentManager.InteractContinuesAfterAbort | src/devvy/environment_manager.py:28-33 | An exception caught from a handler or the init gate does not end the loop: the session goes on with the next number, without a pause |
| EnvironmentManager.DispatchNoInit | src/devvy/environment_manager.py:129-214 | No handler issues an init invocation for any command other than init |
| EnvironmentManager.ChooseWithoutConsent | src/devvy/environment_manager.py:96-127 | With no "y"/"Y" among the answers, one choice issues no init invocation and leaves no "y"/"Y" behind |
| EnvironmentManager.NoInitWithoutConsent | src/devvy/environment_manager.py:26-33 | With no "y"/"Y" among the answers, a whole session never runs `rye init` or `cargo init` |
| EnvironmentManager.Session.constructor | src/devvy/environment_manager.py:12-18 | Binds the project and records the working directory at construction as the one to return to |
| EnvironmentManager.Session.FlakeExists | src/devvy/environment_manager.py:198 | Each lookup of `flake.nix` gets the filesystem's answer at that moment and consumes it |
| EnvironmentManager.Session.Prompt | src/devvy/environment_manager.py:133 | A prompt returns the next pending answer and consumes it |
| EnvironmentManager.Session.Spawn | src/devvy/environment_manager.py:140 | Running a command appends exactly that argument vector, tagged with the current directory, to the log; one with a NUL in an argument is refused and appends nothing |
| EnvironmentManager.Session.SpawnEach | src/devvy/environment_manager.py:149-150 | The for loop appends `[tool, op, token]` for the tokens before the first NUL-holding one, in order, and reports a refusal iff there is such a token |
| EnvironmentManager.Session.HandlePythonCommand | src/devvy/environment_manager.py:129-142 | The log, the pending answers and the raised flag change exactly as `PythonCommand` says |
| EnvironmentManager.Session.HandleRustCommand | src/devvy/environment_manager.py:144-173 | The log, the pending answers and the raised flag change exactly as `RustCommand` says |
| EnvironmentManager.Session.HandleAstroCommand | src/devvy/environment_manager.py:175-186 | The log, the pending answers and the raised flag change exactly as `AstroCommand` says |
| EnvironmentManager.Session.HandleNixCommand | src/devvy/environment_manager.py:188-214 | The command built in place with extend/append is exactly `ShellCommand`'s or `DevelopCommand`'s; the log and answers change as `NixCommand` says for the `flake.nix` lookup made then, and only develop makes one |
| EnvironmentManager.Session.HandleCommand | src/devvy/environment_manager.py:117-124 | The if/elif chain on the project type changes log, answers and the raised flag exactly as `Dispatch` says, and consumes a `flake.nix` lookup iff the command is Nix develop |
| EnvironmentManager.Session.HandleChoice | src/devvy/environment_manager.py:96-127 | Outcome, log, pending answers and pause count are exactly those of `Choose` for the choice, and a `flake.nix` lookup is consumed iff the choice makes one |
| EnvironmentManager.Session.StartInteractive | src/devvy/environment_manager.py:20-36 | The working directory is the one saved at construction on every way out; every invocation ran in the project directory; ending, log, answers, unread menu input, unread lookups and pauses are those of `Interact` |

## Left out

- Running the external tools (rye, cargo, bunx, nix, alacritty): a call is only logged with its directory. Exit codes are not modelled.
- Exceptions out of a running or missing tool. A missing or non-executable tool raises `FileNotFoundError` or `PermissionError`, and Ctrl-C while a tool runs raises `KeyboardInterrupt` in the launcher. The loop does not catch these, so each ends the session, with the working directory restored. The model has no running tools, so none of them can occur in it.
- A failing `os.chdir` into the project directory (for example, one removed after detection).
- Rendering: `click.clear`, `click.style`, rich markup and the blink prompts. The menu colouring is kept only as the pure `OptionStyle`.
- Click's prompt handling (integer parsing, re-prompting on empty input when there is no default, filling in defaults): a prompt is an oracle returning the final string or a cut-short read.
- Text.Lower: models `str.lower()` for ASCII letters only. No other character lowercases to "y", so the confirmation answers behave the same.
- EnvironmentManager.Session.StartInteractive: the real loop never ends on its own. The model also stops when the menu script runs out, which is reported as the ending `InputExhausted`.
- The empty menu for any other project type (`return []` at the end of `_get_menu_options`): `ProjectType` is closed, and the command-line entry point builds a session only when `Detect` returned a type.
- The real filesystem. For detection a directory is a set of entry names. During the session the only question asked of it is whether `flake.nix` exists, answered by a script of lookups that may change from one "nix develop" to the next; what the tools write is not modelled. `os.chdir` is an assignment to `cwd`.
- The `ProjectDetector` constructor, which only stores the path. `Detect` is a function of the entry set, so it is deterministic and changes no state.
- Command types are the `CommandType` enumeration, with one constructor per string used in the tables. Display names are kept as strings because the source compares them.
- src/devvy/cli.py (argument wiring and the `None` check before starting a session) is not part of this model.
