/**
 * The interactive menu of the launcher: the static table of commands per
 * project type, the decision taken for one numbered choice (range check,
 * exit, the confirmation gate on "init", dispatch, the pause), the argument
 * vectors each handler builds, and the session loop that moves into the
 * project directory and always moves back.
 *
 * The terminal is modelled as two scripts: the integers typed at the menu
 * prompt and the strings returned by every other prompt, where `None` is a
 * read that was cut short (end of input or an interrupt).  A third script
 * answers the lookups of `flake.nix`, which may come and go while the
 * session runs.  Launching an external program is modelled as appending
 * its argument vector, together with the working directory it ran in, to a
 * log; an argument vector that holds a NUL character is refused before
 * anything starts, as Python's `subprocess.run` does with a `ValueError`.
 */
module EnvironmentManager {
  import opened Optional
  import opened Text
  import opened ProjectDetector

  /** An external invocation: the executable followed by its arguments. */
  type Argv = seq<string>

  /** Answers still to come at the text prompts, in order. */
  type Replies = seq<Option<string>>

  /** The next answer; reading past the end of the script is a cut-short read. */
  function Head(replies: Replies): Option<string> {
    if replies == [] then None else replies[0]
  }

  function Tail(replies: Replies): Replies {
    if replies == [] then [] else replies[1..]
  }

  // ---------------------------------------------------------------------
  // The menu table and its styling
  // ---------------------------------------------------------------------

  /**
   * The command a menu line selects; one constructor per command-type string
   * of the tables ("add", "remove", "sync", "init", "exit", "run", "check",
   * "build", "dev", "shell", "develop", "rebuild").
   */
  datatype CommandType = Add | Remove | Sync | Init | Exit | Run | Check | Build | Dev | Shell | Develop | Rebuild

  /** A menu line: the name shown to the user and the command it selects. */
  datatype MenuOption = MenuOption(displayName: string, commandType: CommandType)

  function MenuLength(t: ProjectType): nat {
    match t
    case Python => 5
    case Rust => 7
    case Astro => 5
    case Nix => 6
  }

  /**
   * The numbered menu for each project type; choice `k` selects entry
   * `k - 1`.  Every table ends with the exit entry and has no other.
   */
  function MenuOptions(t: ProjectType): (options: seq<MenuOption>)
    ensures |options| == MenuLength(t)
    ensures options[|options| - 1] == MenuOption("exit", Exit)
    ensures forall i :: 0 <= i < |options| - 1 ==>
      options[i].displayName != "exit" && options[i].commandType != Exit
  {
    match t
    case Python => [
      MenuOption("rye add", Add),
      MenuOption("rye remove", Remove),
      MenuOption("rye sync", Sync),
      MenuOption("rye init", Init),
      MenuOption("exit", Exit)]
    case Rust => [
      MenuOption("cargo add", Add),
      MenuOption("cargo remove", Remove),
      MenuOption("cargo run", Run),
      MenuOption("cargo check", Check),
      MenuOption("cargo build", Build),
      MenuOption("cargo init", Init),
      MenuOption("exit", Exit)]
    case Astro => [
      MenuOption("astro add", Add),
      MenuOption("astro dev", Dev),
      MenuOption("astro check", Check),
      MenuOption("astro build", Build),
      MenuOption("exit", Exit)]
    case Nix => [
      MenuOption("nix shell", Shell),
      MenuOption("nix develop", Develop),
      MenuOption("nix build", Build),
      MenuOption("nix run", Run),
      MenuOption("nixos-rebuild", Rebuild),
      MenuOption("exit", Exit)]
  }

  /** How a menu line is drawn: in the warning colour, the success colour, or plainly. */
  datatype Style = Warning | Success | Plain

  /** The warning colour wins over the success colour; only the name "exit" is drawn as a success. */
  function OptionStyle(displayName: string): (style: Style)
    ensures style == Warning <==> EndsWith(displayName, "init") || displayName == "nixos-rebuild"
    ensures style == Success <==> displayName == "exit"
  {
    if EndsWith(displayName, "init") || displayName == "nixos-rebuild" then Warning
    else if displayName == "exit" then Success
    else Plain
  }

  /**
   * In every table the warning colour marks exactly the init and rebuild
   * commands and the success colour exactly the exit command.
   */
  lemma OptionStyleByCommand(t: ProjectType, i: nat)
    requires i < |MenuOptions(t)|
    ensures var option := MenuOptions(t)[i];
      (OptionStyle(option.displayName) == Warning <==> option.commandType == Init || option.commandType == Rebuild)
      && (OptionStyle(option.displayName) == Success <==> option.commandType == Exit)
  {
    var option := MenuOptions(t)[i];
    if !EndsWith(option.displayName, "init") {
      assert option.commandType != Init;
    }
  }

  // ---------------------------------------------------------------------
  // Starting programs
  // ---------------------------------------------------------------------

  /**
   * What a handler did: the invocations it issued, the answers left unread,
   * and whether it ended with an exception the menu loop catches (an
   * aborted prompt, or a program that could not be started).
   */
  datatype Handled = Handled(calls: seq<Argv>, rest: Replies, aborted: bool)

  /** Whether `subprocess.run` starts `argv`: it raises `ValueError` when an argument holds a NUL character. */
  predicate Launchable(argv: Argv) {
    forall a <- argv :: '\0' !in a
  }

  /** Starting `argv` as a handler's last act, with `rest` still unread. */
  function Launch(argv: Argv, rest: Replies): Handled {
    if Launchable(argv) then Handled([argv], rest, false) else Handled([], rest, true)
  }

  /** An answer that ends its handler: a cut-short read, or text that no program argument can carry. */
  predicate Refused(answer: Option<string>) {
    answer.None? || '\0' in answer.value
  }

  lemma LaunchableConcat(a: Argv, b: Argv)
    ensures Launchable(a + b) <==> Launchable(a) && Launchable(b)
  {
    if Launchable(a) && Launchable(b) {
      forall x <- a + b ensures '\0' !in x {
        assert x in a || x in b;
      }
    }
  }

  lemma LaunchableToken(tool: string, op: string, token: string)
    requires '\0' !in tool && '\0' !in op
    ensures Launchable([tool, op, token]) <==> '\0' !in token
  {
  }

  /** A fixed command followed by the tokens of an answer can be started exactly when the answer holds no NUL. */
  lemma LaunchableSplit(command: Argv, answer: string)
    requires Launchable(command)
    ensures Launchable(command + Split(answer)) <==> '\0' !in answer
  {
    SplitKeeps(answer, '\0');
  }

  /** How many tokens come before the first one that holds a NUL character. */
  function FirstNul(tokens: seq<string>): (k: nat)
    ensures k <= |tokens|
    ensures forall i :: 0 <= i < k ==> '\0' !in tokens[i]
    ensures k < |tokens| ==> '\0' in tokens[k]
  {
    if tokens == [] || '\0' in tokens[0] then 0 else 1 + FirstNul(tokens[1..])
  }

  /** One `[tool, op, token]` invocation per token, in token order. */
  function EachToken(tool: string, op: string, tokens: seq<string>): (calls: seq<Argv>)
    ensures |calls| == |tokens|
    ensures forall i :: 0 <= i < |tokens| ==> calls[i] == [tool, op, tokens[i]]
  {
    if tokens == [] then [] else [[tool, op, tokens[0]]] + EachToken(tool, op, tokens[1..])
  }

  lemma EachTokenGrows(tool: string, op: string, tokens: seq<string>, i: nat)
    requires i < |tokens|
    ensures EachToken(tool, op, tokens[..i + 1]) == EachToken(tool, op, tokens[..i]) + [[tool, op, tokens[i]]]
  {
  }

  /**
   * The loop over the tokens of an answer: one `[tool, op, token]`
   * invocation per token, in order, until a token holds a NUL character;
   * its `ValueError` ends the loop, and then the handler.
   */
  function EachTokenUntilNul(tool: string, op: string, answer: string, rest: Replies): (h: Handled)
    ensures var tokens := Split(answer);
      |h.calls| == (if '\0' in answer then FirstNul(tokens) else |tokens|) <= |tokens|
      && forall i :: 0 <= i < |h.calls| ==> h.calls[i] == [tool, op, tokens[i]]
    ensures h.rest == rest
    ensures h.aborted <==> '\0' in answer
  {
    var tokens := Split(answer);
    var k := FirstNul(tokens);
    SplitKeeps(answer, '\0');
    assert k < |tokens| ==> tokens[k] in tokens;
    Handled(EachToken(tool, op, tokens[..k]), rest, k < |tokens|)
  }

  // ---------------------------------------------------------------------
  // The per-type handlers, as functions of the answers they read
  // ---------------------------------------------------------------------

  /** rye: add and remove read the packages and run once; sync and init read nothing. */
  function PythonCommand(commandType: CommandType, replies: Replies): (h: Handled)
    ensures |h.calls| <= 1 && forall argv <- h.calls :: argv != [] && argv[0] == "rye"
    ensures h.rest == if commandType == Add || commandType == Remove then Tail(replies) else replies
    ensures h.aborted <==> (commandType == Add || commandType == Remove) && Refused(Head(replies))
    ensures h.aborted ==> h.calls == []
  {
    if commandType == Add then
      match Head(replies)
      case None => Handled([], Tail(replies), true)
      case Some(packages) =>
        LaunchableSplit(["rye", "add"], packages);
        Launch(["rye", "add"] + Split(packages), Tail(replies))
    else if commandType == Remove then
      match Head(replies)
      case None => Handled([], Tail(replies), true)
      case Some(packages) =>
        LaunchableSplit(["rye", "remove"], packages);
        Launch(["rye", "remove"] + Split(packages), Tail(replies))
    else if commandType == Sync then Launch(["rye", "sync"], replies)
    else if commandType == Init then Launch(["rye", "init"], replies)
    else Handled([], replies, false)
  }

  /** cargo: add and remove run once per token; build asks whether to build for release. */
  function RustCommand(commandType: CommandType, replies: Replies): (h: Handled)
    ensures forall argv <- h.calls :: argv != [] && argv[0] == "cargo"
    ensures h.rest
      == if commandType == Add || commandType == Remove || commandType == Build then Tail(replies) else replies
    ensures h.aborted <==>
      ((commandType == Add || commandType == Remove) && Refused(Head(replies)))
      || (commandType == Build && Head(replies).None?)
  {
    if commandType == Add then
      match Head(replies)
      case None => Handled([], Tail(replies), true)
      case Some(crates) => EachTokenUntilNul("cargo", "add", crates, Tail(replies))
    else if commandType == Remove then
      match Head(replies)
      case None => Handled([], Tail(replies), true)
      case Some(crates) => EachTokenUntilNul("cargo", "remove", crates, Tail(replies))
    else if commandType == Run then Launch(["cargo", "run"], replies)
    else if commandType == Check then Launch(["cargo", "check"], replies)
    else if commandType == Build then
      match Head(replies)
      case None => Handled([], Tail(replies), true)
      case Some(answer) =>
        if Affirmative(answer) then Launch(["cargo", "build", "--release"], Tail(replies))
        else Launch(["cargo", "build"], Tail(replies))
    else if commandType == Init then Launch(["cargo", "init"], replies)
    else Handled([], replies, false)
  }

  /** bunx: add passes the typed integration on; dev, check and build run under Bun. */
  function AstroCommand(commandType: CommandType, replies: Replies): (h: Handled)
    ensures |h.calls| <= 1 && forall argv <- h.calls :: argv != [] && argv[0] == "bunx"
    ensures h.rest == if commandType == Add then Tail(replies) else replies
    ensures h.aborted <==> commandType == Add && Refused(Head(replies))
    ensures h.aborted ==> h.calls == []
  {
    if commandType == Add then
      match Head(replies)
      case None => Handled([], Tail(replies), true)
      case Some(integration) => Launch(["bunx", "astro", "add", integration], Tail(replies))
    else if commandType == Dev then Launch(["bunx", "--bun", "astro", "dev"], replies)
    else if commandType == Check then Launch(["bunx", "--bun", "astro", "check"], replies)
    else if commandType == Build then Launch(["bunx", "--bun", "astro", "build"], replies)
    else Handled([], replies, false)
  }

  /**
   * The command run inside the new terminal by "nix shell".  "-p" comes with
   * any non-empty answer, even one of whitespace only, which then names no
   * package.
   */
  function ShellCommand(packages: string): (argv: Argv)
    ensures |argv| >= 2 && argv[..2] == ["nix", "shell"]
    ensures |argv| == 2 <==> packages == ""
    ensures |argv| > 2 ==> argv[2] == "-p" && argv[3..] == Split(packages)
    ensures Launchable(argv) <==> '\0' !in packages
  {
    LaunchableSplit(["nix", "shell", "-p"], packages);
    ["nix", "shell"] + (if packages != "" then ["-p"] + Split(packages) else [])
  }

  /** The "nix develop" command, with a non-empty answer appended as one argument, unsplit. */
  function DevelopCommand(flakeArgs: string): (argv: Argv)
    ensures |argv| >= 2 && argv[..2] == ["nix", "develop"]
    ensures |argv| == 2 <==> flakeArgs == ""
    ensures |argv| > 2 ==> argv[2..] == [flakeArgs]
  {
    ["nix", "develop"] + (if flakeArgs != "" then [flakeArgs] else [])
  }

  /** The Nix commands that read an answer: all but rebuild, and develop only when `flake.nix` exists. */
  predicate NixReads(commandType: CommandType, hasFlake: bool) {
    commandType == Shell || (commandType == Develop && hasFlake) || commandType == Build || commandType == Run
  }

  /** `hasFlake` says whether `flake.nix` exists in the project directory; there is no branch for rebuild. */
  function NixCommand(commandType: CommandType, hasFlake: bool, replies: Replies): (h: Handled)
    ensures |h.calls| <= 1 && forall argv <- h.calls :: argv != [] && (argv[0] == "alacritty" || argv[0] == "nix")
    ensures h.rest == if NixReads(commandType, hasFlake) then Tail(replies) else replies
    ensures h.aborted <==> NixReads(commandType, hasFlake) && Refused(Head(replies))
    ensures h.aborted ==> h.calls == []
  {
    if commandType == Shell then
      match Head(replies)
      case None => Handled([], Tail(replies), true)
      case Some(packages) =>
        LaunchableConcat(["alacritty", "-e"], ShellCommand(packages));
        Launch(["alacritty", "-e"] + ShellCommand(packages), Tail(replies))
    else if commandType == Develop then
      if !hasFlake then Handled([], replies, false)
      else
        match Head(replies)
        case None => Handled([], Tail(replies), true)
        case Some(flakeArgs) => Launch(DevelopCommand(flakeArgs), Tail(replies))
    else if commandType == Build then
      match Head(replies)
      case None => Handled([], Tail(replies), true)
      case Some(flakeUrl) => Launch(["nix", "build", flakeUrl], Tail(replies))
    else if commandType == Run then
      match Head(replies)
      case None => Handled([], Tail(replies), true)
      case Some(flakeUrl) => Launch(["nix", "run", flakeUrl], Tail(replies))
    else Handled([], replies, false)
  }

  /** The handler chosen by the project type: it reads at most one answer, and aborts only on a refused one. */
  function Dispatch(t: ProjectType, hasFlake: bool, commandType: CommandType, replies: Replies): (h: Handled)
    ensures h.rest == replies || h.rest == Tail(replies)
    ensures h.aborted ==> Refused(Head(replies)) && h.rest == Tail(replies)
  {
    match t
    case Python => PythonCommand(commandType, replies)
    case Rust => RustCommand(commandType, replies)
    case Astro => AstroCommand(commandType, replies)
    case Nix => NixCommand(commandType, hasFlake, replies)
  }

  // ---------------------------------------------------------------------
  // One menu choice
  // ---------------------------------------------------------------------

  /**
   * How handling a choice ends: go on with the loop, leave it (exit chosen),
   * an exception the loop catches (an aborted prompt, or a program that
   * could not be started), or an interrupted pause (not caught: it leaves
   * the loop).
   */
  datatype Outcome = Continue | Stop | Aborted | Interrupted

  /** The effect of one choice: its outcome, invocations, unread answers and whether it paused. */
  datatype Step = Step(outcome: Outcome, calls: seq<Argv>, rest: Replies, paused: bool)

  /** Whether the confirmation gate applies to a command: only init is gated. */
  predicate IsGated(commandType: CommandType) {
    commandType == Init
  }

  /**
   * The effect of typing `choice` at the menu prompt, given the answers that
   * follow.  Leaving reads, runs and shows nothing; the pause comes only
   * after a handler that returned normally, and an interrupted one is the
   * pause.
   */
  function Choose(t: ProjectType, hasFlake: bool, choice: int, replies: Replies): (s: Step)
    ensures s.outcome == Stop ==> s.calls == [] && s.rest == replies && !s.paused
    ensures s.paused ==> s.outcome == Continue || s.outcome == Interrupted
    ensures s.outcome == Interrupted ==> s.paused
  {
    var options := MenuOptions(t);
    if choice < 1 || |options| < choice then Step(Continue, [], replies, false)
    else
      var option := options[choice - 1];
      if option.displayName == "exit" then Step(Stop, [], replies, false)
      else if IsGated(option.commandType) && Head(replies).None? then Step(Aborted, [], Tail(replies), false)
      else if IsGated(option.commandType) && !Affirmative(Head(replies).value) then Step(Continue, [], Tail(replies), false)
      else Finish(Dispatch(t, hasFlake, option.commandType, if IsGated(option.commandType) then Tail(replies) else replies))
  }

  /**
   * After a handler returns normally comes the "press Enter" pause, which
   * reads one more answer; an exception out of the handler skips it.
   */
  function Finish(handled: Handled): (s: Step)
    ensures s.calls == handled.calls
    ensures s.paused <==> !handled.aborted
    ensures s.outcome == Aborted <==> handled.aborted
    ensures s.outcome == Interrupted <==> !handled.aborted && Head(handled.rest).None?
    ensures s.rest == if handled.aborted then handled.rest else Tail(handled.rest)
  {
    if handled.aborted then Step(Aborted, handled.calls, handled.rest, false)
    else if Head(handled.rest).None? then Step(Interrupted, handled.calls, Tail(handled.rest), true)
    else Step(Continue, handled.calls, Tail(handled.rest), true)
  }

  /** A choice outside `1..|menu|` does nothing: no invocation, no answer read, no pause. */
  lemma ChoiceOutOfRange(t: ProjectType, hasFlake: bool, choice: int, replies: Replies)
    requires choice < 1 || MenuLength(t) < choice
    ensures Choose(t, hasFlake, choice, replies) == Step(Continue, [], replies, false)
  {
  }

  /** Only the last entry stops the loop, and it does so without reading, invoking or pausing. */
  lemma ChoiceStopIff(t: ProjectType, hasFlake: bool, choice: int, replies: Replies)
    ensures Choose(t, hasFlake, choice, replies).outcome == Stop <==> choice == MenuLength(t)
    ensures choice == MenuLength(t) ==> Choose(t, hasFlake, choice, replies) == Step(Stop, [], replies, false)
  {
  }

  /**
   * An entry that is neither exit nor gated runs its handler on the answers
   * as they stand (none is read first); the pause follows exactly when the
   * handler did not abort.
   */
  lemma ChooseDispatches(t: ProjectType, hasFlake: bool, choice: int, replies: Replies)
    requires 1 <= choice <= MenuLength(t)
    requires MenuOptions(t)[choice - 1].displayName != "exit" && !IsGated(MenuOptions(t)[choice - 1].commandType)
    ensures var h := Dispatch(t, hasFlake, MenuOptions(t)[choice - 1].commandType, replies);
      var s := Choose(t, hasFlake, choice, replies);
      s.calls == h.calls && (s.paused <==> !h.aborted)
      && (h.aborted ==> s.outcome == Aborted && s.rest == h.rest)
      && (!h.aborted ==> s.rest == Tail(h.rest) && (s.outcome == Interrupted <==> Head(h.rest).None?))
  {
  }

  /** The init commands of the two tables that have one. */
  function InitCall(t: ProjectType): Argv {
    if t == Python then ["rye", "init"] else ["cargo", "init"]
  }

  /**
   * An init entry asks first.  An aborted answer aborts; any answer other
   * than "y" or "Y" returns to the menu with nothing run and no pause; "y" or
   * "Y" runs exactly the tool's init and then pauses.
   */
  lemma InitIsGated(t: ProjectType, hasFlake: bool, choice: int, replies: Replies)
    requires 1 <= choice <= MenuLength(t)
    requires MenuOptions(t)[choice - 1].commandType == Init
    ensures t == Python || t == Rust
    ensures var s := Choose(t, hasFlake, choice, replies);
      match Head(replies)
      case None => s == Step(Aborted, [], Tail(replies), false)
      case Some(answer) =>
        if answer == "y" || answer == "Y" then
          s.calls == [InitCall(t)] && s.paused && s.rest == Tail(Tail(replies))
        else
          s == Step(Continue, [], Tail(replies), false)
  {
    if Head(replies).Some? {
      AffirmativeIff(Head(replies).value);
    }
  }

  /**
   * "nixos-rebuild" is drawn in the warning colour but is not gated, and no
   * handler branch matches it: it runs nothing and still pauses.
   */
  lemma RebuildRunsNothing(hasFlake: bool, replies: Replies)
    ensures MenuOptions(Nix)[4] == MenuOption("nixos-rebuild", Rebuild)
    ensures OptionStyle("nixos-rebuild") == Warning && !IsGated(Rebuild)
    ensures Choose(Nix, hasFlake, 5, replies)
      == Step(if Head(replies).None? then Interrupted else Continue, [], Tail(replies), true)
  {
  }

  /**
   * Python add and remove run the package manager once, with every typed
   * token as an argument; an answer holding a NUL character runs nothing
   * and skips the pause.
   */
  lemma PythonAddRemove(hasFlake: bool, choice: int, packages: string, rest: Replies)
    requires choice == 1 || choice == 2
    ensures var op := if choice == 1 then "add" else "remove";
      var s := Choose(Python, hasFlake, choice, [Some(packages)] + rest);
      if '\0' in packages then s == Step(Aborted, [], rest, false)
      else s.calls == [["rye", op] + Split(packages)] && s.paused
  {
    var op := if choice == 1 then "add" else "remove";
    PythonOpHandled(MenuOptions(Python)[choice - 1].commandType, op, packages, rest);
    ChooseDispatches(Python, hasFlake, choice, [Some(packages)] + rest);
  }

  lemma PythonOpHandled(commandType: CommandType, op: string, packages: string, rest: Replies)
    requires (commandType == Add && op == "add") || (commandType == Remove && op == "remove")
    ensures PythonCommand(commandType, [Some(packages)] + rest)
      == if '\0' in packages then Handled([], rest, true) else Handled([["rye", op] + Split(packages)], rest, false)
  {
    var replies := [Some(packages)] + rest;
    assert Head(replies) == Some(packages) && Tail(replies) == rest;
    LaunchableSplit(["rye", op], packages);
  }

  /**
   * Rust add and remove run cargo once per typed token, in the order typed.
   * A token holding a NUL character raises when its turn comes: the tokens
   * before it have run, and the pause is skipped.
   */
  lemma RustAddRemove(hasFlake: bool, choice: int, crates: string, rest: Replies)
    requires choice == 1 || choice == 2
    ensures var op := if choice == 1 then "add" else "remove";
      var tokens := Split(crates);
      var s := Choose(Rust, hasFlake, choice, [Some(crates)] + rest);
      var ran := if '\0' in crates then FirstNul(tokens) else |tokens|;
      ran <= |tokens| && |s.calls| == ran
      && (forall i :: 0 <= i < ran ==> s.calls[i] == ["cargo", op, tokens[i]])
      && (s.outcome == Aborted <==> '\0' in crates) && (s.paused <==> '\0' !in crates)
  {
    var op := if choice == 1 then "add" else "remove";
    RustOpHandled(MenuOptions(Rust)[choice - 1].commandType, op, crates, rest);
    ChooseDispatches(Rust, hasFlake, choice, [Some(crates)] + rest);
  }

  lemma RustOpHandled(commandType: CommandType, op: string, crates: string, rest: Replies)
    requires (commandType == Add && op == "add") || (commandType == Remove && op == "remove")
    ensures RustCommand(commandType, [Some(crates)] + rest) == EachTokenUntilNul("cargo", op, crates, rest)
  {
    var replies := [Some(crates)] + rest;
    assert Head(replies) == Some(crates) && Tail(replies) == rest;
  }

  /**
   * The Rust build runs `cargo build`, followed by "--release" exactly when
   * the answer is "y" or "Y" and by nothing else, and then pauses.
   */
  lemma RustBuildRelease(hasFlake: bool, answer: string, rest: Replies)
    ensures var s := Choose(Rust, hasFlake, 5, [Some(answer)] + rest);
      s.calls == [["cargo", "build"] + (if answer == "y" || answer == "Y" then ["--release"] else [])]
      && s.paused && s.rest == Tail(rest)
  {
    var replies := [Some(answer)] + rest;
    ChooseDispatches(Rust, hasFlake, 5, replies);
    assert Head(replies) == Some(answer) && Tail(replies) == rest;
    AffirmativeIff(answer);
    if Affirmative(answer) {
      assert Dispatch(Rust, hasFlake, Build, replies) == Launch(["cargo", "build", "--release"], rest);
      assert ["cargo", "build"] + ["--release"] == ["cargo", "build", "--release"];
    } else {
      assert Dispatch(Rust, hasFlake, Build, replies) == Launch(["cargo", "build"], rest);
      assert ["cargo", "build"] + [] == ["cargo", "build"];
    }
  }

  /** rye sync reads nothing, runs exactly `rye sync`, and then pauses. */
  lemma RyeSync(hasFlake: bool, replies: Replies)
    ensures var pause := if Head(replies).None? then Interrupted else Continue;
      Choose(Python, hasFlake, 3, replies) == Step(pause, [["rye", "sync"]], Tail(replies), true)
  {
    ChooseDispatches(Python, hasFlake, 3, replies);
    assert Dispatch(Python, hasFlake, Sync, replies) == Launch(["rye", "sync"], replies);
  }

  /** cargo run and cargo check read nothing, run exactly their command, and then pause. */
  lemma CargoRunCheck(hasFlake: bool, replies: Replies)
    ensures var pause := if Head(replies).None? then Interrupted else Continue;
      Choose(Rust, hasFlake, 3, replies) == Step(pause, [["cargo", "run"]], Tail(replies), true)
      && Choose(Rust, hasFlake, 4, replies) == Step(pause, [["cargo", "check"]], Tail(replies), true)
  {
    ChooseDispatches(Rust, hasFlake, 3, replies);
    assert Dispatch(Rust, hasFlake, Run, replies) == Launch(["cargo", "run"], replies);
    ChooseDispatches(Rust, hasFlake, 4, replies);
    assert Dispatch(Rust, hasFlake, Check, replies) == Launch(["cargo", "check"], replies);
  }

  /** Astro add passes the typed integration on as one argument, unsplit. */
  lemma AstroAdd(hasFlake: bool, integration: string, rest: Replies)
    ensures var s := Choose(Astro, hasFlake, 1, [Some(integration)] + rest);
      if '\0' in integration then s == Step(Aborted, [], rest, false)
      else s.calls == [["bunx", "astro", "add", integration]] && s.paused && s.rest == Tail(rest)
  {
    var replies := [Some(integration)] + rest;
    ChooseDispatches(Astro, hasFlake, 1, replies);
    assert Head(replies) == Some(integration) && Tail(replies) == rest;
    assert Dispatch(Astro, hasFlake, Add, replies) == Launch(["bunx", "astro", "add", integration], rest);
  }

  /** Astro dev, check and build run `bunx --bun astro` with their subcommand, read nothing, and pause. */
  lemma AstroUnderBun(hasFlake: bool, choice: int, replies: Replies)
    requires 2 <= choice <= 4
    ensures var s := Choose(Astro, hasFlake, choice, replies);
      s.calls == [["bunx", "--bun", "astro", ["dev", "check", "build"][choice - 2]]]
      && s.paused && s.rest == Tail(replies)
  {
    ChooseDispatches(Astro, hasFlake, choice, replies);
    var h := Dispatch(Astro, hasFlake, MenuOptions(Astro)[choice - 1].commandType, replies);
    if choice == 2 {
      assert h == Launch(["bunx", "--bun", "astro", "dev"], replies);
    } else if choice == 3 {
      assert h == Launch(["bunx", "--bun", "astro", "check"], replies);
    } else {
      assert h == Launch(["bunx", "--bun", "astro", "build"], replies);
    }
  }

  /**
   * "nix shell" always opens a new terminal on `nix shell`; "-p" and the
   * typed packages follow only when the answer is not empty.
   */
  lemma NixShell(hasFlake: bool, packages: string, rest: Replies)
    ensures var s := Choose(Nix, hasFlake, 1, [Some(packages)] + rest);
      if '\0' in packages then s == Step(Aborted, [], rest, false)
      else
        |s.calls| == 1 && s.calls[0][..4] == ["alacritty", "-e", "nix", "shell"]
        && (packages == "" ==> |s.calls[0]| == 4)
        && (packages != "" ==> s.calls[0][4..] == ["-p"] + Split(packages))
  {
    var argv := ["alacritty", "-e"] + ShellCommand(packages);
    NixShellHandled(hasFlake, packages, rest);
    ChooseDispatches(Nix, hasFlake, 1, [Some(packages)] + rest);
    ShellInTerminalShape(packages, argv);
  }

  lemma NixShellHandled(hasFlake: bool, packages: string, rest: Replies)
    ensures var argv := ["alacritty", "-e"] + ShellCommand(packages);
      NixCommand(Shell, hasFlake, [Some(packages)] + rest)
        == if '\0' in packages then Handled([], rest, true) else Handled([argv], rest, false)
  {
    var replies := [Some(packages)] + rest;
    assert Head(replies) == Some(packages) && Tail(replies) == rest;
    LaunchableConcat(["alacritty", "-e"], ShellCommand(packages));
  }

  /** The shape of `nix shell` wrapped in a new terminal: the prefix, then "-p" and the tokens when there is an answer. */
  lemma ShellInTerminalShape(packages: string, argv: Argv)
    requires argv == ["alacritty", "-e"] + ShellCommand(packages)
    ensures argv[..4] == ["alacritty", "-e", "nix", "shell"]
    ensures packages == "" ==> |argv| == 4
    ensures packages != "" ==> argv[4..] == ["-p"] + Split(packages)
  {
    var cmd := ShellCommand(packages);
    assert argv[..4] == ["alacritty", "-e"] + cmd[..2];
    if packages != "" {
      assert argv[4..] == cmd[2..];
      assert cmd[2..] == [cmd[2]] + cmd[3..];
    }
  }

  /**
   * "nix develop" runs nothing when `flake.nix` is missing (no answer is read,
   * the pause still comes); otherwise it runs `nix develop` with the answer,
   * when there is one, as a single argument.
   */
  lemma NixDevelop(hasFlake: bool, replies: Replies)
    ensures !hasFlake ==>
      Choose(Nix, hasFlake, 2, replies)
        == Step(if Head(replies).None? then Interrupted else Continue, [], Tail(replies), true)
    ensures hasFlake && Head(replies).Some? ==>
      var flakeArgs := Head(replies).value;
      var s := Choose(Nix, hasFlake, 2, replies);
      if '\0' in flakeArgs then s == Step(Aborted, [], Tail(replies), false)
      else s.calls == [["nix", "develop"] + (if flakeArgs == "" then [] else [flakeArgs])] && s.paused
  {
    ChooseDispatches(Nix, hasFlake, 2, replies);
  }

  /**
   * nix build and nix run pass the typed flake URL on as one argument, and
   * pause; a URL holding a NUL character runs nothing and skips the pause.
   */
  lemma NixBuildRun(hasFlake: bool, choice: int, flakeUrl: string, rest: Replies)
    requires choice == 3 || choice == 4
    ensures var op := if choice == 3 then "build" else "run";
      var s := Choose(Nix, hasFlake, choice, [Some(flakeUrl)] + rest);
      if '\0' in flakeUrl then s == Step(Aborted, [], rest, false)
      else s.calls == [["nix", op, flakeUrl]] && s.paused && s.rest == Tail(rest)
  {
    var op := if choice == 3 then "build" else "run";
    var replies := [Some(flakeUrl)] + rest;
    ChooseDispatches(Nix, hasFlake, choice, replies);
    assert Head(replies) == Some(flakeUrl) && Tail(replies) == rest;
    assert Dispatch(Nix, hasFlake, MenuOptions(Nix)[choice - 1].commandType, replies)
      == Launch(["nix", op, flakeUrl], rest);
  }

  /** Choosing 6 ("cargo init") in a Rust project and answering "n" runs nothing. */
  lemma DeclinedCargoInit(hasFlake: bool, rest: Replies)
    ensures Choose(Rust, hasFlake, 6, [Some("n")] + rest) == Step(Continue, [], rest, false)
  {
    InitIsGated(Rust, hasFlake, 6, [Some("n")] + rest);
    assert Tail([Some("n")] + rest) == rest;
  }

  /** Choosing "rye add" and typing "requests flask" runs exactly `rye add requests flask`. */
  lemma RyeAddTwoPackages(hasFlake: bool, rest: Replies)
    ensures Choose(Python, hasFlake, 1, [Some("requests flask")] + rest).calls
      == [["rye", "add", "requests", "flask"]]
  {
    assert '\0' !in "requests flask";
    PythonAddRemove(hasFlake, 1, "requests flask", rest);
    SplitTwoPackages();
    assert ["rye", "add"] + ["requests", "flask"] == ["rye", "add", "requests", "flask"];
  }

  lemma SplitTwoPackages()
    ensures Split("requests flask") == ["requests", "flask"]
  {
    assert IsToken("requests");
    assert IsToken("flask");
    assert "requests flask" == "requests" + (" " + "flask");
    SplitPair("requests", "flask");
  }

  /**
   * Typing "a b\0c" after "cargo add" runs `cargo add a`; the second token
   * cannot be passed to a program, and its `ValueError` skips the pause.
   */
  lemma CargoAddStopsAtNul(hasFlake: bool, rest: Replies)
    ensures Choose(Rust, hasFlake, 1, [Some("a b\0c")] + rest) == Step(Aborted, [["cargo", "add", "a"]], rest, false)
  {
    var replies := [Some("a b\0c")] + rest;
    ChooseDispatches(Rust, hasFlake, 1, replies);
    assert Head(replies) == Some("a b\0c") && Tail(replies) == rest;
    var h := Dispatch(Rust, hasFlake, Add, replies);
    assert h == EachTokenUntilNul("cargo", "add", "a b\0c", rest);
    var tokens := Split("a b\0c");
    SplitNulExample();
    assert FirstNul(tokens) == 1 by {
      assert '\0' !in tokens[0] && '\0' in tokens[1];
    }
    assert tokens[..1] == ["a"];
    assert h.calls == EachToken("cargo", "add", ["a"]);
  }

  lemma SplitNulExample()
    ensures Split("a b\0c") == ["a", "b\0c"]
  {
    assert IsToken("a");
    assert IsToken("b\0c");
    assert "a b\0c" == "a" + (" " + "b\0c");
    SplitPair("a", "b\0c");
  }

  // ---------------------------------------------------------------------
  // The session loop
  // ---------------------------------------------------------------------

  /** How a session ends: exit chosen, an interrupted pause, or (model only) no more menu input. */
  datatype Ending = Quit | Escaped | InputExhausted

  /**
   * The answers of the successive lookups of `flake.nix` in the project
   * directory, in order: the file may appear or vanish while the session
   * runs.  Once the script is used up the file is absent.
   */
  type Probes = seq<bool>

  function FlakeNow(probes: Probes): bool {
    probes != [] && probes[0]
  }

  function FlakeLater(probes: Probes): Probes {
    if probes == [] then [] else probes[1..]
  }

  /** Whether handling `choice` looks for `flake.nix`: only "nix develop" does. */
  predicate ChecksFlake(t: ProjectType, choice: int) {
    t == Nix && 1 <= choice <= MenuLength(t) && MenuOptions(t)[choice - 1].commandType == Develop
  }

  /**
   * A whole session: how it ended, what it ran, the answers, menu input and
   * lookups left, and the pauses shown.
   */
  datatype Transcript = Transcript(ending: Ending, calls: seq<Argv>, rest: Replies, unread: seq<Option<int>>,
                                   probes: Probes, pauses: nat)

  /** `tr` preceded by invocations and pauses from earlier iterations. */
  function After(calls: seq<Argv>, pauses: nat, tr: Transcript): Transcript {
    tr.(calls := calls + tr.calls, pauses := pauses + tr.pauses)
  }

  /**
   * The whole loop over the menu script: an aborted menu prompt (`None`) and
   * an exception out of a handler are caught and the loop goes on.  Each
   * "nix develop" looks for `flake.nix` anew.  At most one pause per number
   * typed; the menu input left over is what follows the choice that ended
   * the loop.
   */
  function Interact(t: ProjectType, probes: Probes, choices: seq<Option<int>>, replies: Replies): (r: Transcript)
    ensures r.pauses <= |choices|
    ensures |r.unread| <= |choices| && |r.probes| <= |probes|
    ensures r.ending == InputExhausted ==> r.unread == []
    ensures r.ending != InputExhausted ==> |r.unread| < |choices|
    decreases |choices|
  {
    if choices == [] then Transcript(InputExhausted, [], replies, [], probes, 0)
    else
      match choices[0]
      case None => Interact(t, probes, choices[1..], replies)
      case Some(choice) =>
        var s := Choose(t, FlakeNow(probes), choice, replies);
        var later := if ChecksFlake(t, choice) then FlakeLater(probes) else probes;
        var paused := if s.paused then 1 else 0;
        if s.outcome == Stop then Transcript(Quit, s.calls, s.rest, choices[1..], later, paused)
        else if s.outcome == Interrupted then Transcript(Escaped, s.calls, s.rest, choices[1..], later, paused)
        else After(s.calls, paused, Interact(t, later, choices[1..], s.rest))
  }

  /**
   * One iteration of `Interact` on a typed number, seen from a loop that has
   * already accumulated `calls` and `paused`.
   */
  lemma InteractChoice(t: ProjectType, probes: Probes, calls: seq<Argv>, paused: nat,
                       choice: int, choices: seq<Option<int>>, replies: Replies)
    ensures var s := Choose(t, FlakeNow(probes), choice, replies);
      var later := if ChecksFlake(t, choice) then FlakeLater(probes) else probes;
      var p := if s.paused then 1 else 0;
      After(calls, paused, Interact(t, probes, [Some(choice)] + choices, replies))
        == if s.outcome == Stop then Transcript(Quit, calls + s.calls, s.rest, choices, later, paused + p)
           else if s.outcome == Interrupted then Transcript(Escaped, calls + s.calls, s.rest, choices, later, paused + p)
           else After(calls + s.calls, paused + p, Interact(t, later, choices, s.rest))
  {
    assert ([Some(choice)] + choices)[1..] == choices;
    var s := Choose(t, FlakeNow(probes), choice, replies);
    var later := if ChecksFlake(t, choice) then FlakeLater(probes) else probes;
    var p := if s.paused then 1 else 0;
    if s.outcome != Stop && s.outcome != Interrupted {
      AfterAfter(calls, paused, s.calls, p, Interact(t, later, choices, s.rest));
    }
  }

  /** An aborted menu prompt, or a number out of range, leaves the rest of the session unchanged. */
  lemma InteractSkipsInvalidChoices(t: ProjectType, probes: Probes, choice: Option<int>, choices: seq<Option<int>>, replies: Replies)
    requires choice.Some? ==> choice.value < 1 || MenuLength(t) < choice.value
    ensures Interact(t, probes, [choice] + choices, replies) == Interact(t, probes, choices, replies)
  {
    assert ([choice] + choices)[1..] == choices;
    if choice.Some? {
      ChoiceOutOfRange(t, FlakeNow(probes), choice.value, replies);
      assert [] + Interact(t, probes, choices, replies).calls == Interact(t, probes, choices, replies).calls;
    }
  }

  /**
   * A prompt aborted inside a handler (or at the init gate) does not end the
   * session: what that choice ran is kept and the loop goes on with the next
   * number, without a pause.
   */
  lemma InteractContinuesAfterAbort(t: ProjectType, probes: Probes, choice: int, choices: seq<Option<int>>, replies: Replies)
    requires Choose(t, FlakeNow(probes), choice, replies).outcome == Aborted
    ensures var s := Choose(t, FlakeNow(probes), choice, replies);
      var later := if ChecksFlake(t, choice) then FlakeLater(probes) else probes;
      !s.paused
      && Interact(t, probes, [Some(choice)] + choices, replies)
        == After(s.calls, 0, Interact(t, later, choices, s.rest))
  {
    assert ([Some(choice)] + choices)[1..] == choices;
  }

  /**
   * `flake.nix` is looked for at every "nix develop", not once per session:
   * when it is missing at the first choice (nothing runs) and present at
   * the second, the second runs `nix develop`.
   */
  lemma FlakeLookedUpEachTime(rest: Replies)
    ensures var tr := Interact(Nix, [false, true], [Some(2), Some(2)], [Some(""), Some(""), Some("")] + rest);
      tr.calls == [["nix", "develop"]] && tr.pauses == 2 && tr.ending == InputExhausted
  {
    var r1 := [Some(""), Some("")] + rest;
    var r0 := [Some("")] + r1;
    assert [Some(""), Some(""), Some("")] + rest == r0;
    var tr2 := Interact(Nix, [], [], rest);
    var tr1 := Interact(Nix, [true], [Some(2)], r1);
    assert tr1 == After([["nix", "develop"]], 1, tr2) by {
      DevelopWithFlake(rest);
      assert FlakeNow([true]) && FlakeLater([true]) == [] && ChecksFlake(Nix, 2);
      assert [Some(2)][1..] == [];
    }
    assert Interact(Nix, [false, true], [Some(2), Some(2)], r0) == After([], 1, tr1) by {
      NixDevelop(false, r0);
      assert Tail(r0) == r1;
      assert !FlakeNow([false, true]) && FlakeLater([false, true]) == [true];
      assert [Some(2), Some(2)][1..] == [Some(2)];
    }
  }

  lemma DevelopWithFlake(rest: Replies)
    ensures Choose(Nix, true, 2, [Some(""), Some("")] + rest) == Step(Continue, [["nix", "develop"]], rest, true)
  {
    var r1 := [Some(""), Some("")] + rest;
    NixDevelop(true, r1);
    ChooseDispatches(Nix, true, 2, r1);
    assert Tail(r1) == [Some("")] + rest && Tail([Some("")] + rest) == rest;
    assert ["nix", "develop"] + [] == ["nix", "develop"];
  }

  lemma AfterAfter(calls: seq<Argv>, pauses: nat, moreCalls: seq<Argv>, morePauses: nat, tr: Transcript)
    ensures After(calls, pauses, After(moreCalls, morePauses, tr)) == After(calls + moreCalls, pauses + morePauses, tr)
  {
    assert calls + (moreCalls + tr.calls) == (calls + moreCalls) + tr.calls;
  }

  predicate IsInitCall(argv: Argv) {
    argv == ["rye", "init"] || argv == ["cargo", "init"]
  }

  /** No answer in the script is "y" or "Y". */
  predicate NoConsent(replies: Replies) {
    forall i :: 0 <= i < |replies| ==> replies[i] != Some("y") && replies[i] != Some("Y")
  }

  lemma NoConsentTail(replies: Replies)
    requires NoConsent(replies)
    ensures NoConsent(Tail(replies))
    ensures Head(replies).Some? ==> !Affirmative(Head(replies).value)
  {
    if Head(replies).Some? {
      assert replies[0] == Head(replies);
      AffirmativeIff(Head(replies).value);
    }
  }

  /** No handler issues an init call except for the init command itself. */
  lemma DispatchNoInit(t: ProjectType, hasFlake: bool, commandType: CommandType, replies: Replies)
    requires commandType != Init
    ensures forall argv <- Dispatch(t, hasFlake, commandType, replies).calls :: !IsInitCall(argv)
  {
    match t
    case Python =>
      var h := PythonCommand(commandType, replies);
      forall argv <- h.calls ensures !IsInitCall(argv) {
        assert argv[1] != "init";
      }
    case Rust =>
      var h := RustCommand(commandType, replies);
      forall argv <- h.calls ensures !IsInitCall(argv) {
        assert |argv| == 3 || argv[1] != "init";
      }
    case Astro =>
    case Nix =>
      var h := NixCommand(commandType, hasFlake, replies);
      forall argv <- h.calls ensures !IsInitCall(argv) {
        assert argv[0] == "alacritty" || argv[0] == "nix";
      }
  }

  lemma ChooseWithoutConsent(t: ProjectType, hasFlake: bool, choice: int, replies: Replies)
    requires NoConsent(replies)
    ensures var s := Choose(t, hasFlake, choice, replies);
      NoConsent(s.rest) && forall argv <- s.calls :: !IsInitCall(argv)
  {
    NoConsentTail(replies);
    if 1 <= choice <= MenuLength(t) {
      var option := MenuOptions(t)[choice - 1];
      if option.displayName != "exit" && !IsGated(option.commandType) {
        DispatchNoInit(t, hasFlake, option.commandType, replies);
        var h := Dispatch(t, hasFlake, option.commandType, replies);
        NoConsentTail(Tail(replies));
        assert NoConsent(h.rest);
        NoConsentTail(h.rest);
      }
    }
  }

  /** Without a "y" or "Y" anywhere in the answers, a whole session never runs an init command. */
  lemma {:induction false} NoInitWithoutConsent(t: ProjectType, probes: Probes, choices: seq<Option<int>>, replies: Replies)
    requires NoConsent(replies)
    ensures forall argv <- Interact(t, probes, choices, replies).calls :: !IsInitCall(argv)
    decreases |choices|
  {
    if choices != [] {
      match choices[0]
      case None => NoInitWithoutConsent(t, probes, choices[1..], replies);
      case Some(choice) =>
        var s := Choose(t, FlakeNow(probes), choice, replies);
        var later := if ChecksFlake(t, choice) then FlakeLater(probes) else probes;
        ChooseWithoutConsent(t, FlakeNow(probes), choice, replies);
        if s.outcome != Stop && s.outcome != Interrupted {
          NoInitWithoutConsent(t, later, choices[1..], s.rest);
        }
    }
  }

  /** Every invocation tagged with the directory it ran in. */
  datatype Invocation = Invocation(dir: string, argv: Argv)

  function InDir(dir: string, calls: seq<Argv>): seq<Invocation> {
    if calls == [] then [] else [Invocation(dir, calls[0])] + InDir(dir, calls[1..])
  }

  lemma {:induction false} InDirAppend(dir: string, a: seq<Argv>, b: seq<Argv>)
    ensures InDir(dir, a + b) == InDir(dir, a) + InDir(dir, b)
    decreases |a|
  {
    if a != [] {
      assert (a + b)[1..] == a[1..] + b;
      InDirAppend(dir, a[1..], b);
    } else {
      assert a + b == b;
    }
  }

  /** A log that grew by the invocations of `more` after those of `calls`. */
  lemma LogGrows(start: seq<Invocation>, dir: string, calls: seq<Argv>, more: seq<Argv>, before: seq<Invocation>, after: seq<Invocation>)
    requires before == start + InDir(dir, calls)
    requires after == before + InDir(dir, more)
    ensures after == start + InDir(dir, calls + more)
  {
    InDirAppend(dir, calls, more);
    SeqAssoc(start, InDir(dir, calls), InDir(dir, more));
  }

  lemma SeqAssoc(a: seq<Invocation>, b: seq<Invocation>, c: seq<Invocation>)
    ensures (a + b) + c == a + (b + c)
  {
  }

  // ---------------------------------------------------------------------
  // The session object
  // ---------------------------------------------------------------------

  /**
   * One launcher session bound to a detected project.  `cwd` is the
   * process-wide working directory; `log` is every external program
   * started, with the directory it started in; `choices` and `replies` are
   * what the terminal has still to deliver; `pauses` counts the
   * "press Enter" prompts shown.
   */
  class Session {
    const projectPath: string
    const projectType: ProjectType
    const originalCwd: string
    var cwd: string
    var log: seq<Invocation>
    var choices: seq<Option<int>>
    var replies: Replies
    /** What the filesystem will answer when `flake.nix` is next looked for. */
    var probes: Probes
    var pauses: nat

    /** Binds the session and records the working directory it was created in. */
    constructor (projectPath: string, projectType: ProjectType, cwd: string,
                 choices: seq<Option<int>>, replies: Replies, probes: Probes)
      ensures this.projectPath == projectPath && this.projectType == projectType
      ensures originalCwd == cwd && this.cwd == cwd
      ensures log == [] && this.choices == choices && this.replies == replies && this.probes == probes
      ensures pauses == 0
    {
      this.projectPath := projectPath;
      this.projectType := projectType;
      this.originalCwd := cwd;
      this.cwd := cwd;
      this.log := [];
      this.choices := choices;
      this.replies := replies;
      this.probes := probes;
      this.pauses := 0;
    }

    /** Whether `flake.nix` exists in the project directory at this moment. */
    method FlakeExists() returns (present: bool)
      modifies this`probes
      ensures present == FlakeNow(old(probes)) && probes == FlakeLater(old(probes))
    {
      present := FlakeNow(probes);
      probes := FlakeLater(probes);
    }

    /** A text prompt: the next answer, `None` when the read is cut short. */
    method Prompt() returns (answer: Option<string>)
      modifies this`replies
      ensures answer == Head(old(replies)) && replies == Tail(old(replies))
    {
      answer := Head(replies);
      replies := Tail(replies);
    }

    /**
     * Starts an external program in the current directory and waits for it;
     * `refused` is the `ValueError` raised, before anything starts, for an
     * argument holding a NUL character.
     */
    method Spawn(argv: Argv) returns (refused: bool)
      modifies this`log
      ensures refused == !Launchable(argv)
      ensures log == old(log) + if refused then [] else [Invocation(cwd, argv)]
    {
      refused := !Launchable(argv);
      if !refused {
        log := log + [Invocation(cwd, argv)];
      }
    }

    /** Runs `[tool, op, token]` for each token in turn, until one of them is refused. */
    method SpawnEach(tool: string, op: string, tokens: seq<string>) returns (refused: bool)
      requires '\0' !in tool && '\0' !in op
      modifies this`log
      ensures refused == (FirstNul(tokens) < |tokens|)
      ensures log == old(log) + InDir(cwd, EachToken(tool, op, tokens[..FirstNul(tokens)]))
    {
      for i := 0 to |tokens|
        invariant i <= FirstNul(tokens)
        invariant log == old(log) + InDir(cwd, EachToken(tool, op, tokens[..i]))
      {
        ghost var before := log;
        LaunchableToken(tool, op, tokens[i]);
        refused := Spawn([tool, op, tokens[i]]);
        if refused {
          return;
        }
        EachTokenGrows(tool, op, tokens, i);
        assert InDir(cwd, [[tool, op, tokens[i]]]) == [Invocation(cwd, [tool, op, tokens[i]])];
        LogGrows(old(log), cwd, EachToken(tool, op, tokens[..i]), [[tool, op, tokens[i]]], before, log);
      }
      refused := false;
    }

    method HandlePythonCommand(commandType: CommandType) returns (aborted: bool)
      modifies this`log, this`replies
      ensures var h := PythonCommand(commandType, old(replies));
        aborted == h.aborted && log == old(log) + InDir(cwd, h.calls) && replies == h.rest
    {
      aborted := false;
      if commandType == Add {
        var packages := Prompt();
        if packages.None? {
          return true;
        }
        aborted := Spawn(["rye", "add"] + Split(packages.value));
      } else if commandType == Remove {
        var packages := Prompt();
        if packages.None? {
          return true;
        }
        aborted := Spawn(["rye", "remove"] + Split(packages.value));
      } else if commandType == Sync {
        aborted := Spawn(["rye", "sync"]);
      } else if commandType == Init {
        aborted := Spawn(["rye", "init"]);
      }
    }

    method HandleRustCommand(commandType: CommandType) returns (aborted: bool)
      modifies this`log, this`replies
      ensures var h := RustCommand(commandType, old(replies));
        aborted == h.aborted && log == old(log) + InDir(cwd, h.calls) && replies == h.rest
    {
      aborted := false;
      if commandType == Add {
        var crates := Prompt();
        if crates.None? {
          return true;
        }
        aborted := SpawnEach("cargo", "add", Split(crates.value));
      } else if commandType == Remove {
        var crates := Prompt();
        if crates.None? {
          return true;
        }
        aborted := SpawnEach("cargo", "remove", Split(crates.value));
      } else if commandType == Run {
        aborted := Spawn(["cargo", "run"]);
      } else if commandType == Check {
        aborted := Spawn(["cargo", "check"]);
      } else if commandType == Build {
        var answer := Prompt();
        if answer.None? {
          return true;
        }
        if Affirmative(answer.value) {
          aborted := Spawn(["cargo", "build", "--release"]);
        } else {
          aborted := Spawn(["cargo", "build"]);
        }
      } else if commandType == Init {
        aborted := Spawn(["cargo", "init"]);
      }
    }

    method HandleAstroCommand(commandType: CommandType) returns (aborted: bool)
      modifies this`log, this`replies
      ensures var h := AstroCommand(commandType, old(replies));
        aborted == h.aborted && log == old(log) + InDir(cwd, h.calls) && replies == h.rest
    {
      aborted := false;
      if commandType == Add {
        var integration := Prompt();
        if integration.None? {
          return true;
        }
        aborted := Spawn(["bunx", "astro", "add", integration.value]);
      } else if commandType == Dev {
        aborted := Spawn(["bunx", "--bun", "astro", "dev"]);
      } else if commandType == Check {
        aborted := Spawn(["bunx", "--bun", "astro", "check"]);
      } else if commandType == Build {
        aborted := Spawn(["bunx", "--bun", "astro", "build"]);
      }
    }

    method HandleNixCommand(commandType: CommandType) returns (aborted: bool)
      modifies this`log, this`replies, this`probes
      ensures var h := NixCommand(commandType, FlakeNow(old(probes)), old(replies));
        aborted == h.aborted && log == old(log) + InDir(cwd, h.calls) && replies == h.rest
      ensures probes == if commandType == Develop then FlakeLater(old(probes)) else old(probes)
    {
      aborted := false;
      if commandType == Shell {
        var packages := Prompt();
        if packages.None? {
          return true;
        }
        var cmd := ["nix", "shell"];
        if packages.value != "" {
          cmd := cmd + (["-p"] + Split(packages.value));
        }
        assert cmd == ShellCommand(packages.value);
        aborted := Spawn(["alacritty", "-e"] + cmd);
      } else if commandType == Develop {
        var present := FlakeExists();
        if !present {
          return;
        }
        var flakeArgs := Prompt();
        if flakeArgs.None? {
          return true;
        }
        var cmd := ["nix", "develop"];
        if flakeArgs.value != "" {
          cmd := cmd + [flakeArgs.value];
        }
        assert cmd == DevelopCommand(flakeArgs.value);
        aborted := Spawn(cmd);
      } else if commandType == Build {
        var flakeUrl := Prompt();
        if flakeUrl.None? {
          return true;
        }
        aborted := Spawn(["nix", "build", flakeUrl.value]);
      } else if commandType == Run {
        var flakeUrl := Prompt();
        if flakeUrl.None? {
          return true;
        }
        aborted := Spawn(["nix", "run", flakeUrl.value]);
      }
    }

    /** Hands a command to the handler of the project's type. */
    method HandleCommand(commandType: CommandType) returns (aborted: bool)
      modifies this`log, this`replies, this`probes
      ensures var h := Dispatch(projectType, FlakeNow(old(probes)), commandType, old(replies));
        aborted == h.aborted && log == old(log) + InDir(cwd, h.calls) && replies == h.rest
      ensures probes == if projectType == Nix && commandType == Develop then FlakeLater(old(probes)) else old(probes)
    {
      match projectType {
        case Python => aborted := HandlePythonCommand(commandType);
        case Rust => aborted := HandleRustCommand(commandType);
        case Astro => aborted := HandleAstroCommand(commandType);
        case Nix => aborted := HandleNixCommand(commandType);
      }
    }

    /** Handles one number typed at the menu prompt. */
    method HandleChoice(choice: int) returns (outcome: Outcome)
      modifies this`log, this`replies, this`probes, this`pauses
      ensures var s := Choose(projectType, FlakeNow(old(probes)), choice, old(replies));
        outcome == s.outcome && log == old(log) + InDir(cwd, s.calls) && replies == s.rest
        && pauses == old(pauses) + (if s.paused then 1 else 0)
      ensures probes == if ChecksFlake(projectType, choice) then FlakeLater(old(probes)) else old(probes)
    {
      var options := MenuOptions(projectType);
      if 1 <= choice <= |options| {
        var option := options[choice - 1];
        assert ChecksFlake(projectType, choice) <==> projectType == Nix && option.commandType == Develop;
        if option.displayName == "exit" {
          return Stop;
        }
        if IsGated(option.commandType) {
          var answer := Prompt();
          if answer.None? {
            return Aborted;
          }
          if !Affirmative(answer.value) {
            return Continue;
          }
        }
        var aborted := HandleCommand(option.commandType);
        if aborted {
          return Aborted;
        }
        pauses := pauses + 1;
        var acknowledged := Prompt();
        if acknowledged.None? {
          return Interrupted;
        }
        return Continue;
      }
      return Continue;
    }

    /**
     * The menu loop.  It moves into the project directory, runs every
     * invocation there, and on every way out (exit chosen, an interrupted
     * pause, end of the script) moves back to the directory the session was
     * created in.
     */
    method StartInteractive() returns (ending: Ending)
      modifies this`cwd, this`log, this`choices, this`replies, this`probes, this`pauses
      ensures cwd == originalCwd
      ensures var tr := Interact(projectType, old(probes), old(choices), old(replies));
        ending == tr.ending && log == old(log) + InDir(projectPath, tr.calls)
        && replies == tr.rest && choices == tr.unread && probes == tr.probes && pauses == old(pauses) + tr.pauses
    {
      cwd := projectPath;
      ghost var calls: seq<Argv> := [];
      ghost var paused: nat := 0;
      ghost var whole := Interact(projectType, probes, choices, replies);
      ending := InputExhausted;
      var running := true;
      while running && choices != []
        invariant cwd == projectPath
        invariant log == old(log) + InDir(projectPath, calls) && pauses == old(pauses) + paused
        invariant running ==> ending == InputExhausted
        invariant running ==> whole == After(calls, paused, Interact(projectType, probes, choices, replies))
        invariant !running ==> whole == Transcript(ending, calls, replies, choices, probes, paused)
        decreases |choices|
      {
        var choice := choices[0];
        ghost var remaining := choices;
        choices := choices[1..];
        assert remaining == [choice] + choices;
        if choice.None? {
          InteractSkipsInvalidChoices(projectType, probes, choice, choices, replies);
        } else {
          InteractChoice(projectType, probes, calls, paused, choice.value, choices, replies);
          ghost var s := Choose(projectType, FlakeNow(probes), choice.value, replies);
          ghost var p: nat := if s.paused then 1 else 0;
          ghost var later := if ChecksFlake(projectType, choice.value) then FlakeLater(probes) else probes;
          ghost var logBefore := log;
          var outcome := HandleChoice(choice.value);
          assert probes == later;
          LogGrows(old(log), projectPath, calls, s.calls, logBefore, log);
          calls := calls + s.calls;
          paused := paused + p;
          if outcome == Stop {
            ending := Quit;
            running := false;
          } else if outcome == Interrupted {
            ending := Escaped;
            running := false;
          } else {
            assert whole == After(calls, paused, Interact(projectType, probes, choices, replies));
          }
        }
      }
      if running {
        assert calls + [] == calls;
      }
      cwd := originalCwd;
    }
  }
}
