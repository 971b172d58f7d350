/** Which command a shell command line runs in the end (src/tmux_guard.rs): wrappers that only run
    another command are taken off, up to a depth. */
module ShellCommands {
  import opened Base
  import opened Paths
  import opened ShellOptions

  const ENV_OPTIONS := Grammar(
    "i0v", "uCa", ["ignore-environment", "null", "debug", "list-signal-handling"], ["unset", "chdir", "argv0"])
  const EXEC_OPTIONS := Grammar("cl", "a", [], [])
  const COMMAND_OPTIONS := Grammar("pvV", "", [], [])
  const TIME_OPTIONS := Grammar("p", "", [], [])
  const NO_OPTIONS := Grammar("", "", [], [])
  const SHELL_OPTIONS := Grammar(
    "abefhkmnptuvxBCEHPTlrsD", "coO", ["login", "noprofile", "norc", "posix", "restricted", "verbose"], [])

  const MAX_DEPTH: nat := 8

  datatype Normalized = Tmux(argv: seq<string>) | ShellScript(script: string) | Other

  datatype CommandError = BadOptions(error: OptionError) | TooDeep

  datatype Kind = Env | Exec | Command | Time | Builtin

  function KindName(kind: Kind): string {
    match kind
    case Env => "env"
    case Exec => "exec"
    case Command => "command"
    case Time => "time"
    case Builtin => "builtin"
  }

  function KindOf(program: string): Option<Kind> {
    if program == "env" then Some(Env)
    else if program == "exec" then Some(Exec)
    else if program == "command" then Some(Command)
    else if program == "time" then Some(Time)
    else if program == "builtin" then Some(Builtin)
    else None
  }

  function GrammarOf(kind: Kind): Grammar {
    match kind
    case Env => ENV_OPTIONS
    case Exec => EXEC_OPTIONS
    case Command => COMMAND_OPTIONS
    case Time => TIME_OPTIONS
    case Builtin => NO_OPTIONS
  }

  /** A name and `=`, where the name is not empty and no path. */
  predicate IsAssignment(word: string) {
    var n := IndexOf(word, '=');
    0 < n < |word| && '/' !in word[..n]
  }

  function SkipAssignments(words: seq<string>): (rest: seq<string>)
    ensures |rest| <= |words|
  {
    if words != [] && IsAssignment(words[0]) then SkipAssignments(words[1..]) else words
  }

  function JoinWords(words: seq<string>): string {
    if words == [] then "" else if |words| == 1 then words[0] else words[0] + " " + JoinWords(words[1..])
  }

  predicate IsTmux(argv: seq<string>) {
    argv != [] && FileName(argv[0]) == Some("tmux")
  }

  predicate RunsBuiltin(argv: seq<string>) {
    argv != [] && FileName(argv[0]) in {Some("builtin"), Some("command"), Some("eval"), Some("exec")}
  }

  datatype Step = Done(result: Normalized) | Inner(argv: seq<string>) | Failed(error: OptionError)

  /** What is left of a wrapper's words behind its options. */
  function Operands(kind: Kind, words: seq<string>, parsed: Parsed): seq<string>
    requires parsed.nextIndex <= |words|
  {
    var rest := words[parsed.nextIndex..];
    if kind == Env then SkipAssignments(rest) else rest
  }

  function UnwrapKind(kind: Kind, words: seq<string>): Step {
    match Parse(words, GrammarOf(kind))
    case Err(error) => Failed(error)
    case Ok(parsed) =>
      var inner := Operands(kind, words, parsed);
      if inner == []
         || (kind == Command && ('v' in parsed.shortFlags || 'V' in parsed.shortFlags))
         || (kind == Builtin && !RunsBuiltin(inner))
      then Done(Other)
      else Inner(inner)
  }

  function Unwrap(argv: seq<string>): Step {
    if argv == [] || FileName(argv[0]).None? then Done(Other)
    else
      var program, words := FileName(argv[0]).value, argv[1..];
      if program == "tmux" then Done(Tmux(argv))
      else if program == "eval" then
        match Parse(words, NO_OPTIONS)
        case Err(error) => Failed(error)
        case Ok(parsed) =>
          var script := words[parsed.nextIndex..];
          Done(if script == [] then Other else ShellScript(JoinWords(script)))
      else if program in {"sh", "bash", "zsh"} then
        match Parse(words, SHELL_OPTIONS)
        case Err(error) => Failed(error)
        case Ok(parsed) =>
          Done(if 'c' in parsed.shortValues then ShellScript(parsed.shortValues['c']) else Other)
      else
        match KindOf(program)
        case None => Done(Other)
        case Some(kind) => UnwrapKind(kind, words)
  }

  function Normalize(argv: seq<string>, depth: nat): Result<Normalized, CommandError>
    decreases depth
  {
    if depth == 0 then Err(TooDeep)
    else
      match Unwrap(argv)
      case Done(result) => Ok(result)
      case Failed(error) => Err(BadOptions(error))
      case Inner(inner) => Normalize(inner, depth - 1)
  }

  /** The loop of unwrap_env over the assignments. */
  method UnwrapEnv(words: seq<string>) returns (r: Result<seq<string>, OptionError>)
    ensures var parsed := Parse(words, ENV_OPTIONS);
            r == if parsed.Err? then Err(parsed.error) else Ok(Operands(Env, words, parsed.value))
  {
    var parsed := ParseOptions(words, ENV_OPTIONS);
    if parsed.Err? {
      return Err(parsed.error);
    }
    var index := parsed.value.nextIndex;
    while index < |words| && IsAssignment(words[index])
      invariant parsed.value.nextIndex <= index <= |words|
      invariant SkipAssignments(words[index..]) == Operands(Env, words, parsed.value)
    {
      assert words[index..][1..] == words[index + 1..];
      index := index + 1;
    }
    return Ok(words[index..]);
  }

  method UnwrapWrapper(kind: Kind, words: seq<string>) returns (step: Step)
    ensures step == UnwrapKind(kind, words)
  {
    var inner;
    if kind == Env {
      var unwrapped := UnwrapEnv(words);
      if unwrapped.Err? {
        return Failed(unwrapped.error);
      }
      inner := unwrapped.value;
    } else {
      var parsed := ParseOptions(words, GrammarOf(kind));
      if parsed.Err? {
        return Failed(parsed.error);
      }
      inner := words[parsed.value.nextIndex..];
      if kind == Command && ('v' in parsed.value.shortFlags || 'V' in parsed.value.shortFlags) {
        return Done(Other);
      }
      if kind == Builtin && !RunsBuiltin(inner) {
        return Done(Other);
      }
    }
    return if inner == [] then Done(Other) else Inner(inner);
  }
}
