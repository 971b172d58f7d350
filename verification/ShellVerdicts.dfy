/** What a command line runs in the end, said of how it is written: every command line is a stack of
    well-formed wrappers around a target, and the target decides whether it is tmux, a script or another
    command, or is not written as its options must be. */
module ShellVerdicts {
  import opened Base
  import opened Paths
  import opened ShellOptions
  import opened ShellCommands
  import opened ShellWrappers

  /** A program, legal options, then operands, behind `--` or not. */
  ghost predicate Written(argv: seq<string>, g: Grammar, items: seq<Item>, dashes: bool, operands: seq<string>) {
    && argv != []
    && argv[1..] == RenderAll(items) + ((if dashes then ["--"] else []) + operands)
    && AllLegal(g, items)
    && (!dashes && operands != [] ==> IsOperand(operands[0]))
  }

  function ValueIn(item: Item, option: char): Option<string> {
    match item
    case ClusterAttached(_, name, text) => if name == option then Some(TrimEquals(text)) else None
    case ClusterSeparate(_, name, value) => if name == option then Some(value) else None
    case _ => None
  }

  /** The option is given, for the last time with this value. */
  predicate LastValue(items: seq<Item>, option: char, value: string) {
    exists i :: 0 <= i < |items| && ValueIn(items[i], option) == Some(value)
                && forall j :: i < j < |items| ==> ValueIn(items[j], option).None?
  }

  predicate IsShell(argv: seq<string>) {
    argv != [] && FileName(argv[0]) in {Some("sh"), Some("bash"), Some("zsh")}
  }

  predicate IsEval(argv: seq<string>) {
    argv != [] && FileName(argv[0]) == Some("eval")
  }

  predicate IsWrapper(argv: seq<string>, kind: Kind) {
    argv != [] && FileName(argv[0]) == Some(KindName(kind))
  }

  /** A shell with a `-c` script, or `eval` with words that make one. */
  ghost predicate RunsScript(target: seq<string>, script: string) {
    || (IsShell(target) && exists items, dashes, operands ::
          Written(target, SHELL_OPTIONS, items, dashes, operands) && LastValue(items, 'c', script))
    || (IsEval(target) && exists dashes, operands ::
          Written(target, NO_OPTIONS, [], dashes, operands) && operands != [] && script == JoinWords(operands))
  }

  /** A wrapper that wraps no command, only asks for one, or is given one that is no builtin. */
  ghost predicate WrapsNothing(kind: Kind, items: seq<Item>, operands: seq<string>) {
    || operands == []
    || (kind == Env && forall word <- operands :: IsAssignment(word))
    || (kind == Command && ('v' in ParsedAll(items).shortFlags || 'V' in ParsedAll(items).shortFlags))
    || (kind == Builtin && !RunsBuiltin(operands))
  }

  /** Neither tmux nor a script to look into. */
  ghost predicate RunsOther(target: seq<string>) {
    || target == [] || FileName(target[0]).None?
    || (!IsTmux(target) && !IsEval(target) && !IsShell(target) && forall kind :: !IsWrapper(target, kind))
    || (IsEval(target) && exists dashes :: Written(target, NO_OPTIONS, [], dashes, []))
    || (IsShell(target) && exists items, dashes, operands ::
          Written(target, SHELL_OPTIONS, items, dashes, operands)
          && forall item <- items :: ValueIn(item, 'c').None?)
    || exists kind, items, dashes, operands ::
         IsWrapper(target, kind) && Written(target, GrammarOf(kind), items, dashes, operands)
         && WrapsNothing(kind, items, operands)
  }

  /** The words behind a program that takes options are not legal options and operands. */
  ghost predicate BadlyWritten(target: seq<string>) {
    || (IsEval(target) && !exists items, dashes, operands :: Written(target, NO_OPTIONS, items, dashes, operands))
    || (IsShell(target) && !exists items, dashes, operands :: Written(target, SHELL_OPTIONS, items, dashes, operands))
    || exists kind ::
         IsWrapper(target, kind)
         && !exists items, dashes, operands :: Written(target, GrammarOf(kind), items, dashes, operands)
  }

  /** What a command that is no well-formed wrapper comes to. */
  ghost predicate Yields(target: seq<string>, r: Result<Normalized, CommandError>) {
    match r
    case Ok(Tmux(argv)) => IsTmux(target) && argv == target
    case Ok(ShellScript(script)) => RunsScript(target, script)
    case Ok(Other) => RunsOther(target)
    case Err(BadOptions(error)) => BadlyWritten(target)
    case Err(TooDeep) => false
  }

  lemma WrittenParses(argv: seq<string>, g: Grammar, items: seq<Item>, dashes: bool, operands: seq<string>)
    requires IsGrammar(g) && Written(argv, g, items, dashes, operands)
    ensures var parsed := Parse(argv[1..], g);
            && parsed.Ok? && parsed.value.shortFlags == ParsedAll(items).shortFlags
            && parsed.value.shortValues == ParsedAll(items).shortValues
            && argv[1..][parsed.value.nextIndex..] == operands
  {
    hide Parse, AllLegal, ParsedAll, RenderAll, IsGrammar;
    var tail := (if dashes then ["--"] else []) + operands;
    if operands != [] && !dashes { OperandIsNotDashes(operands[0]); }
    ParseAccepts(items, tail, g);
    LegalWidth(items);
  }

  lemma ParsedIsWritten(argv: seq<string>, g: Grammar)
    returns (items: seq<Item>, dashes: bool, operands: seq<string>)
    requires argv != [] && Parse(argv[1..], g).Ok?
    ensures Written(argv, g, items, dashes, operands)
    ensures var parsed := Parse(argv[1..], g).value;
            && parsed.shortFlags == ParsedAll(items).shortFlags && parsed.shortValues == ParsedAll(items).shortValues
            && argv[1..][parsed.nextIndex..] == operands
  {
    hide Parse, AllLegal, ParsedAll, RenderAll;
    var tail;
    items, tail := ParseIsRendered(argv[1..], g);
    LegalWidth(items);
    dashes := tail != [] && tail[0] == "--";
    operands := if dashes then tail[1..] else tail;
    assert tail == (if dashes then ["--"] else []) + operands;
  }

  lemma ParsedValue(item: Item, option: char)
    ensures ValueIn(item, option)
         == if option in ParsedOf(item).shortValues then Some(ParsedOf(item).shortValues[option]) else None
  {
    hide TrimEquals, Render;
  }

  lemma OneMoreValue(first: Item, rest: seq<Item>, option: char, value: string)
    ensures LastValue([first] + rest, option, value)
       <==> LastValue(rest, option, value)
            || (ValueIn(first, option) == Some(value) && forall item <- rest :: ValueIn(item, option).None?)
  {
    hide ValueIn;
    var items := [first] + rest;
    assert items[0] == first && forall j :: 0 < j < |items| ==> items[j] == rest[j - 1];
    if LastValue(rest, option, value) { LaterValue(first, rest, option, value); }
    if LastValue(items, option, value) { FirstValue(first, rest, option, value); }
  }

  lemma LaterValue(first: Item, rest: seq<Item>, option: char, value: string)
    requires LastValue(rest, option, value)
    ensures LastValue([first] + rest, option, value)
  {
    hide ValueIn;
    var i :| 0 <= i < |rest| && ValueIn(rest[i], option) == Some(value)
             && forall j :: i < j < |rest| ==> ValueIn(rest[j], option).None?;
    assert forall j :: 0 < j < |[first] + rest| ==> ([first] + rest)[j] == rest[j - 1];
    assert ValueIn(([first] + rest)[i + 1], option) == Some(value);
  }

  lemma FirstValue(first: Item, rest: seq<Item>, option: char, value: string)
    requires LastValue([first] + rest, option, value)
    ensures LastValue(rest, option, value)
            || (ValueIn(first, option) == Some(value) && forall item <- rest :: ValueIn(item, option).None?)
  {
    hide ValueIn;
    var items := [first] + rest;
    var i :| 0 <= i < |items| && ValueIn(items[i], option) == Some(value)
             && forall j :: i < j < |items| ==> ValueIn(items[j], option).None?;
    forall j | 0 <= j < |rest| && i <= j ensures ValueIn(rest[j], option).None? {
      assert rest[j] == items[j + 1];
    }
    if i > 0 { assert ValueIn(rest[i - 1], option) == Some(value); }
  }

  /** The parser keeps the last value of each option. */
  lemma {:induction false} LastValueIs(items: seq<Item>, option: char, value: string)
    ensures LastValue(items, option, value)
       <==> option in ParsedAll(items).shortValues && ParsedAll(items).shortValues[option] == value
    ensures option in ParsedAll(items).shortValues <==> exists item <- items :: ValueIn(item, option).Some?
  {
    hide Render, TrimEquals, ValueIn, ParsedOf, LastValue;
    if items == [] {
      NoValue(option, value);
    } else {
      var first, rest := items[0], items[1..];
      assert items == [first] + rest;
      LastValueIs(rest, option, value);
      OneMoreValue(first, rest, option, value);
      ParsedValue(first, option);
    }
  }

  lemma NoValue(option: char, value: string)
    ensures !LastValue([], option, value)
  {
  }

  lemma NothingIsLegal(item: Item)
    ensures !Legal(NO_OPTIONS, item)
  {
    if item.Cluster? && item.flags != "" { assert item.flags[0] in item.flags; }
  }

  lemma NoneIsLegal(items: seq<Item>)
    requires AllLegal(NO_OPTIONS, items)
    ensures items == []
  {
    hide Legal;
    assert items != [] ==> items[0] in items;
    forall item ensures !Legal(NO_OPTIONS, item) { NothingIsLegal(item); }
  }

  lemma NoOptionsIsGrammar()
    ensures IsGrammar(NO_OPTIONS)
  {
  }

  lemma ShellNames()
    ensures forall name <- SHELL_OPTIONS.longFlags :: name != "" && '=' !in name
  {
    forall name | name in SHELL_OPTIONS.longFlags ensures name != "" && '=' !in name {
      assert name in {"login", "noprofile", "norc", "posix", "restricted", "verbose"};
    }
  }

  lemma ShellOptionsAreGrammar()
    ensures IsGrammar(SHELL_OPTIONS)
  {
    var flags := SHELL_OPTIONS.shortFlags;
    assert forall i :: 0 <= i < |flags| ==> flags[i] != '-';
    ShellNames();
  }

  lemma UnwrapsShell(target: seq<string>)
    requires IsShell(target)
    ensures Unwrap(target)
         == match Parse(target[1..], SHELL_OPTIONS)
            case Err(error) => Failed(error)
            case Ok(parsed) =>
              Done(if 'c' in parsed.shortValues then ShellScript(parsed.shortValues['c']) else Other)
    ensures !IsTmux(target) && !IsEval(target) && forall kind :: !IsWrapper(target, kind)
  {
    hide Parse, FileName;
  }

  lemma ShellYields(target: seq<string>)
    requires IsShell(target)
    ensures !Unwrap(target).Inner?
    ensures forall r: Normalized :: Unwrap(target) == Done(r) <==> Yields(target, Ok(r))
    ensures Unwrap(target).Failed? <==> BadlyWritten(target)
  {
    hide Parse, FileName, Written, ParsedAll, LastValue, IsGrammar, IsTmux, IsEval, IsWrapper, Unwrap;
    UnwrapsShell(target);
    ShellOptionsAreGrammar();
    var parsed := Parse(target[1..], SHELL_OPTIONS);
    forall items, dashes, operands | Written(target, SHELL_OPTIONS, items, dashes, operands)
      ensures parsed.Ok? && parsed.value.shortValues == ParsedAll(items).shortValues
      ensures forall value :: LastValue(items, 'c', value) <==>
                'c' in parsed.value.shortValues && parsed.value.shortValues['c'] == value
      ensures 'c' !in parsed.value.shortValues <==> forall item <- items :: ValueIn(item, 'c').None?
    {
      WrittenParses(target, SHELL_OPTIONS, items, dashes, operands);
      LastValueIs(items, 'c', "");
      forall value
        ensures LastValue(items, 'c', value) <==>
                  'c' in parsed.value.shortValues && parsed.value.shortValues['c'] == value
      {
        LastValueIs(items, 'c', value);
      }
    }
    if parsed.Ok? {
      var items, dashes, operands := ParsedIsWritten(target, SHELL_OPTIONS);
      assert Written(target, SHELL_OPTIONS, items, dashes, operands);
    }
  }

  lemma UnwrapsEval(target: seq<string>)
    requires IsEval(target)
    ensures Unwrap(target)
         == match Parse(target[1..], NO_OPTIONS)
            case Err(error) => Failed(error)
            case Ok(parsed) =>
              var script := target[1..][parsed.nextIndex..];
              Done(if script == [] then Other else ShellScript(JoinWords(script)))
    ensures !IsTmux(target) && !IsShell(target) && forall kind :: !IsWrapper(target, kind)
  {
    hide Parse, FileName, JoinWords;
  }

  lemma EvalYields(target: seq<string>)
    requires IsEval(target)
    ensures !Unwrap(target).Inner?
    ensures forall r: Normalized :: Unwrap(target) == Done(r) <==> Yields(target, Ok(r))
    ensures Unwrap(target).Failed? <==> BadlyWritten(target)
  {
    hide Parse, FileName, Written, ParsedAll, IsGrammar, IsTmux, IsShell, IsWrapper, Unwrap, JoinWords;
    UnwrapsEval(target);
    NoOptionsIsGrammar();
    var parsed := Parse(target[1..], NO_OPTIONS);
    forall items, dashes, operands | Written(target, NO_OPTIONS, items, dashes, operands)
      ensures parsed.Ok? && target[1..][parsed.value.nextIndex..] == operands
    {
      WrittenParses(target, NO_OPTIONS, items, dashes, operands);
    }
    if parsed.Ok? {
      var items, dashes, operands := ParsedIsWritten(target, NO_OPTIONS);
      WrittenIsLegal(target, NO_OPTIONS, items, dashes, operands);
      NoneIsLegal(items);
      assert Written(target, NO_OPTIONS, [], dashes, operands);
    }
  }

  lemma WrittenIsLegal(argv: seq<string>, g: Grammar, items: seq<Item>, dashes: bool, operands: seq<string>)
    requires Written(argv, g, items, dashes, operands)
    ensures AllLegal(g, items)
  {
  }

  lemma UnwrapsKind(target: seq<string>, kind: Kind)
    requires IsWrapper(target, kind)
    ensures Unwrap(target) == UnwrapKind(kind, target[1..])
    ensures !IsTmux(target) && !IsShell(target) && !IsEval(target)
    ensures forall other :: IsWrapper(target, other) ==> other == kind
  {
    hide FileName, UnwrapKind;
    KindNames(kind);
    forall other | IsWrapper(target, other) ensures other == kind { KindNames(other); }
  }

  /** What is left of the operands of a wrapper is nothing that it runs. */
  lemma NothingLeft(kind: Kind, words: seq<string>, parsed: Parsed, items: seq<Item>, operands: seq<string>)
    requires parsed.nextIndex <= |words| && words[parsed.nextIndex..] == operands
    requires parsed.shortFlags == ParsedAll(items).shortFlags
    ensures WrapsNothing(kind, items, operands)
       <==> var inner := Operands(kind, words, parsed);
            || inner == []
            || (kind == Command && ('v' in parsed.shortFlags || 'V' in parsed.shortFlags))
            || (kind == Builtin && !RunsBuiltin(inner))
  {
    hide IsAssignment, RunsBuiltin, ParsedAll;
    if kind == Env {
      var assignments := SkippedAre(operands);
      assert SkipAssignments(operands) == [] ==> assignments == operands;
      if forall word <- operands :: IsAssignment(word) {
        SkipsAll(operands, []);
        assert operands + [] == operands;
      }
    }
  }

  lemma WrapperYields(target: seq<string>, kind: Kind)
    requires IsWrapper(target, kind)
    ensures forall r: Normalized :: Unwrap(target) == Done(r) <==> Yields(target, Ok(r))
    ensures Unwrap(target).Failed? <==> BadlyWritten(target)
  {
    hide Parse, FileName, Written, ParsedAll, IsGrammar, IsTmux, IsShell, IsEval, Unwrap, Operands, WrapsNothing;
    hide RunsBuiltin, GrammarOf, KindName;
    UnwrapsKind(target, kind);
    GrammarsAreGrammars(kind);
    var words, g := target[1..], GrammarOf(kind);
    var parsed := Parse(words, g);
    forall items, dashes, operands | Written(target, g, items, dashes, operands)
      ensures parsed.Ok?
      ensures WrapsNothing(kind, items, operands) <==> Unwrap(target) == Done(Other)
    {
      WrittenParses(target, g, items, dashes, operands);
      NothingLeft(kind, words, parsed.value, items, operands);
    }
    if parsed.Ok? {
      var items, dashes, operands := ParsedIsWritten(target, g);
      assert Written(target, g, items, dashes, operands);
    }
  }

  lemma KnownKindIsWrapper(target: seq<string>)
    requires target != [] && FileName(target[0]).Some?
    ensures var kind := KindOf(FileName(target[0]).value); kind.Some? ==> IsWrapper(target, kind.value)
  {
    hide FileName;
    KindOfNames(FileName(target[0]).value);
  }

  lemma OtherYields(target: seq<string>)
    requires !IsShell(target) && !IsEval(target) && forall kind :: !IsWrapper(target, kind)
    ensures Unwrap(target) == Done(if IsTmux(target) then Tmux(target) else Other)
    ensures forall r: Normalized :: Unwrap(target) == Done(r) <==> Yields(target, Ok(r))
    ensures !BadlyWritten(target)
  {
    hide FileName, Parse, UnwrapKind, Written, KindOf, KindName, IsWrapper;
    if target != [] && FileName(target[0]).Some? {
      KnownKindIsWrapper(target);
    }
  }

  /** A command yields what its words say, and nothing else; a well-formed wrapper yields nothing. */
  lemma TargetYields(target: seq<string>)
    ensures forall r: Normalized :: Unwrap(target) == Done(r) <==> Yields(target, Ok(r))
    ensures Unwrap(target).Failed? <==> BadlyWritten(target)
  {
    hide Unwrap, Yields, BadlyWritten, IsShell, IsEval, IsWrapper;
    if IsShell(target) {
      ShellYields(target);
    } else if IsEval(target) {
      EvalYields(target);
    } else if kind :| IsWrapper(target, kind) {
      WrapperYields(target, kind);
    } else {
      OtherYields(target);
    }
  }

  /** Every command line is a stack of well-formed wrappers around a target that is none, as far as the depth
      allows. */
  lemma {:induction false} StackAndTarget(argv: seq<string>, depth: nat)
    returns (stack: seq<Wrapper>, target: seq<string>)
    ensures AllFit(stack, target) && argv == Wrap(stack, target) && |stack| <= depth
    ensures |stack| < depth ==> !Unwrap(target).Inner?
    decreases depth
  {
    hide Unwrap, Fits, RenderWrapper;
    if depth > 0 && Unwrap(argv).Inner? {
      var w := OnlyWrappersComeOff(argv, Unwrap(argv).argv);
      var rest;
      rest, target := StackAndTarget(Unwrap(argv).argv, depth - 1);
      stack := [w] + rest;
      assert stack[1..] == rest;
    } else {
      stack, target := [], argv;
    }
  }

  /** A stack that is not too deep comes off, and the target decides. */
  lemma StackYields(stack: seq<Wrapper>, target: seq<string>)
    requires AllFit(stack, target) && |stack| < MAX_DEPTH
    ensures forall r: Normalized :: Yields(target, Ok(r)) ==> Normalize(Wrap(stack, target), MAX_DEPTH) == Ok(r)
    ensures BadlyWritten(target) ==>
              var r := Normalize(Wrap(stack, target), MAX_DEPTH); r.Err? && r.error.BadOptions?
    ensures !Unwrap(target).Inner? ==> Yields(target, Normalize(Wrap(stack, target), MAX_DEPTH))
  {
    hide Unwrap, Yields, BadlyWritten, AllFit, Wrap;
    StackComesOff(stack, target, MAX_DEPTH);
    TargetYields(target);
    if !Unwrap(target).Inner? { NormalizeIs(target, MAX_DEPTH - |stack|); }
    BadYields(target);
  }

  lemma NormalizeIs(target: seq<string>, depth: nat)
    requires depth > 0 && !Unwrap(target).Inner?
    ensures Normalize(target, depth)
         == if Unwrap(target).Done? then Ok(Unwrap(target).result) else Err(BadOptions(Unwrap(target).error))
  {
    hide Unwrap;
  }

  lemma BadYields(target: seq<string>)
    ensures forall error :: BadlyWritten(target) <==> Yields(target, Err(BadOptions(error)))
  {
    hide BadlyWritten;
  }

  /** The command line is at most seven well-formed wrappers around the target. */
  ghost predicate Wraps(argv: seq<string>, target: seq<string>) {
    exists stack :: |stack| <= 7 && AllFit(stack, target) && argv == Wrap(stack, target)
  }

  /** A command line comes down to a script exactly when it is, inside at most seven well-formed wrappers, a
      shell whose legal options give `-c` that script last, or `eval` with words that join to it. */
  lemma {:induction false} ScriptErasure(argv: seq<string>, script: string)
    ensures Normalize(argv, MAX_DEPTH) == Ok(ShellScript(script))
       <==> exists target :: Wraps(argv, target) && RunsScript(target, script)
  {
    hide Normalize, AllFit, Wrap, Unwrap, RunsScript;
    ArgvYields(argv);
    if target :| Wraps(argv, target) && RunsScript(target, script) {
      var stack :| |stack| <= 7 && AllFit(stack, target) && argv == Wrap(stack, target);
      assert Yields(target, Ok(ShellScript(script)));
      StackYields(stack, target);
    }
  }

  /** It is taken for another command exactly when there is neither tmux nor a script in such a stack. */
  lemma {:induction false} OtherErasure(argv: seq<string>)
    ensures Normalize(argv, MAX_DEPTH) == Ok(Other) <==> exists target :: Wraps(argv, target) && RunsOther(target)
  {
    hide Normalize, AllFit, Wrap, Unwrap, RunsOther;
    ArgvYields(argv);
    if target :| Wraps(argv, target) && RunsOther(target) {
      var stack :| |stack| <= 7 && AllFit(stack, target) && argv == Wrap(stack, target);
      assert Yields(target, Ok(Other));
      StackYields(stack, target);
    }
  }

  /** It is refused for its options exactly when those of the command inside the stack are not legal, and for its
      depth exactly when there are eight well-formed wrappers. */
  lemma {:induction false} RefusalsAreExact(argv: seq<string>)
    ensures (exists error :: Normalize(argv, MAX_DEPTH) == Err(BadOptions(error)))
       <==> exists target :: Wraps(argv, target) && BadlyWritten(target)
    ensures Normalize(argv, MAX_DEPTH) == Err(TooDeep)
       <==> exists stack, target :: |stack| == 8 && AllFit(stack, target) && argv == Wrap(stack, target)
  {
    hide Normalize, AllFit, Wrap, Unwrap, BadlyWritten;
    ArgvYields(argv);
    if target :| Wraps(argv, target) && BadlyWritten(target) {
      var stack :| |stack| <= 7 && AllFit(stack, target) && argv == Wrap(stack, target);
      StackYields(stack, target);
    }
    forall stack, target | |stack| == 8 && AllFit(stack, target) && argv == Wrap(stack, target)
      ensures Normalize(argv, MAX_DEPTH) == Err(TooDeep)
    {
      DeepStacksAreRefused(stack, target);
    }
  }

  /** Every command line has a stack and a target, and the target yields the verdict unless the stack is too
      deep. */
  lemma {:induction false} ArgvYields(argv: seq<string>)
    ensures var r := Normalize(argv, MAX_DEPTH);
            if r == Err(TooDeep)
            then exists stack, target :: |stack| == 8 && AllFit(stack, target) && argv == Wrap(stack, target)
            else exists target :: Wraps(argv, target) && Yields(target, r)
  {
    hide Normalize, AllFit, Wrap, Unwrap, Yields;
    var stack, target := StackAndTarget(argv, MAX_DEPTH);
    if |stack| == MAX_DEPTH {
      DeepStacksAreRefused(stack, target);
    } else {
      StackYields(stack, target);
      NotTooDeep(target, Normalize(argv, MAX_DEPTH));
      assert Wraps(argv, target);
    }
  }

  lemma NotTooDeep(target: seq<string>, r: Result<Normalized, CommandError>)
    requires Yields(target, r)
    ensures r != Err(TooDeep)
  {
  }

  /** The options of the wrappers, one by one: those that are flags and those that take a value. */
  lemma {:induction false} WrapperOptions(kind: Kind, c: char, long: string)
    ensures kind != Env ==> long !in GrammarOf(kind).longFlags && long !in GrammarOf(kind).longValues
    ensures var g := GrammarOf(kind);
            match kind
            case Env =>
              && KindName(kind) == "env"
              && (c in g.shortFlags <==> c in {'i', '0', 'v'}) && (c in g.shortValues <==> c in {'u', 'C', 'a'})
              && (long in g.longFlags <==> long in {"ignore-environment", "null", "debug", "list-signal-handling"})
              && (long in g.longValues <==> long in {"unset", "chdir", "argv0"})
            case Exec =>
              && KindName(kind) == "exec"
              && (c in g.shortFlags <==> c in {'c', 'l'}) && (c in g.shortValues <==> c == 'a')
            case Command =>
              && KindName(kind) == "command"
              && (c in g.shortFlags <==> c in {'p', 'v', 'V'}) && c !in g.shortValues
            case Time => KindName(kind) == "time" && (c in g.shortFlags <==> c == 'p') && c !in g.shortValues
            case Builtin => KindName(kind) == "builtin" && c !in g.shortFlags && c !in g.shortValues
  {
    match kind {
      case Env => EnvOptions(c);
      case Exec => assert EXEC_OPTIONS.shortFlags == ['c', 'l'];
      case Command => assert COMMAND_OPTIONS.shortFlags == ['p', 'v', 'V'];
      case _ =>
    }
  }

  lemma EnvOptions(c: char)
    ensures c in ENV_OPTIONS.shortFlags <==> c in {'i', '0', 'v'}
    ensures c in ENV_OPTIONS.shortValues <==> c in {'u', 'C', 'a'}
  {
    assert ENV_OPTIONS.shortFlags == ['i', '0', 'v'] && ENV_OPTIONS.shortValues == ['u', 'C', 'a'];
  }

  /** For example, `env -C directory` comes off any command that does not look like an option or an assignment. */
  lemma DirectoryComesOff(directory: string, inner: seq<string>)
    requires directory != "" && inner != [] && IsOperand(inner[0]) && !IsAssignment(inner[0])
    ensures Unwrap(["/usr/bin/env", "-C", directory] + inner) == Inner(inner)
  {
    hide Parse, Unwrap, IsAssignment, FileName, IsOperand;
    var item := ClusterSeparate("", 'C', directory);
    var w := Wrapper(Env, "/usr/bin/env", [item], false, []);
    EnvOptions('C');
    ProgramInDirectory("/usr/bin", "env");
    assert "/usr/bin" + "/" + "env" == "/usr/bin/env";
    assert "-" + "" + ['C'] == "-C";
    assert [item][1..] == [] && RenderAll([item]) == Render(item) + RenderAll([]) && Render(item) == ["-C", directory];
    assert [] + inner == inner;
    WrapperComesOff(w, inner);
    assert RenderWrapper(w) == ["/usr/bin/env", "-C", directory];
  }

  /** An assignment is a name without `=` or `/`, then `=`, then anything. */
  lemma AssignmentIs(word: string)
    ensures IsAssignment(word)
       <==> exists name, value :: name != "" && '=' !in name && '/' !in name && word == name + "=" + value
  {
    var n := IndexOf(word, '=');
    if n < |word| {
      assert word == word[..n] + "=" + word[n + 1..];
    }
    forall name, value | name != "" && '=' !in name && '/' !in name && word == name + "=" + value
      ensures IsAssignment(word)
    {
      IndexOfIs(name, value, '=');
      assert word[..|name|] == name;
    }
  }

  /** Joining leaves the words in order with one space between any two. */
  lemma {:induction false} JoinedWords(a: seq<string>, b: seq<string>)
    ensures |a| == 1 ==> JoinWords(a) == a[0]
    ensures a != [] && b != [] ==> JoinWords(a + b) == JoinWords(a) + " " + JoinWords(b)
  {
    if |a| > 1 && b != [] {
      JoinedWords(a[1..], b);
      assert (a + b)[1..] == a[1..] + b;
      assert JoinWords(a + b) == a[0] + " " + (JoinWords(a[1..]) + " " + JoinWords(b));
      assert JoinWords(a) == a[0] + " " + JoinWords(a[1..]);
    } else if |a| == 1 && b != [] {
      assert (a + b)[1..] == b;
    }
  }

  /** normalize_command. */
  method NormalizeCommand(argv: seq<string>) returns (r: Result<Normalized, CommandError>)
    ensures r == Normalize(argv, MAX_DEPTH)
    ensures if r == Err(TooDeep)
            then exists stack, target :: |stack| == 8 && AllFit(stack, target) && argv == Wrap(stack, target)
            else exists target :: Wraps(argv, target) && Yields(target, r)
  {
    hide FileName, UnwrapKind, Parse, Yields, AllFit, Wrap, Wraps;
    ArgvYields(argv);
    var current := argv;
    for i := 0 to MAX_DEPTH
      invariant Normalize(argv, MAX_DEPTH) == Normalize(current, MAX_DEPTH - i)
    {
      if current == [] || FileName(current[0]).None? {
        return Ok(Other);
      }
      var program, words := FileName(current[0]).value, current[1..];
      if program == "tmux" {
        return Ok(Tmux(current));
      }
      if program == "eval" {
        var parsed := ParseOptions(words, NO_OPTIONS);
        if parsed.Err? {
          return Err(BadOptions(parsed.error));
        }
        var script := words[parsed.value.nextIndex..];
        return Ok(if script == [] then Other else ShellScript(JoinWords(script)));
      }
      if program in {"sh", "bash", "zsh"} {
        var parsed := ParseOptions(words, SHELL_OPTIONS);
        if parsed.Err? {
          return Err(BadOptions(parsed.error));
        }
        return Ok(if 'c' in parsed.value.shortValues then ShellScript(parsed.value.shortValues['c']) else Other);
      }
      if KindOf(program).None? {
        return Ok(Other);
      }
      var step := UnwrapWrapper(KindOf(program).value, words);
      match step {
        case Done(result) => return Ok(result);
        case Failed(error) => return Err(BadOptions(error));
        case Inner(inner) => current := inner;
      }
    }
    return Err(TooDeep);
  }
}
