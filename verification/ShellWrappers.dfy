/** Wrapper erasure: exactly which command lines come down to a tmux command, and to which one. */
module ShellWrappers {
  import opened Base
  import opened Paths
  import opened ShellOptions
  import opened ShellCommands

  /** One wrapper as it is written: the program under any path, options, perhaps `--`, and for `env`
      assignments. */
  datatype Wrapper = Wrapper(kind: Kind, program: string, items: seq<Item>, dashes: bool, assignments: seq<string>)

  /** The words between a wrapper's options and the command it wraps. */
  function Middle(w: Wrapper): seq<string> {
    (if w.dashes then ["--"] else []) + w.assignments
  }

  function RenderWrapper(w: Wrapper): seq<string> {
    [w.program] + (RenderAll(w.items) + Middle(w))
  }

  /** The wrapper is well-formed in front of the command `inner`. */
  ghost predicate Fits(w: Wrapper, inner: seq<string>) {
    && FileName(w.program) == Some(KindName(w.kind))
    && AllLegal(GrammarOf(w.kind), w.items)
    && (forall word <- w.assignments :: IsAssignment(word))
    && inner != []
    && (if w.kind == Env then !IsAssignment(inner[0]) else w.assignments == [])
    && (!w.dashes ==> IsOperand((w.assignments + inner)[0]))
    && (w.kind == Command ==> 'v' !in ParsedAll(w.items).shortFlags && 'V' !in ParsedAll(w.items).shortFlags)
    && (w.kind == Builtin ==> RunsBuiltin(inner))
  }

  function Wrap(stack: seq<Wrapper>, argv: seq<string>): seq<string> {
    if stack == [] then argv else RenderWrapper(stack[0]) + Wrap(stack[1..], argv)
  }

  ghost predicate AllFit(stack: seq<Wrapper>, argv: seq<string>) {
    stack == [] || (Fits(stack[0], Wrap(stack[1..], argv)) && AllFit(stack[1..], argv))
  }

  lemma GrammarsAreGrammars(kind: Kind)
    ensures IsGrammar(GrammarOf(kind))
  {
  }

  lemma KindNames(kind: Kind)
    ensures KindOf(KindName(kind)) == Some(kind) && KindName(kind) !in {"tmux", "eval", "sh", "bash", "zsh"}
  {
  }

  lemma KindOfNames(program: string)
    ensures KindOf(program).Some? ==> program == KindName(KindOf(program).value)
  {
  }

  lemma {:induction false} SkipsAll(assignments: seq<string>, inner: seq<string>)
    requires forall word <- assignments :: IsAssignment(word)
    requires inner != [] ==> !IsAssignment(inner[0])
    ensures SkipAssignments(assignments + inner) == inner
  {
    hide IsAssignment;
    if assignments == [] {
      assert assignments + inner == inner;
    } else {
      assert assignments[0] in assignments;
      SkipsAll(assignments[1..], inner);
      assert (assignments + inner)[1..] == assignments[1..] + inner;
    }
  }

  lemma {:induction false} SkippedAre(words: seq<string>) returns (assignments: seq<string>)
    ensures words == assignments + SkipAssignments(words)
    ensures forall word <- assignments :: IsAssignment(word)
    ensures SkipAssignments(words) != [] ==> !IsAssignment(SkipAssignments(words)[0])
  {
    hide IsAssignment;
    if words != [] && IsAssignment(words[0]) {
      var rest := SkippedAre(words[1..]);
      assignments := [words[0]] + rest;
      assert words == [words[0]] + words[1..];
      assert words == assignments + SkipAssignments(words);
    } else {
      assignments := [];
      assert words == [] + words;
    }
  }

  /** A word that is an operand is no `--`. */
  lemma OperandIsNotDashes(word: string)
    requires IsOperand(word)
    ensures word != "--"
  {
  }

  /** A well-formed wrapper comes off, whole. */
  lemma {:induction false} WrapperComesOff(w: Wrapper, inner: seq<string>)
    requires Fits(w, inner)
    ensures Unwrap(RenderWrapper(w) + inner) == Inner(inner)
  {
    hide Parse, ParsedAll, RenderAll, IsGrammar, AllLegal, FileName, IsAssignment, SkipAssignments, IsOperand;
    hide GrammarOf, RunsBuiltin, EndsOptions, TerminatorOf;
    var g := GrammarOf(w.kind);
    var tail := Middle(w) + inner;
    var words := RenderAll(w.items) + tail;
    var argv := RenderWrapper(w) + inner;
    Regroup([w.program], RenderAll(w.items), Middle(w), inner);
    assert argv == [w.program] + words;
    assert argv[0] == w.program && argv[1..] == words;
    GrammarsAreGrammars(w.kind);
    KindNames(w.kind);
    TailEnds(w, inner);
    ParseAccepts(w.items, tail, g);
    LegalWidth(w.items);
    var parsed := ParsedAll(w.items).Then(TerminatorOf(tail));
    assert words[parsed.nextIndex..] == w.assignments + inner;
    if w.kind == Env {
      SkipsAll(w.assignments, inner);
    } else {
      assert w.assignments + inner == inner;
    }
    assert UnwrapKind(w.kind, words) == Inner(inner);
  }

  lemma TailEnds(w: Wrapper, inner: seq<string>)
    requires Fits(w, inner)
    ensures var tail := Middle(w) + inner;
            && EndsOptions(tail)
            && TerminatorOf(tail) == (if w.dashes then Parsed(1, {}, map[]) else NOTHING)
            && tail[TerminatorOf(tail).nextIndex..] == w.assignments + inner
  {
    hide IsAssignment, AllLegal, ParsedAll;
    var tail := Middle(w) + inner;
    if w.dashes {
      assert tail == ["--"] + (w.assignments + inner);
    } else {
      assert tail == w.assignments + inner;
      OperandIsNotDashes(tail[0]);
    }
  }

  lemma {:induction false} LegalWidth(items: seq<Item>)
    ensures ParsedAll(items).nextIndex == |RenderAll(items)|
  {
    hide Render, ParsedOf;
    if items != [] { LegalWidth(items[1..]); }
  }

  /** And whatever comes off is a well-formed wrapper. */
  lemma {:induction false} OnlyWrappersComeOff(argv: seq<string>, inner: seq<string>) returns (w: Wrapper)
    requires Unwrap(argv) == Inner(inner)
    ensures argv == RenderWrapper(w) + inner && Fits(w, inner)
  {
    hide Parse, FileName, IsAssignment, SkipAssignments, UnwrapKind, Fits, RenderWrapper, RenderAll, WordsFit;
    var program, words := FileName(argv[0]).value, argv[1..];
    var kind := KindOf(program).value;
    KindOfNames(program);
    var items, dashes, assignments := OperandsAreRendered(kind, words, inner);
    w := Wrapper(kind, argv[0], items, dashes, assignments);
    FitsWhen(w, inner);
    assert argv == [argv[0]] + words;
    Regroup([argv[0]], RenderAll(items), Middle(w), inner);
    RenderWrapperIs(w);
  }

  lemma Regroup<T>(front: seq<T>, a: seq<T>, b: seq<T>, tail: seq<T>)
    ensures front + (a + (b + tail)) == front + (a + b) + tail
  {
  }

  lemma RenderWrapperIs(w: Wrapper)
    ensures RenderWrapper(w) == [w.program] + (RenderAll(w.items) + Middle(w))
  {
  }

  lemma FitsWhen(w: Wrapper, inner: seq<string>)
    requires FileName(w.program) == Some(KindName(w.kind))
    requires WordsFit(w.kind, w.items, w.dashes, w.assignments, inner)
    ensures Fits(w, inner)
  {
  }

  ghost predicate WordsFit(kind: Kind, items: seq<Item>, dashes: bool, assignments: seq<string>, inner: seq<string>) {
    && AllLegal(GrammarOf(kind), items)
    && (forall word <- assignments :: IsAssignment(word))
    && inner != []
    && (if kind == Env then !IsAssignment(inner[0]) else assignments == [])
    && (!dashes ==> IsOperand((assignments + inner)[0]))
    && (kind == Command ==> 'v' !in ParsedAll(items).shortFlags && 'V' !in ParsedAll(items).shortFlags)
    && (kind == Builtin ==> RunsBuiltin(inner))
  }

  lemma OperandsAreRendered(kind: Kind, words: seq<string>, inner: seq<string>)
    returns (items: seq<Item>, dashes: bool, assignments: seq<string>)
    requires UnwrapKind(kind, words) == Inner(inner)
    ensures WordsFit(kind, items, dashes, assignments, inner)
    ensures words == RenderAll(items) + ((if dashes then ["--"] else []) + assignments + inner)
  {
    hide Parse, ParsedAll, RenderAll, AllLegal, IsAssignment, SkipAssignments, FileName, IsOperand, RunsBuiltin;
    var tail;
    items, tail := ParseIsRendered(words, GrammarOf(kind));
    var parsed := ParsedAll(items).Then(TerminatorOf(tail));
    LegalWidth(items);
    dashes := tail != [] && tail[0] == "--";
    var rest := if dashes then tail[1..] else tail;
    assert words[parsed.nextIndex..] == rest;
    if kind == Env {
      assignments := SkippedAre(rest);
    } else {
      assignments := [];
    }
    assert rest == assignments + inner;
    assert tail == (if dashes then ["--"] else []) + assignments + inner;
  }

  /** A stack of wrappers comes off as far as the depth allows. */
  lemma {:induction false} StackComesOff(stack: seq<Wrapper>, argv: seq<string>, depth: nat)
    requires AllFit(stack, argv)
    ensures Normalize(Wrap(stack, argv), depth)
         == if |stack| <= depth then Normalize(argv, depth - |stack|) else Err(TooDeep)
  {
    hide Unwrap, Fits, RenderWrapper;
    if stack != [] && depth > 0 {
      WrapperComesOff(stack[0], Wrap(stack[1..], argv));
      StackComesOff(stack[1..], argv, depth - 1);
    }
  }

  lemma {:induction false} TmuxIsWrapped(argv: seq<string>, target: seq<string>, depth: nat)
    returns (stack: seq<Wrapper>)
    requires Normalize(argv, depth) == Ok(Tmux(target))
    ensures |stack| < depth && AllFit(stack, target) && argv == Wrap(stack, target) && IsTmux(target)
    decreases depth
  {
    hide Fits, RenderWrapper, Unwrap, IsTmux;
    match Unwrap(argv) {
      case Done(result) =>
        DoneIsTmux(argv, target);
        stack := [];
      case Inner(inner) =>
        var w := OnlyWrappersComeOff(argv, inner);
        var rest := TmuxIsWrapped(inner, target, depth - 1);
        stack := [w] + rest;
        assert stack[1..] == rest;
    }
  }

  lemma DoneIsTmux(argv: seq<string>, target: seq<string>)
    requires Unwrap(argv) == Done(Tmux(target))
    ensures argv == target && IsTmux(target)
  {
  }

  /** A command line comes down to a tmux command exactly when it is that command inside a stack of at
      most seven well-formed wrappers. */
  lemma {:induction false} WrapperErasure(argv: seq<string>, target: seq<string>)
    ensures Normalize(argv, MAX_DEPTH) == Ok(Tmux(target))
       <==> IsTmux(target)
            && exists stack :: |stack| <= 7 && AllFit(stack, target) && argv == Wrap(stack, target)
  {
    hide Normalize, Wrap, AllFit, Unwrap;
    if Normalize(argv, MAX_DEPTH) == Ok(Tmux(target)) {
      var stack := TmuxIsWrapped(argv, target, MAX_DEPTH);
    }
    if IsTmux(target) {
      forall stack | |stack| <= 7 && AllFit(stack, target) && argv == Wrap(stack, target)
        ensures Normalize(argv, MAX_DEPTH) == Ok(Tmux(target))
      {
        StackComesOff(stack, target, MAX_DEPTH);
        TmuxStays(target, MAX_DEPTH - |stack|);
      }
    }
  }

  lemma TmuxStays(target: seq<string>, depth: nat)
    requires IsTmux(target) && depth > 0
    ensures Normalize(target, depth) == Ok(Tmux(target))
  {
  }

  /** Eight wrappers or more are refused, whatever they wrap. */
  lemma {:induction false} DeepStacksAreRefused(stack: seq<Wrapper>, argv: seq<string>)
    requires AllFit(stack, argv) && |stack| >= 8
    ensures Normalize(Wrap(stack, argv), MAX_DEPTH) == Err(TooDeep)
  {
    hide Unwrap, Wrap, AllFit;
    StackComesOff(stack, argv, MAX_DEPTH);
    NoDepth(argv);
  }

  lemma NoDepth(argv: seq<string>)
    ensures Normalize(argv, 0) == Err(TooDeep)
  {
  }

  /** A tmux command that is found is the end of the command line, beginning at a tmux program. */
  lemma {:induction false} TmuxIsSuffix(argv: seq<string>, target: seq<string>)
    requires Normalize(argv, MAX_DEPTH) == Ok(Tmux(target))
    ensures IsTmux(target) && |target| <= |argv| && argv[|argv| - |target|..] == target
  {
    hide Normalize, Wrap, AllFit, IsTmux;
    var stack := TmuxIsWrapped(argv, target, MAX_DEPTH);
    WrapEnds(stack, target);
  }

  lemma {:induction false} WrapEnds(stack: seq<Wrapper>, argv: seq<string>)
    ensures |argv| <= |Wrap(stack, argv)| && Wrap(stack, argv)[|Wrap(stack, argv)| - |argv|..] == argv
  {
    hide RenderWrapper;
    if stack != [] { WrapEnds(stack[1..], argv); }
  }
}
