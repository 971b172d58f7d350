/** The options in front of a command's operands (src/tmux_guard.rs): the parser, and the grammar of
    what it accepts. A lone `--` ends the options, as Guideline 10 in section 12.2 of POSIX.1-2017 XBD
    has it. */
module ShellOptions {
  import opened Base

  datatype Grammar = Grammar(shortFlags: string, shortValues: string, longFlags: seq<string>, longValues: seq<string>)

  datatype OptionError = TakesNoValue | RequiresValue | Unsupported

  /** `nextIndex` is where the operands begin. */
  datatype Parsed = Parsed(nextIndex: nat, shortFlags: set<char>, shortValues: map<char, string>) {
    /** These options, then those: a later value of an option replaces an earlier one. */
    function Then(other: Parsed): Parsed {
      Parsed(nextIndex + other.nextIndex, shortFlags + other.shortFlags, shortValues + other.shortValues)
    }
  }

  const NOTHING := Parsed(0, {}, map[])

  /** One option as it is written. */
  datatype Item =
    | LongFlag(name: string)
    | LongAttached(name: string, value: string)
    | LongSeparate(name: string, value: string)
    | Cluster(flags: string)
    | ClusterAttached(flags: string, option: char, text: string)
    | ClusterSeparate(flags: string, option: char, value: string)

  function Render(item: Item): seq<string> {
    match item
    case LongFlag(name) => ["--" + name]
    case LongAttached(name, value) => ["--" + name + "=" + value]
    case LongSeparate(name, value) => ["--" + name, value]
    case Cluster(flags) => ["-" + flags]
    case ClusterAttached(flags, option, text) => ["-" + flags + [option] + text]
    case ClusterSeparate(flags, option, value) => ["-" + flags + [option], value]
  }

  /** An attached value may follow any number of `=`. */
  function TrimEquals(text: string): string {
    if text != "" && text[0] == '=' then TrimEquals(text[1..]) else text
  }

  predicate AllFlags(g: Grammar, flags: string) {
    forall c <- flags :: c in g.shortFlags
  }

  predicate TakesValue(g: Grammar, option: char) {
    option in g.shortValues && option !in g.shortFlags
  }

  predicate Legal(g: Grammar, item: Item) {
    match item
    case LongFlag(name) => name in g.longFlags
    case LongAttached(name, value) => name in g.longValues && name !in g.longFlags && value != ""
    case LongSeparate(name, _) => name in g.longValues && name !in g.longFlags
    case Cluster(flags) => flags != "" && AllFlags(g, flags)
    case ClusterAttached(flags, option, text) => AllFlags(g, flags) && TakesValue(g, option) && TrimEquals(text) != ""
    case ClusterSeparate(flags, option, value) => AllFlags(g, flags) && TakesValue(g, option) && value != ""
  }

  /** No grammar here has `-` as an option, or a long name that is empty or holds `=`. */
  predicate IsGrammar(g: Grammar) {
    && '-' !in g.shortFlags && '-' !in g.shortValues
    && (forall name <- g.longFlags :: name != "" && '=' !in name)
    && (forall name <- g.longValues :: name != "" && '=' !in name)
  }

  function ParsedOf(item: Item): (parsed: Parsed)
    ensures parsed.nextIndex == |Render(item)| > 0
  {
    match item
    case Cluster(flags) => Parsed(1, ElementsOf(flags), map[])
    case ClusterAttached(flags, option, text) => Parsed(1, ElementsOf(flags), map[option := TrimEquals(text)])
    case ClusterSeparate(flags, option, value) => Parsed(2, ElementsOf(flags), map[option := value])
    case _ => Parsed(|Render(item)|, {}, map[])
  }

  datatype Head = Stop | Terminator | Took(item: Item) | Bad(error: OptionError)

  function IndexOf(s: string, c: char): (n: nat)
    ensures n <= |s| && c !in s[..n]
    ensures n < |s| ==> s[n] == c
  {
    if s == "" || s[0] == c then 0
    else
      assert s[..IndexOf(s[1..], c) + 1] == [s[0]] + s[1..][..IndexOf(s[1..], c)];
      IndexOf(s[1..], c) + 1
  }

  function LongHead(long: string, args: seq<string>, g: Grammar): Head
    requires args != []
  {
    var n := IndexOf(long, '=');
    var name := long[..n];
    if name in g.longFlags then (if n < |long| then Bad(TakesNoValue) else Took(LongFlag(name)))
    else if name in g.longValues then
      if n < |long| then (if n + 1 == |long| then Bad(RequiresValue) else Took(LongAttached(name, long[n + 1..])))
      else if |args| == 1 then Bad(RequiresValue)
      else Took(LongSeparate(name, args[1]))
    else Bad(Unsupported)
  }

  /** How many characters in front are flags. */
  function FlagCount(g: Grammar, cluster: string): (n: nat)
    ensures n <= |cluster| && AllFlags(g, cluster[..n])
    ensures n < |cluster| ==> cluster[n] !in g.shortFlags
  {
    if cluster == "" || cluster[0] !in g.shortFlags then 0
    else
      assert cluster[..FlagCount(g, cluster[1..]) + 1] == [cluster[0]] + cluster[1..][..FlagCount(g, cluster[1..])];
      FlagCount(g, cluster[1..]) + 1
  }

  function ClusterHead(cluster: string, args: seq<string>, g: Grammar): Head
    requires args != []
  {
    var n := FlagCount(g, cluster);
    if n == |cluster| then Took(Cluster(cluster))
    else if cluster[n] !in g.shortValues then Bad(Unsupported)
    else if n + 1 < |cluster| then
      if TrimEquals(cluster[n + 1..]) == "" then Bad(RequiresValue)
      else Took(ClusterAttached(cluster[..n], cluster[n], cluster[n + 1..]))
    else if |args| == 1 || args[1] == "" then Bad(RequiresValue)
    else Took(ClusterSeparate(cluster[..n], cluster[n], args[1]))
  }

  predicate IsOperand(word: string) {
    word == "" || word[0] != '-' || word == "-"
  }

  /** What the first word begins. */
  function HeadOf(args: seq<string>, g: Grammar): Head
    requires args != []
  {
    var word := args[0];
    if word == "--" then Terminator
    else if IsOperand(word) then Stop
    else if "--" <= word then LongHead(word[2..], args, g)
    else ClusterHead(word[1..], args, g)
  }

  lemma LongIsRendered(long: string, args: seq<string>, g: Grammar)
    requires args != [] && args[0] == "--" + long && LongHead(long, args, g).Took?
    ensures var item := LongHead(long, args, g).item; Legal(g, item) && Render(item) <= args
  {
    var n := IndexOf(long, '=');
    if n < |long| {
      assert long == long[..n] + "=" + long[n + 1..];
      assert args[0] == "--" + long[..n] + "=" + long[n + 1..];
    } else {
      assert long[..n] == long;
    }
  }

  lemma ClusterIsRendered(cluster: string, args: seq<string>, g: Grammar)
    requires args != [] && args[0] == "-" + cluster && cluster != "" && ClusterHead(cluster, args, g).Took?
    ensures var item := ClusterHead(cluster, args, g).item; Legal(g, item) && Render(item) <= args
  {
    var n := FlagCount(g, cluster);
    if n < |cluster| {
      assert cluster == cluster[..n] + [cluster[n]] + cluster[n + 1..];
      assert args[0] == "-" + cluster[..n] + [cluster[n]] + cluster[n + 1..];
      if n + 1 == |cluster| {
        assert args[0] == "-" + cluster[..n] + [cluster[n]];
      }
    } else {
      assert cluster[..n] == cluster;
    }
  }

  /** An option that is taken is legal and is written in front. */
  lemma HeadIsRendered(args: seq<string>, g: Grammar)
    requires args != [] && HeadOf(args, g).Took?
    ensures var item := HeadOf(args, g).item; Legal(g, item) && Render(item) <= args
  {
    hide LongHead, ClusterHead, Legal, Render;
    var word := args[0];
    if "--" <= word {
      assert word == "--" + word[2..];
      LongIsRendered(word[2..], args, g);
    } else {
      assert word == "-" + word[1..];
      ClusterIsRendered(word[1..], args, g);
    }
  }

  lemma {:induction false} IndexOfIs(s: string, rest: string, c: char)
    requires c !in s
    ensures IndexOf(s, c) == |s| && IndexOf(s + [c] + rest, c) == |s|
  {
    if s != "" {
      assert s == [s[0]] + s[1..];
      IndexOfIs(s[1..], rest, c);
      assert (s + [c] + rest)[1..] == s[1..] + [c] + rest;
    }
  }

  lemma {:induction false} FlagCountIs(g: Grammar, flags: string, rest: string)
    requires AllFlags(g, flags) && (rest != "" ==> rest[0] !in g.shortFlags)
    ensures FlagCount(g, flags + rest) == |flags|
  {
    if flags == "" {
      assert flags + rest == rest;
    } else {
      assert flags == [flags[0]] + flags[1..];
      FlagCountIs(g, flags[1..], rest);
      assert (flags + rest)[1..] == flags[1..] + rest;
    }
  }

  lemma LongHeadIs(item: Item, rest: seq<string>, g: Grammar)
    requires IsGrammar(g) && Legal(g, item) && (item.LongFlag? || item.LongAttached? || item.LongSeparate?)
    ensures LongHead(LongText(item), Render(item) + rest, g) == Took(item)
  {
    var long := LongText(item);
    if item.LongAttached? {
      IndexOfIs(item.name, item.value, '=');
      assert long[..|item.name|] == item.name && long[|item.name| + 1..] == item.value;
    } else {
      IndexOfIs(item.name, "", '=');
      assert long[..|item.name|] == item.name;
    }
  }

  /** The characters of a long option after its `--`. */
  function LongText(item: Item): string
    requires item.LongFlag? || item.LongAttached? || item.LongSeparate?
  {
    if item.LongAttached? then item.name + "=" + item.value else item.name
  }

  lemma LongIsTaken(item: Item, rest: seq<string>, g: Grammar)
    requires IsGrammar(g) && Legal(g, item) && (item.LongFlag? || item.LongAttached? || item.LongSeparate?)
    ensures HeadOf(Render(item) + rest, g) == Took(item)
  {
    hide LongHead, ClusterHead;
    var word, long := Render(item)[0], LongText(item);
    LongHeadIs(item, rest, g);
    assert word == "--" + long && long != "";
    assert word[2..] == long;
  }

  /** The characters of a cluster after its `-`. */
  function ClusterText(item: Item): string
    requires item.Cluster? || item.ClusterAttached? || item.ClusterSeparate?
  {
    item.flags + (if item.Cluster? then "" else [item.option] + (if item.ClusterAttached? then item.text else ""))
  }

  lemma ClusterHeadIs(item: Item, rest: seq<string>, g: Grammar)
    requires Legal(g, item) && (item.Cluster? || item.ClusterAttached? || item.ClusterSeparate?)
    ensures ClusterHead(ClusterText(item), Render(item) + rest, g) == Took(item)
  {
    var cluster, flags := ClusterText(item), item.flags;
    var tail := cluster[|flags|..];
    assert cluster == flags + tail;
    FlagCountIs(g, flags, tail);
    assert cluster[..|flags|] == flags;
    if item.ClusterAttached? {
      assert cluster[|flags| + 1..] == item.text;
    }
  }

  lemma ClusterIsTaken(item: Item, rest: seq<string>, g: Grammar)
    requires IsGrammar(g) && Legal(g, item) && (item.Cluster? || item.ClusterAttached? || item.ClusterSeparate?)
    ensures HeadOf(Render(item) + rest, g) == Took(item)
  {
    hide ClusterHead, LongHead;
    var word, cluster := Render(item)[0], ClusterText(item);
    ClusterHeadIs(item, rest, g);
    assert word == "-" + cluster;
    assert word[1..] == cluster;
    ClusterStarts(item, g);
  }

  lemma ClusterStarts(item: Item, g: Grammar)
    requires IsGrammar(g) && Legal(g, item) && (item.Cluster? || item.ClusterAttached? || item.ClusterSeparate?)
    ensures ClusterText(item) != "" && ClusterText(item)[0] != '-'
  {
    assert item.flags != "" ==> item.flags[0] in item.flags;
  }

  lemma ItemIsTaken(item: Item, rest: seq<string>, g: Grammar)
    requires IsGrammar(g) && Legal(g, item)
    ensures HeadOf(Render(item) + rest, g) == Took(item)
  {
    if item.LongFlag? || item.LongAttached? || item.LongSeparate? {
      LongIsTaken(item, rest, g);
    } else {
      ClusterIsTaken(item, rest, g);
    }
  }

  function After(parsed: Parsed, rest: Result<Parsed, OptionError>): Result<Parsed, OptionError> {
    match rest
    case Ok(more) => Ok(parsed.Then(more))
    case Err(error) => Err(error)
  }

  /** parse_options on the words from the front. */
  function Parse(args: seq<string>, g: Grammar): (r: Result<Parsed, OptionError>)
    ensures r.Ok? ==> r.value.nextIndex <= |args|
    decreases |args|
  {
    if args == [] || HeadOf(args, g).Stop? then Ok(NOTHING)
    else if HeadOf(args, g).Terminator? then Ok(Parsed(1, {}, map[]))
    else if HeadOf(args, g).Bad? then Err(HeadOf(args, g).error)
    else
      HeadIsRendered(args, g);
      var item := HeadOf(args, g).item;
      After(ParsedOf(item), Parse(args[|Render(item)|..], g))
  }

  lemma ParseTakes(args: seq<string>, g: Grammar)
    requires args != [] && HeadOf(args, g).Took?
    ensures var item := HeadOf(args, g).item;
            && 0 < |Render(item)| <= |args|
            && Parse(args, g) == After(ParsedOf(item), Parse(args[|Render(item)|..], g))
  {
    HeadIsRendered(args, g);
    RenderIsNonEmpty(HeadOf(args, g).item);
  }

  lemma ParseEnds(args: seq<string>, g: Grammar)
    ensures args == [] ==> EndsOptions(args)
    ensures EndsOptions(args) ==> (args == [] || !HeadOf(args, g).Took?) && Parse(args, g) == Ok(TerminatorOf(args))
    ensures !EndsOptions(args) && HeadOf(args, g).Bad? ==> Parse(args, g) == Err(HeadOf(args, g).error)
    ensures !EndsOptions(args) ==> HeadOf(args, g).Took? || HeadOf(args, g).Bad?
  {
  }

  lemma ThenNothing(a: Parsed)
    ensures NOTHING.Then(a) == a && a.Then(NOTHING) == a
  {
    assert NOTHING.Then(a).shortFlags == a.shortFlags && a.Then(NOTHING).shortFlags == a.shortFlags;
    assert NOTHING.Then(a).shortValues == a.shortValues && a.Then(NOTHING).shortValues == a.shortValues;
  }

  function RenderAll(items: seq<Item>): seq<string> {
    if items == [] then [] else Render(items[0]) + RenderAll(items[1..])
  }

  function ParsedAll(items: seq<Item>): Parsed {
    if items == [] then NOTHING else ParsedOf(items[0]).Then(ParsedAll(items[1..]))
  }

  /** The operands, behind a `--` or not; without it the first one must not look like an option. */
  predicate EndsOptions(tail: seq<string>) {
    tail == [] || tail[0] == "--" || IsOperand(tail[0])
  }

  function TerminatorOf(tail: seq<string>): Parsed {
    if tail != [] && tail[0] == "--" then Parsed(1, {}, map[]) else NOTHING
  }

  predicate AllLegal(g: Grammar, items: seq<Item>) {
    forall item <- items :: Legal(g, item)
  }

  /** Any legal options, in any order and form, then operands: the parser takes exactly the options. */
  lemma {:induction false} ParseAccepts(items: seq<Item>, tail: seq<string>, g: Grammar)
    requires IsGrammar(g) && AllLegal(g, items) && EndsOptions(tail)
    ensures Parse(RenderAll(items) + tail, g) == Ok(ParsedAll(items).Then(TerminatorOf(tail)))
  {
    hide HeadOf, Render, IsGrammar, Legal, ParsedOf, Parse;
    if items == [] {
      assert RenderAll(items) + tail == tail;
      ParseEnds(tail, g);
      ThenNothing(TerminatorOf(tail));
    } else {
      var item, rest := items[0], items[1..];
      var words := RenderAll(rest) + tail;
      assert item in items && AllLegal(g, rest);
      assert RenderAll(items) + tail == Render(item) + words;
      ItemIsTaken(item, words, g);
      RenderIsNonEmpty(item);
      ParseTakes(Render(item) + words, g);
      ParseAccepts(rest, tail, g);
      assert (Render(item) + words)[|Render(item)|..] == words;
      ThenAssociates(ParsedOf(item), ParsedAll(rest), TerminatorOf(tail));
    }
  }

  lemma RenderIsNonEmpty(item: Item)
    ensures Render(item) != []
  {
  }

  lemma ThenAssociates(a: Parsed, b: Parsed, c: Parsed)
    ensures a.Then(b).Then(c) == a.Then(b.Then(c))
  {
    var x, y := a.Then(b).Then(c), a.Then(b.Then(c));
    assert x.shortFlags == y.shortFlags && x.shortValues == y.shortValues;
  }

  lemma NoItems(g: Grammar)
    ensures RenderAll([]) == [] && ParsedAll([]) == NOTHING && AllLegal(g, [])
  {
  }

  lemma OneMoreItem(item: Item, rest: seq<Item>, g: Grammar)
    ensures RenderAll([item] + rest) == Render(item) + RenderAll(rest)
    ensures ParsedAll([item] + rest) == ParsedOf(item).Then(ParsedAll(rest))
    ensures Legal(g, item) && AllLegal(g, rest) ==> AllLegal(g, [item] + rest)
  {
    assert ([item] + rest)[1..] == rest;
  }

  /** And it accepts nothing else: whatever it accepts is legal options followed by operands. */
  lemma {:induction false} ParseIsRendered(args: seq<string>, g: Grammar) returns (items: seq<Item>, tail: seq<string>)
    requires Parse(args, g).Ok?
    ensures AllLegal(g, items) && EndsOptions(tail) && args == RenderAll(items) + tail
    ensures Parse(args, g) == Ok(ParsedAll(items).Then(TerminatorOf(tail)))
    decreases |args|
  {
    hide Legal, Render, HeadOf, ParsedOf, Parse, RenderAll, ParsedAll, AllLegal, EndsOptions, TerminatorOf;
    NoItems(g);
    ParseEnds(args, g);
    if EndsOptions(args) {
      ThenNothing(TerminatorOf(args));
      items, tail := [], args;
      assert [] + args == args;
    } else {
      var item := HeadOf(args, g).item;
      HeadIsRendered(args, g);
      ParseTakes(args, g);
      var more := args[|Render(item)|..];
      var rest;
      rest, tail := ParseIsRendered(more, g);
      items := [item] + rest;
      OneMoreItem(item, rest, g);
      ThenAssociates(ParsedOf(item), ParsedAll(rest), TerminatorOf(tail));
      FrontAndRest(args, Render(item), RenderAll(rest), tail);
    }
  }

  lemma FrontAndRest<T>(whole: seq<T>, front: seq<T>, middle: seq<T>, tail: seq<T>)
    requires front <= whole && whole[|front|..] == middle + tail
    ensures whole == front + middle + tail
  {
    assert whole == front + (middle + tail);
  }

  /** What is wrong with the first word, by the error it is reported as. */
  ghost predicate IsBad(words: seq<string>, g: Grammar, error: OptionError) {
    && words != []
    && match error
       case TakesNoValue => exists name, value :: name in g.longFlags && words[0] == "--" + name + "=" + value
       case RequiresValue => LacksLongValue(words, g) || LacksShortValue(words, g)
       case Unsupported => IsUnknownLong(words[0], g) || IsUnknownShort(words[0], g)
  }

  /** A long option that takes a value, with none attached, or nothing behind it. */
  ghost predicate LacksLongValue(words: seq<string>, g: Grammar)
    requires words != []
  {
    exists name :: name in g.longValues && name !in g.longFlags
                   && (words[0] == "--" + name + "=" || (words[0] == "--" + name && |words| == 1))
  }

  /** A cluster that ends in an option that takes a value, with none attached but `=`, or nothing behind it. */
  ghost predicate LacksShortValue(words: seq<string>, g: Grammar)
    requires words != []
  {
    exists flags, option, text :: EndsWithoutValue(words, g, flags, option, text)
  }

  predicate EndsWithoutValue(words: seq<string>, g: Grammar, flags: string, option: char, text: string)
    requires words != []
  {
    && AllFlags(g, flags) && TakesValue(g, option) && words[0] == "-" + flags + [option] + text
    && if text == "" then |words| == 1 || words[1] == "" else TrimEquals(text) == ""
  }

  ghost predicate IsUnknownLong(word: string, g: Grammar) {
    exists name, rest :: NamesNothing(word, g, name, rest)
  }

  predicate NamesNothing(word: string, g: Grammar, name: string, rest: string) {
    && '=' !in name && name !in g.longFlags && name !in g.longValues && (rest == "" || rest[0] == '=')
    && word == "--" + name + rest && word != "--"
  }

  ghost predicate IsUnknownShort(word: string, g: Grammar) {
    exists flags, option, text ::
      AllFlags(g, flags) && option !in g.shortFlags && option !in g.shortValues && !("--" <= word)
      && word == "-" + flags + [option] + text
  }

  lemma LongIsBad(long: string, words: seq<string>, g: Grammar, error: OptionError)
    requires words != [] && words[0] == "--" + long && long != "" && LongHead(long, words, g) == Bad(error)
    ensures IsBad(words, g, error)
  {
    var n := IndexOf(long, '=');
    var name := long[..n];
    assert long == name + long[n..] && words[0] == "--" + name + long[n..];
    assert |words[0]| > 2;
    if error == Unsupported {
      assert NamesNothing(words[0], g, name, long[n..]);
    } else if n < |long| {
      assert long[n..] == "=" + long[n + 1..];
      assert words[0] == "--" + name + "=" + long[n + 1..];
      if n + 1 == |long| { assert words[0] == "--" + name + "="; }
    } else {
      assert words[0] == "--" + name;
    }
  }

  lemma ClusterIsBad(cluster: string, words: seq<string>, g: Grammar, error: OptionError)
    requires words != [] && words[0] == "-" + cluster && cluster != "" && cluster[0] != '-'
    requires ClusterHead(cluster, words, g) == Bad(error)
    ensures IsBad(words, g, error)
  {
    var n := FlagCount(g, cluster);
    assert cluster == cluster[..n] + [cluster[n]] + cluster[n + 1..];
    assert words[0] == "-" + cluster[..n] + [cluster[n]] + cluster[n + 1..];
    assert words[0][1] == cluster[0];
    if cluster[n] in g.shortValues {
      assert EndsWithoutValue(words, g, cluster[..n], cluster[n], cluster[n + 1..]);
    } else {
      assert IsUnknownShort(words[0], g);
    }
  }

  lemma HeadIsBad(words: seq<string>, g: Grammar, error: OptionError)
    requires words != [] && HeadOf(words, g) == Bad(error)
    ensures IsBad(words, g, error)
  {
    hide LongHead, ClusterHead, IsBad;
    var word := words[0];
    if "--" <= word {
      assert word == "--" + word[2..];
      LongIsBad(word[2..], words, g, error);
    } else {
      assert word == "-" + word[1..];
      ClusterIsBad(word[1..], words, g, error);
    }
  }

  lemma LongWord(long: string, words: seq<string>, g: Grammar)
    requires words != [] && words[0] == "--" + long && long != ""
    ensures HeadOf(words, g) == LongHead(long, words, g)
  {
    hide LongHead, ClusterHead;
    assert words[0][2..] == long;
  }

  lemma ClusterWord(cluster: string, words: seq<string>, g: Grammar)
    requires words != [] && words[0] == "-" + cluster && cluster != "" && !("--" <= words[0])
    ensures HeadOf(words, g) == ClusterHead(cluster, words, g)
  {
    hide LongHead, ClusterHead;
    assert words[0][1..] == cluster;
  }

  lemma NameEndsAt(name: string, rest: string)
    requires '=' !in name && (rest == "" || rest[0] == '=')
    ensures IndexOf(name + rest, '=') == |name| && (name + rest)[..|name|] == name
  {
    hide IndexOf;
    if rest == "" {
      assert name + rest == name;
      IndexOfIs(name, "", '=');
    } else {
      assert rest == "=" + rest[1..];
      IndexOfIs(name, rest[1..], '=');
      assert name + rest == name + "=" + rest[1..];
    }
  }

  lemma BadLongHead(name: string, rest: string, words: seq<string>, g: Grammar)
    requires words != [] && words[0] == "--" + name + rest && words[0] != "--"
    requires '=' !in name && (rest == "" || rest[0] == '=')
    ensures HeadOf(words, g) == LongHead(name + rest, words, g)
    ensures IndexOf(name + rest, '=') == |name|
  {
    hide LongHead, HeadOf, IndexOf;
    assert "--" + name + rest == "--" + (name + rest);
    LongWord(name + rest, words, g);
    NameEndsAt(name, rest);
  }

  lemma BadClusterHead(flags: string, option: char, text: string, words: seq<string>, g: Grammar)
    requires words != [] && words[0] == "-" + flags + [option] + text && !("--" <= words[0])
    requires AllFlags(g, flags) && option !in g.shortFlags
    ensures HeadOf(words, g) == ClusterHead(flags + ([option] + text), words, g)
    ensures FlagCount(g, flags + ([option] + text)) == |flags|
  {
    hide ClusterHead, HeadOf, FlagCount;
    assert "-" + flags + [option] + text == "-" + (flags + ([option] + text));
    ClusterWord(flags + ([option] + text), words, g);
    FlagCountIs(g, flags, [option] + text);
  }

  /** A word is refused as what is wrong with it. */
  lemma BadIsRefused(words: seq<string>, g: Grammar, error: OptionError)
    requires IsGrammar(g) && IsBad(words, g, error)
    ensures HeadOf(words, g) == Bad(error)
  {
    hide HeadOf, IndexOf, FlagCount;
    var word := words[0];
    match error {
      case TakesNoValue =>
        var name, value :| name in g.longFlags && word == "--" + name + "=" + value;
        assert word == "--" + name + ("=" + value);
        BadLongHead(name, "=" + value, words, g);
        assert (name + ("=" + value))[..|name|] == name;
      case RequiresValue =>
        if LacksLongValue(words, g) {
          LongValueIsRefused(words, g);
        } else {
          ShortValueIsRefused(words, g);
        }
      case Unsupported =>
        if IsUnknownLong(word, g) {
          var name, rest :| NamesNothing(word, g, name, rest);
          BadLongHead(name, rest, words, g);
          assert (name + rest)[..|name|] == name;
        } else {
          var flags, option, text :| AllFlags(g, flags) && option !in g.shortFlags && option !in g.shortValues
                                     && !("--" <= word) && word == "-" + flags + [option] + text;
          BadClusterHead(flags, option, text, words, g);
          assert (flags + ([option] + text))[|flags|] == option;
        }
    }
  }

  lemma LongValueIsRefused(words: seq<string>, g: Grammar)
    requires IsGrammar(g) && words != [] && LacksLongValue(words, g)
    ensures HeadOf(words, g) == Bad(RequiresValue)
  {
    hide HeadOf, IndexOf;
    var name :| name in g.longValues && name !in g.longFlags
                && (words[0] == "--" + name + "=" || (words[0] == "--" + name && |words| == 1));
    var rest := if words[0] == "--" + name + "=" then "=" else "";
    assert words[0] == "--" + name + rest;
    BadLongHead(name, rest, words, g);
    assert (name + rest)[..|name|] == name;
  }

  lemma ShortValueIsRefused(words: seq<string>, g: Grammar)
    requires IsGrammar(g) && words != [] && LacksShortValue(words, g)
    ensures HeadOf(words, g) == Bad(RequiresValue)
  {
    hide HeadOf, FlagCount;
    var flags, option, text :| EndsWithoutValue(words, g, flags, option, text);
    NoDashes(flags, option, g);
    assert words[0][1] == (flags + [option])[0];
    BadClusterHead(flags, option, text, words, g);
    assert (flags + ([option] + text))[|flags|] == option;
    assert (flags + ([option] + text))[|flags| + 1..] == text;
  }

  lemma NoDashes(flags: string, option: char, g: Grammar)
    requires IsGrammar(g) && AllFlags(g, flags) && TakesValue(g, option)
    ensures (flags + [option])[0] != '-'
  {
    if flags != "" { assert flags[0] in flags; }
  }

  /** Words are refused exactly when, behind some legal options, there is a word with something wrong, and for
      what is wrong with it. */
  lemma {:induction false} ErrorsAreExact(args: seq<string>, g: Grammar, error: OptionError)
    requires IsGrammar(g)
    ensures Parse(args, g) == Err(error)
       <==> exists items, rest :: AllLegal(g, items) && args == RenderAll(items) + rest && IsBad(rest, g, error)
  {
    hide Parse, IsBad, RenderAll, AllLegal, IsGrammar;
    if Parse(args, g) == Err(error) {
      var items, rest := ErrorIsBehind(args, g, error);
    }
    forall items, rest | AllLegal(g, items) && args == RenderAll(items) + rest && IsBad(rest, g, error)
      ensures Parse(args, g) == Err(error)
    {
      BadIsBehind(items, rest, g, error);
    }
  }

  lemma {:induction false} ErrorIsBehind(args: seq<string>, g: Grammar, error: OptionError)
    returns (items: seq<Item>, rest: seq<string>)
    requires Parse(args, g) == Err(error)
    ensures AllLegal(g, items) && args == RenderAll(items) + rest && IsBad(rest, g, error)
    decreases |args|
  {
    hide Legal, Render, HeadOf, ParsedOf, Parse, RenderAll, AllLegal, IsBad, EndsOptions, TerminatorOf;
    ParseEnds(args, g);
    NoItems(g);
    if HeadOf(args, g).Bad? {
      HeadIsBad(args, g, error);
      items, rest := [], args;
      assert [] + args == args;
    } else {
      var item := HeadOf(args, g).item;
      HeadIsRendered(args, g);
      ParseTakes(args, g);
      var more;
      more, rest := ErrorIsBehind(args[|Render(item)|..], g, error);
      items := [item] + more;
      OneMoreItem(item, more, g);
      assert args == Render(item) + args[|Render(item)|..];
      assert args == Render(item) + RenderAll(more) + rest;
    }
  }

  lemma {:induction false} BadIsBehind(items: seq<Item>, rest: seq<string>, g: Grammar, error: OptionError)
    requires IsGrammar(g) && AllLegal(g, items) && IsBad(rest, g, error)
    ensures Parse(RenderAll(items) + rest, g) == Err(error)
  {
    hide HeadOf, Render, IsGrammar, Legal, ParsedOf, Parse, EndsOptions;
    if items == [] {
      assert RenderAll(items) + rest == rest;
      BadIsRefused(rest, g, error);
      ParseEnds(rest, g);
      BadEndsNothing(rest, g, error);
    } else {
      var item, words := items[0], RenderAll(items[1..]) + rest;
      assert item in items && AllLegal(g, items[1..]);
      assert RenderAll(items) + rest == Render(item) + words;
      ItemIsTaken(item, words, g);
      RenderIsNonEmpty(item);
      ParseTakes(Render(item) + words, g);
      BadIsBehind(items[1..], rest, g, error);
      assert (Render(item) + words)[|Render(item)|..] == words;
    }
  }

  lemma BadEndsNothing(words: seq<string>, g: Grammar, error: OptionError)
    requires words != [] && HeadOf(words, g) == Bad(error)
    ensures !EndsOptions(words)
  {
  }

  lemma NoCharacters()
    ensures ElementsOf("") == {}
  {
  }

  lemma OneMoreCharacter(s: string, k: nat)
    requires k < |s|
    ensures ElementsOf(s[..k + 1]) == ElementsOf(s[..k]) + {s[k]}
  {
    assert s[..k + 1] == s[..k] + [s[k]];
  }

  /** The character loop over one cluster. */
  method ParseCluster(cluster: string, args: seq<string>, g: Grammar) returns (r: Result<Parsed, OptionError>)
    requires args != []
    ensures r == match ClusterHead(cluster, args, g)
                 case Took(item) => Ok(ParsedOf(item))
                 case Bad(error) => Err(error)
                 case _ => Err(Unsupported)
  {
    hide ElementsOf, TrimEquals;
    NoCharacters();
    var flags := {};
    for k := 0 to |cluster|
      invariant flags == ElementsOf(cluster[..k])
      invariant FlagCount(g, cluster) == k + FlagCount(g, cluster[k..])
    {
      var option := cluster[k];
      assert cluster[k..][1..] == cluster[k + 1..] && cluster[..k + 1] == cluster[..k] + [option];
      if option in g.shortFlags {
        OneMoreCharacter(cluster, k);
        flags := flags + {option};
      } else if option in g.shortValues {
        if k + 1 < |cluster| {
          var value := TrimEquals(cluster[k + 1..]);
          return if value == "" then Err(RequiresValue) else Ok(Parsed(1, flags, map[option := value]));
        }
        return if |args| == 1 || args[1] == "" then Err(RequiresValue)
               else Ok(Parsed(2, flags, map[option := args[1]]));
      } else {
        return Err(Unsupported);
      }
    }
    assert cluster[..|cluster|] == cluster && cluster[|cluster|..] == "";
    return Ok(Parsed(1, flags, map[]));
  }

  method ParseLong(long: string, args: seq<string>, g: Grammar) returns (r: Result<Parsed, OptionError>)
    requires args != []
    ensures r == match LongHead(long, args, g)
                 case Took(item) => Ok(ParsedOf(item))
                 case Bad(error) => Err(error)
                 case _ => Err(Unsupported)
  {
    var n := IndexOf(long, '=');
    var name := long[..n];
    if name in g.longFlags {
      return if n < |long| then Err(TakesNoValue) else Ok(Parsed(1, {}, map[]));
    }
    if name in g.longValues {
      if n < |long| {
        return if long[n + 1..] == "" then Err(RequiresValue) else Ok(Parsed(1, {}, map[]));
      }
      return if |args| == 1 then Err(RequiresValue) else Ok(Parsed(2, {}, map[]));
    }
    return Err(Unsupported);
  }

  /** What one option adds to those parsed before. */
  lemma OneStep(args: seq<string>, parsed: Parsed, g: Grammar)
    requires parsed.nextIndex < |args|
    ensures var rest := args[parsed.nextIndex..];
            var head := HeadOf(rest, g);
            && (head.Bad? ==> Parse(rest, g) == Err(head.error))
            && (head.Took? ==>
                  var next := parsed.Then(ParsedOf(head.item));
                  && parsed.nextIndex < next.nextIndex <= |args|
                  && After(parsed, Parse(rest, g)) == After(next, Parse(args[next.nextIndex..], g)))
  {
    hide HeadOf, Render;
    var rest := args[parsed.nextIndex..];
    ParseEnds(rest, g);
    if HeadOf(rest, g).Took? {
      var item := HeadOf(rest, g).item;
      HeadIsRendered(rest, g);
      ParseTakes(rest, g);
      var more := Parse(rest[|Render(item)|..], g);
      assert rest[|Render(item)|..] == args[parsed.nextIndex + |Render(item)|..];
      if more.Ok? { ThenAssociates(parsed, ParsedOf(item), more.value); }
    }
  }

  /** parse_options. */
  method ParseOptions(args: seq<string>, g: Grammar) returns (r: Result<Parsed, OptionError>)
    ensures r == Parse(args, g)
  {
    hide ClusterHead, LongHead, Render, Parse, ParsedOf;
    var parsed := NOTHING;
    assert args[0..] == args;
    if Parse(args, g).Ok? { ThenNothing(Parse(args, g).value); }
    while parsed.nextIndex < |args|
      invariant parsed.nextIndex <= |args|
      invariant Parse(args, g) == After(parsed, Parse(args[parsed.nextIndex..], g))
      decreases |args| - parsed.nextIndex
    {
      var rest := args[parsed.nextIndex..];
      var word := rest[0];
      ParseEnds(rest, g);
      if word == "--" {
        return Ok(parsed.Then(Parsed(1, {}, map[])));
      }
      if IsOperand(word) {
        return Ok(parsed.Then(NOTHING));
      }
      var one;
      if "--" <= word {
        one := ParseLong(word[2..], rest, g);
      } else {
        one := ParseCluster(word[1..], rest, g);
      }
      OneStep(args, parsed, g);
      if one.Err? {
        return Err(one.error);
      }
      parsed := parsed.Then(one.value);
    }
    assert args[parsed.nextIndex..] == [];
    ParseEnds([], g);
    return Ok(parsed.Then(NOTHING));
  }
}
