/** Suggesting a flow for a goal (src/flow/suggest.rs). */
module FlowSuggest {
  import opened Base
  import opened Paths
  import opened FlowData
  import opened FlowCheck
  import opened FlowReports
  import opened FlowWellFormed
  import FlowLocks

  predicate IsAsciiAlphanumeric(c: char) {
    '0' <= c <= '9' || 'a' <= c <= 'z' || 'A' <= c <= 'Z'
  }

  function Lower(c: char): char {
    if 'A' <= c <= 'Z' then c + ('a' - 'A') else c
  }

  predicate IsSlugChar(c: char) {
    '0' <= c <= '9' || 'a' <= c <= 'z' || c == '_'
  }

  /** Lower-case words of ASCII letters and digits, joined by single underscores. */
  predicate IsSlug(s: string) {
    && s != ""
    && (forall c <- s :: IsSlugChar(c))
    && s[0] != '_' && s[|s| - 1] != '_'
    && (forall i :: 0 <= i < |s| - 1 ==> s[i] != '_' || s[i + 1] != '_')
  }

  /** The slug collected from the text so far; it may end in one separator. */
  function Words(text: string): (slug: string)
    ensures forall c <- slug :: IsSlugChar(c)
    ensures slug != "" ==> slug[0] != '_'
    ensures forall i :: 0 <= i < |slug| - 1 ==> slug[i] != '_' || slug[i + 1] != '_'
  {
    if text == "" then ""
    else
      var before, c := Words(text[..|text| - 1]), text[|text| - 1];
      if IsAsciiAlphanumeric(c) then before + [Lower(c)]
      else if before != "" && before[|before| - 1] != '_' then before + ['_']
      else before
  }

  function StripSeparator(s: string): string {
    if s != "" && s[|s| - 1] == '_' then s[..|s| - 1] else s
  }

  function Slug(value: string, fallback: string): (slug: string)
    ensures IsSlug(fallback) ==> IsSlug(slug)
  {
    var words := StripSeparator(Words(Trim(value)));
    if words == "" then fallback else words
  }

  lemma LoweredIsLetter(c: char)
    requires IsAsciiAlphanumeric(c)
    ensures Lower(c) != '_'
  {
  }

  /** slug_ascii_id. */
  method SlugAsciiId(value: string, fallback: string) returns (id: string)
    ensures id == Slug(value, fallback)
  {
    hide IsAsciiAlphanumeric, Lower, IsSlugChar, IsSlug, Trim;
    var text := Trim(value);
    var slug, lastWasSeparator := "", false;
    for i := 0 to |text|
      invariant slug == Words(text[..i])
      invariant lastWasSeparator <==> slug != "" && slug[|slug| - 1] == '_'
    {
      assert text[..i + 1][..i] == text[..i];
      if IsAsciiAlphanumeric(text[i]) {
        LoweredIsLetter(text[i]);
        slug, lastWasSeparator := slug + [Lower(text[i])], false;
      } else if slug != "" && !lastWasSeparator {
        slug, lastWasSeparator := slug + ['_'], true;
      }
    }
    assert text[..|text|] == text;
    while slug != "" && slug[|slug| - 1] == '_'
      invariant StripSeparator(slug) == StripSeparator(Words(text))
      invariant slug == Words(text) || slug == StripSeparator(Words(text))
      decreases |slug|
    {
      slug := slug[..|slug| - 1];
    }
    return if slug == "" then fallback else slug;
  }

  lemma SlugCharIsLower(c: char)
    requires IsSlugChar(c)
    ensures if c == '_' then !IsAsciiAlphanumeric(c) else IsAsciiAlphanumeric(c) && Lower(c) == c
  {
  }

  lemma {:induction false} WordsOfSlug(s: string)
    requires forall c <- s :: IsSlugChar(c)
    requires s != "" ==> s[0] != '_'
    requires forall i :: 0 <= i < |s| - 1 ==> s[i] != '_' || s[i + 1] != '_'
    ensures Words(s) == s
  {
    hide IsSlugChar, IsAsciiAlphanumeric, Lower;
    if s != "" {
      var before, c := s[..|s| - 1], s[|s| - 1];
      assert s == before + [c];
      WordsOfSlug(before);
      assert c in s;
      SlugCharIsLower(c);
      assert c == '_' ==> |s| >= 2 && s[|s| - 2] != '_';
    }
  }

  /** A slug is its own slug. */
  lemma SlugIsIdempotent(value: string, fallback: string)
    requires IsSlug(value) && IsSlug(fallback)
    ensures Slug(value, fallback) == value
  {
    assert value[0] in value && value[|value| - 1] in value;
    assert Trim(value) == value;
    WordsOfSlug(value);
  }

  predicate HasWord(text: string) {
    exists c <- text :: IsAsciiAlphanumeric(c)
  }

  function Lowered(word: string): string {
    seq(|word|, i requires 0 <= i < |word| => Lower(word[i]))
  }

  lemma {:induction false} WordsOfWord(word: string)
    requires forall c <- word :: IsAsciiAlphanumeric(c)
    ensures Words(word) == Lowered(word)
  {
    hide IsAsciiAlphanumeric, Lower;
    if word != "" {
      var front, last := word[..|word| - 1], word[|word| - 1];
      assert last in word && forall c <- front :: c in word;
      WordsOfWord(front);
      assert Lowered(word) == Lowered(front) + [Lower(last)];
    }
  }

  /** Behind a separator, or in front, the rest is collected as on its own. */
  lemma {:induction false} WordsContinue(text: string, rest: string)
    requires var words := Words(text); words == "" || words[|words| - 1] == '_'
    ensures Words(text + rest) == Words(text) + Words(rest)
  {
    hide IsAsciiAlphanumeric, Lower, IsSlugChar;
    if rest == "" {
      assert text + rest == text;
    } else {
      var front := rest[..|rest| - 1];
      WordsContinue(text, front);
      assert (text + rest)[..|text + rest| - 1] == text + front;
    }
  }

  lemma {:induction false} WordsOfNothing(text: string, rest: string)
    requires !HasWord(rest)
    ensures rest != "" && Words(text) != "" ==> Words(text + rest) == StripSeparator(Words(text)) + "_"
    ensures rest == "" || Words(text) == "" ==> Words(text + rest) == Words(text)
  {
    hide IsAsciiAlphanumeric, Lower, IsSlugChar;
    if rest == "" {
      assert text + rest == text;
    } else {
      var front, last := rest[..|rest| - 1], rest[|rest| - 1];
      assert last in rest && forall c <- front :: c in rest;
      WordsOfNothing(text, front);
      assert (text + rest)[..|text + rest| - 1] == text + front;
    }
  }

  lemma {:induction false} WordsAreThere(text: string)
    ensures Words(text) != "" <==> HasWord(text)
    ensures StripSeparator(Words(text)) == "" <==> !HasWord(text)
  {
    hide IsAsciiAlphanumeric, Lower, IsSlugChar;
    if text != "" {
      var front, last := text[..|text| - 1], text[|text| - 1];
      WordsAreThere(front);
      assert forall c :: c in text <==> c in front || c == last;
    }
  }

  lemma TrimmedWords(value: string)
    ensures StripSeparator(Words(Trim(value))) == StripSeparator(Words(value))
    decreases |value|
  {
    hide Words, StripSeparator;
    if value != "" && IsWhiteSpace(value[0]) {
      assert value == [value[0]] + value[1..];
      TrimmedWords(value[1..]);
      WordsInside([value[0]], value[1..], "");
      assert [value[0]] + value[1..] + "" == value;
    } else if value != "" && IsWhiteSpace(value[|value| - 1]) {
      var front, last := value[..|value| - 1], [value[|value| - 1]];
      assert value == "" + front + last;
      TrimmedWords(front);
      WordsInside("", front, last);
    }
  }

  /** What is around the first and the last word does not matter. */
  lemma WordsInside(before: string, text: string, after: string)
    requires !HasWord(before) && !HasWord(after)
    ensures StripSeparator(Words(before + text + after)) == StripSeparator(Words(text))
  {
    hide Words;
    WordsOfNothing("", before);
    assert "" + before == before;
    NoWords();
    WordsContinue(before, text);
    WordsOfNothing(before + text, after);
  }

  lemma NoWords()
    ensures Words("") == ""
  {
  }

  lemma SlugIs(value: string, fallback: string)
    ensures Slug(value, fallback)
         == if StripSeparator(Words(value)) == "" then fallback else StripSeparator(Words(value))
  {
    hide Words, StripSeparator, Trim;
    TrimmedWords(value);
  }

  lemma SlugOfWord(word: string, fallback: string)
    requires word != "" && forall c <- word :: '0' <= c <= '9' || 'a' <= c <= 'z' || 'A' <= c <= 'Z'
    ensures Slug(word, fallback) == Lowered(word)
  {
    hide Words, StripSeparator, Slug, IsAsciiAlphanumeric;
    forall c | c in word ensures IsAsciiAlphanumeric(c) { LettersAndDigits(c); }
    WordsOfWord(word);
    LoweredLast(word);
    SlugIs(word, fallback);
  }

  lemma SlugOfTwo(a: string, between: string, b: string, fallback: string)
    requires between != "" && !HasWord(between) && HasWord(a) && HasWord(b)
    ensures Slug(a + between + b, fallback) == Slug(a, fallback) + "_" + Slug(b, fallback)
  {
    hide Words, Slug, HasWord;
    WordsAreThere(a);
    WordsAreThere(b);
    WordsOfNothing(a, between);
    WordsContinue(a + between, b);
    SlugIs(a, fallback);
    SlugIs(b, fallback);
    SlugIs(a + between + b, fallback);
  }

  /** The slug of one word is the word in lower case; of text without a word, the fallback; and of two parts with
      words, with something in between that is none, their slugs with one separator. What is in front of the first
      word and behind the last one does not matter. */
  lemma {:induction false} SlugJoinsWords(a: string, between: string, b: string, before: string, after: string,
                                          fallback: string)
    requires !HasWord(between) && !HasWord(before) && !HasWord(after)
    ensures a != "" && (forall c <- a :: '0' <= c <= '9' || 'a' <= c <= 'z' || 'A' <= c <= 'Z') ==>
              Slug(a, fallback) == Lowered(a)
    ensures !HasWord(a) ==> Slug(a, fallback) == fallback
    ensures Slug(before + a + after, fallback) == Slug(a, fallback)
    ensures between != "" && HasWord(a) && HasWord(b) ==>
              Slug(a + between + b, fallback) == Slug(a, fallback) + "_" + Slug(b, fallback)
  {
    hide Words, StripSeparator, Slug, HasWord, Lowered;
    if a != "" && forall c <- a :: '0' <= c <= '9' || 'a' <= c <= 'z' || 'A' <= c <= 'Z' {
      SlugOfWord(a, fallback);
    }
    WordsAreThere(a);
    SlugIs(a, fallback);
    SlugIs(before + a + after, fallback);
    WordsInside(before, a, after);
    if between != "" && HasWord(a) && HasWord(b) { SlugOfTwo(a, between, b, fallback); }
  }

  lemma LettersAndDigits(c: char)
    requires '0' <= c <= '9' || 'a' <= c <= 'z' || 'A' <= c <= 'Z'
    ensures IsAsciiAlphanumeric(c)
  {
  }

  lemma LoweredLast(word: string)
    requires word != "" && forall c <- word :: IsAsciiAlphanumeric(c)
    ensures StripSeparator(Lowered(word)) == Lowered(word)
  {
    var last := word[|word| - 1];
    assert last in word;
    LoweredIsLetter(last);
  }

  /** The n-th name tried for a slug. */
  function Candidate(slug: string, n: nat): string {
    if n <= 1 then slug else slug + "_" + Decimal(n)
  }

  lemma CandidatesDiffer(slug: string, m: nat, n: nat)
    requires 1 <= m && 1 <= n && Candidate(slug, m) == Candidate(slug, n)
    ensures m == n
  {
    if m > 1 && n > 1 {
      assert Candidate(slug, m)[|slug| + 1..] == Decimal(m);
      assert Candidate(slug, n)[|slug| + 1..] == Decimal(n);
      DecimalInjective(m, n);
    }
  }

  /** The name is the first candidate that is not used yet. */
  ghost predicate FirstUnused(name: string, slug: string, used: set<string>) {
    exists n: nat :: 1 <= n && IsFirst(name, slug, used, n)
  }

  ghost predicate IsFirst(name: string, slug: string, used: set<string>, n: nat) {
    && name == Candidate(slug, n) && name !in used
    && AllUsed(slug, n, used)
  }

  ghost predicate AllUsed(slug: string, n: nat, used: set<string>) {
    forall m: nat :: 1 <= m < n ==> Candidate(slug, m) in used
  }

  ghost predicate UniqueIds(values: seq<string>, fallback: string, ids: seq<string>) {
    && |ids| == |values|
    && forall i :: 0 <= i < |ids| ==> FirstUnused(ids[i], Slug(values[i], fallback), ElementsOf(ids[..i]))
  }

  /** The search: each candidate that is in use is a different member of `used`. */
  method FindUnused(slug: string, start: nat, used: set<string>) returns (count: nat)
    requires 1 <= start && AllUsed(slug, start, used)
    ensures start <= count && IsFirst(Candidate(slug, count), slug, used, count)
  {
    count := start;
    ghost var tried := {};
    while Candidate(slug, count) in used
      invariant start <= count && AllUsed(slug, count, used)
      invariant tried <= used
      invariant forall name <- tried :: exists n: nat :: 1 <= n < count && name == Candidate(slug, n)
      decreases |used - tried|
    {
      var name := Candidate(slug, count);
      assert name !in tried by {
        forall n: nat | 1 <= n && name == Candidate(slug, n) ensures n == count { CandidatesDiffer(slug, n, count); }
      }
      assert used - tried == (used - (tried + {name})) + {name};
      tried := tried + {name};
      count := count + 1;
    }
  }

  /** unique_ascii_ids: the counts only save trying the candidates that are known to be used. */
  method UniqueAsciiIds(values: seq<string>, fallback: string) returns (ids: seq<string>)
    ensures UniqueIds(values, fallback, ids)
  {
    hide IsSlug, Slug, Candidate;
    ids := [];
    var counts: map<string, nat> := map[];
    var used := {};
    for i := 0 to |values|
      invariant UniqueIds(values[..i], fallback, ids)
      invariant used == ElementsOf(ids)
      invariant forall slug <- counts :: AllUsed(slug, counts[slug] + 1, used)
    {
      var slug := SlugAsciiId(values[i], fallback);
      var count := FindUnused(slug, (if slug in counts then counts[slug] else 0) + 1, used);
      var id := Candidate(slug, count);
      UniqueIdsAppend(values[..i], fallback, ids, values[i], id, count);
      assert values[..i + 1] == values[..i] + [values[i]];
      counts, used, ids := counts[slug := count], used + {id}, ids + [id];
    }
    assert values[..|values|] == values;
  }

  lemma UniqueIdsAppend(values: seq<string>, fallback: string, ids: seq<string>, value: string, id: string, n: nat)
    requires UniqueIds(values, fallback, ids)
    requires 1 <= n && IsFirst(id, Slug(value, fallback), ElementsOf(ids), n)
    ensures UniqueIds(values + [value], fallback, ids + [id])
    ensures ElementsOf(ids + [id]) == ElementsOf(ids) + {id}
  {
    hide IsSlug, Slug;
    forall i | 0 <= i <= |ids|
      ensures FirstUnused((ids + [id])[i], Slug((values + [value])[i], fallback), ElementsOf((ids + [id])[..i]))
    {
      if i < |ids| {
        assert (ids + [id])[..i] == ids[..i];
      } else {
        assert (ids + [id])[..i] == ids;
      }
    }
  }

  /** The ids are pairwise distinct slugs, or slugs with a number. */
  lemma {:induction false} UniqueIdsDiffer(values: seq<string>, fallback: string, ids: seq<string>)
    requires IsSlug(fallback) && UniqueIds(values, fallback, ids)
    ensures |ids| == |values|
    ensures forall i, j :: 0 <= i < j < |ids| ==> ids[i] != ids[j]
    ensures forall i :: 0 <= i < |ids| ==> IsSlug(ids[i])
  {
    forall i, j | 0 <= i < j < |ids| ensures ids[i] != ids[j] {
      assert FirstUnused(ids[j], Slug(values[j], fallback), ElementsOf(ids[..j]));
      assert ids[..j][i] in ElementsOf(ids[..j]);
    }
    forall i | 0 <= i < |ids| ensures IsSlug(ids[i]) {
      assert FirstUnused(ids[i], Slug(values[i], fallback), ElementsOf(ids[..i]));
      var n: nat :| 1 <= n && ids[i] == Candidate(Slug(values[i], fallback), n);
      CandidateIsSlug(Slug(values[i], fallback), n);
    }
  }

  lemma CandidateIsSlug(slug: string, n: nat)
    requires IsSlug(slug)
    ensures IsSlug(Candidate(slug, n))
  {
    if n > 1 {
      var number := Decimal(n);
      assert Candidate(slug, n) == slug + ("_" + number);
      assert forall c <- number :: IsSlugChar(c);
    }
  }

  /** The rule leaves no choice. */
  lemma {:induction false} UniqueIdsAreUnique(values: seq<string>, fallback: string, a: seq<string>, b: seq<string>)
    requires UniqueIds(values, fallback, a) && UniqueIds(values, fallback, b)
    ensures a == b
  {
    SameIds(values, fallback, a, b, |values|);
    assert a[..|values|] == a && b[..|values|] == b;
  }

  lemma FirstIsUnique(a: string, b: string, slug: string, used: set<string>)
    requires FirstUnused(a, slug, used) && FirstUnused(b, slug, used)
    ensures a == b
  {
    hide Candidate;
    var i: nat :| 1 <= i && IsFirst(a, slug, used, i);
    var j: nat :| 1 <= j && IsFirst(b, slug, used, j);
    assert i == j;
  }

  lemma {:induction false} SameIds(values: seq<string>, fallback: string, a: seq<string>, b: seq<string>, n: nat)
    requires UniqueIds(values, fallback, a) && UniqueIds(values, fallback, b) && n <= |values|
    ensures a[..n] == b[..n]
  {
    hide Slug, IsSlug, Candidate, FirstUnused;
    if n > 0 {
      SameIds(values, fallback, a, b, n - 1);
      FirstIsUnique(a[n - 1], b[n - 1], Slug(values[n - 1], fallback), ElementsOf(a[..n - 1]));
      assert a[..n] == a[..n - 1] + [a[n - 1]] && b[..n] == b[..n - 1] + [b[n - 1]];
    }
  }

  datatype SuggestError = BlankGoal | BlankReadme

  function ContractId(id: string): string {
    "contract." + id
  }

  function PromptPath(id: string): string {
    "prompts/" + id + ".md"
  }

  function SchemaPath(id: string, artifact: string): string {
    "schemas/" + id + "/" + artifact + ".txt"
  }

  function SuggestedNode(id: string, artifact: string): FlowNode {
    FlowNode(
      id,
      Some(ContractId(id)),
      Some(NodeAction(Agent, Some(PromptPath(id)), ["README.md"], [], ["artifact." + artifact], None)),
      [],
      [])
  }

  function SuggestedContract(id: string, artifact: string): FlowContract {
    FlowContract(ContractId(id), Some(AllArtifacts), [ContractArtifact(artifact, Some(SchemaPath(id, artifact)))])
  }

  function PromptText(id: string, goal: string, artifact: string): string {
    var ends := goal != "" && goal[|goal| - 1] in {'.', '!', '?'};
    "Run node " + id + " for goal: " + goal + (if ends then "" else ".")
    + " Deliver artifact with artifact_key \"" + artifact + "\"."
  }

  /** One node, contract, schema and prompt for each id, and the README. */
  function SuggestedDraft(goal: string, readme: string, ids: seq<string>, artifact: string): FlowDraft {
    FlowDraft(
      seq(|ids|, i requires 0 <= i < |ids| => SuggestedNode(ids[i], artifact)),
      seq(|ids|, i requires 0 <= i < |ids| => SuggestedContract(ids[i], artifact)),
      [],
      SuggestedResources(goal, readme, ids, artifact),
      [],
      [],
      [])
  }

  function SuggestedResources(goal: string, readme: string, ids: seq<string>, artifact: string): seq<FlowResource> {
    [FlowResource("README.md", Readme, readme)]
    + seq(|ids|, i requires 0 <= i < |ids| => FlowResource(SchemaPath(ids[i], artifact), Schema, artifact))
    + seq(|ids|, i requires 0 <= i < |ids| =>
        FlowResource(PromptPath(ids[i]), Prompt, PromptText(ids[i], goal, artifact)))
  }

  lemma SlugIsPlain(slug: string)
    requires IsSlug(slug)
    ensures '/' !in slug && IsPlainName(slug)
  {
    assert slug[0] in slug;
  }

  predicate StartsWith(s: string, c: char) {
    s != "" && s[0] == c
  }

  lemma PathsFit(id: string, artifact: string)
    requires IsSlug(id) && IsSlug(artifact)
    ensures PackagePathIsValid(PromptPath(id)) && StartsWith(PromptPath(id), 'p')
    ensures PackagePathIsValid(SchemaPath(id, artifact)) && StartsWith(SchemaPath(id, artifact), 's')
  {
    hide IsSlug, PackagePathIsValid;
    SlugIsPlain(id);
    SlugIsPlain(artifact);
    var prompt, schema := ["prompts", id + ".md"], ["schemas", id, artifact + ".txt"];
    assert prompt[..1] == ["prompts"] && schema[..2] == ["schemas", id] && schema[..2][..1] == ["schemas"];
    assert JoinPath(prompt) == PromptPath(id);
    assert JoinPath(schema[..2]) == "schemas" + ("/" + id);
    assert JoinPath(schema) == SchemaPath(id, artifact);
    assert PromptPath(id)[0] == 'p' && SchemaPath(id, artifact)[0] == 's';
    JoinedPathIsValid(prompt);
    JoinedPathIsValid(schema);
  }

  lemma PathsDiffer(a: string, b: string, artifact: string)
    requires a != b
    ensures PromptPath(a) != PromptPath(b) && SchemaPath(a, artifact) != SchemaPath(b, artifact)
    ensures ContractId(a) != ContractId(b)
  {
    var tail := "/" + artifact + ".txt";
    assert PromptPath(a)[8..|PromptPath(a)| - 3] == a && PromptPath(b)[8..|PromptPath(b)| - 3] == b;
    assert SchemaPath(a, artifact) == "schemas/" + a + tail && SchemaPath(b, artifact) == "schemas/" + b + tail;
    assert ("schemas/" + a + tail)[8..8 + |a|] == a && ("schemas/" + b + tail)[8..8 + |b|] == b;
    assert ContractId(a)[9..] == a && ContractId(b)[9..] == b;
  }

  lemma ResourcesFit(goal: string, readme: string, ids: seq<string>, artifact: string)
    requires forall i :: 0 <= i < |ids| ==> IsSlug(ids[i])
    requires forall i, j :: 0 <= i < j < |ids| ==> ids[i] != ids[j]
    requires IsSlug(artifact)
    ensures var resources := SuggestedResources(goal, readme, ids, artifact);
            UniqueResources(resources) && forall resource <- resources :: ResourceFits(resource)
  {
    hide IsSlug, PackagePathIsValid, StaysInside, IsThreeDeep, PromptText, PromptPath, SchemaPath;
    var n, resources := |ids|, SuggestedResources(goal, readme, ids, artifact);
    forall i | 0 <= i < n
      ensures PackagePathIsValid(PromptPath(ids[i])) && StartsWith(PromptPath(ids[i]), 'p')
      ensures PackagePathIsValid(SchemaPath(ids[i], artifact)) && StartsWith(SchemaPath(ids[i], artifact), 's')
    {
      PathsFit(ids[i], artifact);
    }
    ReadmePathIsValid();
    forall path ensures PackagePathIsValid(path) <==> path != "flow.json" && StaysInside(path) {
      PackagePathIsExact(path);
    }
    assert StartsWith("README.md", 'R');
    forall i, j | 0 <= i < j < |resources| ensures resources[i].id != resources[j].id {
      if 1 <= i < j <= n { PathsDiffer(ids[i - 1], ids[j - 1], artifact); }
      if n < i < j { PathsDiffer(ids[i - n - 1], ids[j - n - 1], artifact); }
    }
    forall i | 0 <= i < |resources| ensures ResourceFits(resources[i]) {
    }
  }

  lemma NodesFit(goal: string, readme: string, ids: seq<string>, artifact: string)
    ensures var draft := SuggestedDraft(goal, readme, ids, artifact);
            && (forall node <- draft.nodes :: NodeFits(draft, node))
            && (forall contract <- draft.contracts :: ContractFits(draft.resources, contract))
  {
    hide NodeFits, ContractFits, SuggestedResources;
    var draft := SuggestedDraft(goal, readme, ids, artifact);
    forall i | 0 <= i < |ids|
      ensures NodeFits(draft, draft.nodes[i]) && ContractFits(draft.resources, draft.contracts[i])
    {
      NodeFitsAt(goal, readme, ids, artifact, i);
      ContractFitsAt(goal, readme, ids, artifact, i);
    }
  }

  lemma NodeFitsAt(goal: string, readme: string, ids: seq<string>, artifact: string, i: nat)
    requires i < |ids|
    ensures var draft := SuggestedDraft(goal, readme, ids, artifact); NodeFits(draft, draft.nodes[i])
  {
    hide PromptText, PromptPath, SchemaPath, ContractId, MayExtend;
    var draft := SuggestedDraft(goal, readme, ids, artifact);
    assert draft.contracts[i] in draft.contracts;
    assert draft.resources[0] in draft.resources && draft.resources[1 + |ids| + i] in draft.resources;
    assert Embeds(draft.resources, "README.md");
  }

  lemma ContractFitsAt(goal: string, readme: string, ids: seq<string>, artifact: string, i: nat)
    requires i < |ids|
    ensures var draft := SuggestedDraft(goal, readme, ids, artifact); ContractFits(draft.resources, draft.contracts[i])
  {
    hide PromptText, PromptPath, SchemaPath, ContractId;
    var draft := SuggestedDraft(goal, readme, ids, artifact);
    assert draft.resources[1 + i] in draft.resources;
  }

  /** Every suggested flow passes the checker without a single diagnostic, in either mode. */
  lemma {:induction false} SuggestedFlowsCheck(goal: string, readme: string, ids: seq<string>, artifact: string,
                                               parse: QosParser, mode: Mode)
    requires !IsBlank(readme) && IsSlug(artifact)
    requires forall i :: 0 <= i < |ids| ==> IsSlug(ids[i])
    requires forall i, j :: 0 <= i < j < |ids| ==> ids[i] != ids[j]
    ensures Check(parse, SuggestedDraft(goal, readme, ids, artifact), mode) == []
  {
    hide IsSlug, IsBlank, NodeFits, ContractFits, ResourceFits;
    var draft := SuggestedDraft(goal, readme, ids, artifact);
    ResourcesFit(goal, readme, ids, artifact);
    NodesFit(goal, readme, ids, artifact);
    assert draft.resources[0] in draft.resources;
    assert draft.resources[0].kind == Readme && draft.resources[0].id == "README.md";
    forall i, j | 0 <= i < j < |ids| ensures draft.contracts[i].id != draft.contracts[j].id {
      PathsDiffer(ids[i], ids[j], artifact);
    }
    WellFormedReportsNothing(parse, draft, mode);
  }

  /** So each of them locks, and the lock reads back. */
  lemma {:induction false} SuggestedFlowsLock(goal: string, readme: string, ids: seq<string>, artifact: string,
                                              parse: QosParser, digest: FlowLocks.Digest, mode: Mode)
    requires !IsBlank(readme) && IsSlug(artifact)
    requires forall i :: 0 <= i < |ids| ==> IsSlug(ids[i])
    requires forall i, j :: 0 <= i < j < |ids| ==> ids[i] != ids[j]
    ensures var lock := FlowLocks.LockOf(parse, digest, SuggestedDraft(goal, readme, ids, artifact), mode);
            lock.Ok? && FlowLocks.Deserialize(parse, digest, FlowLocks.Serialize(lock.value)) == Ok(lock.value)
  {
    hide IsSlug, Check, SuggestedResources, FlowLocks.Deserialize;
    SuggestedFlowsCheck(goal, readme, ids, artifact, parse, mode);
    FlowLocks.LockRoundTrips(parse, digest, SuggestedDraft(goal, readme, ids, artifact), mode);
  }

  /** The text holds the other one. */
  ghost predicate Mentions(text: string, part: string) {
    exists before, after :: text == before + part + after
  }

  /** An agent node that writes the artifact which its contract needs to complete, with the schema of that artifact,
      and is prompted with its own id, the goal and the artifact. */
  ghost predicate DeliversFor(draft: FlowDraft, node: FlowNode, goal: string, artifact: string) {
    && node.action.Some? && node.contractId.Some?
    && var action := node.action.value;
    && action.driver == Agent && action.writeKeys == ["artifact." + artifact]
    && (exists contract <- draft.contracts ::
          && contract.id == node.contractId.value && contract.completion == Some(AllArtifacts)
          && |contract.artifacts| == 1 && contract.artifacts[0].id == artifact)
    && exists prompt <- draft.resources ::
         && prompt.kind == Prompt && action.promptRef == Some(prompt.id)
         && Mentions(prompt.source, node.id) && Mentions(prompt.source, goal)
         && Mentions(prompt.source, "\"" + artifact + "\"")
  }

  lemma MentionsMiddle(before: string, part: string, after: string)
    ensures Mentions(before + part + after, part)
  {
  }

  lemma MentionsLonger(text: string, part: string, more: string)
    requires Mentions(text, part)
    ensures Mentions(text + more, part)
  {
    var before, after :| text == before + part + after;
    assert text + more == before + part + (after + more);
  }

  lemma QuotedInside(front: string, key: string, name: string)
    ensures front + (key + "\"") + name + "\"." == (front + key) + ("\"" + name + "\"") + "."
  {
  }

  lemma PromptMentions(id: string, goal: string, artifact: string)
    ensures var text := PromptText(id, goal, artifact);
            Mentions(text, id) && Mentions(text, goal) && Mentions(text, "\"" + artifact + "\"")
  {
    hide Mentions;
    var dot := if goal != "" && goal[|goal| - 1] in {'.', '!', '?'} then "" else ".";
    var key := " Deliver artifact with artifact_key ";
    assert key + "\"" == " Deliver artifact with artifact_key \"";
    var start := "Run node " + id + " for goal: ";
    MentionsMiddle("Run node ", id, " for goal: ");
    MentionsLonger(start, id, goal);
    MentionsLonger(start + goal, id, dot);
    MentionsMiddle(start, goal, dot);
    var front := start + goal + dot;
    MentionsEnd(front, id, key, artifact);
    MentionsEnd(front, goal, key, artifact);
    QuotedInside(front, key, artifact);
    MentionsMiddle(front + key, "\"" + artifact + "\"", ".");
  }

  lemma MentionsEnd(front: string, part: string, key: string, artifact: string)
    requires Mentions(front, part)
    ensures Mentions(front + (key + "\"") + artifact + "\".", part)
  {
    hide Mentions;
    MentionsLonger(front, part, key + "\"");
    MentionsLonger(front + (key + "\""), part, artifact);
    MentionsLonger(front + (key + "\"") + artifact, part, "\".");
  }

  /** Every node of a suggested draft is such a node. */
  lemma {:induction false} SuggestedNodesDeliver(goal: string, readme: string, ids: seq<string>, artifact: string)
    ensures var draft := SuggestedDraft(goal, readme, ids, artifact);
            && |draft.nodes| == |ids|
            && forall i :: 0 <= i < |ids| ==>
                 draft.nodes[i].id == ids[i] && DeliversFor(draft, draft.nodes[i], goal, artifact)
  {
    hide PromptText, Mentions, PromptPath, SchemaPath, ContractId;
    var draft := SuggestedDraft(goal, readme, ids, artifact);
    forall i | 0 <= i < |ids|
      ensures draft.nodes[i].id == ids[i] && DeliversFor(draft, draft.nodes[i], goal, artifact)
    {
      PromptMentions(ids[i], goal, artifact);
      assert draft.contracts[i] in draft.contracts;
      assert draft.resources[1 + |ids| + i] in draft.resources;
    }
  }

  /** The draft is the suggestion for these inputs, with `ids` naming its nodes. */
  ghost predicate Suggests(goal: string, readme: string, nodes: seq<string>, artifact: Option<string>, ids: seq<string>,
                           draft: FlowDraft)
  {
    && UniqueIds(if nodes == [] then ["root"] else nodes, "node", ids)
    && draft == SuggestedDraft(Trim(goal), readme, ids, Slug(artifact.GetOr("result"), "result"))
  }

  /** flow_suggest. */
  method SuggestFlow(goal: string, readme: string, nodes: seq<string>, artifact: Option<string>)
    returns (r: Result<FlowDraft, SuggestError>)
    ensures r == Err(BlankGoal) <==> IsBlank(goal)
    ensures r == Err(BlankReadme) <==> !IsBlank(goal) && IsBlank(readme)
    ensures r.Ok? ==> exists ids :: Suggests(goal, readme, nodes, artifact, ids, r.value)
    ensures r.Ok? ==> forall parse, mode :: Check(parse, r.value, mode) == []
    ensures r.Ok? ==>
              && |r.value.nodes| == (if nodes == [] then 1 else |nodes|)
              && forall node <- r.value.nodes ::
                   DeliversFor(r.value, node, Trim(goal), Slug(artifact.GetOr("result"), "result"))
  {
    hide DeliversFor, Check, Slug, SuggestedDraft, UniqueIds, IsBlank, Trim;
    if Trim(goal) == "" {
      return Err(BlankGoal);
    }
    if Trim(readme) == "" {
      return Err(BlankReadme);
    }
    var key := "result";
    FallbacksAreSlugs();
    if artifact.Some? {
      key := SlugAsciiId(artifact.value, "result");
    }
    var rawNodes := if nodes == [] then ["root"] else nodes;
    var ids := UniqueAsciiIds(rawNodes, "node");
    UniqueIdsDiffer(rawNodes, "node", ids);
    forall parse, mode ensures Check(parse, SuggestedDraft(Trim(goal), readme, ids, key), mode) == [] {
      SuggestedFlowsCheck(Trim(goal), readme, ids, key, parse, mode);
    }
    r := Ok(SuggestedDraft(Trim(goal), readme, ids, key));
    SuggestedNodesDeliver(Trim(goal), readme, ids, key);
    assert Suggests(goal, readme, nodes, artifact, ids, r.value);
  }

  lemma FallbacksAreSlugs()
    ensures IsSlug("result") && IsSlug("node") && Slug("result", "result") == "result"
  {
    hide Slug;
    SlugIsIdempotent("result", "result");
  }
}
