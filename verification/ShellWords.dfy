/** Literal shell words: quoting one (src/driver/actuation.rs) and decoding one (src/tmux_guard.rs). */
module ShellWords {
  import opened Base

  datatype Quote = Unquoted | Single | Double

  datatype WordError = EndsWithEscape | DynamicWord | UnquotedWhitespace | UnmatchedQuote

  const APOSTROPHE: char := '\''
  const QUOTATION: char := '\"'
  const BACKSLASH: char := '\\'

  function Prepend(s: string, r: Result<string, WordError>): Result<string, WordError> {
    match r
    case Ok(rest) => Ok(s + rest)
    case Err(error) => Err(error)
  }

  lemma Prepends(a: string, b: string, r: Result<string, WordError>)
    ensures Prepend("", r) == r && Prepend(a, Prepend(b, r)) == Prepend(a + b, r)
    ensures Prepend(a, Ok("")) == Ok(a)
  {
    assert a + "" == a;
    if r.Ok? {
      assert "" + r.value == r.value && a + (b + r.value) == (a + b) + r.value;
    }
  }

  /** What the rest of a word decodes to, inside the given quotation. */
  function Decode(quote: Quote, word: string): Result<string, WordError>
    decreases |word|
  {
    if word == "" then (if quote.Unquoted? then Ok("") else Err(UnmatchedQuote))
    else
      var c, rest := word[0], word[1..];
      if quote.Unquoted? && c == APOSTROPHE then Decode(Single, rest)
      else if quote.Unquoted? && c == QUOTATION then Decode(Double, rest)
      else if (quote.Single? && c == APOSTROPHE) || (quote.Double? && c == QUOTATION) then Decode(Unquoted, rest)
      else if quote.Single? then Prepend([c], Decode(quote, rest))
      else if c == BACKSLASH then
        if rest == "" then Err(EndsWithEscape) else Prepend([rest[0]], Decode(quote, rest[1..]))
      else if c in "$`" || (quote.Unquoted? && c in "*?[") then Err(DynamicWord)
      else if quote.Unquoted? && IsWhiteSpace(c) then Err(UnquotedWhitespace)
      else Prepend([c], Decode(quote, rest))
  }

  function DecodeWord(word: string): Result<string, WordError> {
    Decode(Unquoted, word)
  }

  /** decode_literal_shell_word: one pass with a buffer. */
  method DecodeLiteralShellWord(word: string) returns (r: Result<string, WordError>)
    ensures r == DecodeWord(word)
  {
    var decoded, quote, i := "", Unquoted, 0;
    assert word[0..] == word;
    Prepends("", "", DecodeWord(word));
    while i < |word|
      invariant 0 <= i <= |word|
      invariant DecodeWord(word) == Prepend(decoded, Decode(quote, word[i..]))
    {
      var c := word[i];
      assert word[i..][1..] == word[i + 1..];
      i := i + 1;
      match (quote, c) {
        case (Unquoted, '\'') => quote := Single;
        case (Unquoted, '\"') => quote := Double;
        case (Single, '\'') => quote := Unquoted;
        case (Double, '\"') => quote := Unquoted;
        case (Single, _) =>
          Prepends(decoded, [c], Decode(quote, word[i..]));
          decoded := decoded + [c];
        case (_, '\\') =>
          if i == |word| {
            return Err(EndsWithEscape);
          }
          assert word[i..][1..] == word[i + 1..];
          Prepends(decoded, [word[i]], Decode(quote, word[i + 1..]));
          decoded, i := decoded + [word[i]], i + 1;
        case _ =>
          if c in "$`" || (quote.Unquoted? && c in "*?[") {
            return Err(DynamicWord);
          }
          if quote.Unquoted? && IsWhiteSpace(c) {
            return Err(UnquotedWhitespace);
          }
          Prepends(decoded, [c], Decode(quote, word[i..]));
          decoded := decoded + [c];
      }
    }
    assert word[i..] == "";
    Prepends(decoded, "", Ok(""));
    return if quote.Unquoted? then Ok(decoded) else Err(UnmatchedQuote);
  }

  /** The value with each `'` replaced by `'\''`. */
  function Escaped(value: string): string {
    if value == "" then "" else EscapedChar(value[0]) + Escaped(value[1..])
  }

  function EscapedChar(c: char): string {
    if c == APOSTROPHE then "'\\''" else [c]
  }

  /** shell_single_quote. */
  function Quoted(value: string): string {
    "'" + Escaped(value) + "'"
  }

  lemma {:induction false} EscapedDecodes(value: string, rest: string)
    ensures Decode(Single, Escaped(value) + rest) == Prepend(value, Decode(Single, rest))
  {
    hide Decode, EscapedChar;
    Prepends("", "", Decode(Single, rest));
    if value == "" {
      assert Escaped(value) + rest == rest;
    } else {
      var c, tail := value[0], Escaped(value[1..]) + rest;
      EscapedDecodes(value[1..], rest);
      EscapedCharDecodes(c, tail);
      Prepends([c], value[1..], Decode(Single, rest));
      assert value == [c] + value[1..];
      assert Escaped(value) + rest == EscapedChar(c) + tail;
    }
  }

  lemma EscapedCharDecodes(c: char, tail: string)
    ensures Decode(Single, EscapedChar(c) + tail) == Prepend([c], Decode(Single, tail))
  {
    if c == APOSTROPHE {
      ApostropheDecodes(tail);
    } else {
      assert ([c] + tail)[1..] == tail;
    }
  }

  lemma ApostropheDecodes(tail: string)
    ensures Decode(Single, "'\\''" + tail) == Prepend("'", Decode(Single, tail))
  {
    var a, b, c := "'\\''" + tail, "\\''" + tail, "'" + tail;
    assert a[1..] == b && b[1..][1..] == c && c[1..] == tail;
    assert Decode(Single, a) == Decode(Unquoted, b);
    assert Decode(Unquoted, b) == Prepend("'", Decode(Unquoted, c));
    assert Decode(Unquoted, c) == Decode(Single, tail);
  }

  /** Quoting then decoding gives back any string at all. */
  lemma QuotedDecodes(value: string)
    ensures DecodeWord(Quoted(value)) == Ok(value)
  {
    EscapedDecodes(value, "'");
    Prepends(value, "", Ok(""));
    assert Quoted(value)[1..] == Escaped(value) + "'";
    assert ("'")[1..] == "";
    assert Decode(Unquoted, "") == Ok("");
    assert Decode(Single, "'") == Ok("");
  }

  /** So no two strings quote alike. */
  lemma QuotedInjective(a: string, b: string)
    requires Quoted(a) == Quoted(b)
    ensures a == b
  {
    QuotedDecodes(a);
    QuotedDecodes(b);
  }

  /** Adjacent words decode on their own: the state between them is that of the start. */
  lemma {:induction false} DecodeAppend(quote: Quote, a: string, b: string)
    requires Decode(quote, a).Ok?
    ensures Decode(quote, a + b) == Prepend(Decode(quote, a).value, DecodeWord(b))
    decreases |a|
  {
    Prepends("", "", DecodeWord(b));
    if a == "" {
      assert a + b == b;
    } else {
      var c, rest := a[0], a[1..];
      assert (a + b)[1..] == rest + b;
      var next := if quote.Unquoted? && c == APOSTROPHE then Single
                  else if quote.Unquoted? && c == QUOTATION then Double
                  else if (quote.Single? && c == APOSTROPHE) || (quote.Double? && c == QUOTATION) then Unquoted
                  else quote;
      if !quote.Single? && c == BACKSLASH {
        assert (rest + b)[1..] == rest[1..] + b;
        DecodeAppend(quote, rest[1..], b);
        Prepends([rest[0]], Decode(quote, rest[1..]).value, DecodeWord(b));
      } else {
        DecodeAppend(next, rest, b);
        Prepends([c], Decode(next, rest).value, DecodeWord(b));
      }
    }
  }

  /** A word between single quotes stands for itself exactly when it has no single quote in it. */
  lemma {:induction false} SingleQuotesPreserve(value: string)
    ensures APOSTROPHE !in value ==> DecodeWord("'" + value + "'") == Ok(value)
    ensures APOSTROPHE in value ==> DecodeWord("'" + value + "'") != Ok(value)
  {
    assert ("'" + value + "'")[1..] == value + "'";
    if APOSTROPHE !in value {
      EscapedPlain(value);
      QuotedDecodes(value);
    } else {
      InnerQuoteShortens(value);
    }
  }

  lemma {:induction false} EscapedPlain(value: string)
    requires APOSTROPHE !in value
    ensures Escaped(value) == value
  {
    if value != "" {
      EscapedPlain(value[1..]);
      assert EscapedChar(value[0]) == [value[0]];
      assert value == [value[0]] + value[1..];
      assert value[0] in value;
    }
  }

  lemma {:induction false} DecodedIsShorter(quote: Quote, word: string)
    ensures Decode(quote, word).Ok? ==> |Decode(quote, word).value| + (if quote.Unquoted? then 0 else 1) <= |word|
    decreases |word|
  {
    if word != "" {
      DecodedIsShorter(Unquoted, word[1..]);
      DecodedIsShorter(Single, word[1..]);
      DecodedIsShorter(Double, word[1..]);
      if |word| > 1 { DecodedIsShorter(quote, word[1..][1..]); }
    }
  }

  /** An unquoted word that loses no character holds no quote. */
  lemma {:induction false} NothingLost(word: string)
    requires Decode(Unquoted, word).Ok? && |Decode(Unquoted, word).value| == |word|
    ensures APOSTROPHE !in word && QUOTATION !in word
    decreases |word|
  {
    if word != "" {
      var rest := word[1..];
      assert word == [word[0]] + rest;
      DecodedIsShorter(Single, rest);
      DecodedIsShorter(Double, rest);
      if |word| > 1 { DecodedIsShorter(Unquoted, rest[1..]); }
      NothingLost(rest);
    }
  }

  /** A quote inside closes the quotation, so that at least the two and the last one are lost. */
  lemma {:induction false} InnerQuoteShortens(value: string)
    requires APOSTROPHE in value
    ensures var r := Decode(Single, value + "'"); r.Ok? ==> |r.value| < |value|
  {
    var word := value + "'";
    assert word[1..] == value[1..] + "'";
    assert value == [value[0]] + value[1..];
    if value[0] == APOSTROPHE {
      var r := Decode(Unquoted, word[1..]);
      DecodedIsShorter(Unquoted, word[1..]);
      assert APOSTROPHE == word[1..][|word[1..]| - 1];
      if r.Ok? && |r.value| == |word[1..]| { NothingLost(word[1..]); }
    } else {
      InnerQuoteShortens(value[1..]);
    }
  }

  /** Neither quotes nor escapes, and nothing that a shell expands or splits at. */
  predicate IsPlainChar(c: char) {
    c !in {APOSTROPHE, QUOTATION, BACKSLASH, '$', '`', '*', '?', '['} && !IsWhiteSpace(c)
  }

  /** An unquoted word stands for itself exactly when it is plain. */
  lemma {:induction false} PlainWordsStand(word: string)
    ensures DecodeWord(word) == Ok(word) <==> forall c <- word :: IsPlainChar(c)
    decreases |word|
  {
    hide IsWhiteSpace;
    if word != "" {
      var c, rest := word[0], word[1..];
      assert word == [c] + rest;
      PlainWordsStand(rest);
      DecodedIsShorter(Single, rest);
      DecodedIsShorter(Double, rest);
      if rest != "" { DecodedIsShorter(Unquoted, rest[1..]); }
      assert c in word && forall x :: x in word <==> x == c || x in rest;
      if IsPlainChar(c) {
        assert DecodeWord(word) == Prepend([c], DecodeWord(rest));
        if DecodeWord(rest).Ok? {
          assert ([c] + DecodeWord(rest).value)[1..] == DecodeWord(rest).value;
        }
      } else {
        assert DecodeWord(word).Ok? ==> |DecodeWord(word).value| < |word|;
      }
    }
  }

  /** What double quotes do not take from a character. */
  predicate IsPlainInDoubleQuotes(c: char) {
    c !in {QUOTATION, BACKSLASH, '$', '`'}
  }

  lemma {:induction false} DoubleDecodes(value: string, rest: string)
    requires forall c <- value :: IsPlainInDoubleQuotes(c)
    ensures Decode(Double, value + rest) == Prepend(value, Decode(Double, rest))
  {
    Prepends("", "", Decode(Double, rest));
    if value == "" {
      assert value + rest == rest;
    } else {
      var c := value[0];
      assert value == [c] + value[1..] && (value + rest)[1..] == value[1..] + rest;
      assert c in value;
      DoubleDecodes(value[1..], rest);
      Prepends([c], value[1..], Decode(Double, rest));
    }
  }

  /** A word between double quotes stands for itself exactly when it holds no double quote, backslash, dollar sign
      or backquote (section 2.2.3 of POSIX.1-2017 XCU). */
  lemma {:induction false} DoubleQuotesPreserve(value: string)
    ensures DecodeWord("\"" + value + "\"") == Ok(value) <==> forall c <- value :: IsPlainInDoubleQuotes(c)
  {
    assert ("\"" + value + "\"")[1..] == value + "\"";
    if forall c <- value :: IsPlainInDoubleQuotes(c) {
      DoubleDecodes(value, "\"");
      assert ("\"")[1..] == "" && Decode(Unquoted, "") == Ok("");
      assert Decode(Double, "\"") == Ok("");
      Prepends(value, "", Ok(""));
    } else {
      InnerSpecialShortens(value);
    }
  }

  lemma {:induction false} InnerSpecialShortens(value: string)
    requires !forall c <- value :: IsPlainInDoubleQuotes(c)
    ensures var r := Decode(Double, value + "\""); r.Ok? ==> |r.value| < |value|
  {
    var word := value + "\"";
    var c, rest := word[0], word[1..];
    assert value == [value[0]] + value[1..] && rest == value[1..] + "\"";
    if c == QUOTATION {
      DecodedIsShorter(Unquoted, rest);
      assert QUOTATION == rest[|rest| - 1];
      if Decode(Unquoted, rest).Ok? && |Decode(Unquoted, rest).value| == |rest| { NothingLost(rest); }
    } else if c == BACKSLASH {
      DecodedIsShorter(Double, rest[1..]);
    } else if IsPlainInDoubleQuotes(c) {
      InnerSpecialShortens(value[1..]);
    }
  }

  /** Outside quotes, what a shell would expand is refused wherever it comes, and so is white space. */
  lemma RefusesUnquoted(a: string, c: char, b: string)
    requires DecodeWord(a).Ok? && (c in {'$', '`', '*', '?', '['} || IsWhiteSpace(c))
    ensures DecodeWord(a + [c] + b)
         == Err(if c in {'$', '`', '*', '?', '['} then DynamicWord else UnquotedWhitespace)
  {
    DecodeAppend(Unquoted, a, [c] + b);
    assert a + [c] + b == a + ([c] + b);
  }

  /** Inside double quotes, dollar signs and backquotes are. */
  lemma RefusesInDoubleQuotes(a: string, value: string, c: char, b: string)
    requires DecodeWord(a).Ok? && (forall x <- value :: IsPlainInDoubleQuotes(x)) && c in {'$', '`'}
    ensures DecodeWord(a + "\"" + value + [c] + b) == Err(DynamicWord)
  {
    var rest := value + ([c] + b);
    DecodeAppend(Unquoted, a, "\"" + rest);
    DoubleDecodes(value, [c] + b);
    assert ("\"" + rest)[1..] == rest;
    assert a + "\"" + value + [c] + b == a + ("\"" + rest);
  }

  /** The value with a backslash before each character. */
  function Backslashed(value: string): string {
    if value == "" then "" else [BACKSLASH, value[0]] + Backslashed(value[1..])
  }

  /** A backslash makes any character stand for itself, inside double quotes too. */
  lemma {:induction false} BackslashPreserves(quote: Quote, value: string, rest: string)
    requires !quote.Single?
    ensures Decode(quote, Backslashed(value) + rest) == Prepend(value, Decode(quote, rest))
  {
    Prepends("", "", Decode(quote, rest));
    if value == "" {
      assert Backslashed(value) + rest == rest;
    } else {
      var tail := Backslashed(value[1..]) + rest;
      BackslashPreserves(quote, value[1..], rest);
      assert Backslashed(value) + rest == [BACKSLASH, value[0]] + tail;
      assert ([BACKSLASH, value[0]] + tail)[1..] == [value[0]] + tail && ([value[0]] + tail)[1..] == tail;
      Prepends([value[0]], value[1..], Decode(quote, rest));
      assert value == [value[0]] + value[1..];
    }
  }
}
