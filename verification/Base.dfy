/** Shared vocabulary: optional values, results, and the 64-bit counters of the driver. */
module Base {

  datatype Option<+T> = None | Some(value: T) {
    function GetOr(default: T): T {
      if Some? then value else default
    }
  }

  datatype Result<+T, +E> = Ok(value: T) | Err(error: E)

  const U64_MAX: nat := 0xFFFF_FFFF_FFFF_FFFF

  /** Rust's `u64::saturating_add(1)`. */
  function SaturatingSucc(n: nat): nat {
    if n < U64_MAX then n + 1 else U64_MAX
  }

  /** The entries of a map whose key is not in `keys`. */
  function Without<K, V>(m: map<K, V>, keys: set<K>): map<K, V> {
    map k | k in m && k !in keys :: m[k]
  }

  function ElementsOf<T>(s: seq<T>): set<T> {
    set x | x in s
  }

  /** A non-negative integer in decimal, without leading zeros. */
  function Decimal(n: nat): (s: string)
    ensures |s| > 0
    ensures forall i :: 0 <= i < |s| ==> '0' <= s[i] <= '9'
  {
    var digit := ['0' + (n % 10) as char];
    if n < 10 then digit else Decimal(n / 10) + digit
  }

  /** Two different numbers never print alike. */
  lemma {:induction false} DecimalInjective(m: nat, n: nat)
    requires Decimal(m) == Decimal(n)
    ensures m == n
  {
    var a, b := Decimal(m), Decimal(n);
    assert a[|a| - 1] == '0' + (m % 10) as char;
    assert b[|b| - 1] == '0' + (n % 10) as char;
    assert m % 10 == n % 10;
    if m >= 10 && n >= 10 {
      assert a[..|a| - 1] == Decimal(m / 10);
      assert b[..|b| - 1] == Decimal(n / 10);
      DecimalInjective(m / 10, n / 10);
    }
  }

  /** The pieces between separators, one more than there are separators. */
  function SplitOn<T(==)>(s: seq<T>, separator: T): (pieces: seq<seq<T>>)
    ensures |pieces| > 0
    ensures forall i :: 0 <= i < |pieces| ==> separator !in pieces[i]
  {
    if s == [] then [[]]
    else
      var before, last := SplitOn(s[..|s| - 1], separator), s[|s| - 1];
      if last == separator then before + [[]]
      else before[..|before| - 1] + [before[|before| - 1] + [last]]
  }

  /** Text without separators lengthens the last piece. */
  lemma {:induction false} SplitAppend<T>(s: seq<T>, rest: seq<T>, separator: T)
    requires separator !in rest
    ensures var pieces := SplitOn(s, separator);
            SplitOn(s + rest, separator) == pieces[..|pieces| - 1] + [pieces[|pieces| - 1] + rest]
  {
    var pieces := SplitOn(s, separator);
    var before, last := pieces[..|pieces| - 1], pieces[|pieces| - 1];
    if rest == [] {
      assert s + rest == s;
      assert last + rest == last;
    } else {
      var shorter := rest[..|rest| - 1];
      assert (s + rest)[..|s + rest| - 1] == s + shorter;
      SplitAppend(s, shorter, separator);
      assert (before + [last + shorter])[..|before|] == before;
      assert (last + shorter) + [rest[|rest| - 1]] == last + rest;
    }
  }

  lemma SplitNone<T>(piece: seq<T>, separator: T)
    requires separator !in piece
    ensures SplitOn(piece, separator) == [piece]
  {
    SplitAppend([], piece, separator);
    assert [] + piece == piece;
  }

  lemma SplitOneMore<T>(s: seq<T>, piece: seq<T>, separator: T)
    requires separator !in piece
    ensures SplitOn(s + ([separator] + piece), separator) == SplitOn(s, separator) + [piece]
  {
    assert (s + [separator])[..|s + [separator]| - 1] == s;
    SplitAppend(s + [separator], piece, separator);
    assert s + ([separator] + piece) == (s + [separator]) + piece;
    assert [] + piece == piece;
  }

  /** The characters with the Unicode property White_Space. */
  predicate IsWhiteSpace(c: char) {
    var code := c as int;
    || 0x9 <= code <= 0xD || code == 0x20 || code == 0x85 || code == 0xA0 || code == 0x1680
    || 0x2000 <= code <= 0x200A || code == 0x2028 || code == 0x2029 || code == 0x202F || code == 0x205F
    || code == 0x3000
  }

  predicate IsBlank(s: string) {
    forall c <- s :: IsWhiteSpace(c)
  }

  function Trim(s: string): (r: string)
    ensures r != [] ==> !IsWhiteSpace(r[0]) && !IsWhiteSpace(r[|r| - 1])
    ensures r == [] <==> IsBlank(s)
    ensures |r| <= |s|
    decreases |s|
  {
    if s == [] then s
    else if IsWhiteSpace(s[0]) then assert s == [s[0]] + s[1..]; Trim(s[1..])
    else if IsWhiteSpace(s[|s| - 1]) then assert s[0] in s; Trim(s[..|s| - 1])
    else assert s[0] in s; s
  }
}
