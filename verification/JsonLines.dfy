/** Line-delimited logs and the recovery of a torn last line (src/driver/storage.rs). A log is bytes; how
    one record is printed and parsed is a parameter. */
module JsonLines {
  import opened Base

  type Byte = b: nat | b < 256

  const NEWLINE: Byte := 10

  /** `decode` fails on bytes that are no UTF-8 or no JSON; `blank` is `trim().is_empty()`. */
  datatype Codec<!T> = Codec(encode: T -> seq<Byte>, decode: seq<Byte> -> Option<T>, blank: seq<Byte> -> bool)

  /** What JSON printing gives: one line, not blank, that reads back. */
  ghost predicate Faithful<T(!new)>(c: Codec<T>) {
    && c.blank([])
    && forall v: T :: NEWLINE !in c.encode(v) && !c.blank(c.encode(v)) && c.decode(c.encode(v)) == Some(v)
  }

  datatype InvalidData = InvalidData

  datatype AppendError = WriteFailed | SyncFailed

  /** No record can follow the start of another on one line: true of JSON objects. */
  ghost predicate Separating<T(!new)>(c: Codec<T>) {
    forall v: T, n: nat, w: T :: 0 < n <= |c.encode(v)| ==>
      !c.blank(c.encode(v)[..n] + c.encode(w)) && c.decode(c.encode(v)[..n] + c.encode(w)) == None
  }

  /** The bytes up to and including the last newline. */
  function Durable(bytes: seq<Byte>): (r: seq<Byte>)
    ensures r <= bytes
    ensures NEWLINE !in bytes[|r|..]
    ensures r == [] || r[|r| - 1] == NEWLINE
  {
    if bytes == [] || bytes[|bytes| - 1] == NEWLINE then bytes
    else Durable(bytes[..|bytes| - 1])
  }

  function Split(bytes: seq<Byte>): (lines: seq<seq<Byte>>) {
    SplitOn(bytes, NEWLINE)
  }

  function ParseLines<T>(c: Codec<T>, lines: seq<seq<Byte>>): Result<seq<T>, InvalidData> {
    if lines == [] then Ok([])
    else
      match ParseLines(c, lines[..|lines| - 1])
      case Err(e) => Err(e)
      case Ok(records) =>
        var line := lines[|lines| - 1];
        if c.blank(line) then Ok(records)
        else
          match c.decode(line)
          case None => Err(InvalidData)
          case Some(record) => Ok(records + [record])
  }

  function Line<T>(c: Codec<T>, record: T): seq<Byte> {
    c.encode(record) + [NEWLINE]
  }

  /** The file after appending the records one by one. */
  function Written<T>(c: Codec<T>, records: seq<T>): seq<Byte> {
    if records == [] then [] else Written(c, records[..|records| - 1]) + Line(c, records[|records| - 1])
  }

  /** A log together with what was written to it: whole lines, and perhaps the start of another. */
  class LogFile<T(!new)> {
    const codec: Codec<T>
    var bytes: Option<seq<Byte>>
    ghost var records: seq<T>

    ghost predicate Valid()
      reads this
    {
      Faithful(codec) && Durable(bytes.GetOr([])) == Written(codec, records)
    }

    ghost predicate Clean()
      reads this
    {
      Valid() && bytes.GetOr([]) == Written(codec, records)
    }

    constructor (codec: Codec<T>)
      requires Faithful(codec)
      ensures Clean() && records == [] && this.codec == codec
    {
      this.codec, bytes, records := codec, None, [];
    }

    /** read_jsonl_recover_torn_tail. */
    method ReadRecoverTornTail() returns (r: Result<seq<T>, InvalidData>)
      requires Valid()
      modifies this`bytes
      ensures Clean() && r == Ok(records)
      ensures bytes.Some? <==> old(bytes).Some?
      ensures bytes.Some? ==> bytes.value <= old(bytes).value
      ensures old(Clean()) ==> bytes == old(bytes)
    {
      WrittenReadsBack(codec, records);
      if bytes.None? {
        return Ok([]);
      }
      var content := TruncateTornTail(bytes.value);
      bytes := Some(content);
      var lines := Split(content);
      r := ReadLines(codec, lines);
    }

    /** append_json_line_private. Of its bytes the first `written` reach the file, whether a crash or an
        error stops the rest; and the sync can fail when all of them have. On a log that is not torn the
        record is added exactly when all its bytes arrive, even if the sync then fails. On a torn one it
        joins the torn line, which `GluedLineReads` is about. */
    method AppendJsonLine(record: T, written: nat, syncOk: bool) returns (r: Result<(), AppendError>)
      requires Valid() && written <= |Line(codec, record)|
      modifies this
      ensures r == if written < |Line(codec, record)| then Err(WriteFailed)
                   else if syncOk then Ok(())
                   else Err(SyncFailed)
      ensures bytes == Some(old(bytes).GetOr([]) + Line(codec, record)[..written])
      ensures written < |Line(codec, record)| ==> Valid() && records == old(records)
      ensures old(Clean()) && written == |Line(codec, record)| ==> Clean() && records == old(records) + [record]
    {
      var line := Line(codec, record);
      ghost var torn := bytes.GetOr([])[|Written(codec, records)|..];
      assert bytes.GetOr([]) == Written(codec, records) + torn;
      bytes := Some(bytes.GetOr([]) + line[..written]);
      if written < |line| {
        TornStaysTorn(codec, records, torn, line[..written]);
        return Err(WriteFailed);
      }
      assert line[..written] == line;
      CutInsideLine(codec, records, record, written);
      WrittenOneMore(codec, records, record);
      if torn == [] { records := records + [record]; }
      return if syncOk then Ok(()) else Err(SyncFailed);
    }
  }

  /** More of a line that has not ended. */
  lemma TornStaysTorn<T>(c: Codec<T>, records: seq<T>, torn: seq<Byte>, more: seq<Byte>)
    requires NEWLINE !in torn && NEWLINE !in more
    ensures Durable(Written(c, records) + torn + more) == Written(c, records)
  {
    WrittenEndsLine(c, records);
    assert Written(c, records) + torn + more == Written(c, records) + (torn + more);
    DurableOf(Written(c, records), torn + more);
  }

  method TruncateTornTail(bytes: seq<Byte>) returns (content: seq<Byte>)
    ensures content == Durable(bytes)
  {
    var end := |bytes|;
    while end > 0 && bytes[end - 1] != NEWLINE
      invariant 0 <= end <= |bytes|
      invariant Durable(bytes[..end]) == Durable(bytes)
    {
      assert bytes[..end][..end - 1] == bytes[..end - 1];
      end := end - 1;
    }
    return bytes[..end];
  }

  method ReadLines<T>(c: Codec<T>, lines: seq<seq<Byte>>) returns (r: Result<seq<T>, InvalidData>)
    ensures r == ParseLines(c, lines)
  {
    var records := [];
    for i := 0 to |lines|
      invariant ParseLines(c, lines[..i]) == Ok(records)
    {
      assert lines[..i + 1][..i] == lines[..i];
      if !c.blank(lines[i]) {
        match c.decode(lines[i]) {
          case None =>
            FailurePersists(c, lines, i + 1);
            return Err(InvalidData);
          case Some(record) => records := records + [record];
        }
      }
    }
    assert lines[..|lines|] == lines;
    return Ok(records);
  }

  lemma {:induction false} FailurePersists<T>(c: Codec<T>, lines: seq<seq<Byte>>, n: nat)
    requires n <= |lines| && ParseLines(c, lines[..n]) == Err(InvalidData)
    ensures ParseLines(c, lines) == Err(InvalidData)
  {
    if n == |lines| {
      assert lines[..n] == lines;
    } else {
      assert lines[..|lines| - 1][..n] == lines[..n];
      FailurePersists(c, lines[..|lines| - 1], n);
    }
  }

  /** Everything but the newline-free rest is durable. */
  lemma {:induction false} DurableOf(kept: seq<Byte>, rest: seq<Byte>)
    requires kept == [] || kept[|kept| - 1] == NEWLINE
    requires NEWLINE !in rest
    ensures Durable(kept + rest) == kept
  {
    if rest == [] {
      assert kept + rest == kept;
    } else {
      assert (kept + rest)[..|kept + rest| - 1] == kept + rest[..|rest| - 1];
      DurableOf(kept, rest[..|rest| - 1]);
    }
  }

  lemma WrittenEndsLine<T>(c: Codec<T>, records: seq<T>)
    ensures var bytes := Written(c, records); bytes == [] || bytes[|bytes| - 1] == NEWLINE
  {
  }

  predicate EndsLine(bytes: seq<Byte>) {
    var lines := Split(bytes); lines[|lines| - 1] == []
  }

  /** Behind whole lines, a line that is not blank adds what it decodes to, or spoils the log. */
  lemma LineReads<T>(c: Codec<T>, bytes: seq<Byte>, line: seq<Byte>)
    requires EndsLine(bytes) && NEWLINE !in line && c.blank([])
    ensures EndsLine(bytes + (line + [NEWLINE]))
    ensures ParseLines(c, Split(bytes + (line + [NEWLINE])))
         == var before := ParseLines(c, Split(bytes));
            if before.Err? || c.blank(line) then before
            else if c.decode(line).None? then Err(InvalidData)
            else Ok(before.value + [c.decode(line).value])
  {
    hide ParseLines, SplitOn;
    var lines := Split(bytes);
    var whole := lines[..|lines| - 1];
    assert lines == whole + [[]];
    SplitLine(bytes, line);
    assert Split(bytes + (line + [NEWLINE])) == whole + [line] + [[]];
    ParseStep(c, whole, []);
    ParseStep(c, whole, line);
    ParseStep(c, whole + [line], []);
  }

  /** Records written behind whole lines read back behind what those read as. */
  lemma {:induction false} WrittenReadsOn<T(!new)>(c: Codec<T>, bytes: seq<Byte>, records: seq<T>)
    requires Faithful(c) && EndsLine(bytes)
    ensures EndsLine(bytes + Written(c, records))
    ensures ParseLines(c, Split(bytes + Written(c, records)))
         == var before := ParseLines(c, Split(bytes)); if before.Err? then before else Ok(before.value + records)
  {
    hide ParseLines, Split;
    if records == [] {
      assert bytes + Written(c, records) == bytes;
      var before := ParseLines(c, Split(bytes));
      assert before.Ok? ==> before.value + records == before.value;
    } else {
      var front, last := records[..|records| - 1], records[|records| - 1];
      WrittenReadsOn(c, bytes, front);
      LineReads(c, bytes + Written(c, front), c.encode(last));
      assert bytes + Written(c, records) == bytes + Written(c, front) + Line(c, last);
      var before := ParseLines(c, Split(bytes));
      assert before.Ok? ==> before.value + front + [last] == before.value + records;
    }
  }

  /** Records written one per line read back as themselves. */
  lemma {:induction false} WrittenReadsBack<T(!new)>(c: Codec<T>, records: seq<T>)
    requires Faithful(c)
    ensures ParseLines(c, Split(Written(c, records))) == Ok(records)
    ensures EndsLine(Written(c, records))
  {
    hide ParseLines, Split;
    NothingReadsBack(c);
    WrittenReadsOn(c, [], records);
    assert [] + Written(c, records) == Written(c, records);
    assert [] + records == records;
  }

  /** A record appended to a torn line, and any number of records after it. The line ends, so no recovery
      truncates it, and it reads as whatever the torn part and the record together decode to. */
  lemma {:induction false} GluedLineReads<T(!new)>(c: Codec<T>, records: seq<T>, torn: seq<Byte>, record: T,
                                                   more: seq<T>)
    requires Faithful(c) && NEWLINE !in torn
    ensures var glued := torn + c.encode(record);
            var bytes := Written(c, records) + torn + Line(c, record) + Written(c, more);
            && Durable(bytes) == bytes
            && ParseLines(c, Split(bytes)) ==
               if c.blank(glued) then Ok(records + more)
               else if c.decode(glued).None? then Err(InvalidData)
               else Ok(records + [c.decode(glued).value] + more)
  {
    hide ParseLines, Split, Durable;
    var glued := torn + c.encode(record);
    var start := Written(c, records) + (glued + [NEWLINE]);
    assert Written(c, records) + torn + Line(c, record) == start;
    WrittenReadsBack(c, records);
    LineReads(c, Written(c, records), glued);
    WrittenReadsOn(c, start, more);
    WrittenEndsLine(c, more);
    var bytes := start + Written(c, more);
    assert bytes[|bytes| - 1] == NEWLINE;
    DurableOf(bytes, []);
    assert bytes + [] == bytes;
  }

  /** So after an append that broke off at byte `n`, and no recovery, the next record reads back if and
      only if nothing of the first arrived; otherwise every later read of the log fails, whatever else
      is appended. */
  lemma {:induction false} GluedReadsBackIff<T(!new)>(c: Codec<T>, records: seq<T>, lost: T, n: nat, record: T,
                                                      more: seq<T>)
    requires Faithful(c) && Separating(c) && n <= |c.encode(lost)|
    ensures var bytes := Written(c, records) + c.encode(lost)[..n] + Line(c, record) + Written(c, more);
            ParseLines(c, Split(bytes)) == if n == 0 then Ok(records + [record] + more) else Err(InvalidData)
  {
    hide ParseLines, Split, Written;
    var torn := c.encode(lost)[..n];
    GluedLineReads(c, records, torn, record, more);
    if n == 0 {
      assert torn + c.encode(record) == c.encode(record);
    }
  }

  lemma NothingReadsBack<T>(c: Codec<T>)
    requires c.blank([])
    ensures Split([]) == [[]] && ParseLines(c, Split([])) == Ok([])
  {
    ParseStep(c, [], []);
    assert Split([]) == [] + [[]];
  }

  /** A line appended after the last newline becomes the piece before the new, empty, last one. */
  lemma SplitLine(bytes: seq<Byte>, line: seq<Byte>)
    requires NEWLINE !in line && Split(bytes)[|Split(bytes)| - 1] == []
    ensures Split(bytes + (line + [NEWLINE])) == Split(bytes)[..|Split(bytes)| - 1] + [line] + [[]]
  {
    SplitAppend(bytes, line, NEWLINE);
    assert [] + line == line;
    assert (bytes + (line + [NEWLINE]))[..|bytes + (line + [NEWLINE])| - 1] == bytes + line;
  }

  lemma ParseStep<T>(c: Codec<T>, lines: seq<seq<Byte>>, line: seq<Byte>)
    ensures ParseLines(c, lines + [line])
         == if ParseLines(c, lines).Err? || c.blank(line) then ParseLines(c, lines)
            else if c.decode(line).None? then Err(InvalidData)
            else Ok(ParseLines(c, lines).value + [c.decode(line).value])
  {
    assert (lines + [line])[..|lines|] == lines;
  }

  /** An append that a crash cuts short adds the whole record or nothing. */
  lemma CutInsideLine<T(!new)>(c: Codec<T>, records: seq<T>, record: T, written: nat)
    requires Faithful(c) && written <= |Line(c, record)|
    ensures Durable(Written(c, records) + Line(c, record)[..written])
         == Written(c, if written == |Line(c, record)| then records + [record] else records)
  {
    hide Durable, Split, ParseLines, Written;
    var line := Line(c, record);
    WrittenEndsLine(c, records);
    WrittenEndsLine(c, records + [record]);
    WrittenOneMore(c, records, record);
    if written == |line| {
      assert line[..written] == line;
      DurableOf(Written(c, records) + line, []);
      assert Written(c, records) + line + [] == Written(c, records) + line;
    } else {
      assert line[..written] == c.encode(record)[..written];
      DurableOf(Written(c, records), line[..written]);
    }
  }

  lemma WrittenOneMore<T>(c: Codec<T>, records: seq<T>, record: T)
    ensures Written(c, records + [record]) == Written(c, records) + Line(c, record)
  {
    assert (records + [record])[..|records|] == records;
  }

  /** How many of the records a file cut at `n` still holds whole. */
  function Whole<T>(c: Codec<T>, records: seq<T>, n: nat): (k: nat)
    requires n <= |Written(c, records)|
    ensures k <= |records|
    ensures |Written(c, records[..k])| <= n
    ensures forall j :: k < j <= |records| ==> |Written(c, records[..j])| > n
  {
    if records == [] || n == |Written(c, records)| then
      assert records[..|records|] == records;
      |records|
    else
      var before := records[..|records| - 1];
      if n >= |Written(c, before)| then
        assert forall j :: |before| < j <= |records| ==> records[..j] == records;
        |before|
      else
        assert forall j :: 0 <= j <= |before| ==> before[..j] == records[..j];
        assert records[..|records|] == records;
        Whole(c, before, n)
  }

  /** Wherever the file is cut, recovery keeps exactly the lines of the records written whole, reading
      them gives those records, and recovering again changes nothing. */
  lemma {:induction false} TornTailKeepsWholeRecords<T(!new)>(c: Codec<T>, records: seq<T>, n: nat)
    requires Faithful(c) && n <= |Written(c, records)|
    ensures var kept := records[..Whole(c, records, n)];
            && Durable(Written(c, records)[..n]) == Written(c, kept)
            && ParseLines(c, Split(Durable(Written(c, records)[..n]))) == Ok(kept)
            && Durable(Written(c, kept)) == Written(c, kept)
  {
    var k := Whole(c, records, n);
    WrittenReadsBack(c, records[..k]);
    CutAnywhere(c, records, n);
    WrittenEndsLine(c, records[..k]);
  }

  lemma CutAnywhere<T(!new)>(c: Codec<T>, records: seq<T>, n: nat)
    requires Faithful(c) && n <= |Written(c, records)|
    ensures Durable(Written(c, records)[..n]) == Written(c, records[..Whole(c, records, n)])
  {
    hide Durable, Written, Split, ParseLines;
    var k := Whole(c, records, n);
    WrittenEndsLine(c, records);
    if k == |records| {
      assert records[..k] == records;
      assert Written(c, records)[..n] == Written(c, records) + [];
      DurableOf(Written(c, records), []);
    } else {
      WrittenPrefix(c, records, k + 1);
      assert records[..k + 1] == records[..k] + [records[k]];
      WrittenOneMore(c, records[..k], records[k]);
      var kept, line := Written(c, records[..k]), Line(c, records[k]);
      var rest := n - |kept|;
      CutInsideLine(c, records[..k], records[k], rest);
      assert kept + line <= Written(c, records);
      assert (kept + line)[..n] == kept + line[..rest];
      assert Written(c, records)[..n] == (kept + line)[..n];
    }
  }

  lemma {:induction false} WrittenPrefix<T>(c: Codec<T>, records: seq<T>, k: nat)
    requires k <= |records|
    ensures Written(c, records[..k]) <= Written(c, records)
  {
    if k == |records| {
      assert records[..k] == records;
    } else {
      WrittenPrefix(c, records[..|records| - 1], k);
      assert records[..|records| - 1][..k] == records[..k];
    }
  }
}
