/** Newline-terminated frames over a stream that delivers and accepts bytes in pieces of any size
    (src/driver/ipc.rs). */
module Frames {
  import opened Base
  import opened JsonLines

  const MAX_FRAME_BYTES: nat := 1024 * 1024

  /** `TimedOut` stands for a read or write deadline that passes. */
  datatype FrameRead = Complete(frame: seq<Byte>) | Truncated | TooLarge | TimedOut

  datatype Arrival = Chunk(bytes: seq<Byte>) | Deadline

  datatype WriteError = WriteZero | WriteTimedOut | WriteFailed

  function Concat(chunks: seq<seq<Byte>>): seq<Byte> {
    if chunks == [] then [] else chunks[0] + Concat(chunks[1..])
  }

  predicate NonEmpty(chunks: seq<seq<Byte>>) {
    forall i :: 0 <= i < |chunks| ==> chunks[i] != []
  }

  function Position(bytes: seq<Byte>): (r: Option<nat>)
    ensures r.Some? ==> r.value < |bytes| && bytes[r.value] == NEWLINE && NEWLINE !in bytes[..r.value]
    ensures r.None? ==> NEWLINE !in bytes
  {
    if bytes == [] then None
    else if bytes[0] == NEWLINE then Some(0)
    else
      match Position(bytes[1..])
      case None => None
      case Some(n) =>
        assert bytes[..n + 1] == [bytes[0]] + bytes[1..][..n];
        Some(n + 1)
  }

  /** What a whole stream reads as, whatever pieces it comes in. */
  function FrameOf(bytes: seq<Byte>): FrameRead {
    match Position(bytes)
    case Some(n) => if n <= MAX_FRAME_BYTES then Complete(bytes[..n]) else TooLarge
    case None => if |bytes| <= MAX_FRAME_BYTES then Truncated else TooLarge
  }

  /** The bytes that arrive before the deadline or the end of the stream, which shows as an empty read. */
  function Delivered(arrivals: seq<Arrival>): seq<Byte> {
    if arrivals == [] || arrivals[0] in {Deadline, Chunk([])} then []
    else arrivals[0].bytes + Delivered(arrivals[1..])
  }

  /** What a read that never sees its newline reports. */
  function EndOf(arrivals: seq<Arrival>): FrameRead {
    if arrivals == [] || arrivals[0] == Chunk([]) then Truncated
    else if arrivals[0] == Deadline then TimedOut
    else EndOf(arrivals[1..])
  }

  /** The deadline passes before the stream ends. */
  predicate DeadlineFirst(arrivals: seq<Arrival>) {
    exists i :: 0 <= i < |arrivals| && arrivals[i].Deadline?
                && forall j :: 0 <= j < i ==> arrivals[j].Chunk? && arrivals[j].bytes != []
  }

  lemma {:induction false} EndIs(arrivals: seq<Arrival>)
    ensures EndOf(arrivals) == if DeadlineFirst(arrivals) then TimedOut else Truncated
  {
    if arrivals != [] && arrivals[0].Chunk? && arrivals[0].bytes != [] {
      var rest := arrivals[1..];
      EndIs(rest);
      assert forall j :: 0 <= j < |rest| ==> rest[j] == arrivals[j + 1];
      if DeadlineFirst(rest) {
        var i :| 0 <= i < |rest| && rest[i].Deadline?
                 && forall j :: 0 <= j < i ==> rest[j].Chunk? && rest[j].bytes != [];
        assert arrivals[i + 1].Deadline?;
        assert forall j :: 0 < j < i + 1 ==> arrivals[j] == rest[j - 1];
      }
      if DeadlineFirst(arrivals) {
        var i :| 0 <= i < |arrivals| && arrivals[i].Deadline?
                 && forall j :: 0 <= j < i ==> arrivals[j].Chunk? && arrivals[j].bytes != [];
        assert rest[i - 1].Deadline?;
      }
    }
  }

  /** The bytes that count are those of the pieces in front of the first deadline or empty read. */
  lemma {:induction false} DeliveredIs(arrivals: seq<Arrival>, n: nat)
    requires n <= |arrivals| && (n < |arrivals| ==> arrivals[n] in {Deadline, Chunk([])})
    requires forall j :: 0 <= j < n ==> arrivals[j].Chunk? && arrivals[j].bytes != []
    ensures Delivered(arrivals) == Concat(seq(n, j requires 0 <= j < n => arrivals[j].bytes))
  {
    var pieces := seq(n, j requires 0 <= j < n => arrivals[j].bytes);
    if n > 0 {
      var rest := arrivals[1..];
      assert forall j :: 0 <= j < |rest| ==> rest[j] == arrivals[j + 1];
      DeliveredIs(rest, n - 1);
      assert pieces[1..] == seq(n - 1, j requires 0 <= j < n - 1 => rest[j].bytes);
    }
  }

  lemma PositionAppend(a: seq<Byte>, b: seq<Byte>)
    requires NEWLINE !in a
    ensures Position(a + b) == match Position(b) case None => None case Some(n) => Some(|a| + n)
  {
    var p := Position(a + b);
    assert forall i :: 0 <= i < |b| ==> (a + b)[|a| + i] == b[i];
    assert forall i :: 0 <= i < |a| ==> (a + b)[i] == a[i];
    if p.Some? && Position(b).Some? {
      assert forall i :: 0 <= i < p.value ==> (a + b)[..p.value][i] == (a + b)[i];
      var q := Position(b).value;
      assert forall i :: 0 <= i < q ==> b[..q][i] == b[i];
    }
  }

  /** What the newest piece decides, after a part without newline and before whatever follows. */
  lemma ChunkDecides(frame: seq<Byte>, available: seq<Byte>, rest: seq<Byte>)
    requires NEWLINE !in frame && |frame| <= MAX_FRAME_BYTES
    ensures var whole := FrameOf(frame + (available + rest));
            match Position(available)
            case Some(n) =>
              whole == if |frame| + n > MAX_FRAME_BYTES then TooLarge else Complete(frame + available[..n])
            case None => |frame| + |available| > MAX_FRAME_BYTES ==> whole == TooLarge
  {
    var bytes := frame + (available + rest);
    PositionAppend(frame, available + rest);
    match Position(available) {
      case Some(n) =>
        PositionPrefix(available, rest);
        assert bytes[..|frame| + n] == frame + available[..n];
      case None => PositionAppend(available, rest);
    }
  }

  /** read_frame_with_timeout: the frame does not depend on how the stream was cut into pieces; only a
      deadline before the decision shows. */
  method ReadFrame(arrivals: seq<Arrival>) returns (r: FrameRead)
    ensures var whole := FrameOf(Delivered(arrivals));
            r == if whole == Truncated && DeadlineFirst(arrivals) then TimedOut else whole
  {
    hide Position, FrameOf, DeadlineFirst;
    EndIs(arrivals);
    var frame := [];
    var i := 0;
    assert arrivals[0..] == arrivals;
    while i < |arrivals|
      invariant 0 <= i <= |arrivals|
      invariant NEWLINE !in frame && |frame| <= MAX_FRAME_BYTES
      invariant Delivered(arrivals) == frame + Delivered(arrivals[i..])
      invariant EndOf(arrivals) == EndOf(arrivals[i..])
    {
      assert arrivals[i..][0] == arrivals[i] && arrivals[i..][1..] == arrivals[i + 1..];
      if arrivals[i] in {Deadline, Chunk([])} {
        CutPayloadReads(frame, |frame|);
        assert frame + [] == frame == frame[..|frame|];
        return if arrivals[i].Deadline? then TimedOut else Truncated;
      }
      var available := arrivals[i].bytes;
      ghost var rest := Delivered(arrivals[i + 1..]);
      ChunkDecides(frame, available, rest);
      match Position(available) {
        case Some(newline) =>
          return if |frame| + newline > MAX_FRAME_BYTES then TooLarge else Complete(frame + available[..newline]);
        case None =>
          if |frame| + |available| > MAX_FRAME_BYTES {
            return TooLarge;
          }
          assert frame + (available + rest) == (frame + available) + rest;
          frame := frame + available;
      }
      i := i + 1;
    }
    assert arrivals[i..] == [];
    CutPayloadReads(frame, |frame|);
    assert frame + [] == frame == frame[..|frame|];
    return Truncated;
  }

  lemma PositionPrefix(a: seq<Byte>, b: seq<Byte>)
    requires Position(a).Some?
    ensures Position(a + b) == Position(a)
  {
    var n, p := Position(a).value, Position(a + b);
    assert (a + b)[n] == NEWLINE;
    assert forall i :: 0 <= i < n ==> a[..n][i] == (a + b)[i];
    assert p.Some? ==> forall i :: 0 <= i < p.value ==> (a + b)[..p.value][i] == (a + b)[i];
  }

  /** write_bytes: repeated writes of what is left, each of which takes `accepted[k]` bytes; when these run
      out, so does the time. Behind the last byte come a deadline and a flush, which can fail although
      everything is sent. */
  method WriteBytes(bytes: seq<Byte>, accepted: seq<nat>, flushed: Result<(), WriteError>)
    returns (r: Result<(), WriteError>, sent: seq<seq<Byte>>)
    ensures NonEmpty(sent) && Concat(sent) <= bytes
    ensures r.Ok? <==> Concat(sent) == bytes && flushed.Ok?
    ensures Concat(sent) == bytes ==> r == flushed
  {
    hide Concat;
    var left, k := bytes, 0;
    sent := [];
    ConcatNothing();
    assert [] + bytes == bytes;
    while left != []
      invariant 0 <= k <= |accepted|
      invariant NonEmpty(sent)
      invariant Concat(sent) + left == bytes
      decreases |left|
    {
      if k == |accepted| {
        return Err(WriteTimedOut), sent;
      }
      if accepted[k] == 0 {
        return Err(WriteZero), sent;
      }
      var written := if accepted[k] <= |left| then accepted[k] else |left|;
      ConcatOneMore(sent, left[..written]);
      assert left == left[..written] + left[written..];
      sent, left, k := sent + [left[..written]], left[written..], k + 1;
    }
    return flushed, sent;
  }

  lemma ConcatNothing()
    ensures Concat([]) == []
  {
  }

  lemma {:induction false} ConcatOneMore(chunks: seq<seq<Byte>>, chunk: seq<Byte>)
    ensures Concat(chunks + [chunk]) == Concat(chunks) + chunk
  {
    if chunks == [] {
      assert chunks + [chunk] == [chunk];
      assert [chunk][1..] == [];
    } else {
      ConcatOneMore(chunks[1..], chunk);
      assert (chunks + [chunk])[1..] == chunks[1..] + [chunk];
    }
  }

  /** The bytes that write_frame hands over: the response, or an error in its place. */
  function Framed(response: seq<Byte>, tooLarge: seq<Byte>): seq<Byte> {
    (if |response| > MAX_FRAME_BYTES then tooLarge else response) + [NEWLINE]
  }

  /** A stream that starts with a newline-free payload and a newline, however much more follows. */
  lemma PayloadReads(payload: seq<Byte>, rest: seq<Byte>)
    requires NEWLINE !in payload
    ensures FrameOf(payload + [NEWLINE] + rest)
         == if |payload| <= MAX_FRAME_BYTES then Complete(payload) else TooLarge
  {
    assert payload + [NEWLINE] + rest == payload + ([NEWLINE] + rest);
    PositionAppend(payload, [NEWLINE] + rest);
    assert (payload + [NEWLINE] + rest)[..|payload|] == payload;
  }

  /** Without its newline a payload is cut off, or too large already. */
  lemma CutPayloadReads(payload: seq<Byte>, n: nat)
    requires NEWLINE !in payload && n <= |payload|
    ensures FrameOf(payload[..n]) == if n <= MAX_FRAME_BYTES then Truncated else TooLarge
  {
  }

  lemma {:induction false} DeliveredPieces(pieces: seq<seq<Byte>>)
    requires NonEmpty(pieces)
    ensures Delivered(AsArrivals(pieces)) == Concat(pieces) && EndOf(AsArrivals(pieces)) == Truncated
  {
    if pieces != [] {
      DeliveredPieces(pieces[1..]);
      assert AsArrivals(pieces)[0] == Chunk(pieces[0]);
      assert AsArrivals(pieces)[1..] == AsArrivals(pieces[1..]);
    }
  }

  function AsArrivals(pieces: seq<seq<Byte>>): seq<Arrival> {
    seq(|pieces|, i requires 0 <= i < |pieces| => Chunk(pieces[i]))
  }

  /** A stream carries the same bytes in other pieces. */
  ghost predicate Carries(stream: seq<seq<Byte>> -> seq<seq<Byte>>) {
    forall pieces {:trigger stream(pieces)} ::
      NonEmpty(pieces) ==> NonEmpty(stream(pieces)) && Concat(stream(pieces)) == Concat(pieces)
  }

  /** write_frame and read_frame: whatever the writes take and the reads deliver, the response arrives, or
      the error in its place, exactly when all of its frame was sent, even if the writer reports an error;
      otherwise the reader sees the stream end. It is never too large for the reader. */
  method SendAndReceive(response: seq<Byte>, tooLarge: seq<Byte>, accepted: seq<nat>,
                        flushed: Result<(), WriteError>, stream: seq<seq<Byte>> -> seq<seq<Byte>>)
    returns (sent: Result<(), WriteError>, pieces: seq<seq<Byte>>, received: FrameRead)
    requires NEWLINE !in response && NEWLINE !in tooLarge && |tooLarge| <= MAX_FRAME_BYTES && Carries(stream)
    ensures Concat(pieces) <= Framed(response, tooLarge)
    ensures received == if Concat(pieces) == Framed(response, tooLarge)
                        then Complete(if |response| > MAX_FRAME_BYTES then tooLarge else response)
                        else Truncated
    ensures sent.Ok? <==> received != Truncated && flushed.Ok?
  {
    var frame := Framed(response, tooLarge);
    var payload := frame[..|frame| - 1];
    sent, pieces := WriteBytes(frame, accepted, flushed);
    var delivered := stream(pieces);
    DeliveredPieces(delivered);
    if Concat(pieces) == frame {
      PayloadReads(payload, []);
      assert payload + [NEWLINE] + [] == frame;
    } else {
      CutPayloadReads(payload, |Concat(pieces)|);
      assert Concat(pieces) == payload[..|Concat(pieces)|];
    }
    received := ReadFrame(AsArrivals(delivered));
  }
}
