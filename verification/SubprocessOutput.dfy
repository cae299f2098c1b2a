/**
 How cli/managed/session.py reads a subprocess: stdout in chunks that are cut into lines, stderr up to
 a cap. `chunks` is what successive reads return; an empty chunk is the end of the pipe.
 */
module SubprocessOutput {
  import opened Options

  newtype Byte = n: int | 0 <= n < 256

  type Bytes = seq<Byte>

  const NEWLINE: Byte := 10

  /** What is read before the end of the pipe. */
  function Total(chunks: seq<Bytes>): Bytes {
    if chunks == [] || chunks[0] == [] then [] else chunks[0] + Total(chunks[1..])
  }

  // --- Lines ---

  /** The segments between newlines; the last one has no newline after it. */
  function Split(b: Bytes): (segments: seq<Bytes>)
    ensures segments != []
  {
    if b == [] then [[]]
    else
      var rest := Split(b[1..]);
      if b[0] == NEWLINE then [[]] + rest else [[b[0]] + rest[0]] + rest[1..]
  }

  function Join(segments: seq<Bytes>): Bytes
    requires segments != []
  {
    if |segments| == 1 then segments[0] else segments[0] + [NEWLINE] + Join(segments[1..])
  }

  predicate OneLine(b: Bytes) { NEWLINE !in b }

  lemma {:induction false} SplitAtNewline(a: Bytes, rest: Bytes)
    requires OneLine(a)
    ensures Split(a + [NEWLINE] + rest) == [a] + Split(rest)
  {
    var b := a + [NEWLINE] + rest;
    if a == [] {
      assert b[1..] == rest;
    } else {
      assert b[1..] == a[1..] + [NEWLINE] + rest;
      SplitAtNewline(a[1..], rest);
      assert [b[0]] + a[1..] == a;
    }
  }

  lemma {:induction false} SplitOneLine(a: Bytes)
    requires OneLine(a)
    ensures Split(a) == [a]
  {
    if a != [] {
      SplitOneLine(a[1..]);
      assert [a[0]] + a[1..] == a;
    }
  }

  /** Splitting is the one way to divide the bytes at their newlines. */
  lemma {:induction false} SplitIsUnique(segments: seq<Bytes>)
    requires segments != [] && forall i :: 0 <= i < |segments| ==> OneLine(segments[i])
    ensures Split(Join(segments)) == segments
  {
    if |segments| == 1 {
      SplitOneLine(segments[0]);
    } else {
      SplitIsUnique(segments[1..]);
      SplitAtNewline(segments[0], Join(segments[1..]));
    }
  }

  lemma {:induction false} SplitLosesNothing(b: Bytes)
    ensures Join(Split(b)) == b
    ensures forall i :: 0 <= i < |Split(b)| ==> OneLine(Split(b)[i])
  {
    if b != [] {
      var rest := Split(b[1..]);
      SplitLosesNothing(b[1..]);
      if b[0] == NEWLINE {
        assert ([[]] + rest)[1..] == rest;
        assert Join([[]] + rest) == [] + [NEWLINE] + Join(rest);
      } else {
        var first := [b[0]] + rest[0];
        assert ([first] + rest[1..])[1..] == rest[1..];
        assert Join([first] + rest[1..]) == [b[0]] + Join(rest);
      }
    }
  }

  /** What is handed on for one segment: `clean` decodes and strips it, and blank lines are skipped. */
  function Line(segment: Bytes, clean: Bytes -> string): seq<string> {
    if clean(segment) == "" then [] else [clean(segment)]
  }

  /** What is handed on for all segments. An empty rest after the last newline is no line. */
  function Lines(segments: seq<Bytes>, clean: Bytes -> string): seq<string>
    requires segments != []
  {
    if |segments| == 1 then if segments[0] == [] then [] else Line(segments[0], clean)
    else Line(segments[0], clean) + Lines(segments[1..], clean)
  }

  /** What is handed on: each segment that is not blank, but nothing for an empty rest after the last newline. */
  lemma {:induction false} LinesAre(segments: seq<Bytes>, clean: Bytes -> string, line: string)
    requires segments != []
    ensures line in Lines(segments, clean)
            <==> line != "" && exists i :: 0 <= i < |segments| && clean(segments[i]) == line
                                           && (i == |segments| - 1 ==> segments[i] != [])
    ensures |Lines(segments, clean)| <= |segments|
    decreases |segments|
  {
    if |segments| > 1 {
      var rest := segments[1..];
      LinesAre(rest, clean, line);
      assert forall i :: 0 < i < |segments| ==> segments[i] == rest[i - 1];
      if i :| 0 <= i < |rest| && clean(rest[i]) == line && (i == |rest| - 1 ==> rest[i] != []) {
        assert segments[i + 1] == rest[i];
      }
    }
  }

  /** bytearray.find of a newline. */
  method FindNewline(buffer: Bytes) returns (pos: Option<nat>)
    ensures pos.None? ==> OneLine(buffer)
    ensures pos.Some? ==> pos.value < |buffer| && buffer[pos.value] == NEWLINE && OneLine(buffer[..pos.value])
  {
    for i := 0 to |buffer|
      invariant OneLine(buffer[..i])
    {
      if buffer[i] == NEWLINE {
        return Some(i);
      }
    }
    assert buffer[..|buffer|] == buffer;
    pos := None;
  }

  /** The inner loop: hands on every complete line of the buffer. */
  method TakeLines(buffer: Bytes, clean: Bytes -> string, ghost coming: Bytes)
    returns (handed: seq<string>, rest: Bytes)
    ensures handed + Lines(Split(rest + coming), clean) == Lines(Split(buffer + coming), clean)
    ensures OneLine(rest)
  {
    handed, rest := [], buffer;
    while true
      invariant handed + Lines(Split(rest + coming), clean) == Lines(Split(buffer + coming), clean)
      decreases |rest|
    {
      var pos := FindNewline(rest);
      if pos.None? {
        return;
      }
      var line, after := rest[..pos.value], rest[pos.value + 1..];
      assert rest + coming == line + [NEWLINE] + (after + coming);
      SplitAtNewline(line, after + coming);
      assert ([line] + Split(after + coming))[1..] == Split(after + coming);
      handed := handed + Line(line, clean);
      rest := after;
    }
  }

  /**
   The stdout loop of start_task. However the output is divided into chunks, the lines handed on are
   those of the whole output.
   */
  method ReadLines(chunks: seq<Bytes>, clean: Bytes -> string) returns (handed: seq<string>)
    ensures handed == Lines(Split(Total(chunks)), clean)
  {
    var buffer: Bytes := [];
    handed := [];
    var n := 0;
    assert chunks[0..] == chunks && [] + Total(chunks) == Total(chunks);
    while n < |chunks| && chunks[n] != []
      invariant 0 <= n <= |chunks| && OneLine(buffer)
      invariant handed + Lines(Split(buffer + Total(chunks[n..])), clean) == Lines(Split(Total(chunks)), clean)
    {
      assert chunks[n..][1..] == chunks[n + 1..];
      assert buffer + Total(chunks[n..]) == buffer + chunks[n] + Total(chunks[n + 1..]);
      buffer := buffer + chunks[n];
      n := n + 1;
      var complete;
      complete, buffer := TakeLines(buffer, clean, Total(chunks[n..]));
      handed := handed + complete;
    }
    assert buffer + Total(chunks[n..]) == buffer;
    SplitOneLine(buffer);
    if buffer != [] {
      handed := handed + Line(buffer, clean);
    }
  }

  /** Two ways to deliver the same bytes give the same lines. */
  lemma ChunksDoNotMatter(chunks: seq<Bytes>, others: seq<Bytes>, segments: seq<Bytes>, clean: Bytes -> string)
    requires segments != [] && forall i :: 0 <= i < |segments| ==> OneLine(segments[i])
    requires Total(chunks) == Total(others) == Join(segments)
    ensures Lines(Split(Total(chunks)), clean) == Lines(Split(Total(others)), clean) == Lines(segments, clean)
  {
    SplitIsUnique(segments);
  }

  // --- stderr ---

  /** How many reads come before the one that finds the end of the pipe. */
  function Reads(chunks: seq<Bytes>): nat {
    if chunks == [] || chunks[0] == [] then 0 else 1 + Reads(chunks[1..])
  }

  function Smaller(a: nat, b: nat): nat { if a < b then a else b }

  /** _drain_stderr_bounded: the longest prefix within the cap is kept, and the pipe is read to its end. */
  method DrainStderrBounded(chunks: seq<Bytes>, maxBytes: nat) returns (kept: Bytes, count: nat)
    ensures kept == Total(chunks)[..Smaller(maxBytes, |Total(chunks)|)]
    ensures count == Reads(chunks)
  {
    var received := 0;
    kept, count := [], 0;
    ghost var seen: Bytes := [];
    assert chunks[0..] == chunks && [] + Total(chunks) == Total(chunks);
    while count < |chunks| && chunks[count] != []
      invariant 0 <= count <= |chunks| && received == |kept|
      invariant seen + Total(chunks[count..]) == Total(chunks)
      invariant count + Reads(chunks[count..]) == Reads(chunks)
      invariant kept == seen[..Smaller(maxBytes, |seen|)]
    {
      var chunk := chunks[count];
      assert chunks[count..][1..] == chunks[count + 1..];
      assert seen + (chunk + Total(chunks[count + 1..])) == seen + chunk + Total(chunks[count + 1..]);
      if received < maxBytes {
        var take := Smaller(|chunk|, maxBytes - received);
        kept := kept + chunk[..take];
        received := received + take;
      }
      seen := seen + chunk;
      count := count + 1;
    }
    assert seen == Total(chunks);
  }
}
