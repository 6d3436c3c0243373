/** Complete lines of a byte stream, however the stream is cut into reads. */
module EventLines {

  type Byte = b: int | 0 <= b < 256
  type Bytes = seq<Byte>

  /** A terminated line, without its newline. */
  datatype Line = Line(bytes: Bytes)

  const NEWLINE: Byte := 10

  lemma Assoc<T>(a: seq<T>, b: seq<T>, c: seq<T>)
    ensures a + b + c == a + (b + c)
  {
  }

  /** Position of the first newline, or the length. */
  function Cut(b: Bytes): (i: nat)
    ensures i <= |b|
  {
    if b == [] || b[0] == NEWLINE then 0 else 1 + Cut(b[1..])
  }

  /** The lines that have been terminated. */
  function Lines(b: Bytes): seq<Line>
    decreases |b|
  {
    var i := Cut(b);
    if i == |b| then [] else [Line(b[..i])] + Lines(b[i + 1..])
  }

  /** What follows the last newline. */
  function Rest(b: Bytes): Bytes
    decreases |b|
  {
    var i := Cut(b);
    if i == |b| then b else Rest(b[i + 1..])
  }

  predicate FirstAt(b: Bytes, i: nat) {
    i <= |b| && (i < |b| ==> b[i] == NEWLINE) && forall k :: 0 <= k < i ==> b[k] != NEWLINE
  }

  lemma {:induction false} CutFinds(b: Bytes)
    ensures FirstAt(b, Cut(b))
  {
    if b != [] && b[0] != NEWLINE {
      CutFinds(b[1..]);
    }
  }

  lemma CutUnique(b: Bytes, i: nat)
    requires FirstAt(b, i)
    ensures Cut(b) == i
  {
    CutFinds(b);
  }

  lemma NoNewline(b: Bytes)
    requires NEWLINE !in b
    ensures Lines(b) == [] && Rest(b) == b
  {
    CutUnique(b, |b|);
  }

  /** Reading in two pieces yields the same lines as reading at once. */
  lemma {:induction false} LinesAppend(a: Bytes, b: Bytes)
    ensures Lines(a + b) == Lines(a) + Lines(Rest(a) + b)
    ensures Rest(a + b) == Rest(Rest(a) + b)
    decreases |a|
  {
    var i := Cut(a);
    if i < |a| {
      CutFinds(a);
      CutUnique(a + b, i);
      assert (a + b)[..i] == a[..i];
      assert (a + b)[i + 1..] == a[i + 1..] + b;
      LinesAppend(a[i + 1..], b);
    }
  }

  /** A stream that ends with a newline is all lines; one without is all rest. */
  lemma {:induction false} EndsWithNewline(b: Bytes)
    requires b != [] && b[|b| - 1] == NEWLINE
    ensures Rest(b) == []
    decreases |b|
  {
    var i := Cut(b);
    CutFinds(b);
    if i + 1 < |b| {
      EndsWithNewline(b[i + 1..]);
    }
  }

  lemma CompletePart(complete: Bytes, rest: Bytes)
    requires complete == [] || complete[|complete| - 1] == NEWLINE
    requires NEWLINE !in rest
    ensures Rest(complete + rest) == rest && Lines(complete + rest) == Lines(complete)
  {
    LinesAppend(complete, rest);
    NoNewline(rest);
    if complete == [] {
      NoNewline(complete);
    } else {
      EndsWithNewline(complete);
    }
    assert Rest(complete) + rest == rest;
  }

  /** The position after the last newline, or zero. */
  method AfterLastNewline(b: Bytes) returns (i: nat)
    ensures i <= |b| && (i > 0 ==> b[i - 1] == NEWLINE)
    ensures forall k :: i <= k < |b| ==> b[k] != NEWLINE
  {
    i := |b|;
    while i > 0 && b[i - 1] != NEWLINE
      invariant 0 <= i <= |b|
      invariant forall k :: i <= k < |b| ==> b[k] != NEWLINE
    {
      i := i - 1;
    }
  }

  /** Splits off everything up to the last newline, if there is one. */
  method TakeComplete(pending: Bytes) returns (complete: Bytes, rest: Bytes)
    ensures pending == complete + rest && rest == Rest(pending) && Lines(complete) == Lines(pending)
  {
    var i := AfterLastNewline(pending);
    complete, rest := pending[..i], pending[i..];
    CompletePart(complete, rest);
    assert complete + rest == pending;
  }

  /** The terminated lines, taken off the front one by one. */
  method SplitLines(b: Bytes) returns (lines: seq<Line>)
    ensures lines == Lines(b)
  {
    lines := [];
    var todo := b;
    while Cut(todo) < |todo|
      invariant Lines(b) == lines + Lines(todo)
      decreases |todo|
    {
      var i := Cut(todo);
      Assoc(lines, [Line(todo[..i])], Lines(todo[i + 1..]));
      lines := lines + [Line(todo[..i])];
      todo := todo[i + 1..];
    }
  }

  /** Growth of the stream in terms of what was pending. */
  lemma Grow(consumed: Bytes, all: Bytes)
    requires consumed <= all
    ensures Lines(all) == Lines(consumed) + Lines(Rest(consumed) + all[|consumed|..])
    ensures Rest(all) == Rest(Rest(consumed) + all[|consumed|..])
  {
    assert all == consumed + all[|consumed|..];
    LinesAppend(consumed, all[|consumed|..]);
  }

  /** One read: the lines completed by the new bytes, and what stays pending. */
  method ReadAppended(pending: Bytes, bytes: Bytes) returns (lines: seq<Line>, rest: Bytes)
    ensures lines == Lines(pending + bytes) && rest == Rest(pending + bytes)
  {
    var complete: Bytes;
    complete, rest := TakeComplete(pending + bytes);
    lines := SplitLines(complete);
  }

  function Concat(chunks: seq<Bytes>): Bytes {
    if chunks == [] then [] else chunks[0] + Concat(chunks[1..])
  }

  /** The lines delivered by one read per chunk, each starting from what the last left pending. */
  function ReadAll(pending: Bytes, chunks: seq<Bytes>): seq<Line>
    decreases |chunks|
  {
    if chunks == [] then []
    else Lines(pending + chunks[0]) + ReadAll(Rest(pending + chunks[0]), chunks[1..])
  }

  /** However the stream is cut into reads, the lines delivered are those of the whole stream. */
  lemma {:induction false} CutsDoNotMatter(consumed: Bytes, chunks: seq<Bytes>)
    ensures Lines(consumed) + ReadAll(Rest(consumed), chunks) == Lines(consumed + Concat(chunks))
    decreases |chunks|
  {
    if chunks == [] {
      assert consumed + Concat(chunks) == consumed;
    } else {
      var next := consumed + chunks[0];
      LinesAppend(consumed, chunks[0]);
      CutsDoNotMatter(next, chunks[1..]);
      Assoc(consumed, chunks[0], Concat(chunks[1..]));
      Assoc(Lines(consumed), Lines(Rest(consumed) + chunks[0]), ReadAll(Rest(next), chunks[1..]));
    }
  }
}
