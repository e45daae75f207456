/** Reading a process's standard output line by line while it comes in chunks: what the lines do
    does not depend on how they were chunked, as long as each fits. */
module LineReader {
  newtype Byte = b: int | 0 <= b < 256

  const NEWLINE: Byte := 10
  const MAX_LINE: nat := 8 * 1024 * 1024

  datatype Chunk = Chunk(isStdout: bool, data: seq<Byte>)

  // What handling a line leads to: a state, and whether the reader goes on.
  datatype Reader<S> = Going(state: S) | Failed(last: S, tooLong: bool)

  predicate IsSpace(b: Byte) { b == 32 || 9 <= b <= 13 }

  function TrimLeft(s: seq<Byte>): (t: seq<Byte>)
    ensures |t| <= |s|
  {
    if s != [] && IsSpace(s[0]) then TrimLeft(s[1..]) else s
  }

  function TrimRight(s: seq<Byte>): (t: seq<Byte>)
    ensures |t| <= |s|
  {
    if s != [] && IsSpace(s[|s| - 1]) then TrimRight(s[..|s| - 1]) else s
  }

  function Trim(s: seq<Byte>): (t: seq<Byte>)
    ensures |t| <= |s|
  {
    TrimRight(TrimLeft(s))
  }

  function FirstNewline(s: seq<Byte>): (i: nat)
    ensures i <= |s| && NEWLINE !in s[..i] && (i < |s| ==> s[i] == NEWLINE)
  {
    if s == [] || s[0] == NEWLINE then 0
    else
      assert s[..1 + FirstNewline(s[1..])] == [s[0]] + s[1..][..FirstNewline(s[1..])];
      1 + FirstNewline(s[1..])
  }

  ghost predicate AllSpace(s: seq<Byte>) { forall i :: 0 <= i < |s| ==> s[i] in {9, 10, 11, 12, 13, 32} }

  ghost predicate Bare(s: seq<Byte>) { s != [] ==> s[0] !in {9, 10, 11, 12, 13, 32} && s[|s| - 1] !in {9, 10, 11, 12, 13, 32} }

  lemma {:induction false} LeftIs(s: seq<Byte>) returns (left: seq<Byte>)
    ensures s == left + TrimLeft(s) && AllSpace(left)
    ensures TrimLeft(s) != [] ==> TrimLeft(s)[0] !in {9, 10, 11, 12, 13, 32}
  {
    left := [];
    if s != [] && IsSpace(s[0]) {
      var rest := LeftIs(s[1..]);
      left := [s[0]] + rest;
    }
  }

  lemma {:induction false} RightIs(s: seq<Byte>) returns (right: seq<Byte>)
    ensures s == TrimRight(s) + right && AllSpace(right)
    ensures TrimRight(s) != [] ==> TrimRight(s)[|TrimRight(s)| - 1] !in {9, 10, 11, 12, 13, 32}
  {
    right := [];
    if s != [] && IsSpace(s[|s| - 1]) {
      var rest := RightIs(s[..|s| - 1]);
      right := rest + [s[|s| - 1]];
    }
  }

  /** Trimming takes off all the white space around a line, and nothing else. */
  lemma TrimIs(s: seq<Byte>) returns (left: seq<Byte>, right: seq<Byte>)
    ensures s == left + Trim(s) + right && AllSpace(left) && AllSpace(right) && Bare(Trim(s))
  {
    left := LeftIs(s);
    right := RightIs(TrimLeft(s));
    if Trim(s) != [] { assert Trim(s)[0] == TrimLeft(s)[0]; }
  }

  /******* The reader, chunk by chunk *******/

  // A line as it stands between two newlines. Blank ones are skipped.
  function Fed<S>(r: Reader<S>, raw: seq<Byte>, handle: (S, seq<Byte>) -> Reader<S>): Reader<S> {
    if r.Failed? || Trim(raw) == [] then r
    else if |Trim(raw)| > MAX_LINE then Failed(r.state, true)
    else handle(r.state, Trim(raw))
  }

  function Drained<S>(r: Reader<S>, buffer: seq<Byte>, handle: (S, seq<Byte>) -> Reader<S>): (Reader<S>, seq<Byte>)
    decreases |buffer|
  {
    var i := FirstNewline(buffer);
    if r.Failed? || i == |buffer| then (r, buffer)
    else Drained(Fed(r, buffer[..i], handle), buffer[i + 1..], handle)
  }

  function ChunkRead<S>(r: Reader<S>, buffer: seq<Byte>, chunk: Chunk, handle: (S, seq<Byte>) -> Reader<S>): (Reader<S>, seq<Byte>) {
    if !chunk.isStdout || r.Failed? then (r, buffer)
    else
      var (s, rest) := Drained(r, buffer + chunk.data, handle);
      (if s.Going? && |rest| > MAX_LINE then Failed(s.state, true) else s, rest)
  }

  function ChunksRead<S>(start: S, chunks: seq<Chunk>, handle: (S, seq<Byte>) -> Reader<S>): (Reader<S>, seq<Byte>) {
    if chunks == [] then (Going(start), [])
    else
      var (r, buffer) := ChunksRead(start, chunks[..|chunks| - 1], handle);
      ChunkRead(r, buffer, chunks[|chunks| - 1], handle)
  }

  // What is left when the process ends is a line too.
  function Read<S>(start: S, chunks: seq<Chunk>, handle: (S, seq<Byte>) -> Reader<S>): Reader<S> {
    var (r, buffer) := ChunksRead(start, chunks, handle);
    if r.Failed? || Trim(buffer) == [] then r else handle(r.state, Trim(buffer))
  }

  method FindNewline(s: seq<Byte>) returns (i: nat)
    ensures i == FirstNewline(s)
  {
    i := 0;
    while i < |s| && s[i] != NEWLINE
      invariant i <= |s| && FirstNewline(s) == i + FirstNewline(s[i..])
    {
      i := i + 1;
    }
  }

  method Run<S>(start: S, chunks: seq<Chunk>, handle: (S, seq<Byte>) -> Reader<S>) returns (r: Reader<S>)
    ensures r == Read(start, chunks, handle)
  {
    var stdout: seq<Byte> := [];
    r := Going(start);
    for n := 0 to |chunks|
      invariant (r, stdout) == ChunksRead(start, chunks[..n], handle)
    {
      assert chunks[..n + 1][..n] == chunks[..n];
      if !chunks[n].isStdout || r.Failed? { continue; }
      stdout := stdout + chunks[n].data;
      ghost var begun, buffer := r, stdout;
      while true
        invariant Drained(begun, buffer, handle) == Drained(r, stdout, handle)
        decreases |stdout|
      {
        var newline := FindNewline(stdout);
        if r.Failed? || newline == |stdout| { break; }
        var line := Trim(stdout[..newline]);
        stdout, r := stdout[newline + 1..], Fed(r, stdout[..newline], handle);
      }
      if r.Going? && |stdout| > MAX_LINE { r := Failed(r.state, true); }
    }
    assert chunks[..|chunks|] == chunks;
    if r.Going? && Trim(stdout) != [] { r := handle(r.state, Trim(stdout)); }
  }

  /******* The stream as a whole *******/

  function Stdout(chunks: seq<Chunk>): seq<Byte> {
    if chunks == [] then []
    else Stdout(chunks[..|chunks| - 1]) + if chunks[|chunks| - 1].isStdout then chunks[|chunks| - 1].data else []
  }

  // The raw lines of a stream: those a newline ends, and the rest.
  function Lines(s: seq<Byte>): seq<seq<Byte>> {
    var i := FirstNewline(s);
    if i == |s| then [] else [s[..i]] + Lines(s[i + 1..])
  }

  function Rest(s: seq<Byte>): (rest: seq<Byte>)
    ensures NEWLINE !in rest
  {
    var i := FirstNewline(s);
    if i == |s| then assert s[..i] == s; s else Rest(s[i + 1..])
  }

  function AllFed<S>(r: Reader<S>, lines: seq<seq<Byte>>, handle: (S, seq<Byte>) -> Reader<S>): Reader<S>
    decreases |lines|
  {
    if lines == [] then r else AllFed(Fed(r, lines[0], handle), lines[1..], handle)
  }

  predicate Fits(s: seq<Byte>) {
    |Rest(s)| <= MAX_LINE && forall k :: 0 <= k < |Lines(s)| ==> |Lines(s)[k]| <= MAX_LINE
  }

  lemma FirstIs(s: seq<Byte>, n: nat)
    requires n <= |s| && NEWLINE !in s[..n] && (n < |s| ==> s[n] == NEWLINE)
    ensures FirstNewline(s) == n
  {
    var i := FirstNewline(s);
    assert forall k :: 0 <= k < n ==> s[k] == s[..n][k];
    assert forall k :: 0 <= k < i ==> s[k] == s[..i][k];
  }

  lemma FirstStays(s: seq<Byte>, t: seq<Byte>)
    requires FirstNewline(s) < |s|
    ensures var i := FirstNewline(s);
      FirstNewline(s + t) == i && (s + t)[..i] == s[..i] && (s + t)[i + 1..] == s[i + 1..] + t
  {
    var i := FirstNewline(s);
    assert (s + t)[..i] == s[..i];
    FirstIs(s + t, i);
  }

  lemma OneLineMore(line: seq<Byte>, a: seq<seq<Byte>>, b: seq<seq<Byte>>)
    ensures [line] + (a + b) == ([line] + a) + b
  {
  }

  lemma LinesFromFirst(s: seq<Byte>, t: seq<Byte>)
    requires FirstNewline(s) < |s|
    ensures var i := FirstNewline(s);
      && Lines(s + t) == [s[..i]] + Lines(s[i + 1..] + t) && Rest(s + t) == Rest(s[i + 1..] + t)
      && Lines(s) == [s[..i]] + Lines(s[i + 1..]) && Rest(s) == Rest(s[i + 1..])
  {
    FirstStays(s, t);
  }

  lemma NoLineYet(s: seq<Byte>)
    requires FirstNewline(s) == |s|
    ensures Lines(s) == [] && Rest(s) == s
  {
  }

  // More output only adds lines to those there are, the first of them to the rest.
  lemma {:induction false} LinesPlus(s: seq<Byte>, t: seq<Byte>)
    ensures Lines(s + t) == Lines(s) + Lines(Rest(s) + t) && Rest(s + t) == Rest(Rest(s) + t)
    decreases |s|
  {
    if FirstNewline(s) == |s| {
      NoLineYet(s);
    } else {
      var line, left := s[..FirstNewline(s)], s[FirstNewline(s) + 1..];
      LinesFromFirst(s, t);
      LinesPlus(left, t);
      OneLineMore(line, Lines(left), Lines(Rest(left) + t));
    }
  }

  lemma {:induction false} AllFedPlus<S>(r: Reader<S>, a: seq<seq<Byte>>, b: seq<seq<Byte>>, handle: (S, seq<Byte>) -> Reader<S>)
    ensures AllFed(r, a + b, handle) == AllFed(AllFed(r, a, handle), b, handle)
    decreases |a|
  {
    if a == [] {
      assert a + b == b;
    } else {
      assert (a + b)[1..] == a[1..] + b;
      AllFedPlus(Fed(r, a[0], handle), a[1..], b, handle);
    }
  }

  lemma {:induction false} FailedStays<S>(r: Reader<S>, lines: seq<seq<Byte>>, handle: (S, seq<Byte>) -> Reader<S>)
    requires r.Failed?
    ensures AllFed(r, lines, handle) == r
  {
    if lines != [] { FailedStays(r, lines[1..], handle); }
  }

  // Draining the buffer handles the lines in it, and leaves the rest, unless the reader fails.
  lemma {:induction false} DrainedIsFed<S>(r: Reader<S>, buffer: seq<Byte>, handle: (S, seq<Byte>) -> Reader<S>)
    ensures Drained(r, buffer, handle).0 == AllFed(r, Lines(buffer), handle)
    ensures Drained(r, buffer, handle).0.Going? ==> Drained(r, buffer, handle).1 == Rest(buffer)
    decreases |buffer|
  {
    var i := FirstNewline(buffer);
    if r.Failed? {
      FailedStays(r, Lines(buffer), handle);
    } else if i < |buffer| {
      assert Lines(buffer)[0] == buffer[..i] && Lines(buffer)[1..] == Lines(buffer[i + 1..]);
      DrainedIsFed(Fed(r, buffer[..i], handle), buffer[i + 1..], handle);
    }
  }

  // A line that passes the limit does so without the white space around it too.
  predicate LineTidy(line: seq<Byte>) { |line| <= MAX_LINE || |Trim(line)| > MAX_LINE }

  // Every line that the reader comes to is tidy.
  predicate Tidy<S>(start: S, s: seq<Byte>, handle: (S, seq<Byte>) -> Reader<S>) {
    forall k :: 0 <= k < |Lines(s)| && AllFed(Going(start), Lines(s)[..k], handle).Going? ==> LineTidy(Lines(s)[k])
  }

  lemma FitsIsTidy<S>(start: S, s: seq<Byte>, handle: (S, seq<Byte>) -> Reader<S>)
    requires Fits(s)
    ensures Tidy(start, s, handle)
  {
  }

  // What handling the lines so far leads to, where the rest is too long already or not.
  function SoFar<S>(start: S, s: seq<Byte>, handle: (S, seq<Byte>) -> Reader<S>): Reader<S> {
    var r := AllFed(Going(start), Lines(s), handle);
    if r.Going? && |Rest(s)| > MAX_LINE then Failed(r.state, true) else r
  }

  lemma TidyBefore<S>(start: S, s: seq<Byte>, t: seq<Byte>, handle: (S, seq<Byte>) -> Reader<S>)
    requires Tidy(start, s + t, handle)
    ensures Tidy(start, s, handle)
  {
    LinesPlus(s, t);
    forall k | 0 <= k < |Lines(s)| && AllFed(Going(start), Lines(s)[..k], handle).Going? ensures LineTidy(Lines(s)[k]) {
      assert Lines(s + t)[..k] == Lines(s)[..k] && Lines(s + t)[k] == Lines(s)[k];
    }
  }

  // The first line of more output begins with the rest.
  lemma RestLeads(s: seq<Byte>, t: seq<Byte>)
    ensures var all := Rest(s) + t;
      FirstNewline(all) >= |Rest(s)| && (Lines(all) == [] ==> Rest(all) == all) && (Lines(all) != [] ==> |Lines(all)[0]| >= |Rest(s)|)
  {
    var all := Rest(s) + t;
    assert forall k :: 0 <= k < |Rest(s)| ==> all[k] == Rest(s)[k];
  }

  // Once the rest is too long, the reader fails as it would on the line.
  lemma TooLongStays<S>(start: S, s: seq<Byte>, t: seq<Byte>, handle: (S, seq<Byte>) -> Reader<S>)
    requires SoFar(start, s, handle).Failed? && Tidy(start, s + t, handle)
    ensures SoFar(start, s + t, handle) == SoFar(start, s, handle)
  {
    var r, more := AllFed(Going(start), Lines(s), handle), Lines(Rest(s) + t);
    LinesPlus(s, t);
    AllFedPlus(Going(start), Lines(s), more, handle);
    if r.Failed? {
      FailedStays(r, more, handle);
    } else {
      RestLeads(s, t);
      if more != [] {
        assert Lines(s + t)[..|Lines(s)|] == Lines(s) && Lines(s + t)[|Lines(s)|] == more[0];
        assert LineTidy(more[0]);
        FailedStays(Fed(r, more[0], handle), more[1..], handle);
      }
    }
  }

  // The reader stands where the lines so far lead, and holds the rest; once it failed, what it
  // holds does not matter.
  ghost predicate InStep<S>(start: S, all: seq<Byte>, r: Reader<S>, buffer: seq<Byte>, handle: (S, seq<Byte>) -> Reader<S>) {
    r == SoFar(start, all, handle) && (r.Going? ==> buffer == Rest(all))
  }

  lemma ChunkInStep<S>(start: S, all: seq<Byte>, r: Reader<S>, buffer: seq<Byte>, chunk: Chunk, handle: (S, seq<Byte>) -> Reader<S>)
    requires InStep(start, all, r, buffer, handle) && chunk.isStdout && Tidy(start, all + chunk.data, handle)
    ensures InStep(start, all + chunk.data, ChunkRead(r, buffer, chunk, handle).0, ChunkRead(r, buffer, chunk, handle).1, handle)
  {
    if r.Failed? {
      TooLongStays(start, all, chunk.data, handle);
    } else {
      LinesPlus(all, chunk.data);
      AllFedPlus(Going(start), Lines(all), Lines(Rest(all) + chunk.data), handle);
      DrainedIsFed(r, buffer + chunk.data, handle);
    }
  }

  lemma {:induction false} ChunksInStep<S>(start: S, chunks: seq<Chunk>, handle: (S, seq<Byte>) -> Reader<S>)
    requires Tidy(start, Stdout(chunks), handle)
    ensures InStep(start, Stdout(chunks), ChunksRead(start, chunks, handle).0, ChunksRead(start, chunks, handle).1, handle)
  {
    if chunks != [] {
      var init, last := chunks[..|chunks| - 1], chunks[|chunks| - 1];
      if last.isStdout {
        TidyBefore(start, Stdout(init), last.data, handle);
        ChunksInStep(start, init, handle);
        var before := ChunksRead(start, init, handle);
        ChunkInStep(start, Stdout(init), before.0, before.1, last, handle);
      } else {
        assert Stdout(chunks) == Stdout(init);
        ChunksInStep(start, init, handle);
      }
    }
  }

  /** When every line the reader comes to is tidy, reading in chunks comes to handling the stream's
      lines one by one, the unended last one too. */
  lemma ReadIsByLine<S>(start: S, chunks: seq<Chunk>, handle: (S, seq<Byte>) -> Reader<S>)
    requires Tidy(start, Stdout(chunks), handle)
    ensures Read(start, chunks, handle) == Fed(SoFar(start, Stdout(chunks), handle), Rest(Stdout(chunks)), handle)
  {
    ChunksInStep(start, chunks, handle);
  }

  // All lines of a stream, the unended one too.
  function AllLines(s: seq<Byte>): seq<seq<Byte>> { Lines(s) + [Rest(s)] }

  lemma ReadIsAllLines<S>(start: S, chunks: seq<Chunk>, handle: (S, seq<Byte>) -> Reader<S>)
    requires Fits(Stdout(chunks))
    ensures Read(start, chunks, handle) == AllFed(Going(start), AllLines(Stdout(chunks)), handle)
  {
    var s := Stdout(chunks);
    FitsIsTidy(start, s, handle);
    ReadIsByLine(start, chunks, handle);
    AllFedPlus(Going(start), Lines(s), [Rest(s)], handle);
    assert [Rest(s)][1..] == [];
  }

  // The same output, chunked any way, is read to the same end.
  ghost predicate ChunkFree<S>(start: S, s: seq<Byte>, handle: (S, seq<Byte>) -> Reader<S>) {
    forall chunks, others: seq<Chunk> :: Stdout(chunks) == s && Stdout(others) == s ==>
      Read(start, chunks, handle) == Read(start, others, handle)
  }

  lemma TidyIsChunkFree<S>(start: S, s: seq<Byte>, handle: (S, seq<Byte>) -> Reader<S>)
    requires Tidy(start, s, handle)
    ensures ChunkFree(start, s, handle)
  {
    forall chunks, others: seq<Chunk> | Stdout(chunks) == s && Stdout(others) == s
      ensures Read(start, chunks, handle) == Read(start, others, handle)
    {
      ReadIsByLine(start, chunks, handle);
      ReadIsByLine(start, others, handle);
    }
  }

  /** When every raw line fits, the same output, chunked any way, is read to the same end. */
  lemma ChunkingDoesNotMatter<S>(start: S, chunks: seq<Chunk>, others: seq<Chunk>, handle: (S, seq<Byte>) -> Reader<S>)
    requires Stdout(chunks) == Stdout(others) && Fits(Stdout(chunks))
    ensures Read(start, chunks, handle) == Read(start, others, handle)
  {
    FitsIsTidy(start, Stdout(chunks), handle);
    TidyIsChunkFree(start, Stdout(chunks), handle);
  }

  lemma LineAdded(done: seq<Byte>, line: seq<Byte>)
    requires Rest(done) == [] && NEWLINE !in line
    ensures Lines(done + line) == Lines(done) && Rest(done + line) == line
    ensures Lines(done + line + [NEWLINE]) == Lines(done) + [line] && Rest(done + line + [NEWLINE]) == []
  {
    assert [] + line == line && line[..|line|] == line;
    FirstIs(line, |line|);
    LinesPlus(done, line);
    NoLineYet(line);
    var ended := line + [NEWLINE];
    assert [] + ended == ended && ended[..|line|] == line && ended[|line| + 1..] == [];
    FirstIs(ended, |line|);
    LinesPlus(done, ended);
    assert done + line + [NEWLINE] == done + ended;
  }

  // Lines put back together, each with the newline that ended it.
  function Joined(lines: seq<seq<Byte>>): seq<Byte> {
    if lines == [] then [] else Joined(lines[..|lines| - 1]) + lines[|lines| - 1] + [NEWLINE]
  }

  ghost predicate NoneEnds(lines: seq<seq<Byte>>) { forall k :: 0 <= k < |lines| ==> NEWLINE !in lines[k] }

  lemma {:induction false} JoinedFirst(line: seq<Byte>, lines: seq<seq<Byte>>)
    ensures Joined([line] + lines) == line + [NEWLINE] + Joined(lines)
  {
    if lines == [] {
      assert [line] + lines == [line];
    } else {
      var init, last := lines[..|lines| - 1], lines[|lines| - 1];
      JoinedFirst(line, init);
      assert ([line] + lines)[..|lines|] == [line] + init;
      assert line + [NEWLINE] + Joined(init) + last + [NEWLINE] == line + [NEWLINE] + (Joined(init) + last + [NEWLINE]);
    }
  }

  lemma {:induction false} JoinedBegins(lines: seq<seq<Byte>>, k: nat)
    requires k <= |lines|
    ensures Joined(lines[..k]) <= Joined(lines)
  {
    if k == |lines| {
      assert lines[..k] == lines;
    } else {
      assert lines[..|lines| - 1][..k] == lines[..k];
      JoinedBegins(lines[..|lines| - 1], k);
    }
  }

  lemma {:induction false} NoLineEnds(s: seq<Byte>)
    ensures NoneEnds(Lines(s))
    decreases |s|
  {
    var i := FirstNewline(s);
    if i < |s| { NoLineEnds(s[i + 1..]); }
  }

  lemma Regroup(a: seq<Byte>, b: seq<Byte>, c: seq<Byte>)
    ensures a + (b + c) == (a + b) + c
  {
  }

  lemma SplitAt(s: seq<Byte>, i: nat)
    requires i < |s|
    ensures s == s[..i] + [s[i]] + s[i + 1..]
  {
  }

  lemma FirstLine(s: seq<Byte>)
    requires FirstNewline(s) < |s|
    ensures var i := FirstNewline(s); Lines(s) == [s[..i]] + Lines(s[i + 1..]) && Rest(s) == Rest(s[i + 1..])
  {
  }

  // Splitting a stream into lines loses nothing: joined again they give it back,
  lemma {:induction false} LinesJoin(s: seq<Byte>)
    ensures s == Joined(Lines(s)) + Rest(s)
    decreases |s|
  {
    var i := FirstNewline(s);
    if i < |s| {
      var line, left := s[..i], s[i + 1..];
      LinesJoin(left);
      JoinedFirst(line, Lines(left));
      SplitAt(s, i);
      FirstLine(s);
      Regroup(line + [NEWLINE], Joined(Lines(left)), Rest(left));
    }
  }

  // and lines joined split into themselves.
  lemma {:induction false} JoinedSplits(lines: seq<seq<Byte>>)
    requires NoneEnds(lines)
    ensures Lines(Joined(lines)) == lines && Rest(Joined(lines)) == []
  {
    if lines != [] {
      var init, last := lines[..|lines| - 1], lines[|lines| - 1];
      assert Lines(Joined(init)) == init && Rest(Joined(init)) == [] by { JoinedSplits(init); }
      LineAdded(Joined(init), last);
      assert init + [last] == lines;
    }
  }

  // A stream begins with its first k lines, and then the next.
  lemma LineFollows(s: seq<Byte>, k: nat) returns (done: seq<Byte>)
    requires k < |Lines(s)|
    ensures Lines(done) == Lines(s)[..k] && Rest(done) == [] && NEWLINE !in Lines(s)[k]
    ensures done + Lines(s)[k] + [NEWLINE] <= s
  {
    var lines := Lines(s);
    NoLineEnds(s);
    LinesJoin(s);
    done := Joined(lines[..k]);
    JoinedSplits(lines[..k]);
    JoinedBegins(lines, k + 1);
    assert lines[..k + 1][..k] == lines[..k];
  }

  lemma OneChunkRead<S>(start: S, s: seq<Byte>, handle: (S, seq<Byte>) -> Reader<S>)
    ensures var r := AllFed(Going(start), Lines(s), handle);
      && ChunksRead(start, [Chunk(true, s)], handle).0 == SoFar(start, s, handle)
      && (r.Going? && |Rest(s)| <= MAX_LINE ==> ChunksRead(start, [Chunk(true, s)], handle).1 == Rest(s))
  {
    OneChunk(start, Chunk(true, s), handle);
    DrainedIsFed(Going(start), s, handle);
  }

  // A line that is not tidy, come with its newline, does not fail the reader for its length.
  lemma UntidyWhole<S>(start: S, done: seq<Byte>, line: seq<Byte>, handle: (S, seq<Byte>) -> Reader<S>)
    requires Rest(done) == [] && NEWLINE !in line && !LineTidy(line)
    requires AllFed(Going(start), Lines(done), handle).Going?
    requires forall t, l {:trigger handle(t, l)} :: handle(t, l).Failed? ==> !handle(t, l).tooLong
    ensures var r := Read(start, [Chunk(true, done + line + [NEWLINE])], handle); r.Failed? ==> !r.tooLong
  {
    var r := AllFed(Going(start), Lines(done), handle);
    LineAdded(done, line);
    AllFedPlus(Going(start), Lines(done), [line], handle);
    assert AllFed(r, [line], handle) == Fed(r, line, handle);
    OneChunkRead(start, done + line + [NEWLINE], handle);
  }

  // It does if the newline comes later.
  lemma UntidyParts<S>(start: S, done: seq<Byte>, line: seq<Byte>, handle: (S, seq<Byte>) -> Reader<S>)
    requires Rest(done) == [] && NEWLINE !in line && !LineTidy(line)
    requires AllFed(Going(start), Lines(done), handle).Going?
    ensures var r := Read(start, [Chunk(true, done + line), Chunk(true, [NEWLINE])], handle); r.Failed? && r.tooLong
  {
    var first, second := Chunk(true, done + line), Chunk(true, [NEWLINE]);
    LineAdded(done, line);
    OneChunkRead(start, done + line, handle);
    assert [first, second][..1] == [first];
  }

  lemma StdoutOfParts(a: seq<Byte>, b: seq<Byte>)
    ensures Stdout([Chunk(true, a + b)]) == a + b && Stdout([Chunk(true, a), Chunk(true, b)]) == a + b
  {
    var first, second := Chunk(true, a), Chunk(true, b);
    assert [first, second][..1] == [first] && [first][..0] == [] && [Chunk(true, a + b)][..0] == [];
    assert [] + (a + b) == a + b && [] + a == a;
  }

  lemma NotFree<S>(start: S, s: seq<Byte>, chunks: seq<Chunk>, others: seq<Chunk>, handle: (S, seq<Byte>) -> Reader<S>)
    requires Stdout(chunks) == s && Stdout(others) == s && Read(start, chunks, handle) != Read(start, others, handle)
    ensures !ChunkFree(start, s, handle)
  {
  }

  lemma UntidyDepends<S>(start: S, s: seq<Byte>, k: nat, handle: (S, seq<Byte>) -> Reader<S>) returns (begun: seq<Byte>)
    requires k < |Lines(s)| && AllFed(Going(start), Lines(s)[..k], handle).Going? && !LineTidy(Lines(s)[k])
    requires forall t, l {:trigger handle(t, l)} :: handle(t, l).Failed? ==> !handle(t, l).tooLong
    ensures begun <= s && !ChunkFree(start, begun, handle)
  {
    var done := LineFollows(s, k);
    var line := Lines(s)[k];
    UntidyWhole(start, done, line, handle);
    UntidyParts(start, done, line, handle);
    StdoutOfParts(done + line, [NEWLINE]);
    begun := done + line + [NEWLINE];
    NotFree(start, begun, [Chunk(true, begun)], [Chunk(true, done + line), Chunk(true, [NEWLINE])], handle);
  }

  lemma TidyPrefix<S>(start: S, s: seq<Byte>, n: nat, handle: (S, seq<Byte>) -> Reader<S>)
    requires Tidy(start, s, handle) && n <= |s|
    ensures ChunkFree(start, s[..n], handle)
  {
    assert s == s[..n] + s[n..];
    TidyBefore(start, s[..n], s[n..], handle);
    TidyIsChunkFree(start, s[..n], handle);
  }

  /** Exactly when the lines the reader comes to are tidy, every prefix of the stream is read to
      the same end however it is chunked; handlers fail lines for other reasons than their length. */
  lemma ChunkingExact<S(!new)>(start: S, s: seq<Byte>, handle: (S, seq<Byte>) -> Reader<S>)
    requires forall t, l {:trigger handle(t, l)} :: handle(t, l).Failed? ==> !handle(t, l).tooLong
    ensures (forall n :: 0 <= n <= |s| ==> ChunkFree(start, s[..n], handle)) <==> Tidy(start, s, handle)
  {
    if Tidy(start, s, handle) {
      forall n | 0 <= n <= |s| ensures ChunkFree(start, s[..n], handle) {
        TidyPrefix(start, s, n, handle);
      }
    } else {
      var k: nat :| k < |Lines(s)| && AllFed(Going(start), Lines(s)[..k], handle).Going? && !LineTidy(Lines(s)[k]);
      var begun := UntidyDepends(start, s, k, handle);
      assert s[..|begun|] == begun;
    }
  }

  /** Beyond the limit it does matter: spaces that overflow it are read as a blank line when their
      newline comes with them, and fail the reader when it comes in the next chunk. */
  lemma LongBlankLineDepends<S>(start: S, spaces: seq<Byte>, handle: (S, seq<Byte>) -> Reader<S>)
    requires |spaces| > MAX_LINE && forall i :: 0 <= i < |spaces| ==> spaces[i] == 32
    ensures Read(start, [Chunk(true, spaces + [NEWLINE])], handle) == Going(start)
    ensures Read(start, [Chunk(true, spaces), Chunk(true, [NEWLINE])], handle) == Failed(start, true)
  {
    SpacesAreBlank(spaces);
    BlankLineSkipped(start, spaces, handle);
    BlankPartFails(start, spaces, handle);
  }

  lemma BlankLineSkipped<S>(start: S, line: seq<Byte>, handle: (S, seq<Byte>) -> Reader<S>)
    requires NEWLINE !in line && Trim(line) == []
    ensures Read(start, [Chunk(true, line + [NEWLINE])], handle) == Going(start)
  {
    var data := line + [NEWLINE];
    assert data[..|line|] == line && data[|line| + 1..] == [];
    FirstIs(data, |line|);
    OneChunk(start, Chunk(true, data), handle);
    assert Drained(Going(start), data, handle) == Drained(Fed(Going(start), line, handle), [], handle);
  }

  lemma BlankPartFails<S>(start: S, line: seq<Byte>, handle: (S, seq<Byte>) -> Reader<S>)
    requires NEWLINE !in line && |line| > MAX_LINE
    ensures Read(start, [Chunk(true, line), Chunk(true, [NEWLINE])], handle) == Failed(start, true)
  {
    var first, second := Chunk(true, line), Chunk(true, [NEWLINE]);
    assert line[..|line|] == line;
    FirstIs(line, |line|);
    OneChunk(start, first, handle);
    assert ChunksRead(start, [first], handle).0 == Failed(start, true);
    assert [first, second][..1] == [first];
  }

  lemma OneChunk<S>(start: S, chunk: Chunk, handle: (S, seq<Byte>) -> Reader<S>)
    requires chunk.isStdout
    ensures ChunksRead(start, [chunk], handle) == ChunkRead(Going(start), [], chunk, handle)
    ensures [] + chunk.data == chunk.data
  {
    assert [chunk][..0] == [];
  }

  lemma {:induction false} SpacesAreBlank(spaces: seq<Byte>)
    requires forall i :: 0 <= i < |spaces| ==> spaces[i] == 32
    ensures Trim(spaces) == []
  {
    if spaces != [] {
      SpacesAreBlank(spaces[1..]);
    }
  }
}
