/** Turning a server-sent event stream into newline-delimited JSON records. */
module EventStream {
  import opened Values
  import opened Text

  /** One output line. */
  datatype Record = Heartbeat | Payload(value: Value) | Verbatim(data: string) | Failure(message: string)

  // ------------------------------------------------------------ cutting up the text

  /** Where the first blank line starts, or the length. */
  function Gap(s: string): (i: nat)
    ensures i <= |s| && (i < |s| ==> i + 2 <= |s| && s[i] == '\n' && s[i + 1] == '\n')
    ensures forall j :: 0 <= j < i && j + 1 < |s| ==> !(s[j] == '\n' && s[j + 1] == '\n')
  {
    if |s| < 2 then |s| else if s[0] == '\n' && s[1] == '\n' then 0 else 1 + Gap(s[1..])
  }

  /** chunk.split("\n\n") */
  function Parts(s: string): seq<string>
    decreases |s|
  {
    if Gap(s) == |s| then [s] else [s[..Gap(s)]] + Parts(s[Gap(s) + 2..])
  }

  /** The line boundaries of str.splitlines(). */
  predicate IsBreak(c: char) {
    var n := c as int;
    10 <= n <= 13 || 28 <= n <= 30 || n == 133 || n == 8232 || n == 8233
  }

  function LineEnd(s: string): (i: nat)
    ensures i <= |s| && (i < |s| ==> IsBreak(s[i]))
    ensures forall j :: 0 <= j < i ==> !IsBreak(s[j])
  {
    if s == "" || IsBreak(s[0]) then 0 else 1 + LineEnd(s[1..])
  }

  /** str.splitlines(): a carriage return with its line feed is one boundary. */
  function SplitLines(s: string): seq<string>
    decreases |s|
  {
    if s == "" then []
    else
      var i := LineEnd(s);
      if i == |s| then [s]
      else if s[i] == '\r' && i + 1 < |s| && s[i + 1] == '\n' then [s[..i]] + SplitLines(s[i + 2..])
      else [s[..i]] + SplitLines(s[i + 1..])
  }

  /** The boundaries, by their code points: line feed to carriage return, the three
      information separators, next line, and the line and paragraph separators. */
  lemma LinesMean(line: string, c: char, rest: string)
    requires (forall i :: 0 <= i < |line| ==> !IsBreak(line[i])) && !(c == '\r' && rest != "" && rest[0] == '\n')
    requires c as int in {10, 11, 12, 13, 28, 29, 30, 133, 8232, 8233}
    ensures SplitLines(line + [c] + rest) == [line] + SplitLines(rest)
    ensures SplitLines(line + "\r\n" + rest) == [line] + SplitLines(rest)
  {
    hide SplitLines;
    LineThen(line, c, rest);
    LineReturn(line, rest);
  }

  lemma LineThen(line: string, c: char, rest: string)
    requires (forall i :: 0 <= i < |line| ==> !IsBreak(line[i])) && IsBreak(c) && !(c == '\r' && rest != "" && rest[0] == '\n')
    ensures SplitLines(line + [c] + rest) == [line] + SplitLines(rest)
  {
    hide IsBreak;
    BreakAt(line, c, rest);
    var s := line + [c] + rest;
    assert s[..|line|] == line && s[|line|] == c && s[|line| + 1..] == rest;
  }

  lemma LineReturn(line: string, rest: string)
    requires forall i :: 0 <= i < |line| ==> !IsBreak(line[i])
    ensures SplitLines(line + "\r\n" + rest) == [line] + SplitLines(rest)
  {
    BreakAt(line, '\r', "\n" + rest);
    var t := line + "\r\n" + rest;
    assert t == line + ['\r'] + ("\n" + rest);
    assert t[..|line|] == line && t[|line|] == '\r' && t[|line| + 1] == '\n' && t[|line| + 2..] == rest;
  }

  lemma {:induction false} BreakAt(line: string, c: char, rest: string)
    requires (forall i :: 0 <= i < |line| ==> !IsBreak(line[i])) && IsBreak(c)
    ensures LineEnd(line + [c] + rest) == |line|
  {
    var s := line + [c] + rest;
    if line != "" {
      assert s[1..] == line[1..] + [c] + rest && s[0] == line[0];
      BreakAt(line[1..], c, rest);
    }
  }

  /** No other character ends a line. */
  lemma NoOtherBreak(s: string)
    requires s != "" && forall i :: 0 <= i < |s| ==> s[i] as int !in {10, 11, 12, 13, 28, 29, 30, 133, 8232, 8233}
    ensures SplitLines(s) == [s]
  {
    if LineEnd(s) < |s| { assert IsBreak(s[LineEnd(s)]); }
  }

  // ------------------------------------------------------------- reading one part

  datatype Fields = Fields(id: string, event: string, data: seq<string>)

  predicate IsComment(lines: seq<string>) {
    lines != [] && forall i :: 0 <= i < |lines| && lines[i] != "" ==> lines[i][0] == ':'
  }

  /** The last id and event win, the data lines add up. */
  function ReadLine(f: Fields, line: string): Fields {
    if "id:" <= line then f.(id := Strip(line[3..]))
    else if "event:" <= line then f.(event := Strip(line[6..]))
    else if "data:" <= line then f.(data := f.data + [Strip(line[5..])])
    else f
  }

  function ReadLines(lines: seq<string>): Fields {
    if lines == [] then Fields("", "", [])
    else ReadLine(ReadLines(lines[..|lines| - 1]), lines[|lines| - 1])
  }

  /** dict.setdefault, when there is something to set. */
  function SetDefault(m: Data, key: string, text: string): Data {
    if text == "" || key in m then m else m[key := Str(text)]
  }

  function Labelled(v: Value, f: Fields): Value {
    if v.Dict? then Dict(SetDefault(SetDefault(v.m, "event", f.event), "event_id", f.id)) else v
  }

  /** What one part of a chunk gives. */
  datatype Piece = Silent | Emit(record: Record) | Crash(message: string)

  function PieceOfFields(decode: string -> Decoded, f: Fields): Piece {
    if f.data == [] then Silent
    else
      var data := Join(f.data, '\n');
      match decode(data)
      case Json(value) => Emit(Payload(Labelled(value, f)))
      case NotJson => Emit(Verbatim(data))
      case Broken(message) => Crash(message)
  }

  function PieceOf(decode: string -> Decoded, part: string): Piece {
    var lines := SplitLines(part);
    if IsComment(lines) then Emit(Heartbeat) else PieceOfFields(decode, ReadLines(lines))
  }

  function PiecesOf(decode: string -> Decoded, parts: seq<string>): seq<Piece> {
    seq(|parts|, i requires 0 <= i < |parts| => PieceOf(decode, parts[i]))
  }

  /** The pieces of a run of chunks. */
  function StreamPieces(decode: string -> Decoded, chunks: seq<string>): seq<Piece> {
    if chunks == [] then []
    else StreamPieces(decode, chunks[..|chunks| - 1]) + PiecesOf(decode, Parts(chunks[|chunks| - 1]))
  }

  function FailureOf(message: string): Record {
    Failure(if message == "" then "Run stream interrupted." else message)
  }

  /** The whole output for the pieces: a crash ends it with one error record. */
  function Records(pieces: seq<Piece>): seq<Record> {
    if pieces == [] then []
    else match pieces[0]
      case Silent => Records(pieces[1..])
      case Emit(r) => [r] + Records(pieces[1..])
      case Crash(message) => [FailureOf(message)]
  }

  predicate Crashes(pieces: seq<Piece>) {
    exists i :: 0 <= i < |pieces| && pieces[i].Crash?
  }

  // ------------------------------------------------------------------ the generator

  datatype Item = Chunk(text: string) | Done | Raised(message: string)

  /** An iterable of chunks that may fail at its end. */
  class Source {
    const chunks: seq<string>
    const failure: Option<string>
    var pos: nat
    var closed: bool

    constructor (chunks: seq<string>, failure: Option<string>)
      ensures this.chunks == chunks && this.failure == failure && pos == 0 && !closed
    {
      this.chunks := chunks;
      this.failure := failure;
      pos := 0;
      closed := false;
    }

    method Next() returns (item: Item)
      requires pos <= |chunks|
      modifies this`pos
      ensures old(pos) < |chunks| ==> pos == old(pos) + 1 && item == Chunk(chunks[old(pos)])
      ensures old(pos) == |chunks| ==> pos == old(pos) && item == if failure.Some? then Raised(failure.value) else Done
    {
      if pos < |chunks| {
        item := Chunk(chunks[pos]);
        pos := pos + 1;
      } else {
        item := if failure.Some? then Raised(failure.value) else Done;
      }
    }

    method Close()
      modifies this`closed
      ensures closed
    {
      closed := true;
    }
  }

  datatype Ending = Going | Stopped | Failed(message: string)

  /** What the consumer has received, and whether the generator still goes. The
      consumer closes the generator after `patience` records. */
  datatype Flow = Flow(out: seq<Record>, ending: Ending)

  function Extend(flow: Flow, piece: Piece, patience: nat): Flow {
    if !flow.ending.Going? then flow
    else match piece
      case Silent => flow
      case Emit(r) => Flow(flow.out + [r], if |flow.out| + 1 >= patience then Stopped else Going)
      case Crash(message) => Flow(flow.out, Failed(message))
  }

  function FlowOf(pieces: seq<Piece>, patience: nat): Flow {
    if pieces == [] then Flow([], Going)
    else Extend(FlowOf(pieces[..|pieces| - 1], patience), pieces[|pieces| - 1], patience)
  }

  lemma {:induction false} FlowEnds(pieces: seq<Piece>, more: seq<Piece>, patience: nat)
    requires !FlowOf(pieces, patience).ending.Going?
    ensures FlowOf(pieces + more, patience) == FlowOf(pieces, patience)
  {
    if more == [] {
      assert pieces + more == pieces;
    } else {
      FlowEnds(pieces, more[..|more| - 1], patience);
      assert (pieces + more)[..|pieces + more| - 1] == pieces + more[..|more| - 1];
    }
  }

  lemma FlowStep(past: seq<Piece>, piece: Piece, patience: nat)
    ensures FlowOf([], patience) == Flow([], Going)
    ensures FlowOf(past + [piece], patience) == Extend(FlowOf(past, patience), piece, patience)
  {
    assert (past + [piece])[..|past|] == past;
  }

  /** The lines of a part, read in a loop. */
  method ConvertPart(decode: string -> Decoded, part: string) returns (piece: Piece)
    ensures piece == PieceOf(decode, part)
  {
    var lines := SplitLines(part);
    if IsComment(lines) { return Emit(Heartbeat); }
    var id, event, data := "", "", [];
    for i := 0 to |lines|
      invariant ReadLines(lines[..i]) == Fields(id, event, data)
    {
      assert lines[..i + 1][..i] == lines[..i];
      var line := lines[i];
      assert "id:" <= line ==> line[0] == 'i';
      assert "event:" <= line ==> line[0] == 'e';
      assert "data:" <= line ==> line[0] == 'd';
      if "id:" <= line { id := Strip(line[3..]); }
      if "event:" <= line { event := Strip(line[6..]); }
      if "data:" <= line { data := data + [Strip(line[5..])]; }
    }
    assert lines[..|lines|] == lines;
    piece := PieceOfFields(decode, Fields(id, event, data));
  }

  /** The parts of a chunk, until the generator ends. */
  method ConvertChunk(decode: string -> Decoded, chunk: string, before: Flow, patience: nat, ghost past: seq<Piece>)
    returns (flow: Flow)
    requires before == FlowOf(past, patience) && before.ending.Going?
    ensures flow == FlowOf(past + PiecesOf(decode, Parts(chunk)), patience)
  {
    hide PieceOf, FlowOf, Parts, Extend;
    flow := before;
    var parts := Parts(chunk);
    ghost var pieces := PiecesOf(decode, parts);
    var i := 0;
    assert past + pieces[..0] == past;
    while i < |parts| && flow.ending.Going?
      invariant 0 <= i <= |parts|
      invariant flow == FlowOf(past + pieces[..i], patience)
    {
      var piece := ConvertPart(decode, parts[i]);
      assert past + pieces[..i + 1] == past + pieces[..i] + [piece];
      FlowStep(past + pieces[..i], piece, patience);
      flow := Extend(flow, piece, patience);
      i := i + 1;
    }
    if i < |parts| { FlowEnds(past + pieces[..i], pieces[i..], patience); }
    assert past + pieces[..i] + pieces[i..] == past + pieces;
    assert i == |parts| ==> pieces[..i] == pieces;
  }

  /** All the pieces a source leads to, its own failure last. */
  function SourcePieces(decode: string -> Decoded, chunks: seq<string>, failure: Option<string>): seq<Piece> {
    StreamPieces(decode, chunks) + if failure.Some? then [Crash(failure.value)] else []
  }

  /** `ndjson_from_sse_chunks`, run until it ends or the consumer closes it. Closing
      a generator that never started runs nothing, hence `patience > 0`. The source
      is closed on every exit. */
  method ConvertStream(decode: string -> Decoded, source: Source, patience: nat) returns (out: seq<Record>)
    requires source.pos == 0 && patience > 0
    modifies source
    ensures source.closed
    ensures out == Cut(Records(SourcePieces(decode, source.chunks, source.failure)), patience)
  {
    hide StreamPieces, PiecesOf, FlowOf, Records, Parts;
    ghost var all := SourcePieces(decode, source.chunks, source.failure);
    ghost var past := StreamPieces(decode, []);
    var flow := Flow([], Going);
    NoChunks(decode);
    FlowStep([], Silent, patience);
    assert source.chunks[..0] == [];
    var item := source.Next();
    while item.Chunk? && flow.ending.Going?
      invariant item.Chunk? ==> 0 < source.pos <= |source.chunks| && item.text == source.chunks[source.pos - 1]
      invariant item.Chunk? && flow.ending.Going? ==> past == StreamPieces(decode, source.chunks[..source.pos - 1])
      invariant item.Done? || item.Raised? ==> past == StreamPieces(decode, source.chunks) && flow.ending.Going?
      invariant item == Done ==> source.failure.None?
      invariant item.Raised? ==> source.failure == Some(item.message)
      invariant flow.ending.Going? ==> flow == FlowOf(past, patience)
      invariant !flow.ending.Going? ==> flow == FlowOf(all, patience)
      decreases if item.Chunk? then |source.chunks| - source.pos + 1 else 0, if flow.ending.Going? then 1 else 0
    {
      if item.text == "" {
        EmptyChunk(decode, past, patience);
      } else {
        flow := ConvertChunk(decode, item.text, flow, patience, past);
      }
      NextChunk(decode, source.chunks, source.pos - 1);
      past := past + PiecesOf(decode, Parts(item.text));
      if flow.ending.Going? {
        assert source.pos == |source.chunks| ==> source.chunks[..source.pos] == source.chunks;
        item := source.Next();
      } else {
        StreamPrefix(decode, source.chunks, source.failure, source.pos, patience);
      }
    }
    if item.Raised? {
      assert all == past + [Crash(item.message)];
      FlowStep(past, Crash(item.message), patience);
      flow := Flow(flow.out, Failed(item.message));
    }
    assert item.Done? ==> all == past;
    out := if flow.ending.Failed? then flow.out + [FailureOf(flow.ending.message)] else flow.out;
    FlowIsRecords(all, patience);
    source.Close();
  }

  lemma NoChunks(decode: string -> Decoded)
    ensures StreamPieces(decode, []) == []
  {
  }

  lemma NextChunk(decode: string -> Decoded, chunks: seq<string>, i: nat)
    requires i < |chunks|
    ensures StreamPieces(decode, chunks[..i + 1]) == StreamPieces(decode, chunks[..i]) + PiecesOf(decode, Parts(chunks[i]))
  {
    assert chunks[..i + 1][..i] == chunks[..i];
  }

  /** Skipping an empty chunk skips nothing. */
  lemma EmptyChunk(decode: string -> Decoded, past: seq<Piece>, patience: nat)
    ensures FlowOf(past + PiecesOf(decode, Parts("")), patience) == FlowOf(past, patience)
  {
    assert Parts("") == [""];
    assert SplitLines("") == [];
    assert PiecesOf(decode, Parts("")) == [Silent];
    assert (past + [Silent])[..|past|] == past;
  }

  lemma {:induction false} StreamSplits(decode: string -> Decoded, chunks: seq<string>, i: nat)
    requires i <= |chunks|
    ensures StreamPieces(decode, chunks) == StreamPieces(decode, chunks[..i]) + StreamPieces(decode, chunks[i..])
    decreases |chunks|
  {
    hide Parts, PiecesOf;
    if i == |chunks| {
      assert chunks[..i] == chunks && chunks[i..] == [];
    } else {
      var n := |chunks| - 1;
      StreamSplits(decode, chunks[..n], i);
      assert chunks[..n][..i] == chunks[..i] && chunks[..n][i..] == chunks[i..][..n - i];
    }
  }

  lemma StreamPrefix(decode: string -> Decoded, chunks: seq<string>, failure: Option<string>, i: nat, patience: nat)
    requires i <= |chunks| && !FlowOf(StreamPieces(decode, chunks[..i]), patience).ending.Going?
    ensures FlowOf(SourcePieces(decode, chunks, failure), patience) == FlowOf(StreamPieces(decode, chunks[..i]), patience)
  {
    hide StreamPieces, FlowOf;
    StreamSplits(decode, chunks, i);
    var tail := if failure.Some? then [Crash(failure.value)] else [];
    var more := StreamPieces(decode, chunks[i..]) + tail;
    assert SourcePieces(decode, chunks, failure) == StreamPieces(decode, chunks[..i]) + more;
    FlowEnds(StreamPieces(decode, chunks[..i]), more, patience);
  }

  // ----------------------------------------------------------------- whole outputs

  /** Output composes, until a crash. */
  lemma {:induction false} RecordsAppend(a: seq<Piece>, b: seq<Piece>)
    ensures Crashes(a + b) == (Crashes(a) || Crashes(b))
    ensures Records(a + b) == if Crashes(a) then Records(a) else Records(a) + Records(b)
  {
    CrashesAppend(a, b);
    if a == [] {
      assert a + b == b;
    } else {
      RecordsAppend(a[1..], b);
      assert (a + b)[1..] == a[1..] + b;
      assert a == [a[0]] + a[1..];
      CrashesAppend([a[0]], a[1..]);
    }
  }

  lemma CrashesAppend(a: seq<Piece>, b: seq<Piece>)
    ensures Crashes(a + b) == (Crashes(a) || Crashes(b))
  {
    if Crashes(a) {
      var i :| 0 <= i < |a| && a[i].Crash?;
      assert (a + b)[i].Crash?;
    }
    if Crashes(b) {
      var i :| 0 <= i < |b| && b[i].Crash?;
      assert (a + b)[|a| + i].Crash?;
    }
  }

  function OutputOf(flow: Flow): seq<Record> {
    if flow.ending.Failed? then flow.out + [FailureOf(flow.ending.message)] else flow.out
  }

  /** The step-by-step reading delivers the whole output, up to the consumer's patience. */
  lemma {:induction false} FlowIsRecords(pieces: seq<Piece>, patience: nat)
    requires patience > 0
    ensures var flow := FlowOf(pieces, patience);
            && OutputOf(flow) == Cut(Records(pieces), patience)
            && (flow.ending.Going? <==> !Crashes(pieces) && |Records(pieces)| < patience)
            && (flow.ending.Failed? ==> Crashes(pieces) && |Records(pieces)| <= patience)
            && (flow.ending.Stopped? ==> |Records(pieces)| >= patience)
  {
    if pieces != [] {
      var n := |pieces| - 1;
      var init, last := pieces[..n], pieces[n];
      FlowIsRecords(init, patience);
      assert pieces == init + [last];
      RecordsAppend(init, [last]);
      assert [last][1..] == [];
      assert Records([last]) == match last case Silent => [] case Emit(r) => [r] case Crash(m) => [FailureOf(m)];
      assert Crashes([last]) <==> last.Crash? by { if last.Crash? { assert [last][0].Crash?; } }
    }
  }

  /** The error record carries the failure's text, or a standing one for an empty text. */
  lemma FailureMeans(message: string)
    ensures FailureOf("") == Failure("Run stream interrupted.") && (message != "" ==> FailureOf(message) == Failure(message))
  {
  }

  /** When the source fails, the output is that of the chunks before the failure and one error record. */
  lemma FailureShape(decode: string -> Decoded, chunks: seq<string>, message: string)
    requires !Crashes(StreamPieces(decode, chunks))
    ensures Records(SourcePieces(decode, chunks, Some(message)))
         == Records(SourcePieces(decode, chunks, None)) + [FailureOf(message)]
    ensures forall r :: r in Records(SourcePieces(decode, chunks, None)) ==> !r.Failure?
  {
    hide StreamPieces;
    var pieces := StreamPieces(decode, chunks);
    RecordsAppend(pieces, [Crash(message)]);
    assert pieces + [] == pieces;
    assert Records([Crash(message)]) == [FailureOf(message)];
    RecordsEmitted(pieces);
    NoFailureEmitted(decode, chunks);
    forall r | r in Records(pieces) ensures !r.Failure? {
      var i :| 0 <= i < |pieces| && pieces[i] == Emit(r);
    }
  }

  predicate NoneFails(pieces: seq<Piece>) {
    forall i :: 0 <= i < |pieces| && pieces[i].Emit? ==> !pieces[i].record.Failure?
  }

  lemma {:induction false} NoFailureEmitted(decode: string -> Decoded, chunks: seq<string>)
    ensures NoneFails(StreamPieces(decode, chunks))
  {
    hide Parts, PieceOf;
    if chunks != [] {
      NoFailureEmitted(decode, chunks[..|chunks| - 1]);
      var before := StreamPieces(decode, chunks[..|chunks| - 1]);
      var parts := Parts(chunks[|chunks| - 1]);
      var pieces := StreamPieces(decode, chunks);
      assert pieces == before + PiecesOf(decode, parts);
      forall i | 0 <= i < |pieces| && pieces[i].Emit? ensures !pieces[i].record.Failure? {
        if i < |before| {
          assert pieces[i] == before[i];
        } else {
          assert pieces[i] == PieceOf(decode, parts[i - |before|]);
          PartNoFailure(decode, parts[i - |before|]);
        }
      }
    }
  }

  lemma PartNoFailure(decode: string -> Decoded, part: string)
    ensures PieceOf(decode, part).Emit? ==> !PieceOf(decode, part).record.Failure?
  {
  }

  lemma {:induction false} RecordsEmitted(pieces: seq<Piece>)
    requires !Crashes(pieces)
    ensures forall r :: r in Records(pieces) ==> exists i :: 0 <= i < |pieces| && pieces[i] == Emit(r)
  {
    if pieces != [] {
      assert pieces == [pieces[0]] + pieces[1..];
      CrashesAppend([pieces[0]], pieces[1..]);
      RecordsEmitted(pieces[1..]);
      forall r | r in Records(pieces) ensures exists i :: 0 <= i < |pieces| && pieces[i] == Emit(r) {
        if r in Records(pieces[1..]) {
          var i :| 0 <= i < |pieces[1..]| && pieces[1..][i] == Emit(r);
          assert pieces[i + 1] == Emit(r);
        } else {
          assert pieces[0] == Emit(r);
        }
      }
    }
  }

  // ------------------------------------------------------------------ whole frames

  /** A frame holds no blank line and does not end in a line feed. */
  predicate Framed(f: string) {
    Gap(f) == |f| && (f == "" || f[|f| - 1] != '\n')
  }

  predicate AllFramed(fs: seq<string>) {
    forall i :: 0 <= i < |fs| ==> Framed(fs[i])
  }

  /** Frames as they travel, each closed by a blank line. */
  function Wire(fs: seq<string>): string {
    if fs == [] then "" else fs[0] + "\n\n" + Wire(fs[1..])
  }

  lemma {:induction false} GapAt(f: string, rest: string)
    requires Framed(f)
    ensures Gap(f + "\n\n" + rest) == |f|
  {
    var s := f + "\n\n" + rest;
    if f != "" {
      assert s[1..] == f[1..] + "\n\n" + rest;
      if |f| >= 2 { assert Gap(f) == 1 + Gap(f[1..]); }
      assert Gap(f[1..]) == |f[1..]|;
      assert f[1..] == "" || f[1..][|f| - 2] == f[|f| - 1];
      GapAt(f[1..], rest);
    }
  }

  lemma NoGapIn(s: string)
    requires s == ""
    ensures Gap(s) == |s|
  {
  }

  /** Splitting undoes framing, but for one empty part at the end. */
  lemma {:induction false} PartsWire(fs: seq<string>)
    requires AllFramed(fs)
    ensures Parts(Wire(fs)) == fs + [""]
  {
    hide Framed, Gap;
    if fs == [] {
      NoGapIn("");
    } else {
      var s := Wire(fs);
      GapAt(fs[0], Wire(fs[1..]));
      assert s[..|fs[0]|] == fs[0] && s[|fs[0]| + 2..] == Wire(fs[1..]);
      PartsWire(fs[1..]);
      assert fs == [fs[0]] + fs[1..];
    }
  }

  /** Frames grouped into chunks. */
  function Chunks(groups: seq<seq<string>>): seq<string> {
    seq(|groups|, i requires 0 <= i < |groups| => Wire(groups[i]))
  }

  function Flatten(groups: seq<seq<string>>): seq<string> {
    if groups == [] then [] else Flatten(groups[..|groups| - 1]) + groups[|groups| - 1]
  }

  predicate AllGroupsFramed(groups: seq<seq<string>>) {
    forall i :: 0 <= i < |groups| ==> AllFramed(groups[i])
  }

  lemma GroupPieces(decode: string -> Decoded, fs: seq<string>)
    requires AllFramed(fs)
    ensures PiecesOf(decode, Parts(Wire(fs))) == PiecesOf(decode, fs) + [Silent]
  {
    hide Parts, Framed, Wire;
    PartsWire(fs);
    assert SplitLines("") == [];
    assert PieceOf(decode, "") == Silent;
  }

  /** However whole frames are grouped into chunks, the output is that of the frames
      one after the other. */
  lemma {:induction false} FramesHomomorphism(decode: string -> Decoded, groups: seq<seq<string>>)
    requires AllGroupsFramed(groups)
    ensures Records(StreamPieces(decode, Chunks(groups))) == Records(PiecesOf(decode, Flatten(groups)))
    ensures Crashes(StreamPieces(decode, Chunks(groups))) == Crashes(PiecesOf(decode, Flatten(groups)))
  {
    hide AllFramed, Parts, Wire, PieceOf, Records, Crashes;
    if groups == [] {
      assert StreamPieces(decode, Chunks(groups)) == PiecesOf(decode, Flatten(groups));
    } else {
      var n := |groups| - 1;
      FramesHomomorphism(decode, groups[..n]);
      assert Chunks(groups)[..n] == Chunks(groups[..n]);
      GroupPieces(decode, groups[n]);
      var before, last := PiecesOf(decode, Flatten(groups[..n])), PiecesOf(decode, groups[n]);
      assert PiecesOf(decode, Flatten(groups)) == before + last;
      RecordsAppend(StreamPieces(decode, Chunks(groups[..n])), last + [Silent]);
      RecordsAppend(before, last);
      RecordsAppend(last, [Silent]);
      SilentOnly();
    }
  }

  lemma SilentOnly()
    ensures Records([Silent]) == [] && !Crashes([Silent])
  {
  }

  /** A frame is a comment, a data frame, or silent; one record for each of the first two. */
  lemma FrameKinds(decode: string -> Decoded, f: string)
    ensures var lines, piece := SplitLines(f), PieceOf(decode, f);
            && (IsComment(lines) <==> piece == Emit(Heartbeat))
            && (piece.Silent? <==> !IsComment(lines) && !HasData(lines))
  {
    hide SplitLines;
    DataRead(SplitLines(f));
  }

  predicate HasData(lines: seq<string>) {
    exists i :: 0 <= i < |lines| && "data:" <= lines[i]
  }

  lemma {:induction false} DataRead(lines: seq<string>)
    ensures ReadLines(lines).data == [] <==> !HasData(lines)
  {
    if lines != [] {
      var n := |lines| - 1;
      DataRead(lines[..n]);
      if HasData(lines[..n]) {
        var i :| 0 <= i < n && "data:" <= lines[..n][i];
        assert "data:" <= lines[i];
      }
      assert "id:" <= lines[n] ==> lines[n][0] == 'i';
      assert "event:" <= lines[n] ==> lines[n][0] == 'e';
      assert "data:" <= lines[n] ==> lines[n][0] == 'd';
    }
  }

  function Count(pieces: seq<Piece>): nat {
    if pieces == [] then 0 else (if pieces[0].Silent? then 0 else 1) + Count(pieces[1..])
  }

  /** One record for each frame that is not silent, in order. */
  lemma {:induction false} OneRecordEach(pieces: seq<Piece>)
    requires !Crashes(pieces)
    ensures |Records(pieces)| == Count(pieces)
    ensures forall i :: 0 <= i < |pieces| && pieces[i].Emit? ==>
              Count(pieces[..i]) < |Records(pieces)| && Records(pieces)[Count(pieces[..i])] == pieces[i].record
  {
    if pieces != [] {
      assert pieces == [pieces[0]] + pieces[1..];
      CrashesAppend([pieces[0]], pieces[1..]);
      OneRecordEach(pieces[1..]);
      assert !pieces[0].Crash?;
      forall i | 0 <= i < |pieces| && pieces[i].Emit?
        ensures Count(pieces[..i]) < |Records(pieces)| && Records(pieces)[Count(pieces[..i])] == pieces[i].record
      {
        if i > 0 {
          assert pieces[1..][i - 1] == pieces[i];
          assert pieces[..i][1..] == pieces[1..][..i - 1];
          assert pieces[..i][0] == pieces[0];
        }
      }
    }
  }
}
