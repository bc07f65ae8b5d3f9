/** Section 9.2.6 of the HTML Living Standard, "Interpreting an event stream", as a
    reference, and the frames on which the converter reads what it prescribes. */
module EventStandard {
  import opened Values
  import opened Text
  import opened EventStream

  datatype Dispatched = Dispatched(event: string, data: string, id: string)

  /** The three buffers, and the events dispatched so far. */
  datatype Reader = Reader(data: string, event: string, id: string, events: seq<Dispatched>)

  function FirstColon(line: string): (i: nat)
    ensures i <= |line| && (i < |line| ==> line[i] == ':') && forall j :: 0 <= j < i ==> line[j] != ':'
  {
    if line == "" || line[0] == ':' then 0 else 1 + FirstColon(line[1..])
  }

  /** One space after the colon is not part of the value. */
  function DropSpace(v: string): string {
    if v != "" && v[0] == ' ' then v[1..] else v
  }

  function ProcessField(r: Reader, name: string, value: string): Reader {
    if name == "event" then r.(event := value)
    else if name == "data" then r.(data := r.data + value + "\n")
    else if name == "id" then (if '\0' in value then r else r.(id := value))
    else r
  }

  function DispatchEvent(r: Reader): Reader {
    if r.data == "" then r.(event := "")
    else
      var event := Dispatched(if r.event == "" then "message" else r.event, r.data[..|r.data| - 1], r.id);
      Reader("", "", r.id, r.events + [event])
  }

  function ProcessLine(r: Reader, line: string): Reader {
    if line == "" then DispatchEvent(r)
    else
      var c := FirstColon(line);
      if c == 0 then r
      else if c < |line| then ProcessField(r, line[..c], DropSpace(line[c + 1..]))
      else ProcessField(r, line, "")
  }

  /** The terminated lines of a stream; a line ends at LF, CR or CR LF. */
  function TerminatedLines(s: string): seq<string>
    decreases |s|
  {
    var i := EndOfLine(s);
    if i == |s| then []
    else if s[i] == '\r' && i + 1 < |s| && s[i + 1] == '\n' then [s[..i]] + TerminatedLines(s[i + 2..])
    else [s[..i]] + TerminatedLines(s[i + 1..])
  }

  function EndOfLine(s: string): (i: nat)
    ensures i <= |s| && (i < |s| ==> s[i] == '\n' || s[i] == '\r')
  {
    if s == "" || s[0] == '\n' || s[0] == '\r' then 0 else 1 + EndOfLine(s[1..])
  }

  function ProcessLines(r: Reader, lines: seq<string>): Reader
    decreases |lines|
  {
    if lines == [] then r else ProcessLines(ProcessLine(r, lines[0]), lines[1..])
  }

  /** The events of a stream; what is not closed by a blank line is discarded. */
  function Interpret(s: string): seq<Dispatched> {
    ProcessLines(Reader("", "", "", []), TerminatedLines(s)).events
  }

  // ------------------------------------------------------------------- plain frames

  predicate NoBreak(s: string) {
    forall i :: 0 <= i < |s| ==> !IsBreak(s[i])
  }

  /** The value after a field's colon and space has no blanks around it. */
  predicate PlainValue(line: string, field: string) {
    field <= line ==> Stripped(DropSpace(line[|field|..]))
  }

  predicate PlainLine(line: string) {
    && line != "" && NoBreak(line) && line != "id" && line != "event" && line != "data"
    && PlainValue(line, "id:") && PlainValue(line, "event:") && PlainValue(line, "data:")
    && ("id:" <= line ==> '\0' !in line)
  }

  predicate PlainFrame(lines: seq<string>) {
    lines != [] && forall i :: 0 <= i < |lines| ==> PlainLine(lines[i])
  }

  predicate AllPlain(frames: seq<seq<string>>) {
    forall i :: 0 <= i < |frames| ==> PlainFrame(frames[i])
  }

  function FrameText(lines: seq<string>): string {
    Join(lines, '\n')
  }

  function FrameTexts(frames: seq<seq<string>>): seq<string> {
    seq(|frames|, i requires 0 <= i < |frames| => FrameText(frames[i]))
  }

  // ------------------------------------------------------------- both cut alike

  lemma {:induction false} LineEndAt(line: string, rest: string)
    requires NoBreak(line)
    ensures LineEnd(line + "\n" + rest) == |line| == EndOfLine(line + "\n" + rest)
  {
    var s := line + "\n" + rest;
    if line != "" {
      assert s[1..] == line[1..] + "\n" + rest;
      LineEndAt(line[1..], rest);
      assert !IsBreak(s[0]);
    }
  }

  lemma {:induction false} LineEndNone(line: string)
    requires NoBreak(line)
    ensures LineEnd(line) == |line|
  {
    if line != "" { LineEndNone(line[1..]); }
  }

  lemma NextSplit(line: string, rest: string)
    requires NoBreak(line)
    ensures SplitLines(line + "\n" + rest) == [line] + SplitLines(rest)
  {
    hide NoBreak;
    var s := line + "\n" + rest;
    LineEndAt(line, rest);
    assert s[|line|] == '\n';
    assert s[..|line|] == line && s[|line| + 1..] == rest;
  }

  lemma LastSplit(line: string)
    requires line != "" && NoBreak(line)
    ensures SplitLines(line) == [line]
  {
    LineEndNone(line);
  }

  lemma {:induction false} SplitLinesOfFrame(lines: seq<string>)
    requires lines != [] && forall i :: 0 <= i < |lines| ==> lines[i] != "" && NoBreak(lines[i])
    ensures SplitLines(FrameText(lines)) == lines
  {
    hide NoBreak, SplitLines;
    if |lines| == 1 {
      LastSplit(lines[0]);
    } else {
      NextSplit(lines[0], FrameText(lines[1..]));
      SplitLinesOfFrame(lines[1..]);
    }
  }

  lemma NextLine(line: string, rest: string)
    requires NoBreak(line)
    ensures TerminatedLines(line + "\n" + rest) == [line] + TerminatedLines(rest)
  {
    hide NoBreak;
    var s := line + "\n" + rest;
    LineEndAt(line, rest);
    assert s[|line|] == '\n';
    assert s[..|line|] == line && s[|line| + 1..] == rest;
  }

  lemma {:induction false} LinesOfFrame(lines: seq<string>, rest: string)
    requires lines != [] && forall i :: 0 <= i < |lines| ==> NoBreak(lines[i])
    ensures TerminatedLines(FrameText(lines) + "\n\n" + rest) == lines + [""] + TerminatedLines(rest)
  {
    hide TerminatedLines, NoBreak;
    if |lines| == 1 {
      assert FrameText(lines) + "\n\n" + rest == lines[0] + "\n" + ("\n" + rest);
      NextLine(lines[0], "\n" + rest);
      assert "\n" + rest == "" + "\n" + rest;
      assert NoBreak("") by { NoBreakEmpty(); }
      NextLine("", rest);
    } else {
      var more := FrameText(lines[1..]) + "\n\n" + rest;
      assert FrameText(lines) + "\n\n" + rest == lines[0] + "\n" + more;
      NextLine(lines[0], more);
      LinesOfFrame(lines[1..], rest);
      assert lines == [lines[0]] + lines[1..];
    }
  }

  lemma NoBreakEmpty()
    ensures NoBreak("")
  {
  }

  // ------------------------------------------------------------- both read alike

  /** The reader inside a frame, against what the converter has read of it. */
  ghost predicate Reads(r: Reader, start: Reader, lines: seq<string>) {
    var f := ReadLines(lines);
    && r.event == f.event && r.events == start.events
    && r.data == (if f.data == [] then "" else Join(f.data, '\n') + "\n")
    && r.id == if NamesId(lines) then f.id else start.id
  }

  predicate NamesId(lines: seq<string>) {
    exists i :: 0 <= i < |lines| && "id:" <= lines[i]
  }

  lemma ColonAfter(line: string, name: string)
    requires name + ":" <= line && forall i :: 0 <= i < |name| ==> name[i] != ':'
    ensures FirstColon(line) == |name| && line[..|name|] == name
  {
    assert line[|name|] == (name + ":")[|name|] == ':';
    forall i | 0 <= i < |name| ensures line[i] != ':' { assert line[i] == (name + ":")[i]; }
  }

  lemma StripValue(v: string)
    requires Stripped(DropSpace(v))
    ensures Strip(v) == DropSpace(v)
  {
    if v != "" && v[0] == ' ' {
      assert LStrip(v) == LStrip(v[1..]);
      StripFixed(v[1..]);
    } else {
      StripFixed(v);
    }
  }

  /** A field line both readers know. */
  lemma FieldLine(line: string, name: string, r: Reader)
    requires name != "" && name + ":" <= line && (forall i :: 0 <= i < |name| ==> name[i] != ':')
    requires PlainValue(line, name + ":")
    ensures ProcessLine(r, line) == ProcessField(r, name, Strip(line[|name| + 1..]))
  {
    ColonAfter(line, name);
    StripValue(line[|name| + 1..]);
  }

  /** A line the converter ignores is one the standard ignores. */
  lemma OtherLine(line: string, r: Reader)
    requires PlainLine(line) && !("id:" <= line) && !("event:" <= line) && !("data:" <= line)
    ensures ProcessLine(r, line) == r
  {
    var c := FirstColon(line);
    if 0 < c < |line| {
      var name := line[..c];
      assert line[..c + 1] == name + ":";
      assert name + ":" <= line;
      assert name == "id" ==> "id:" <= line by { assert "id" + ":" == "id:"; }
      assert name == "event" ==> "event:" <= line by { assert "event" + ":" == "event:"; }
      assert name == "data" ==> "data:" <= line by { assert "data" + ":" == "data:"; }
    }
  }

  lemma {:induction false} JoinAppend(parts: seq<string>, last: string)
    ensures Join(parts + [last], '\n') == if parts == [] then last else Join(parts, '\n') + "\n" + last
  {
    if parts != [] {
      JoinAppend(parts[1..], last);
      assert (parts + [last])[1..] == parts[1..] + [last];
    }
  }

  lemma {:induction false} StripNoNul(v: string)
    requires '\0' !in v
    ensures '\0' !in Strip(v)
  {
    RStripPrefix(LStrip(v));
    LStripPart(v);
  }

  lemma {:induction false} LStripPart(v: string)
    ensures forall c :: c in LStrip(v) ==> c in v
  {
    if v != "" && IsSpace(v[0]) { LStripPart(v[1..]); }
  }

  lemma NamesIdAppend(lines: seq<string>, line: string)
    ensures NamesId(lines + [line]) <==> NamesId(lines) || "id:" <= line
  {
    if NamesId(lines) {
      var i :| 0 <= i < |lines| && "id:" <= lines[i];
      assert "id:" <= (lines + [line])[i];
    }
    if "id:" <= line { assert "id:" <= (lines + [line])[|lines|]; }
  }

  lemma FirstLetters(line: string)
    ensures "id:" <= line ==> line[0] == 'i'
    ensures "event:" <= line ==> line[0] == 'e'
    ensures "data:" <= line ==> line[0] == 'd'
  {
  }

  lemma LineRead(r: Reader, start: Reader, lines: seq<string>, line: string)
    requires Reads(r, start, lines) && PlainLine(line)
    ensures Reads(ProcessLine(r, line), start, lines + [line])
  {
    hide Strip, NoBreak, Stripped, NamesId, Join, ProcessLine, PlainValue;
    NamesIdAppend(lines, line);
    assert (lines + [line])[..|lines|] == lines;
    FirstLetters(line);
    if "id:" <= line {
      assert "id" + ":" == "id:";
      FieldLine(line, "id", r);
      StripNoNul(line[3..]);
    } else if "event:" <= line {
      assert "event" + ":" == "event:";
      FieldLine(line, "event", r);
    } else if "data:" <= line {
      assert "data" + ":" == "data:";
      FieldLine(line, "data", r);
      JoinAppend(ReadLines(lines).data, Strip(line[5..]));
    } else {
      OtherLine(line, r);
    }
  }

  lemma {:induction false} ProcessAppend(r: Reader, a: seq<string>, b: seq<string>)
    ensures ProcessLines(r, a + b) == ProcessLines(ProcessLines(r, a), b)
    decreases |a|
  {
    hide ProcessLine;
    if a == [] {
      assert a + b == b;
    } else {
      ProcessAppend(ProcessLine(r, a[0]), a[1..], b);
      assert (a + b)[1..] == a[1..] + b;
    }
  }

  lemma {:induction false} FrameRead(start: Reader, lines: seq<string>)
    requires start.data == "" && start.event == ""
    requires forall i :: 0 <= i < |lines| ==> PlainLine(lines[i])
    ensures Reads(ProcessLines(start, lines), start, lines)
  {
    hide PlainLine, ProcessLine;
    if lines != [] {
      var n := |lines| - 1;
      FrameRead(start, lines[..n]);
      assert lines == lines[..n] + [lines[n]];
      ProcessAppend(start, lines[..n], [lines[n]]);
      var mid := ProcessLines(start, lines[..n]);
      assert [lines[n]][1..] == [];
      assert ProcessLines(mid, [lines[n]]) == ProcessLine(mid, lines[n]);
      LineRead(mid, start, lines[..n], lines[n]);
    }
  }

  // ------------------------------------------------------------------ whole streams

  /** The id in force after a frame; the standard keeps it across frames. */
  function IdAfter(id: string, lines: seq<string>): string {
    if NamesId(lines) then ReadLines(lines).id else id
  }

  function LastId(frames: seq<seq<string>>): string {
    if frames == [] then "" else IdAfter(LastId(frames[..|frames| - 1]), frames[|frames| - 1])
  }

  /** The events of the standard: the frame's own event and data, the id in force. */
  function Spelled(frames: seq<seq<string>>): seq<Dispatched> {
    if frames == [] then []
    else
      var n := |frames| - 1;
      var f := ReadLines(frames[n]);
      var before := Spelled(frames[..n]);
      if f.data == [] then before
      else before + [Dispatched(if f.event == "" then "message" else f.event, Join(f.data, '\n'), LastId(frames))]
  }

  lemma PlainFrameText(lines: seq<string>)
    requires PlainFrame(lines)
    ensures SplitLines(FrameText(lines)) == lines && Framed(FrameText(lines))
  {
    hide PlainValue;
    SplitLinesOfFrame(lines);
    NoGap(lines);
  }

  lemma {:induction false} NoGap(lines: seq<string>)
    requires lines != [] && forall i :: 0 <= i < |lines| ==> lines[i] != "" && NoBreak(lines[i])
    ensures var f := FrameText(lines);
            && f != "" && f[0] != '\n' && f[|f| - 1] != '\n'
            && forall j :: 0 <= j && j + 1 < |f| ==> !(f[j] == '\n' && f[j + 1] == '\n')
  {
    var f := FrameText(lines);
    if |lines| == 1 {
      assert f == lines[0];
    } else {
      NoGap(lines[1..]);
      var rest := FrameText(lines[1..]);
      assert f == lines[0] + "\n" + rest;
      forall j | 0 <= j && j + 1 < |f| ensures !(f[j] == '\n' && f[j + 1] == '\n') {
        if j < |lines[0]| {
          assert f[j] == lines[0][j];
        } else if j == |lines[0]| {
          assert f[j + 1] == rest[0];
        } else {
          var k := j - |lines[0]| - 1;
          assert f[j] == rest[k] && f[j + 1] == rest[k + 1];
        }
      }
    }
  }

  /** The reader between two frames. */
  ghost predicate Between(r: Reader, frames: seq<seq<string>>) {
    r == Reader("", "", LastId(frames), Spelled(frames))
  }

  lemma ReadClosed(r: Reader, start: Reader, lines: seq<string>)
    requires Reads(r, start, lines)
    ensures var f := ReadLines(lines);
            var id := IdAfter(start.id, lines);
            ProcessLine(r, "") ==
              if f.data == [] then Reader("", "", id, start.events)
              else Reader("", "", id, start.events + [Dispatched(if f.event == "" then "message" else f.event, Join(f.data, '\n'), id)])
  {
    hide NamesId, ReadLines, Join;
    var f := ReadLines(lines);
    if f.data != [] { assert r.data[..|r.data| - 1] == Join(f.data, '\n'); }
  }

  lemma FrameClosed(r: Reader, frames: seq<seq<string>>, lines: seq<string>)
    requires Between(r, frames) && PlainFrame(lines)
    ensures Between(ProcessLines(r, lines + [""]), frames + [lines])
  {
    hide PlainLine, ProcessLine, Reads, IdAfter, ReadLines, Join;
    FrameRead(r, lines);
    ProcessAppend(r, lines, [""]);
    var mid := ProcessLines(r, lines);
    assert [""][1..] == [];
    assert ProcessLines(mid, [""]) == ProcessLine(mid, "");
    ReadClosed(mid, r, lines);
    assert (frames + [lines])[..|frames|] == frames;
  }

  lemma {:induction false} FramesRead(r: Reader, past: seq<seq<string>>, frames: seq<seq<string>>)
    requires Between(r, past) && AllPlain(frames)
    ensures Between(ProcessLines(r, TerminatedLines(Wire(FrameTexts(frames)))), past + frames)
    decreases |frames|
  {
    hide PlainFrame, Between, FrameText, ProcessLines, TerminatedLines, NoBreak;
    if frames == [] {
      assert past + frames == past;
      NothingRead(r);
    } else {
      var rest := Wire(FrameTexts(frames[1..]));
      assert FrameTexts(frames)[1..] == FrameTexts(frames[1..]);
      assert Wire(FrameTexts(frames)) == FrameText(frames[0]) + "\n\n" + rest;
      PlainHasLines(frames[0]);
      LinesOfFrame(frames[0], rest);
      ProcessAppend(r, frames[0] + [""], TerminatedLines(rest));
      FrameClosed(r, past, frames[0]);
      FramesRead(ProcessLines(r, frames[0] + [""]), past + [frames[0]], frames[1..]);
      assert past + [frames[0]] + frames[1..] == past + frames;
    }
  }

  lemma NothingRead(r: Reader)
    ensures ProcessLines(r, TerminatedLines("")) == r
  {
  }

  lemma PlainHasLines(lines: seq<string>)
    requires PlainFrame(lines)
    ensures lines != [] && forall i :: 0 <= i < |lines| ==> NoBreak(lines[i])
  {
  }

  /** The frames that hold data, in order; each dispatches one event. */
  function DataFrames(frames: seq<seq<string>>): seq<nat> {
    if frames == [] then []
    else
      var n := |frames| - 1;
      DataFrames(frames[..n]) + if ReadLines(frames[n]).data == [] then [] else [n]
  }

  lemma {:induction false} DataFramesIn(frames: seq<seq<string>>)
    ensures forall k :: 0 <= k < |DataFrames(frames)| ==> DataFrames(frames)[k] < |frames|
    ensures forall k, l :: 0 <= k < l < |DataFrames(frames)| ==> DataFrames(frames)[k] < DataFrames(frames)[l]
    ensures forall i :: 0 <= i < |frames| ==> (i in DataFrames(frames) <==> ReadLines(frames[i]).data != [])
  {
    hide ReadLines;
    if frames != [] {
      var n := |frames| - 1;
      DataFramesIn(frames[..n]);
      forall i | 0 <= i < |frames| ensures i in DataFrames(frames) <==> ReadLines(frames[i]).data != [] {
        if i < n { assert frames[..n][i] == frames[i]; }
      }
    }
  }

  /** The event of frame `i`: type and data as the converter reads them; its id is the
      one the frame names, or else the one in force before. */
  ghost predicate EventOf(frames: seq<seq<string>>, i: nat, d: Dispatched)
    requires i < |frames|
  {
    var f := ReadLines(frames[i]);
    && d.event == (if f.event == "" then "message" else f.event) && d.data == Join(f.data, '\n')
    && d.id == if NamesId(frames[i]) then f.id else LastId(frames[..i])
  }

  lemma {:induction false} SpelledFrames(frames: seq<seq<string>>)
    ensures |Spelled(frames)| == |DataFrames(frames)|
    ensures forall k :: 0 <= k < |DataFrames(frames)| ==>
              DataFrames(frames)[k] < |frames| && EventOf(frames, DataFrames(frames)[k], Spelled(frames)[k])
  {
    hide EventOf, ReadLines, Join, NamesId, LastId;
    if frames != [] {
      var n := |frames| - 1;
      var past := frames[..n];
      SpelledFrames(past);
      DataFramesIn(frames);
      forall k | 0 <= k < |DataFrames(frames)| ensures EventOf(frames, DataFrames(frames)[k], Spelled(frames)[k]) {
        if k < |DataFrames(past)| {
          EventOfEarlier(frames, n, DataFrames(past)[k], Spelled(past)[k]);
        } else {
          EventOfLast(frames);
        }
      }
    }
  }

  lemma EventOfEarlier(frames: seq<seq<string>>, n: nat, i: nat, d: Dispatched)
    requires i < n <= |frames| && EventOf(frames[..n], i, d)
    ensures EventOf(frames, i, d)
  {
    hide ReadLines, Join, NamesId, LastId;
    assert frames[..n][i] == frames[i] && frames[..n][..i] == frames[..i];
  }

  lemma EventOfLast(frames: seq<seq<string>>)
    requires frames != [] && ReadLines(frames[|frames| - 1]).data != []
    ensures Spelled(frames) != [] && EventOf(frames, |frames| - 1, Spelled(frames)[|Spelled(frames)| - 1])
  {
    hide ReadLines, Join, NamesId;
  }

  /** The standard's last event id after some frames is the last one they name. */
  lemma StandardId(frames: seq<seq<string>>)
    requires AllPlain(frames)
    ensures ProcessLines(Reader("", "", "", []), TerminatedLines(Wire(FrameTexts(frames)))).id == LastId(frames)
  {
    hide PlainFrame, ProcessLines, TerminatedLines;
    var start := Reader("", "", "", []);
    assert Between(start, []);
    FramesRead(start, [], frames);
    assert [] + frames == frames;
  }

  /** On plain frames the standard dispatches one event for each frame with data, with
      the type and the data the converter reads. The converter's id is the event's
      exactly when the frame names one, or no id is in force before it. */
  lemma AgreesWithStandard(frames: seq<seq<string>>)
    requires AllPlain(frames)
    ensures var events, data := Interpret(Wire(FrameTexts(frames))), DataFrames(frames);
            && |events| == |data|
            && forall k :: 0 <= k < |data| ==>
                 && data[k] < |frames| && EventOf(frames, data[k], events[k])
                 && (ReadLines(frames[data[k]]).id == events[k].id <==> NamesId(frames[data[k]]) || LastId(frames[..data[k]]) == "")
    ensures forall i :: 0 <= i < |frames| ==> SplitLines(FrameTexts(frames)[i]) == frames[i] && Framed(FrameTexts(frames)[i])
  {
    hide Framed, SplitLines;
    forall i | 0 <= i < |frames| ensures SplitLines(FrameTexts(frames)[i]) == frames[i] && Framed(FrameTexts(frames)[i]) {
      PlainFrameText(frames[i]);
    }
    hide PlainFrame, FrameText, ProcessLine, ProcessLines, TerminatedLines, ReadLines, NamesId, Join, DataFrames, Spelled, LastId;
    StandardIs(frames);
    SpelledFrames(frames);
    var data := DataFrames(frames);
    forall k | 0 <= k < |data|
      ensures ReadLines(frames[data[k]]).id == Spelled(frames)[k].id <==> NamesId(frames[data[k]]) || LastId(frames[..data[k]]) == ""
    {
      if !NamesId(frames[data[k]]) { NoIdRead(frames[data[k]]); }
    }
  }

  lemma StandardIs(frames: seq<seq<string>>)
    requires AllPlain(frames)
    ensures Interpret(Wire(FrameTexts(frames))) == Spelled(frames)
  {
    hide PlainFrame, FrameText, ProcessLine, ProcessLines, TerminatedLines;
    var start := Reader("", "", "", []);
    assert Between(start, []);
    FramesRead(start, [], frames);
    assert [] + frames == frames;
  }

  // ------------------------------------------------------------- records and events

  /** The records that are no heartbeats. */
  function Bodies(records: seq<Record>): seq<Record> {
    if records == [] then []
    else if records[0].Heartbeat? then Bodies(records[1..])
    else [records[0]] + Bodies(records[1..])
  }

  lemma {:induction false} BodiesAppend(a: seq<Record>, b: seq<Record>)
    ensures Bodies(a + b) == Bodies(a) + Bodies(b)
  {
    hide Bodies;
    if a == [] {
      assert a + b == b;
      NoBodies();
    } else {
      BodiesAppend(a[1..], b);
      assert (a + b)[1..] == a[1..] + b;
      BodiesFirst(a + b);
      BodiesFirst(a);
    }
  }

  lemma NoBodies()
    ensures Bodies([]) == []
  {
  }

  lemma BodiesFirst(records: seq<Record>)
    requires records != []
    ensures Bodies(records) == (if records[0].Heartbeat? then [] else [records[0]]) + Bodies(records[1..])
  {
  }

  /** The records are those of the frames with data, each made of its own frame's fields. */
  ghost predicate OwnRecords(decode: string -> Decoded, frames: seq<seq<string>>, records: seq<Record>) {
    var data := DataFrames(frames);
    && |records| == |data|
    && forall k :: 0 <= k < |data| ==> data[k] < |frames| && PieceOfFields(decode, ReadLines(frames[data[k]])) == Emit(records[k])
  }

  /** The record of a frame with this event type, id and data: a decoded object with all its
      entries, a missing `event` filled with the type and a missing `event_id` with the id
      where there is one, and nothing else; any other decoded value as it is; data that
      does not decode verbatim. */
  ghost predicate RecordFor(decode: string -> Decoded, event: string, id: string, data: string, r: Record) {
    match decode(data)
    case Json(v) =>
      if !v.Dict? then r == Payload(v)
      else
        && r.Payload? && r.value.Dict?
        && r.value.m.Keys == v.m.Keys + (if event == "" then {} else {"event"}) + (if id == "" then {} else {"event_id"})
        && (forall k | k in v.m :: r.value.m[k] == v.m[k])
        && (event != "" && "event" !in v.m ==> r.value.m["event"] == Str(event))
        && (id != "" && "event_id" !in v.m ==> r.value.m["event_id"] == Str(id))
    case NotJson => r == Verbatim(data)
    case Broken(_) => false
  }

  lemma RecordMeans(decode: string -> Decoded, f: Fields, r: Record)
    requires PieceOfFields(decode, f) == Emit(r)
    ensures RecordFor(decode, f.event, f.id, Join(f.data, '\n'), r)
  {
    hide Join;
    match decode(Join(f.data, '\n'))
    case Json(v) => if v.Dict? { LabelsMean(v.m, f); }
    case NotJson =>
    case Broken(_) =>
  }

  lemma LabelsMean(d: Data, f: Fields)
    ensures var m := Labelled(Dict(d), f).m;
            && m.Keys == d.Keys + (if f.event == "" then {} else {"event"}) + (if f.id == "" then {} else {"event_id"})
            && (forall k | k in d :: m[k] == d[k])
            && (f.event != "" && "event" !in d ==> m["event"] == Str(f.event))
            && (f.id != "" && "event_id" !in d ==> m["event_id"] == Str(f.id))
  {
    assert |"event"| != |"event_id"|;
  }

  lemma {:induction false} NoIdRead(lines: seq<string>)
    requires !NamesId(lines)
    ensures ReadLines(lines).id == ""
  {
    hide Strip;
    if lines != [] {
      var n := |lines| - 1;
      assert lines == lines[..n] + [lines[n]];
      NamesIdAppend(lines[..n], lines[n]);
      NoIdRead(lines[..n]);
    }
  }

  /** A frame whose lines are all comments names no field. */
  lemma {:induction false} CommentRead(lines: seq<string>)
    requires forall i :: 0 <= i < |lines| && lines[i] != "" ==> lines[i][0] == ':'
    ensures ReadLines(lines).data == []
  {
    hide Strip;
    if lines != [] {
      CommentRead(lines[..|lines| - 1]);
      FirstLetters(lines[|lines| - 1]);
    }
  }

  /** What one more frame adds to the records. */
  lemma FrameRecord(decode: string -> Decoded, lines: seq<string>)
    requires PlainFrame(lines) && !PieceOf(decode, FrameText(lines)).Crash?
    ensures var added := Bodies(Records([PieceOf(decode, FrameText(lines))]));
            if ReadLines(lines).data == [] then added == []
            else |added| == 1 && PieceOfFields(decode, ReadLines(lines)) == Emit(added[0])
  {
    hide PlainFrame, FrameText, Join, Strip, PieceOfFields, ReadLines, IsComment;
    PlainFrameText(lines);
    var piece := PieceOf(decode, FrameText(lines));
    assert [piece][1..] == [];
    if IsComment(lines) {
      CommentIs(lines);
      CommentRead(lines);
    } else {
      FieldsPiece(decode, ReadLines(lines));
    }
  }

  lemma CommentIs(lines: seq<string>)
    requires IsComment(lines)
    ensures forall i :: 0 <= i < |lines| && lines[i] != "" ==> lines[i][0] == ':'
  {
  }

  lemma FieldsPiece(decode: string -> Decoded, f: Fields)
    ensures var piece := PieceOfFields(decode, f);
            (piece.Silent? <==> f.data == []) && (piece.Emit? ==> !piece.record.Heartbeat?)
  {
  }

  lemma {:induction false} FramesRecorded(decode: string -> Decoded, frames: seq<seq<string>>)
    requires AllPlain(frames) && !Crashes(PiecesOf(decode, FrameTexts(frames)))
    ensures OwnRecords(decode, frames, Bodies(Records(PiecesOf(decode, FrameTexts(frames)))))
  {
    hide PlainFrame, FrameText, PieceOf, Records, Bodies, PieceOfFields, ReadLines;
    if frames == [] {
      NoFrames(decode);
    } else {
      var n := |frames| - 1;
      var piece := PieceOf(decode, FrameText(frames[n]));
      var past := PiecesOf(decode, FrameTexts(frames[..n]));
      assert PiecesOf(decode, FrameTexts(frames)) == past + [piece];
      assert (past + [piece])[n] == piece;
      RecordsAppend(past, [piece]);
      BodiesAppend(Records(past), Records([piece]));
      FramesRecorded(decode, frames[..n]);
      FrameRecord(decode, frames[n]);
      LastRecorded(decode, frames, Bodies(Records(past)), Bodies(Records([piece])));
    }
  }

  lemma LastRecorded(decode: string -> Decoded, frames: seq<seq<string>>, before: seq<Record>, added: seq<Record>)
    requires frames != [] && OwnRecords(decode, frames[..|frames| - 1], before)
    requires var f := ReadLines(frames[|frames| - 1]);
             if f.data == [] then added == [] else |added| == 1 && PieceOfFields(decode, f) == Emit(added[0])
    ensures OwnRecords(decode, frames, before + added)
  {
    hide PieceOfFields, ReadLines;
    var n := |frames| - 1;
    var data := DataFrames(frames);
    forall k | 0 <= k < |data|
      ensures data[k] < |frames| && PieceOfFields(decode, ReadLines(frames[data[k]])) == Emit((before + added)[k])
    {
      if k < |DataFrames(frames[..n])| { assert frames[..n][data[k]] == frames[data[k]]; }
    }
  }

  lemma NoFrames(decode: string -> Decoded)
    ensures Bodies(Records(PiecesOf(decode, FrameTexts([])))) == [] && DataFrames([]) == []
  {
  }

  /** Plain frames in any chunks: the records but for heartbeats answer, one for one and
      in order, the events the standard dispatches. Each is made of its own frame's
      fields, which are the event's but for an id carried on from an earlier frame. */
  lemma ConversionFollowsStandard(decode: string -> Decoded, groups: seq<seq<string>>, frames: seq<seq<string>>)
    requires AllGroupsFramed(groups) && Flatten(groups) == FrameTexts(frames) && AllPlain(frames)
    requires !Crashes(StreamPieces(decode, Chunks(groups)))
    ensures var records, events := Bodies(Records(StreamPieces(decode, Chunks(groups)))), Interpret(Wire(Flatten(groups)));
            var data := DataFrames(frames);
            && |records| == |events| == |data|
            && forall k :: 0 <= k < |data| ==>
                 && data[k] < |frames| && EventOf(frames, data[k], events[k])
                 && PieceOfFields(decode, ReadLines(frames[data[k]])) == Emit(records[k])
                 && RecordFor(decode, ReadLines(frames[data[k]]).event, ReadLines(frames[data[k]]).id, events[k].data, records[k])
                 && (ReadLines(frames[data[k]]).id == events[k].id <==> NamesId(frames[data[k]]) || LastId(frames[..data[k]]) == "")
  {
    hide AllGroupsFramed, AllPlain, Flatten, StreamPieces, Records, Spelled, Wire, Interpret, Crashes, ReadLines, NamesId, LastId;
    hide EventOf, PieceOfFields, DataFrames, Bodies, RecordFor, Join;
    FramesHomomorphism(decode, groups);
    AgreesWithStandard(frames);
    FramesRecorded(decode, frames);
    var records, events := Bodies(Records(StreamPieces(decode, Chunks(groups)))), Interpret(Wire(Flatten(groups)));
    var data := DataFrames(frames);
    forall k | 0 <= k < |data|
      ensures RecordFor(decode, ReadLines(frames[data[k]]).event, ReadLines(frames[data[k]]).id, events[k].data, records[k])
    {
      RecordMeans(decode, ReadLines(frames[data[k]]), records[k]);
      EventData(frames, data[k], events[k]);
    }
  }

  lemma EventData(frames: seq<seq<string>>, i: nat, d: Dispatched)
    requires i < |frames| && EventOf(frames, i, d)
    ensures d.data == Join(ReadLines(frames[i]).data, '\n')
  {
    hide ReadLines, Join, NamesId, LastId;
  }

  // --------------------------------------------------------- an id that is dropped

  const NAMED := ["id:1", "data:a"]
  const UNNAMED := ["data:{}"]

  lemma ExampleLines()
    ensures PlainLine("id:1")
  {
    FirstLetters("id:1");
    assert "id:1"[3..] == "1";
  }

  lemma ExampleData()
    ensures PlainLine("data:a") && PlainLine("data:{}")
  {
    FirstLetters("data:a");
    FirstLetters("data:{}");
    assert "data:a"[5..] == "a" && "data:{}"[5..] == "{}";
  }

  lemma ExamplePlain()
    ensures AllPlain([NAMED, UNNAMED])
  {
    hide PlainLine;
    ExampleLines();
    ExampleData();
    assert [NAMED, UNNAMED][0] == NAMED && [NAMED, UNNAMED][1] == UNNAMED;
  }

  lemma ExampleRead()
    ensures ReadLines(NAMED) == Fields("1", "", ["a"]) && NamesId(NAMED)
    ensures ReadLines(UNNAMED) == Fields("", "", ["{}"]) && !NamesId(UNNAMED)
  {
    StripFixed("1");
    StripFixed("a");
    StripFixed("{}");
    FirstLetters("id:1");
    FirstLetters("data:a");
    FirstLetters("data:{}");
    assert "id:1"[3..] == "1" && "data:a"[5..] == "a" && "data:{}"[5..] == "{}";
    assert "id:" <= "id:1" && "data:" <= "data:a" && "data:" <= "data:{}";
    assert NAMED[..1] == ["id:1"] && NAMED[..1][..0] == [] && UNNAMED[..0] == [];
    assert ReadLines(NAMED[..1]) == Fields("1", "", []);
    assert "id:" <= NAMED[0];
  }

  /** The id part does fail: by the standard the second event has the id of the first, */
  lemma CarriedIdKept()
    ensures var events := Interpret(Wire(FrameTexts([NAMED, UNNAMED])));
            |events| == 2 && events[0].id == "1" && events[1] == Dispatched("message", "{}", "1")
  {
    hide PlainFrame, NAMED, UNNAMED, Interpret, NamesId, ReadLines;
    var frames := [NAMED, UNNAMED];
    ExamplePlain();
    ExampleRead();
    StandardIs(frames);
    assert frames[..1] == [NAMED] && frames[..1][..0] == [] && frames[..0] == [];
    assert LastId(frames[..1]) == "1";
    assert Spelled(frames[..0]) == [] && |Spelled(frames[..1])| == 1;
    assert Join(["{}"], '\n') == "{}";
  }

  /** and its record has none, the frame's object being empty. */
  lemma CarriedIdDropped(decode: string -> Decoded)
    requires decode("{}") == Json(Dict(map[]))
    ensures PieceOf(decode, FrameText(UNNAMED)) == Emit(Payload(Dict(map[])))
  {
    hide PlainFrame, NAMED, UNNAMED, PieceOfFields, Join, ReadLines;
    ExamplePlain();
    ExampleRead();
    assert PlainFrame(UNNAMED) by { assert [NAMED, UNNAMED][1] == UNNAMED; }
    PlainFrameText(UNNAMED);
    UnnamedPiece(decode);
  }

  lemma UnnamedPiece(decode: string -> Decoded)
    requires decode("{}") == Json(Dict(map[]))
    ensures !IsComment(UNNAMED) && PieceOfFields(decode, Fields("", "", ["{}"])) == Emit(Payload(Dict(map[])))
  {
    assert UNNAMED[0][0] == 'd';
    assert Join(["{}"], '\n') == "{}";
  }
}
