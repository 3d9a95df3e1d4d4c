/**
 * services/agent-orchestrator/src/card-gateway/mcp-client.ts, the framing in #readLoop: text
 * arrives in chunks, CR-LF is normalised chunk by chunk, and events end at a blank line.
 */
module SseFraming {
  import opened Text

  const BLANK: string := "\n\n"

  /** `replace(/\r\n/g, "\n")`. */
  function Normalise(s: string): string {
    if |s| < 2 then s
    else if s[0] == '\r' && s[1] == '\n' then "\n" + Normalise(s[2..])
    else [s[0]] + Normalise(s[1..])
  }

  predicate SeparatorAt(s: string, i: nat) {
    i + 1 < |s| && s[i] == '\n' && s[i + 1] == '\n'
  }

  /** `indexOf("\n\n")` from a position on; the length of the text when there is none. */
  function Separator(s: string, from: nat): (i: nat)
    requires from <= |s|
    ensures from <= i <= |s| && (i < |s| <==> SeparatorAt(s, i))
    ensures forall j :: from <= j < i ==> !SeparatorAt(s, j)
    decreases |s| - from
  {
    if from + 1 >= |s| then |s| else if SeparatorAt(s, from) then from else Separator(s, from + 1)
  }

  /** The raw events of a text, and what is left after the last separator. */
  datatype Frames = Frames(events: seq<string>, rest: string)

  function Split(s: string): (f: Frames)
    decreases |s|
  {
    var i := Separator(s, 0);
    if i == |s| then Frames([], s) else
      var tail := Split(s[i + 2..]);
      Frames([s[..i]] + tail.events, tail.rest)
  }

  /** One read of the stream: the events it completes and the buffer it leaves. */
  function Feed(buffer: string, chunk: string): Frames {
    Split(buffer + Normalise(chunk))
  }

  function FeedAll(buffer: string, chunks: seq<string>): Frames
    decreases |chunks|
  {
    if chunks == [] then Split(buffer) else
      var first := Feed(buffer, chunks[0]);
      var more := FeedAll(first.rest, chunks[1..]);
      Frames(first.events + more.events, more.rest)
  }

  function Concat(chunks: seq<string>): string {
    if chunks == [] then "" else chunks[0] + Concat(chunks[1..])
  }

  /** A CR at the end of one text and an LF at the start of the next. */
  predicate Torn(a: string, b: string) {
    a != "" && a[|a| - 1] == '\r' && b != "" && b[0] == '\n'
  }

  /** No chunk ends between a CR and the LF after it. */
  predicate CleanCuts(chunks: seq<string>) {
    chunks == [] || (!Torn(chunks[0], Concat(chunks[1..])) && CleanCuts(chunks[1..]))
  }

  /** The buffer loop of one read. */
  class FrameReader {
    var buffer: string

    constructor ()
      ensures buffer == ""
    {
      buffer := "";
    }

    method Read(chunk: string) returns (events: seq<string>)
      modifies this
      ensures Frames(events, buffer) == Feed(old(buffer), chunk)
    {
      events := [];
      buffer := buffer + Normalise(chunk);
      var separator := Separator(buffer, 0);
      while separator != |buffer|
        invariant separator == Separator(buffer, 0)
        invariant Frames(events + Split(buffer).events, Split(buffer).rest) == Feed(old(buffer), chunk)
        decreases |buffer|
      {
        var rawEvent := buffer[..separator];
        buffer := buffer[separator + 2..];
        events := events + [rawEvent];
        separator := Separator(buffer, 0);
      }
    }
  }

  // ---- Splitting is incremental ------------------------------------------------------------------

  lemma SeparatorStays(a: string, b: string)
    requires Separator(a, 0) < |a|
    ensures Separator(a + b, 0) == Separator(a, 0)
  {
    var i := Separator(a, 0);
    assert SeparatorAt(a + b, i);
    assert forall j :: 0 <= j < i ==> SeparatorAt(a + b, j) == SeparatorAt(a, j);
  }

  /** Splitting what was left over, with more text behind it, continues where splitting stopped. */
  lemma {:induction false} SplitContinues(a: string, b: string)
    ensures Split(a + b) == Frames(Split(a).events + Split(Split(a).rest + b).events, Split(Split(a).rest + b).rest)
    decreases |a|
  {
    var i := Separator(a, 0);
    if i < |a| {
      var head, tail := a[..i], a[i + 2..];
      SeparatorStays(a, b);
      CutOfSum(a, b, i, i + 2);
      SplitContinues(tail, b);
      SplitStep(a, i, head, tail);
      SplitStep(a + b, i, head, tail + b);
      hide Split;
      hide Separator;
      Reassociate([head], Split(tail).events, Split(Split(tail).rest + b).events);
    } else {
      assert Split(a) == Frames([], a);
    }
  }

  lemma CutOfSum(a: string, b: string, i: nat, j: nat)
    requires i <= j <= |a|
    ensures (a + b)[..i] == a[..i] && (a + b)[j..] == a[j..] + b
  {
  }

  lemma Reassociate(a: seq<string>, b: seq<string>, c: seq<string>)
    ensures a + (b + c) == (a + b) + c
  {
  }

  lemma SplitStep(s: string, i: nat, head: string, tail: string)
    requires i == Separator(s, 0) < |s| && head == s[..i] && tail == s[i + 2..]
    ensures Split(s) == Frames([head] + Split(tail).events, Split(tail).rest)
  {
  }

  function Unsplit(f: Frames): string
    decreases |f.events|
  {
    if f.events == [] then f.rest else f.events[0] + BLANK + Unsplit(Frames(f.events[1..], f.rest))
  }

  /** Splitting loses nothing. */
  lemma {:induction false} SplitIsInvertible(s: string)
    ensures Unsplit(Split(s)) == s
    decreases |s|
  {
    var i := Separator(s, 0);
    if i < |s| {
      SplitIsInvertible(s[i + 2..]);
      assert Split(s).events[1..] == Split(s[i + 2..]).events;
      assert s == s[..i] + BLANK + s[i + 2..];
    }
  }

  // ---- Normalising chunk by chunk ------------------------------------------------------------------

  lemma {:induction false} NormaliseAppends(a: string, b: string)
    ensures |Normalise(a + b)| == |Normalise(a)| + |Normalise(b)| - (if Torn(a, b) then 1 else 0)
    ensures !Torn(a, b) ==> Normalise(a + b) == Normalise(a) + Normalise(b)
    decreases |a|
  {
    if a == "" {
      assert a + b == b;
    } else if |a| == 1 {
      NormaliseAfterOne(a, b);
    } else {
      var n := if a[0] == '\r' && a[1] == '\n' then 2 else 1;
      var head, tail := [if n == 2 then '\n' else a[0]], a[n..];
      CutOfSum(a, b, n, n);
      NormaliseAppends(tail, b);
      NormaliseStep(a, tail, n);
      NormaliseStep(a + b, tail + b, n);
      TornTail(a, tail, b, n);
      hide Normalise;
      hide Torn;
      Glue(head, Normalise(tail), Normalise(b));
    }
  }

  lemma TornTail(a: string, tail: string, b: string, n: nat)
    requires 1 <= n <= 2 <= |a| && tail == a[n..] && (n == 2 ==> a[1] == '\n')
    ensures Torn(a, b) == Torn(tail, b)
  {
  }

  lemma Glue(x: string, y: string, z: string)
    ensures x + (y + z) == x + y + z
  {
  }

  /** The first character, or the CR-LF, of a text. */
  lemma NormaliseStep(s: string, tail: string, n: nat)
    requires |s| >= 2 && n == (if s[0] == '\r' && s[1] == '\n' then 2 else 1) && tail == s[n..]
    ensures Normalise(s) == [if n == 2 then '\n' else s[0]] + Normalise(tail)
  {
  }

  lemma NormaliseAfterOne(a: string, b: string)
    requires |a| == 1
    ensures |Normalise(a + b)| == 1 + |Normalise(b)| - (if Torn(a, b) then 1 else 0)
    ensures !Torn(a, b) ==> Normalise(a + b) == a + Normalise(b)
  {
    if b == "" {
      assert a + b == a;
    } else if Torn(a, b) {
      NormaliseStep(a + b, b[1..], 2);
      NormaliseHead(b);
    } else {
      NormaliseStep(a + b, b, 1);
    }
  }

  lemma NormaliseHead(b: string)
    requires b != "" && b[0] == '\n'
    ensures Normalise(b) == "\n" + Normalise(b[1..])
  {
  }

  function NormaliseEach(chunks: seq<string>): string {
    if chunks == [] then "" else Normalise(chunks[0]) + NormaliseEach(chunks[1..])
  }

  lemma {:induction false} NormaliseEachGrows(chunks: seq<string>)
    ensures |Normalise(Concat(chunks))| <= |NormaliseEach(chunks)|
    ensures |Normalise(Concat(chunks))| == |NormaliseEach(chunks)| <==> CleanCuts(chunks)
    ensures CleanCuts(chunks) ==> Normalise(Concat(chunks)) == NormaliseEach(chunks)
  {
    if chunks != [] {
      NormaliseEachGrows(chunks[1..]);
      NormaliseAppends(chunks[0], Concat(chunks[1..]));
    }
  }

  lemma {:induction false} FeedAllSplitsOnce(buffer: string, chunks: seq<string>)
    ensures FeedAll(buffer, chunks) == Split(buffer + NormaliseEach(chunks))
    decreases |chunks|
  {
    hide Normalise;
    hide Split;
    if chunks == [] {
      assert buffer + "" == buffer;
    } else {
      var text, more := buffer + Normalise(chunks[0]), NormaliseEach(chunks[1..]);
      FeedAllSplitsOnce(Split(text).rest, chunks[1..]);
      SplitContinues(text, more);
      assert text + more == buffer + NormaliseEach(chunks);
    }
  }

  /**
   * Framing does not depend on the chunking: the events and the leftover are those of the whole
   * stream, normalised and split at once, exactly when no chunk ends between a CR and its LF.
   */
  lemma ChunkingDoesNotMatter(chunks: seq<string>)
    ensures FeedAll("", chunks) == Split(Normalise(Concat(chunks))) <==> CleanCuts(chunks)
  {
    FeedAllSplitsOnce("", chunks);
    assert "" + NormaliseEach(chunks) == NormaliseEach(chunks);
    NormaliseEachGrows(chunks);
    SplitIsInvertible(NormaliseEach(chunks));
    SplitIsInvertible(Normalise(Concat(chunks)));
  }

  // ---- Reading one event ---------------------------------------------------------------------------

  function Lines(s: string): (lines: seq<string>)
    ensures lines != []
  {
    if s == "" then [""]
    else if s[0] == '\n' then [""] + Lines(s[1..])
    else var rest := Lines(s[1..]); [[s[0]] + rest[0]] + rest[1..]
  }

  predicate StartsWith(s: string, prefix: string) {
    prefix <= s
  }

  /** The last event name, and the data lines in order. */
  datatype Fields = Fields(name: string, data: seq<string>)

  function ReadLine(f: Fields, line: string): Fields {
    if StartsWith(line, "event:") then f.(name := Trim(line[6..]))
    else if StartsWith(line, "data:") then f.(data := f.data + [TrimStart(line[5..])])
    else f
  }

  function ReadLines(f: Fields, lines: seq<string>): Fields
    decreases |lines|
  {
    if lines == [] then f else ReadLines(ReadLine(f, lines[0]), lines[1..])
  }

  datatype Event = Event(name: string, data: string)

  function ReadEvent(raw: string): Event {
    var f := ReadLines(Fields("message", []), Lines(raw));
    Event(f.name, Join(f.data, '\n'))
  }

  lemma {:induction false} LinesOfTwo(a: string, b: string)
    requires Without(a, '\n') && Without(b, '\n')
    ensures Lines(a + "\n" + b) == [a, b]
  {
    if a == "" {
      assert a + "\n" + b == "\n" + b;
      LineOfOne(b);
    } else {
      assert (a + "\n" + b)[1..] == a[1..] + "\n" + b;
      LinesOfTwo(a[1..], b);
      assert [a[0]] + a[1..] == a;
    }
  }

  lemma {:induction false} LineOfOne(b: string)
    requires Without(b, '\n')
    ensures Lines(b) == [b]
  {
    if b != "" {
      LineOfOne(b[1..]);
      assert [b[0]] + b[1..] == b;
    }
  }

  /** The frame the ledger's feed writes for one event. */
  function Frame(name: string, data: string): string {
    "event: " + name + "\n" + ("data: " + data) + BLANK
  }

  /** Of an event with a name and a line of data, the name is read without outer space and the data without leading space. */
  lemma NamedEventIsRead(name: string, data: string)
    requires Without(name, '\n') && Without(data, '\n')
    ensures ReadEvent("event:" + name + "\n" + ("data:" + data)) == Event(Trim(name), TrimStart(data))
  {
    var a, b := "event:" + name, "data:" + data;
    WithoutAppend("event:", name, '\n');
    WithoutAppend("data:", data, '\n');
    LinesOfTwo(a, b);
    NameAndData(a, b, name, data);
    hide Lines;
    hide ReadLines;
    hide Trim;
    hide TrimStart;
  }

  lemma NameAndData(a: string, b: string, name: string, data: string)
    requires a == "event:" + name && b == "data:" + data
    ensures ReadLines(Fields("message", []), [a, b]) == Fields(Trim(name), [TrimStart(data)])
  {
    assert a[6..] == name && b[5..] == data;
    hide Trim;
    hide TrimStart;
    var f := Fields("message", []);
    var last: seq<string> := [b];
    assert [a, b][1..] == last && last[1..] == [];
    assert ReadLine(f, a) == Fields(Trim(name), []);
    assert !StartsWith(b, "event:") by { assert b[0] == 'd'; }
    assert ReadLine(Fields(Trim(name), []), b) == Fields(Trim(name), [TrimStart(data)]);
    assert ReadLines(f, [a, b]) == ReadLines(ReadLine(f, a), last);
    assert ReadLines(ReadLine(f, a), last) == ReadLine(ReadLine(f, a), b);
  }

  /** A written frame, with a one-word name and one line of data, is read back as it was. */
  lemma FrameIsReadBack(name: string, data: string)
    requires Without(name, '\n') && Without(data, '\n') && Trim(" " + name) == name && TrimStart(data) == data
    ensures Split(Frame(name, data)) == Frames(["event: " + name + "\n" + ("data: " + data)], "")
    ensures ReadEvent("event: " + name + "\n" + ("data: " + data)) == Event(name, data)
  {
    var a, b := "event: " + name, "data: " + data;
    assert a == "event:" + (" " + name) && b == "data:" + (" " + data);
    assert TrimStart(" " + data) == data by { assert (" " + data)[1..] == data; }
    hide Split;
    hide Lines;
    hide ReadLines;
    hide ReadEvent;
    hide Trim;
    hide TrimStart;
    WithoutAppend("event: ", name, '\n');
    WithoutAppend("data: ", data, '\n');
    NoSeparatorInside(a, b);
    WithoutAppend(" ", name, '\n');
    WithoutAppend(" ", data, '\n');
    NamedEventIsRead(" " + name, " " + data);
  }

  lemma NoSeparatorInside(a: string, b: string)
    requires Without(a, '\n') && Without(b, '\n') && b != ""
    ensures Split(a + "\n" + b + BLANK) == Frames([a + "\n" + b], "")
  {
    var raw := a + "\n" + b;
    var s := raw + BLANK;
    var i := Separator(s, 0);
    assert SeparatorAt(s, |raw|);
    assert forall k :: 0 <= k < |raw| && k != |a| ==> raw[k] != '\n';
    assert i == |raw|;
    assert s[..i] == raw && s[i + 2..] == "";
  }

  // ---- Several lines of data --------------------------------------------------------------------------

  function DataLines(parts: seq<string>): (lines: seq<string>)
    ensures |lines| == |parts| && forall k :: 0 <= k < |parts| ==> lines[k] == "data: " + parts[k]
  {
    seq(|parts|, k requires 0 <= k < |parts| => "data: " + parts[k])
  }

  lemma {:induction false} LinesOfFirst(a: string, rest: string)
    requires Without(a, '\n')
    ensures Lines(a + ['\n'] + rest) == [a] + Lines(rest)
  {
    var s := a + ['\n'] + rest;
    if a == "" {
      assert s[1..] == rest;
    } else {
      assert s[1..] == a[1..] + ['\n'] + rest;
      LinesOfFirst(a[1..], rest);
      assert [a[0]] + a[1..] == a;
    }
  }

  lemma {:induction false} LinesOfJoin(lines: seq<string>)
    requires lines != [] && AllWithout(lines, '\n')
    ensures Lines(Join(lines, '\n')) == lines
  {
    if |lines| == 1 {
      LineOfOne(lines[0]);
    } else {
      assert Without(lines[0], '\n') && AllWithout(lines[1..], '\n');
      LinesOfJoin(lines[1..]);
      LinesOfFirst(lines[0], Join(lines[1..], '\n'));
      assert Join(lines, '\n') == lines[0] + ['\n'] + Join(lines[1..], '\n');
      assert lines == [lines[0]] + lines[1..];
    }
  }

  lemma DataLineIsRead(f: Fields, part: string)
    requires TrimStart(part) == part
    ensures ReadLine(f, "data: " + part) == f.(data := f.data + [part])
  {
    var line := "data: " + part;
    assert line[0] == 'd' && line[..5] == "data:";
    assert line[5..] == " " + part;
    SpaceIsTrimmed(part);
    hide TrimStart;
  }

  lemma SpaceIsTrimmed(part: string)
    ensures TrimStart(" " + part) == TrimStart(part)
  {
    assert (" " + part)[1..] == part;
  }

  lemma {:induction false} DataLinesAreRead(f: Fields, parts: seq<string>)
    requires forall k :: 0 <= k < |parts| ==> TrimStart(parts[k]) == parts[k]
    ensures ReadLines(f, DataLines(parts)) == f.(data := f.data + parts)
    decreases |parts|
  {
    hide ReadLine;
    hide TrimStart;
    if parts == [] {
      assert f.data + [] == f.data;
    } else {
      DataLineIsRead(f, parts[0]);
      assert DataLines(parts)[0] == "data: " + parts[0] && DataLines(parts)[1..] == DataLines(parts[1..]);
      DataLinesAreRead(ReadLine(f, "data: " + parts[0]), parts[1..]);
      Regroup(f.data, parts);
    }
  }

  lemma Regroup(data: seq<string>, parts: seq<string>)
    requires parts != []
    ensures data + [parts[0]] + parts[1..] == data + parts
  {
  }

  lemma NoBreaks(parts: seq<string>)
    requires AllWithout(parts, '\n')
    ensures AllWithout(DataLines(parts), '\n')
  {
    forall k | 0 <= k < |parts|
      ensures Without(DataLines(parts)[k], '\n')
    {
      assert Without(parts[k], '\n');
    }
  }

  /** An event of data lines alone is a message, and its data are those lines, one under the other. */
  lemma DataLinesAreJoined(parts: seq<string>)
    requires parts != [] && AllWithout(parts, '\n') && forall k :: 0 <= k < |parts| ==> TrimStart(parts[k]) == parts[k]
    ensures ReadEvent(Join(DataLines(parts), '\n')) == Event("message", Join(parts, '\n'))
  {
    hide Lines;
    hide Join;
    hide DataLines;
    hide AllWithout;
    hide ReadLine;
    hide TrimStart;
    NoBreaks(parts);
    LinesOfJoin(DataLines(parts));
    DataLinesAreRead(Fields("message", []), parts);
    assert [] + parts == parts;
    hide ReadLines;
  }
}
