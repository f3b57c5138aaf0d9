/** Server-sent events: how the server prints them, and how the browser client reads them back
    from network chunks that may be cut anywhere. */
module EventStream {
  import opened Text

  // ---------- splitting at separators ----------

  /** The client's two separators, `/\r?\n/` and `/\r?\n\r?\n/`, and the line end of section 9.2.6
      of the WHATWG HTML Standard, which is also a lone carriage return. */
  datatype Separator = LineEnd | BlankLine | AnyLineEnd

  function LineEndAt(s: string, i: nat): nat {
    if i < |s| && s[i] == '\n' then 1
    else if i + 1 < |s| && s[i] == '\r' && s[i + 1] == '\n' then 2
    else 0
  }

  /** The length of the separator that starts at `i`, 0 when none does. */
  function CutAt(sep: Separator, s: string, i: nat): (n: nat)
    ensures n > 0 ==> i + n <= |s|
  {
    var n := LineEndAt(s, i);
    match sep
    case LineEnd => n
    case BlankLine => if n > 0 && LineEndAt(s, i + n) > 0 then n + LineEndAt(s, i + n) else 0
    case AnyLineEnd => if n == 0 && i < |s| && s[i] == '\r' then 1 else n
  }

  /** The pieces of `s[start..]`, looking for the next separator from `i` on. */
  function SplitFrom(sep: Separator, s: string, start: nat, i: nat): (pieces: seq<string>)
    requires start <= i <= |s|
    ensures |pieces| > 0
    decreases |s| - i
  {
    if i == |s| then [s[start..]]
    else
      var n := CutAt(sep, s, i);
      if n > 0 then [s[start..i]] + SplitFrom(sep, s, i + n, i + n) else SplitFrom(sep, s, start, i + 1)
  }

  /** JavaScript's `s.split(separator)`. */
  function Split(sep: Separator, s: string): (pieces: seq<string>)
    ensures |pieces| > 0
  {
    SplitFrom(sep, s, 0, 0)
  }

  function Init<T>(s: seq<T>): seq<T>
    requires |s| > 0
  {
    s[..|s| - 1]
  }

  function Last<T>(s: seq<T>): T
    requires |s| > 0
  {
    s[|s| - 1]
  }

  lemma {:induction false} SplitShift(sep: Separator, a: string, s: string, start: nat, i: nat)
    requires start <= i <= |s|
    ensures SplitFrom(sep, a + s, |a| + start, |a| + i) == SplitFrom(sep, s, start, i)
    decreases |s| - i
  {
    hide CutAt, SplitFrom;
    SliceShift(a, s, start, i);
    SliceShift(a, s, start, |s|);
    CutShift(sep, a, s, i);
    var n := CutAt(sep, s, i);
    SplitStep(sep, s, start, i);
    SplitStep(sep, a + s, |a| + start, |a| + i);
    if i < |s| {
      if n > 0 {
        SplitShift(sep, a, s, i + n, i + n);
      } else {
        SplitShift(sep, a, s, start, i + 1);
      }
    }
  }

  lemma SplitStep(sep: Separator, s: string, start: nat, i: nat)
    requires start <= i <= |s|
    ensures var n := CutAt(sep, s, i);
            SplitFrom(sep, s, start, i)
            == if i == |s| then [s[start..]]
               else if n > 0 then [s[start..i]] + SplitFrom(sep, s, i + n, i + n)
               else SplitFrom(sep, s, start, i + 1)
  {
    hide CutAt;
  }

  lemma CutShift(sep: Separator, a: string, s: string, i: nat)
    ensures CutAt(sep, a + s, |a| + i) == CutAt(sep, s, i)
  {
    LineEndShift(a, s, i);
    LineEndShift(a, s, i + LineEndAt(s, i));
    assert i < |s| ==> (a + s)[|a| + i] == s[i];
    hide LineEndAt;
  }

  lemma LineEndShift(a: string, s: string, i: nat)
    ensures LineEndAt(a + s, |a| + i) == LineEndAt(s, i)
  {
    assert forall k :: 0 <= k < |s| ==> (a + s)[|a| + k] == s[k];
  }

  /** Text in front of the rest of the input that contains no separator is skipped. */
  lemma {:induction false} SkipTo(sep: Separator, s: string, start: nat, i: nat, j: nat)
    requires start <= i <= j <= |s|
    requires forall k :: i <= k < j ==> CutAt(sep, s, k) == 0
    ensures SplitFrom(sep, s, start, i) == SplitFrom(sep, s, start, j)
    decreases j - i
  {
    if i < j {
      hide CutAt;
      assert CutAt(sep, s, i) == 0;
      SkipTo(sep, s, start, i + 1, j);
    }
  }

  /** The first separator of `a + cut + b` being `cut`, the rest is split on its own. */
  lemma SplitFirst(sep: Separator, a: string, cut: string, b: string)
    requires var s := a + cut + b;
             CutAt(sep, s, |a|) == |cut| > 0 && forall k :: 0 <= k < |a| ==> CutAt(sep, s, k) == 0
    ensures Split(sep, a + cut + b) == [a] + Split(sep, b)
  {
    hide CutAt;
    var s := a + cut + b;
    SkipTo(sep, s, 0, 0, |a|);
    assert s[0..|a|] == a;
    SplitShift(sep, a + cut, b, 0, 0);
  }

  // ---------- chunks ----------

  /** A separator seen in a chunk is seen again once more text has arrived. */
  lemma CutStays(a: string, b: string, i: nat)
    requires CutAt(BlankLine, a, i) > 0
    ensures CutAt(BlankLine, a + b, i) == CutAt(BlankLine, a, i)
  {
    assert forall k :: 0 <= k < |a| ==> (a + b)[k] == a[k];
  }

  /** A separator that is only complete in `a + b` starts after every separator of `a`. */
  lemma LateCutIsLast(a: string, b: string, i: nat, k: nat)
    requires CutAt(BlankLine, a, i) == 0 < CutAt(BlankLine, a + b, i)
    requires i <= k < |a|
    ensures CutAt(BlankLine, a, k) == 0
  {
    assert forall k :: 0 <= k < |a| ==> (a + b)[k] == a[k];
  }

  lemma {:induction false} NoCutLeft(s: string, start: nat, i: nat)
    requires start <= i <= |s|
    requires forall k :: i <= k < |s| ==> CutAt(BlankLine, s, k) == 0
    ensures SplitFrom(BlankLine, s, start, i) == [s[start..]]
  {
    SkipTo(BlankLine, s, start, i, |s|);
  }

  /** Splitting the first part and then the kept last piece together with the new text gives the
      pieces of the whole. */
  lemma {:induction false} SplitResumes(a: string, b: string, start: nat, i: nat)
    requires start <= i <= |a|
    requires forall k :: start <= k < i ==> CutAt(BlankLine, a + b, k) == 0
    ensures var pieces := SplitFrom(BlankLine, a, start, i);
            && |Last(pieces)| <= |a| && a[|a| - |Last(pieces)|..] == Last(pieces)
            && SplitFrom(BlankLine, a + b, start, start) == Init(pieces) + Split(BlankLine, Last(pieces) + b)
    decreases |a| - i
  {
    hide CutAt;
    var s := a + b;
    SkipTo(BlankLine, s, start, start, i);
    if i == |a| {
      KeptPiece(a, b, start);
    } else if CutAt(BlankLine, a, i) > 0 {
      CutStays(a, b, i);
      var n := CutAt(BlankLine, a, i);
      assert s[start..i] == a[start..i];
      SplitResumes(a, b, i + n, i + n);
      assert SplitFrom(BlankLine, a, start, i) == [a[start..i]] + SplitFrom(BlankLine, a, i + n, i + n);
    } else if CutAt(BlankLine, s, i) > 0 {
      forall k | i <= k < |a| ensures CutAt(BlankLine, a, k) == 0 {
        LateCutIsLast(a, b, i, k);
      }
      NoCutLeft(a, start, i);
      KeptPiece(a, b, start);
    } else {
      SplitResumes(a, b, start, i + 1);
    }
  }

  lemma KeptPiece(a: string, b: string, start: nat)
    requires start <= |a|
    ensures SplitFrom(BlankLine, a + b, start, start) == Init([a[start..]]) + Split(BlankLine, a[start..] + b)
  {
    hide CutAt;
    assert a + b == a[..start] + (a[start..] + b);
    SplitShift(BlankLine, a[..start], a[start..] + b, 0, 0);
    assert Init([a[start..]]) == [];
  }

  // ---------- frames ----------

  datatype Event = Event(name: string, data: string)

  /** White space as JavaScript's `trim` sees it. */
  predicate IsJsSpace(c: char) {
    || '\t' <= c <= '\r' || c == ' ' || c == '\U{a0}' || c == '\U{1680}'
    || '\U{2000}' <= c <= '\U{200a}'
    || c == '\U{2028}' || c == '\U{2029}' || c == '\U{202f}' || c == '\U{205f}' || c == '\U{3000}' || c == '\U{feff}'
  }

  function TrimStart(s: string): (r: string)
    ensures |r| <= |s| && (r == "" || !IsJsSpace(r[0]))
    ensures s == "" || !IsJsSpace(s[0]) ==> r == s
  {
    if s == "" || !IsJsSpace(s[0]) then s else TrimStart(s[1..])
  }

  function TrimEnd(s: string): (r: string)
    ensures |r| <= |s| && (r == "" || !IsJsSpace(r[|r| - 1]))
    ensures s == "" || !IsJsSpace(s[|s| - 1]) ==> r == s
  {
    if s == "" || !IsJsSpace(s[|s| - 1]) then s else TrimEnd(s[..|s| - 1])
  }

  function Trim(s: string): string {
    TrimEnd(TrimStart(s))
  }

  const EVENT: string := "event:"
  const DATA: string := "data:"

  /** What the lines read so far say: the event name, and the data lines. */
  datatype Fields = Fields(name: string, data: seq<string>)

  function ReadLine(f: Fields, line: string): Fields {
    if EVENT <= line then f.(name := Trim(line[6..]))
    else if DATA <= line then f.(data := f.data + [TrimStart(line[5..])])
    else f
  }

  function ReadLines(lines: seq<string>): Fields {
    if lines == [] then Fields("message", []) else ReadLine(ReadLines(Init(lines)), Last(lines))
  }

  function JoinLines(lines: seq<string>): string {
    if lines == [] then "" else if |lines| == 1 then lines[0] else JoinLines(Init(lines)) + "\n" + Last(lines)
  }

  /** The event of one frame; a frame without data has none. */
  function FrameEvents(frame: string): seq<Event> {
    var f := ReadLines(Split(LineEnd, frame));
    if f.data == [] then [] else [Event(f.name, JoinLines(f.data))]
  }

  function EventsOf(frames: seq<string>): seq<Event> {
    if frames == [] then [] else EventsOf(Init(frames)) + FrameEvents(Last(frames))
  }

  lemma {:induction false} EventsConcat(a: seq<string>, b: seq<string>)
    ensures EventsOf(a + b) == EventsOf(a) + EventsOf(b)
  {
    hide FrameEvents;
    if b == [] {
      assert a + b == a;
    } else {
      assert Init(a + b) == a + Init(b);
      EventsConcat(a, Init(b));
    }
  }

  // ---------- the client ----------

  /** The reading loop of one response. */
  class Reader {
    var buffer: string
    /** Everything received, and every event yielded, so far. */
    ghost var received: string
    ghost var yielded: seq<Event>

    ghost predicate Valid()
      reads this
    {
      var pieces := Split(BlankLine, received);
      buffer == Last(pieces) && yielded == EventsOf(Init(pieces))
    }

    constructor ()
      ensures Valid() && received == "" && yielded == []
    {
      buffer, received, yielded := "", "", [];
    }

    /** One network chunk, or (when `done`) the end of the response. */
    method Read(value: string, done: bool) returns (events: seq<Event>)
      requires Valid()
      modifies this
      ensures received == old(received) + value && yielded == old(yielded) + events
      ensures !done ==> Valid()
      ensures done ==> yielded == EventsOf(Split(BlankLine, received))
    {
      hide FrameEvents, Split;
      ghost var before := Split(BlankLine, received);
      ResumeAll(received, value);
      received := received + value;
      buffer := buffer + value;
      var frames := Split(BlankLine, buffer);
      ghost var whole := Split(BlankLine, received);
      InitConcat(Init(before), frames);
      if done {
        buffer := "";
      } else {
        buffer := Last(frames);
        frames := Init(frames);
      }
      events := [];
      for i := 0 to |frames|
        modifies {}
        invariant events == EventsOf(frames[..i])
      {
        var found := ReadFrame(frames[i]);
        events := events + found;
        assert Init(frames[..i + 1]) == frames[..i];
      }
      assert frames[..|frames|] == frames;
      EventsConcat(Init(before), frames);
      assert Init(before) + frames == if done then whole else Init(whole);
      yielded := yielded + events;
    }
  }

  lemma InitConcat<T>(a: seq<T>, b: seq<T>)
    requires |b| > 0
    ensures Init(a + b) == a + Init(b) && Last(a + b) == Last(b)
  {
  }

  lemma ResumeAll(a: string, b: string)
    ensures Split(BlankLine, a + b)
            == Init(Split(BlankLine, a)) + Split(BlankLine, Last(Split(BlankLine, a)) + b)
  {
    SplitResumes(a, b, 0, 0);
  }

  method ReadFrame(frame: string) returns (events: seq<Event>)
    ensures events == FrameEvents(frame)
  {
    var event := "message";
    var data: seq<string> := [];
    var lines := Split(LineEnd, frame);
    for i := 0 to |lines|
      invariant Fields(event, data) == ReadLines(lines[..i])
    {
      var line := lines[i];
      if EVENT <= line {
        event := Trim(line[6..]);
      } else if DATA <= line {
        data := data + [TrimStart(line[5..])];
      }
      assert Init(lines[..i + 1]) == lines[..i];
    }
    assert lines[..|lines|] == lines;
    events := if data != [] then [Event(event, JoinLines(data))] else [];
  }

  /** Whatever the network does to the stream, the client yields the events of the whole. */
  method ReadResponse(chunks: seq<string>) returns (events: seq<Event>)
    ensures events == EventsOf(Split(BlankLine, Join(chunks)))
  {
    var reader := new Reader();
    events := [];
    for i := 0 to |chunks|
      invariant fresh(reader) && reader.Valid()
      invariant reader.received == Join(chunks[..i]) && reader.yielded == events
    {
      JoinSnoc(chunks[..i], chunks[i]);
      assert chunks[..i] + [chunks[i]] == chunks[..i + 1];
      var found := reader.Read(chunks[i], false);
      events := events + found;
    }
    assert chunks[..|chunks|] == chunks;
    assert Join(chunks) + "" == Join(chunks);
    var found := reader.Read("", true);
    events := events + found;
  }
}
