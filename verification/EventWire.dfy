/** The client reads back exactly the events that the server prints, and so does any reader that
    follows section 9.2.6 of the WHATWG HTML Standard. */
module EventWire {
  import opened Text
  import opened EventStream

  /** How the server prints one event. */
  function Sse(e: Event): string {
    "event: " + e.name + "\ndata: " + e.data + "\n\n"
  }

  function Wire(events: seq<Event>): string {
    if events == [] then "" else Sse(events[0]) + Wire(events[1..])
  }

  predicate OneLine(s: string) {
    forall c :: c in s ==> c != '\r' && c != '\n'
  }

  /** The server's event names are words; its payloads are JSON objects printed on one line. */
  predicate Sendable(e: Event) {
    && OneLine(e.name) && e.name != "" && !IsJsSpace(e.name[0]) && !IsJsSpace(e.name[|e.name| - 1])
    && OneLine(e.data) && e.data != "" && e.data[0] == '{'
  }

  predicate AllSendable(events: seq<Event>) {
    forall e :: e in events ==> Sendable(e)
  }

  // ---------- the browser client ----------

  lemma NoCutInLine(sep: Separator, s: string, k: nat)
    requires k >= |s| || (s[k] != '\n' && s[k] != '\r')
    ensures CutAt(sep, s, k) == 0 && LineEndAt(s, k) == 0
  {
  }

  /** A text of two lines, followed by a blank line. */
  lemma FrameEnds(a: string, b: string, rest: string)
    requires OneLine(a) && OneLine(b) && b != ""
    ensures Split(BlankLine, a + "\n" + b + "\n\n" + rest) == [a + "\n" + b] + Split(BlankLine, rest)
  {
    var h := a + "\n" + b;
    var s := h + "\n\n" + rest;
    forall k | 0 <= k < |h| ensures CutAt(BlankLine, s, k) == 0 {
      assert s[k] == h[k];
      if k < |a| {
        assert s[k] == a[k] && a[k] in a;
        NoCutInLine(BlankLine, s, k);
      } else if k == |a| {
        assert s[k + 1] == b[0];
        assert s[k] == '\n' && s[k + 1] in b;
      } else {
        assert s[k] == b[k - |a| - 1] && b[k - |a| - 1] in b;
        NoCutInLine(BlankLine, s, k);
      }
    }
    assert s[|h|] == '\n' && s[|h| + 1] == '\n';
    SplitFirst(BlankLine, h, "\n\n", rest);
  }

  lemma LinesOfTwo(a: string, b: string)
    requires OneLine(a) && OneLine(b)
    ensures Split(LineEnd, a + "\n" + b) == [a, b]
  {
    hide SplitFrom;
    var s := a + "\n" + b;
    forall k | 0 <= k < |a| ensures CutAt(LineEnd, s, k) == 0 {
      assert s[k] == a[k] && a[k] in a;
      NoCutInLine(LineEnd, s, k);
    }
    assert s[|a|] == '\n';
    SplitFirst(LineEnd, a, "\n", b);
    LinesOfOne(b);
  }

  lemma LinesOfOne(b: string)
    requires OneLine(b)
    ensures Split(LineEnd, b) == [b]
  {
    forall k | 0 <= k < |b| ensures CutAt(LineEnd, b, k) == 0 {
      assert b[k] in b;
      NoCutInLine(LineEnd, b, k);
    }
    hide CutAt;
    SkipTo(LineEnd, b, 0, 0, |b|);
    assert b[0..] == b;
  }

  lemma TrimsTo(name: string)
    requires name != "" && !IsJsSpace(name[0]) && !IsJsSpace(name[|name| - 1])
    ensures Trim(" " + name) == name
  {
    assert (" " + name)[1..] == name;
    assert TrimStart(" " + name) == name;
  }

  lemma FrameReadsBack(e: Event)
    requires Sendable(e)
    ensures FrameEvents(Frame(e)) == [e]
  {
    var a, b := "event: " + e.name, "data: " + e.data;
    LinesOfTwo(a, b);
    hide Split;
    assert Init([a, b]) == [a] && Init([a]) == [];
    assert a[..6] == EVENT && a[6..] == " " + e.name;
    TrimsTo(e.name);
    assert ReadLines([a]) == Fields(e.name, []);
    assert b[..5] == DATA && b[5..] == " " + e.data && (" " + e.data)[1..] == e.data;
    assert b[0] != EVENT[0];
    assert !(EVENT <= b);
    assert TrimStart(" " + e.data) == e.data;
    assert ReadLines([a, b]) == Fields(e.name, [e.data]);
  }

  lemma NothingReadsBack()
    ensures EventsOf(Split(BlankLine, "")) == []
  {
    assert Split(BlankLine, "") == [""];
    EmptyFrameIsNone();
    hide Split, FrameEvents;
    assert EventsOf([""]) == EventsOf([]) + FrameEvents("");
  }

  lemma {:induction false} ClientReadsBack(events: seq<Event>)
    requires AllSendable(events)
    ensures EventsOf(Split(BlankLine, Wire(events))) == events
  {
    if events == [] {
      NothingReadsBack();
    } else {
      hide FrameEvents, Split;
      var e, rest := events[0], Wire(events[1..]);
      assert e in events;
      EventIsFrame(e, rest);
      ClientReadsBack(events[1..]);
      FrameReadsBack(e);
      EventsConcat([Frame(e)], Split(BlankLine, rest));
      assert EventsOf([Frame(e)]) == EventsOf([]) + [e];
    }
  }

  /** Behind the last blank line is nothing. */
  lemma {:induction false} LastPieceIsEmpty(events: seq<Event>)
    requires AllSendable(events)
    ensures Last(Split(BlankLine, Wire(events))) == ""
    decreases |events|
  {
    if events == [] {
      assert Split(BlankLine, "") == [""];
    } else {
      hide Split;
      assert events[0] in events;
      EventIsFrame(events[0], Wire(events[1..]));
      LastPieceIsEmpty(events[1..]);
    }
  }

  lemma EmptyFrameIsNone()
    ensures FrameEvents("") == []
  {
    LinesOfOne("");
    assert ReadLines([""]) == Fields("message", []);
  }

  function Frame(e: Event): string {
    "event: " + e.name + "\n" + ("data: " + e.data)
  }

  lemma EventIsFrame(e: Event, rest: string)
    requires Sendable(e)
    ensures Split(BlankLine, Sse(e) + rest) == [Frame(e)] + Split(BlankLine, rest)
  {
    hide Split;
    FrameEnds("event: " + e.name, "data: " + e.data, rest);
    assert Sse(e) + rest == Frame(e) + "\n\n" + rest;
  }

  /** Round trip through an arbitrary network. */
  method Receive(events: seq<Event>, chunks: seq<string>) returns (received: seq<Event>)
    requires AllSendable(events) && Join(chunks) == Wire(events)
    ensures received == events
  {
    received := ReadResponse(chunks);
    ClientReadsBack(events);
  }

  // ---------- a reader that follows the standard ----------

  /** The event type buffer, the data buffer and the events dispatched so far. */
  datatype Buffers = Buffers(name: string, data: string, out: seq<Event>)

  function DropOneSpace(s: string): string {
    if s != "" && s[0] == ' ' then s[1..] else s
  }

  function TakeField(w: Buffers, name: string, value: string): Buffers {
    if name == "event" then w.(name := value)
    else if name == "data" then w.(data := w.data + value + "\n")
    else w
  }

  function TakeLine(w: Buffers, line: string): Buffers {
    if line == "" then
      if w.data == "" then Buffers("", "", w.out)
      else Buffers("", "", w.out + [Event(if w.name == "" then "message" else w.name, w.data[..|w.data| - 1])])
    else
      var colon := IndexOf(line, ":");
      if colon == 0 then w
      else if colon < 0 then TakeField(w, line, "")
      else TakeField(w, line[..colon], DropOneSpace(line[colon + 1..]))
  }

  function TakeLines(w: Buffers, lines: seq<string>): Buffers
    decreases |lines|
  {
    if lines == [] then w else TakeLines(TakeLine(w, lines[0]), lines[1..])
  }

  /** The events dispatched for a whole stream; what no blank line ends is discarded. */
  function StandardEvents(stream: string): seq<Event> {
    TakeLines(Buffers("", "", []), Init(Split(AnyLineEnd, stream))).out
  }

  lemma LineThen(a: string, rest: string)
    requires OneLine(a)
    ensures Split(AnyLineEnd, a + "\n" + rest) == [a] + Split(AnyLineEnd, rest)
  {
    hide SplitFrom;
    var s := a + "\n" + rest;
    forall k | 0 <= k < |a| ensures CutAt(AnyLineEnd, s, k) == 0 {
      assert s[k] == a[k] && a[k] in a;
      NoCutInLine(AnyLineEnd, s, k);
    }
    assert s[|a|] == '\n';
    SplitFirst(AnyLineEnd, a, "\n", rest);
  }

  lemma TakesField(w: Buffers, name: string, value: string)
    requires name != "" && ':' !in name && (value == "" || value[0] != ' ')
    ensures TakeLine(w, name + ": " + value) == TakeField(w, name, value)
  {
    hide IndexFrom;
    var line := name + ": " + value;
    assert line[|name|..|name| + 1] == ":";
    forall j | 0 <= j < |name| ensures !OccursAt(line, ":", j) {
      assert line[j..j + 1][0] == name[j] && name[j] in name;
    }
    IndexOfIs(line, ":", |name|);
    assert line[..|name|] == name;
    assert line[|name| + 1..] == " " + value && (" " + value)[1..] == value;
  }

  lemma TakesEvent(w: Buffers, e: Event, lines: seq<string>)
    requires Sendable(e) && w.name == w.data == ""
    ensures TakeLines(w, ["event: " + e.name, "data: " + e.data, ""] + lines)
            == TakeLines(Buffers("", "", w.out + [e]), lines)
  {
    hide TakeLine, TakeLines;
    var a, b := "event: " + e.name, "data: " + e.data;
    var w1 := w.(name := e.name);
    var w2 := w1.(data := e.data + "\n");
    TakesField(w, "event", e.name);
    TakesField(w1, "data", e.data);
    assert "" + e.data + "\n" == e.data + "\n";
    Dispatches(w2, e);
    assert "event" + ": " + e.name == a && "data" + ": " + e.data == b;
    assert [a, b, ""] + lines == [a] + ([b] + ([""] + lines));
    TakeNext(w, a, [b] + ([""] + lines));
    TakeNext(w1, b, [""] + lines);
    TakeNext(w2, "", lines);
  }

  lemma TakeNext(w: Buffers, line: string, lines: seq<string>)
    ensures TakeLines(w, [line] + lines) == TakeLines(TakeLine(w, line), lines)
  {
    assert ([line] + lines)[1..] == lines;
  }

  lemma Dispatches(w: Buffers, e: Event)
    requires w.name == e.name != "" && w.data == e.data + "\n"
    ensures TakeLine(w, "") == Buffers("", "", w.out + [e])
  {
    assert w.data[..|w.data| - 1] == e.data;
  }

  lemma {:induction false} StandardReadsFrom(w: Buffers, events: seq<Event>)
    requires AllSendable(events) && w.name == w.data == ""
    ensures TakeLines(w, Init(Split(AnyLineEnd, Wire(events)))).out == w.out + events
    decreases |events|
  {
    hide TakeLine, SplitFrom;
    if events == [] {
      assert Split(AnyLineEnd, "") == [""] by {
        SplitStep(AnyLineEnd, "", 0, 0);
      }
    } else {
      hide TakeLines, Split;
      var e, rest := events[0], Wire(events[1..]);
      assert e in events;
      EventIsLines(e, rest);
      var pieces := Split(AnyLineEnd, rest);
      assert Init(Split(AnyLineEnd, Wire(events))) == ["event: " + e.name, "data: " + e.data, ""] + Init(pieces);
      TakesEvent(w, e, Init(pieces));
      StandardReadsFrom(Buffers("", "", w.out + [e]), events[1..]);
    }
  }

  lemma EventIsLines(e: Event, rest: string)
    requires Sendable(e)
    ensures Split(AnyLineEnd, Sse(e) + rest)
            == ["event: " + e.name, "data: " + e.data, ""] + Split(AnyLineEnd, rest)
  {
    hide Split;
    var a, b := "event: " + e.name, "data: " + e.data;
    assert Sse(e) + rest == a + "\n" + (b + "\n" + ("" + "\n" + rest));
    LineThen(a, b + "\n" + ("" + "\n" + rest));
    LineThen(b, "" + "\n" + rest);
    LineThen("", rest);
  }

  /** On what the server prints, the client and the standard yield the same events. */
  lemma ClientFollowsStandard(events: seq<Event>)
    requires AllSendable(events)
    ensures StandardEvents(Wire(events)) == EventsOf(Split(BlankLine, Wire(events))) == events
  {
    ClientReadsBack(events);
    StandardReadsFrom(Buffers("", "", []), events);
  }
}
