/** Frames as the client's two patterns see them: any lines, each ended by a line feed with or without a
    carriage return, and what the lines of a frame mean. */
module EventFrames {
  import opened Text
  import opened EventStream
  import opened EventWire

  function End(crlf: bool): string {
    if crlf then "\r\n" else "\n"
  }

  /** The lines of one frame, with these line ends between them. */
  function Lined(lines: seq<string>, ends: seq<bool>): string
    requires |lines| <= |ends|
    decreases |lines|
  {
    if lines == [] then ""
    else if |lines| == 1 then lines[0]
    else lines[0] + End(ends[0]) + Lined(lines[1..], ends[1..])
  }

  /** Lines with something on them. */
  predicate Written(lines: seq<string>) {
    lines != [] && forall l :: l in lines ==> l != "" && OneLine(l)
  }

  // ---------- line ends ----------

  lemma LineEndIs(crlf: bool, b: string)
    ensures LineEndAt(End(crlf) + b, 0) == |End(crlf)|
  {
  }

  /** Nothing ends inside a line, and at its end only what stands there. */
  lemma NothingEarlier(sep: Separator, a: string, rest: string, k: nat)
    requires OneLine(a) && k < |a|
    ensures LineEndAt(a + rest, k) == 0 && (sep != AnyLineEnd ==> CutAt(sep, a + rest, k) == 0)
  {
    assert (a + rest)[k] == a[k] && a[k] in a;
  }

  lemma LineIsCut(a: string, crlf: bool, b: string)
    requires OneLine(a)
    ensures Split(LineEnd, a + End(crlf) + b) == [a] + Split(LineEnd, b)
  {
    hide SplitFrom;
    assert a + End(crlf) + b == a + (End(crlf) + b);
    forall k | 0 <= k < |a| ensures CutAt(LineEnd, a + End(crlf) + b, k) == 0 {
      NothingEarlier(LineEnd, a, End(crlf) + b, k);
    }
    LineEndIs(crlf, b);
    CutShift(LineEnd, a, End(crlf) + b, 0);
    SplitFirst(LineEnd, a, End(crlf), b);
  }

  /** The client's pattern for lines gives back the lines of a frame, whatever their ends. */
  lemma {:induction false} LinesReadBack(lines: seq<string>, ends: seq<bool>)
    requires lines != [] && |lines| <= |ends| && forall l :: l in lines ==> OneLine(l)
    ensures Split(LineEnd, Lined(lines, ends)) == lines
    decreases |lines|
  {
    hide Split;
    if |lines| == 1 {
      LinesOfOne(lines[0]);
    } else {
      assert lines == [lines[0]] + lines[1..];
      assert forall l :: l in lines[1..] ==> l in lines;
      LinesReadBack(lines[1..], ends[1..]);
      LineIsCut(lines[0], ends[0], Lined(lines[1..], ends[1..]));
    }
  }

  // ---------- blank lines ----------

  lemma FirstIsNoEnd(lines: seq<string>, ends: seq<bool>, rest: string)
    requires Written(lines) && |lines| <= |ends|
    ensures var s := Lined(lines, ends) + rest; s != "" && s[0] != '\n' && s[0] != '\r'
  {
    assert lines[0] in lines;
    assert lines[0][0] in lines[0];
  }

  /** A single line end before a line with something on it is no blank line. */
  lemma SingleEnd(crlf: bool, s: string, k: nat)
    requires k < |End(crlf)| && s != "" && s[0] != '\n' && s[0] != '\r'
    ensures CutAt(BlankLine, End(crlf) + s, k) == 0
  {
  }

  lemma {:induction false} NoBlankInside(lines: seq<string>, ends: seq<bool>, rest: string, k: nat)
    requires Written(lines) && |lines| <= |ends| && k < |Lined(lines, ends)|
    requires rest != "" && LineEndAt(rest, 0) > 0
    ensures CutAt(BlankLine, Lined(lines, ends) + rest, k) == 0
    decreases |lines|
  {
    hide CutAt;
    var a := lines[0];
    assert a in lines;
    if k < |a| {
      var more := if |lines| == 1 then rest else End(ends[0]) + Lined(lines[1..], ends[1..]) + rest;
      assert Lined(lines, ends) + rest == a + more;
      NothingEarlier(BlankLine, a, more, k);
    } else {
      var tail := Lined(lines[1..], ends[1..]);
      assert forall l :: l in lines[1..] ==> l in lines;
      assert Lined(lines, ends) + rest == a + (End(ends[0]) + (tail + rest));
      assert a + (End(ends[0]) + (tail + rest)) == (a + End(ends[0])) + (tail + rest);
      if k < |a| + |End(ends[0])| {
        FirstIsNoEnd(lines[1..], ends[1..], rest);
        SingleEnd(ends[0], tail + rest, k - |a|);
        CutShift(BlankLine, a, End(ends[0]) + (tail + rest), k - |a|);
      } else {
        NoBlankInside(lines[1..], ends[1..], rest, k - |a| - |End(ends[0])|);
        CutShift(BlankLine, a + End(ends[0]), tail + rest, k - |a| - |End(ends[0])|);
      }
    }
  }

  /** The client's pattern for blank lines cuts off exactly the first frame, whatever the line ends. */
  lemma FrameIsCut(lines: seq<string>, ends: seq<bool>, first: bool, second: bool, rest: string)
    requires Written(lines) && |lines| <= |ends|
    ensures var frame := Lined(lines, ends);
      Split(BlankLine, frame + (End(first) + End(second)) + rest) == [frame] + Split(BlankLine, rest)
  {
    hide SplitFrom, CutAt, Lined;
    var frame, cut := Lined(lines, ends), End(first) + End(second);
    var s := frame + cut + rest;
    assert s == frame + (cut + rest);
    BlankLineIs(first, second, rest);
    forall k | 0 <= k < |frame| ensures CutAt(BlankLine, s, k) == 0 {
      NoBlankInside(lines, ends, cut + rest, k);
    }
    CutShift(BlankLine, frame, cut + rest, 0);
    SplitFirst(BlankLine, frame, cut, rest);
  }

  lemma BlankLineIs(first: bool, second: bool, rest: string)
    ensures var s := End(first) + End(second) + rest;
      LineEndAt(s, 0) == |End(first)| && CutAt(BlankLine, s, 0) == |End(first) + End(second)|
  {
    var s := End(first) + End(second) + rest;
    assert s == End(first) + (End(second) + rest);
    LineEndIs(first, End(second) + rest);
    LineEndIs(second, rest);
    LineEndShift(End(first), End(second) + rest, 0);
  }

  // ---------- what a frame means ----------

  /** JavaScript's `trim` and `trimStart`: white space is cut off at the ends, and nothing else. */
  lemma {:induction false} TrimStartIs(s: string)
    ensures exists n: nat :: n <= |s| && TrimStart(s) == s[n..] && forall k :: 0 <= k < n ==> IsJsSpace(s[k])
    decreases |s|
  {
    hide IsJsSpace;
    if s == "" || !IsJsSpace(s[0]) {
      assert s[0..] == s;
    } else {
      TrimStartIs(s[1..]);
      var t := s[1..];
      var n: nat :| n <= |t| && TrimStart(t) == t[n..] && forall k :: 0 <= k < n ==> IsJsSpace(t[k]);
      assert t[n..] == s[n + 1..];
      forall k | 0 <= k < n + 1 ensures IsJsSpace(s[k]) {
        assert k > 0 ==> s[k] == t[k - 1];
      }
    }
  }

  lemma {:induction false} TrimEndIs(s: string)
    ensures exists n: nat :: n <= |s| && TrimEnd(s) == s[..n] && forall k :: n <= k < |s| ==> IsJsSpace(s[k])
    decreases |s|
  {
    hide IsJsSpace;
    if s == "" || !IsJsSpace(s[|s| - 1]) {
      assert s[..|s|] == s;
    } else {
      var t := s[..|s| - 1];
      TrimEndIs(t);
      var n: nat :| n <= |t| && TrimEnd(t) == t[..n] && forall k :: n <= k < |t| ==> IsJsSpace(t[k]);
      assert t[..n] == s[..n];
      forall k | n <= k < |s| ensures IsJsSpace(s[k]) {
        assert k < |t| ==> s[k] == t[k];
      }
    }
  }

  /** White space in the sense of ECMA-262, by code units. */
  lemma JsSpaceIs(c: char)
    ensures IsJsSpace(c) <==>
              var u := c as int;
              9 <= u <= 13 || u == 32 || u == 160 || u == 5760 || 8192 <= u <= 8202
              || u in {8232, 8233, 8239, 8287, 12288, 65279}
  {
  }

  /** An `event:` line names the event, a `data:` line adds to the data, and any other line means nothing. */
  lemma LineMeans(f: Fields, line: string, value: string)
    ensures ReadLine(f, "event:" + value) == Fields(Trim(value), f.data)
    ensures ReadLine(f, "data:" + value) == Fields(f.name, f.data + [TrimStart(value)])
    ensures !("event:" <= line) && !("data:" <= line) ==> ReadLine(f, line) == f
  {
    assert ("event:" + value)[6..] == value && ("data:" + value)[5..] == value;
    assert ("data:" + value)[0] == 'd';
  }

  /** The data lines of an event stand one below the other: splitting them gives them back. */
  lemma {:induction false} DataLinesReadBack(lines: seq<string>, ends: seq<bool>)
    requires lines != [] && |lines| <= |ends| && forall k :: 0 <= k < |ends| ==> !ends[k]
    ensures JoinLines(lines) == Lined(lines, ends)
    decreases |lines|
  {
    if |lines| > 1 {
      var n := |lines| - 1;
      DataLinesReadBack(lines[..n], ends);
      LinedSnoc(lines[..n], lines[n], ends);
      assert lines[..n] + [lines[n]] == lines;
    }
  }

  lemma {:induction false} LinedSnoc(lines: seq<string>, last: string, ends: seq<bool>)
    requires lines != [] && |lines| < |ends| && forall k :: 0 <= k < |ends| ==> !ends[k]
    ensures Lined(lines + [last], ends) == Lined(lines, ends) + "\n" + last
    decreases |lines|
  {
    var longer := lines + [last];
    if |lines| == 1 {
      assert longer[1..] == [last];
    } else {
      assert longer[1..] == lines[1..] + [last];
      LinedSnoc(lines[1..], last, ends[1..]);
    }
  }

  /** A frame's events depend on its lines only, not on how they end. */
  lemma LineEndsDoNotMatter(lines: seq<string>, ends: seq<bool>, others: seq<bool>)
    requires lines != [] && |lines| <= |ends| && |lines| <= |others| && forall l :: l in lines ==> OneLine(l)
    ensures FrameEvents(Lined(lines, ends)) == FrameEvents(Lined(lines, others))
    ensures var f := ReadLines(lines);
      FrameEvents(Lined(lines, ends)) == if f.data == [] then [] else [Event(f.name, JoinLines(f.data))]
  {
    hide Split, Lined;
    LinesReadBack(lines, ends);
    LinesReadBack(lines, others);
  }

  // ---------- whole streams ----------

  datatype Frame = Frame(lines: seq<string>, ends: seq<bool>, first: bool, second: bool)

  predicate Valid(frames: seq<Frame>) {
    forall k :: 0 <= k < |frames| ==> Written(frames[k].lines) && |frames[k].lines| <= |frames[k].ends|
  }

  /** Each frame with its own line ends, and a blank line behind it. */
  function Typed(frames: seq<Frame>): string
    requires Valid(frames)
  {
    if frames == [] then ""
    else Lined(frames[0].lines, frames[0].ends) + (End(frames[0].first) + End(frames[0].second)) + Typed(frames[1..])
  }

  /** What the lines of each frame mean, one frame after the other. */
  function Meant(frames: seq<Frame>): seq<Event> {
    if frames == [] then []
    else
      var f := ReadLines(frames[0].lines);
      (if f.data == [] then [] else [Event(f.name, JoinLines(f.data))]) + Meant(frames[1..])
  }

  /** A stream of frames is read frame by frame and line by line, whatever the line ends. */
  lemma {:induction false} FramesAreRead(frames: seq<Frame>)
    requires Valid(frames)
    ensures EventsOf(Split(BlankLine, Typed(frames))) == Meant(frames)
    decreases |frames|
  {
    hide Split, FrameEvents, Lined;
    if frames == [] {
      NothingReadsBack();
    } else {
      FramesAreRead(frames[1..]);
      OneMoreFrame(frames[0], Typed(frames[1..]));
    }
  }

  lemma OneMoreFrame(f: Frame, rest: string)
    requires Written(f.lines) && |f.lines| <= |f.ends|
    ensures var frame := Lined(f.lines, f.ends) + (End(f.first) + End(f.second));
      EventsOf(Split(BlankLine, frame + rest)) == Meant([f]) + EventsOf(Split(BlankLine, rest))
  {
    hide Split, FrameEvents, Lined, JoinLines, ReadLines;
    assert forall l :: l in f.lines ==> OneLine(l);
    FrameIsCut(f.lines, f.ends, f.first, f.second, rest);
    EventsConcat([Lined(f.lines, f.ends)], Split(BlankLine, rest));
    assert Init([Lined(f.lines, f.ends)]) == [] && EventsOf([]) == [] && Meant([]) == [];
    assert Meant([f]) == Meant([f]) + Meant([]);
    LineEndsDoNotMatter(f.lines, f.ends, f.ends);
  }
}
