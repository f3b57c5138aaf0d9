/** What the reader of a streamed answer gets, whatever way the answer was cut, and how that
    compares with the answer read in one piece. */
module ThinkLaws {
  import opened Text
  import opened ThinkSplitting

  /** One parsed line of the model's stream: a separate reasoning text and a piece of the answer. */
  datatype Chunk = Chunk(reasoning: string, content: string)

  /** The non-empty pieces of the answer, which are the splitter's deltas. */
  function Deltas(chunks: seq<Chunk>): seq<string> {
    if chunks == [] then []
    else
      var last := chunks[|chunks| - 1].content;
      Deltas(chunks[..|chunks| - 1]) + (if last == "" then [] else [last])
  }

  function Direct(chunks: seq<Chunk>): string {
    if chunks == [] then "" else Direct(chunks[..|chunks| - 1]) + chunks[|chunks| - 1].reasoning
  }

  lemma ChunkSnoc(chunks: seq<Chunk>, n: nat)
    requires n < |chunks|
    ensures Deltas(chunks[..n + 1])
        == Deltas(chunks[..n]) + (if chunks[n].content == "" then [] else [chunks[n].content])
    ensures Direct(chunks[..n + 1]) == Direct(chunks[..n]) + chunks[n].reasoning
  {
    assert chunks[..n + 1][..n] == chunks[..n];
  }

  // ---------- what is held back ----------

  /** The end of a text of which the splitter waits to see more: a beginning of the opening tag, or as
      much of an unclosed thought as could begin the closing tag. */
  function Held(tags: Tags, text: string): string {
    if Tagged(tags, text) then (if End(tags, text) >= 0 then "" else Tail(Body(tags, text), |tags.close| - 1))
    else if text <= tags.open then text
    else ""
  }

  function Tail(s: string, n: int): string {
    if n <= 0 then "" else if n < |s| then s[|s| - n..] else s
  }

  lemma HeldIsKnown(tags: Tags, deltas: seq<string>, state: State, buf: string, thought: string, said: string)
    requires Accounts(tags, deltas, state, buf, thought, said)
    ensures buf == Held(tags, Join(deltas))
  {
    hide Shown, IndexOf;
    var text := Join(deltas);
    if state == Thinking {
      assert Body(tags, text) == thought + buf;
    }
  }

  /** At most seven characters are ever held back. */
  lemma AtMostSeven(text: string)
    ensures |Held(THINK, text)| <= 7
  {
    hide IndexOf;
  }

  /** Nothing is held back exactly when the leading tag is closed or cannot come any more, and when
      nothing or just the opening tag has come. */
  lemma NothingHeldIff(tags: Tags, text: string)
    requires |tags.close| > 1
    ensures Held(tags, text) == "" <==> Settled(tags, text) || text == "" || text == tags.open
  {
    hide IndexOf;
    if Tagged(tags, text) {
      assert text == tags.open + Body(tags, text);
      if Body(tags, text) == "" {
        EmptyHasNone(tags.close);
      }
    }
  }

  lemma EmptyHasNone(p: string)
    requires p != ""
    ensures IndexOf("", p) < 0
  {
  }

  /** What has been passed on of the answer at any moment: all that is shown, less what is held back. */
  function Seen(tags: Tags, deltas: seq<string>): (string, string) {
    var (thought, said) := Shown(tags, deltas);
    var held := |Held(tags, Join(deltas))|;
    if Tagged(tags, Join(deltas)) then (AllBut(thought, held), said) else (thought, AllBut(said, held))
  }

  function AllBut(s: string, n: nat): string {
    if n <= |s| then s[..|s| - n] else ""
  }

  lemma AccountsForSeen(tags: Tags, deltas: seq<string>, state: State, buf: string, thought: string, said: string)
    requires Accounts(tags, deltas, state, buf, thought, said)
    ensures (thought, said) == Seen(tags, deltas)
    ensures Shown(tags, deltas) == if state == Thinking then (thought + buf, said) else (thought, said + buf)
    ensures state == Thinking ==> Tagged(tags, Join(deltas))
    ensures state == Start ==> !Tagged(tags, Join(deltas))
  {
    HeldShows(tags, deltas, state, buf, thought, said);
    HeldIsKnown(tags, deltas, state, buf, thought, said);
    var text := Join(deltas);
    if state == Thinking {
      assert text[..|tags.open|] == tags.open;
      assert AllBut(thought + buf, |buf|) == thought;
    } else {
      assert AllBut(said + buf, |buf|) == said;
      assert thought[..|thought|] == thought;
    }
    hide Shown, IndexOf, Held;
  }

  /** `r` is `a` and `b` read alternately, each in its own order and each to its end. */
  ghost predicate Woven(r: string, a: string, b: string)
    decreases |r|
  {
    if r == "" then a == "" && b == ""
    else
      var n := |r| - 1;
      || (a != "" && a[|a| - 1] == r[n] && Woven(r[..n], a[..|a| - 1], b))
      || (b != "" && b[|b| - 1] == r[n] && Woven(r[..n], a, b[..|b| - 1]))
  }

  lemma {:induction false} WeaveDirect(r: string, a: string, b: string, x: string)
    requires Woven(r, a, b)
    ensures Woven(r + x, a + x, b)
    decreases |x|
  {
    if x == "" {
      assert r + x == r && a + x == a;
    } else {
      var n := |x| - 1;
      WeaveDirect(r, a, b, x[..n]);
      assert (r + x)[..|r + x| - 1] == r + x[..n] && (a + x)[..|a + x| - 1] == a + x[..n];
    }
  }

  lemma {:induction false} WeaveRouted(r: string, a: string, b: string, x: string)
    requires Woven(r, a, b)
    ensures Woven(r + x, a, b + x)
    decreases |x|
  {
    if x == "" {
      assert r + x == r && b + x == b;
    } else {
      var n := |x| - 1;
      WeaveRouted(r, a, b, x[..n]);
      assert (r + x)[..|r + x| - 1] == r + x[..n] && (b + x)[..|b + x| - 1] == b + x[..n];
    }
  }

  /** With nothing from one side, the other side is all there is. */
  lemma {:induction false} WovenAlone(r: string, a: string, b: string)
    requires Woven(r, a, b)
    ensures a == "" ==> r == b
    ensures b == "" ==> r == a
    decreases |r|
  {
    if r != "" {
      var n := |r| - 1;
      if a == "" {
        WovenAlone(r[..n], a, b[..|b| - 1]);
      } else if b == "" {
        WovenAlone(r[..n], a[..|a| - 1], b);
      }
    }
  }

  /** The splitter's share of what was passed on is `routed`: its content is all the content, and its
      reasoning is woven with the reasoning that was reported directly. */
  ghost predicate Passes(events: seq<Piece>, direct: string, routed: (string, string)) {
    TextOf(Content, events) == routed.1 && Woven(TextOf(Reasoning, events), direct, routed.0)
  }

  function Added(before: string, after: string): string {
    if |before| <= |after| then after[|before|..] else ""
  }

  /** The reasoning in its order: line by line what is reported directly, then what the line adds to
      the thought that is seen. */
  function Reasoned(chunks: seq<Chunk>): string {
    if chunks == [] then ""
    else
      var n := |chunks| - 1;
      Reasoned(chunks[..n]) + chunks[n].reasoning
      + Added(Seen(THINK, Deltas(chunks[..n])).0, Seen(THINK, Deltas(chunks)).0)
  }

  /** What the splitter contributes to a stream: all that is shown, or, when the stream breaks off, all
      but what is held back then. */
  function Contributed(chunks: seq<Chunk>, breaksOff: bool): (string, string) {
    if breaksOff then Seen(THINK, Deltas(chunks)) else Shown(THINK, Deltas(chunks))
  }

  /** The streaming loop. What the splitter shows of the answer is passed on in order, with the
      reasoning reported directly woven into it. A stream that breaks off loses exactly what the splitter
      still holds, and never anything already passed on. */
  method Stream(chunks: seq<Chunk>, breaksOff: bool) returns (events: seq<Piece>)
    ensures Passes(events, Direct(chunks), Contributed(chunks, breaksOff))
    ensures TextOf(Reasoning, events)
            == Reasoned(chunks) + Added(Seen(THINK, Deltas(chunks)).0, Contributed(chunks, breaksOff).0)
  {
    hide Shown, Accounts, Woven, Seen, Reasoned;
    var splitter := new ThinkSplitter();
    events := [];
    StartsEmpty();
    for i := 0 to |chunks|
      invariant splitter.Valid() && fresh(splitter) && splitter.tags == THINK
      invariant splitter.fed == Deltas(chunks[..i])
      invariant Passes(events, Direct(chunks[..i]), Texts(splitter.emitted))
      invariant TextOf(Reasoning, events) == Reasoned(chunks[..i])
      invariant Texts(splitter.emitted) == Seen(THINK, splitter.fed)
    {
      ChunkSnoc(chunks, i);
      ReasonedSnoc(chunks, i);
      ghost var direct, before := Direct(chunks[..i]), splitter.emitted;
      if chunks[i].reasoning != "" {
        PassesDirect(events, direct, Texts(before), chunks[i].reasoning);
        events := events + [Piece(Reasoning, chunks[i].reasoning)];
      }
      assert direct + "" == direct && Reasoned(chunks[..i]) + "" == Reasoned(chunks[..i]);
      assert Passes(events, direct + chunks[i].reasoning, Texts(before));
      ghost var thought := TextOf(Reasoning, events);
      if chunks[i].content != "" {
        var out := splitter.Feed(chunks[i].content);
        SplitterSees(splitter);
        PassesRouted(events, direct + chunks[i].reasoning, before, out);
        events := events + out;
      }
      assert thought + "" == thought;
    }
    assert chunks[..|chunks|] == chunks;
    SplitterSees(splitter);
    ghost var seen := Seen(THINK, splitter.fed);
    if breaksOff {
      assert Added(seen.0, seen.0) == "" && TextOf(Reasoning, events) + "" == TextOf(Reasoning, events);
    } else {
      ghost var before := splitter.emitted;
      var out := splitter.Flush();
      PassesRouted(events, Direct(chunks), before, out);
      events := events + out;
    }
  }

  lemma StartsEmpty()
    ensures Woven("", "", "") && Reasoned([]) == "" && Seen(THINK, []) == ("", "") && Texts([]) == ("", "")
  {
    assert Join([]) == "";
  }

  lemma SplitterSees(splitter: ThinkSplitter)
    requires splitter.Valid()
    ensures Texts(splitter.emitted) == Seen(splitter.tags, splitter.fed)
  {
    AccountsForSeen(splitter.tags, splitter.fed, splitter.state, splitter.buf,
                    TextOf(Reasoning, splitter.emitted), TextOf(Content, splitter.emitted));
  }

  lemma ReasonedSnoc(chunks: seq<Chunk>, n: nat)
    requires n < |chunks|
    ensures Reasoned(chunks[..n + 1])
            == Reasoned(chunks[..n]) + chunks[n].reasoning
               + Added(Seen(THINK, Deltas(chunks[..n])).0, Seen(THINK, Deltas(chunks[..n + 1])).0)
  {
    hide Seen, Deltas;
    assert chunks[..n + 1][..n] == chunks[..n];
  }

  /** Reasoning and content of some pieces. */
  function Texts(pieces: seq<Piece>): (string, string) {
    (TextOf(Reasoning, pieces), TextOf(Content, pieces))
  }

  lemma PassesDirect(events: seq<Piece>, direct: string, routed: (string, string), more: string)
    requires Passes(events, direct, routed)
    ensures Passes(events + [Piece(Reasoning, more)], direct + more, routed)
    ensures TextOf(Reasoning, events + [Piece(Reasoning, more)]) == TextOf(Reasoning, events) + more
  {
    hide Woven;
    var one := [Piece(Reasoning, more)];
    TextOfConcat(Reasoning, events, one);
    TextOfConcat(Content, events, one);
    assert TextOf(Reasoning, one) == more + TextOf(Reasoning, one[1..]) == more;
    assert TextOf(Content, events) + "" == TextOf(Content, events);
    WeaveDirect(TextOf(Reasoning, events), direct, routed.0, more);
  }

  lemma PassesRouted(events: seq<Piece>, direct: string, routed: seq<Piece>, out: seq<Piece>)
    requires Passes(events, direct, Texts(routed))
    ensures Passes(events + out, direct, Texts(routed + out))
    ensures TextOf(Reasoning, events + out)
            == TextOf(Reasoning, events) + Added(Texts(routed).0, Texts(routed + out).0)
  {
    hide Woven;
    TextOfConcat(Reasoning, events, out);
    TextOfConcat(Content, events, out);
    TextOfConcat(Reasoning, routed, out);
    TextOfConcat(Content, routed, out);
    WeaveRouted(TextOf(Reasoning, events), direct, TextOf(Reasoning, routed), TextOf(Reasoning, out));
  }

  /** So a stream that comes to its end shows exactly the specified content, and, when reasoning comes
      from one side only, exactly the reasoning of that side. */
  lemma WholeStreamIsShown(chunks: seq<Chunk>, events: seq<Piece>)
    requires Passes(events, Direct(chunks), Contributed(chunks, false))
    ensures var (thought, said) := Shown(THINK, Deltas(chunks));
            && TextOf(Content, events) == said
            && Woven(TextOf(Reasoning, events), Direct(chunks), thought)
            && (Direct(chunks) == "" ==> TextOf(Reasoning, events) == thought)
            && (thought == "" ==> TextOf(Reasoning, events) == Direct(chunks))
  {
    hide Shown, Woven;
    WovenAlone(TextOf(Reasoning, events), Direct(chunks), Shown(THINK, Deltas(chunks)).0);
  }

  /** A stream that breaks off lacks exactly the held text, at the end of the thought or of the content;
      it lacks nothing if and only if the leading tag is closed or cannot come any more, or nothing or
      just the opening tag has come. */
  lemma BrokenStreamLosesHeld(chunks: seq<Chunk>)
    ensures var text := Join(Deltas(chunks));
            var held := Held(THINK, text);
            var (thought, said) := Contributed(chunks, true);
            && Shown(THINK, Deltas(chunks))
               == (if Tagged(THINK, text) then (thought + held, said) else (thought, said + held))
            && (Contributed(chunks, true) == Shown(THINK, Deltas(chunks))
                <==> Settled(THINK, text) || text == "" || text == THINK.open)
  {
    hide Shown, Seen, Held, Join, Deltas, Settled;
    NothingHeldIff(THINK, Join(Deltas(chunks)));
    SeenAndHeld(THINK, Deltas(chunks));
  }

  lemma SeenAndHeld(tags: Tags, deltas: seq<string>)
    ensures var held := Held(tags, Join(deltas));
            var (thought, said) := Seen(tags, deltas);
            && Shown(tags, deltas)
               == (if Tagged(tags, Join(deltas)) then (thought + held, said) else (thought, said + held))
            && (Seen(tags, deltas) == Shown(tags, deltas) <==> held == "")
  {
    hide Shown, Join, Held, Tagged, AllBut;
    var (thought, said) := Shown(tags, deltas);
    var held := Held(tags, Join(deltas));
    HeldIsShown(tags, deltas);
    EndsWithHeld(if Tagged(tags, Join(deltas)) then thought else said, held);
  }

  /** The held text is the end of the thought, or of the content. */
  lemma HeldIsShown(tags: Tags, deltas: seq<string>)
    ensures var held := Held(tags, Join(deltas));
            var text := if Tagged(tags, Join(deltas)) then Shown(tags, deltas).0 else Shown(tags, deltas).1;
            |held| <= |text| && text[|text| - |held|..] == held
  {
    hide Shown, Join, IndexOf, Reached, Said, Rest;
    var text := Join(deltas);
    if ClosedTag(tags, text) {
      ShownClosed(tags, deltas);
    } else {
      ShownOpen(tags, deltas);
      assert text[|text|..] == "" && text[0..] == text;
    }
  }

  lemma EndsWithHeld(s: string, held: string)
    requires |held| <= |s| && s[|s| - |held|..] == held
    ensures AllBut(s, |held|) + held == s && (AllBut(s, |held|) == s <==> held == "")
  {
  }

  /** Two broken streams: three characters of a thought, and the beginning of what may be a tag. */
  lemma BrokenStreamExample()
    ensures var thinking := [Chunk("", "<think>abc")];
            Shown(THINK, Deltas(thinking)) == ("abc", "") && Contributed(thinking, true) == ("", "")
    ensures var starting := [Chunk("", "<thi")];
            Shown(THINK, Deltas(starting)) == ("", "<thi") && Contributed(starting, true) == ("", "")
  {
    hide IndexOf, Join, Deltas;
    OneDelta("<think>abc");
    OneDelta("<thi");
    var thinking, starting := "<think>abc", "<thi";
    assert Tagged(THINK, thinking) && Body(THINK, thinking) == "abc" && End(THINK, thinking) < 0;
    assert Held(THINK, thinking) == "abc";
    assert !Tagged(THINK, starting) && starting <= THINK.open && Held(THINK, starting) == starting;
  }

  lemma OneDelta(text: string)
    requires text != ""
    ensures Deltas([Chunk("", text)]) == [text] && Join([text]) == text
  {
    assert [Chunk("", text)][..0] == [];
    assert Deltas([]) == [] && [] + [text] == [text];
    JoinSnoc([], text);
    assert "" + text == text;
  }

  // ---------- the text that is shown depends on the cuts only in leading white space ----------

  /** What follows the first closing tag of a text with a closed leading tag. */
  function Rest(tags: Tags, text: string): string
    requires Tagged(tags, text) && End(tags, text) >= 0
  {
    Body(tags, text)[End(tags, text) + |tags.close|..]
  }

  predicate ClosedTag(tags: Tags, text: string) {
    Tagged(tags, text) && End(tags, text) >= 0
  }

  /** The content of a whole text: everything but a leading tag and what it encloses. */
  function Answer(tags: Tags, text: string): string {
    if !Tagged(tags, text) then text
    else if End(tags, text) < 0 then ""
    else Rest(tags, text)
  }

  /** Where the kept part of the answer starts, and where the delta that ended the tag ends. */
  function Head(tags: Tags, text: string): nat
    requires ClosedTag(tags, text)
  {
    |tags.open| + End(tags, text) + |tags.close|
  }

  lemma ShownClosed(tags: Tags, deltas: seq<string>)
    requires ClosedTag(tags, Join(deltas))
    ensures var text := Join(deltas);
            var head := Head(tags, text);
            && head <= |text| && Rest(tags, text) == text[head..]
            && Shown(tags, deltas) == (Body(tags, text)[..End(tags, text)], Said(text, head, Reached(deltas, head)))
  {
    hide Reached, Join, Said, IndexOf;
  }

  /** Reasoning never depends on the cuts; content is the answer less some leading white space. */
  lemma ShownIsAnswer(tags: Tags, deltas: seq<string>)
    ensures var text := Join(deltas);
            var (thought, said) := Shown(tags, deltas);
            && thought == (if !Tagged(tags, text) then ""
                           else if End(tags, text) < 0 then Body(tags, text)
                           else Body(tags, text)[..End(tags, text)])
            && |said| <= |Answer(tags, text)|
            && said == Answer(tags, text)[|Answer(tags, text)| - |said|..]
            && AllSpace(Answer(tags, text)[..|Answer(tags, text)| - |said|])
            && (!ClosedTag(tags, text) ==> said == Answer(tags, text))
  {
    hide Shown, Reached, Join, Said, Rest, Lead, IndexOf;
    var text := Join(deltas);
    if ClosedTag(tags, text) {
      ShownClosed(tags, deltas);
      var head := Head(tags, text);
      SaidIsSuffix(text, head, Reached(deltas, head));
    } else {
      ShownOpen(tags, deltas);
      var answer := Answer(tags, text);
      assert answer[0..] == answer && answer[..0] == "";
    }
  }

  lemma ShownOpen(tags: Tags, deltas: seq<string>)
    requires !ClosedTag(tags, Join(deltas))
    ensures var text := Join(deltas);
            Shown(tags, deltas) == if Tagged(tags, text) then (Body(tags, text), "") else ("", text)
  {
    hide Reached, Join, Said, IndexOf;
  }

  lemma SaidIsSuffix(text: string, head: nat, cut: nat)
    requires head <= cut <= |text|
    ensures var n := Lead(text[head..cut], 0);
            Said(text, head, cut) == text[head..][n..] && AllSpace(text[head..][..n])
  {
    var part := text[head..cut];
    var n := Lead(part, 0);
    assert text[head..] == part + text[cut..];
    assert text[head..][..n] == part[..n];
  }

  /** Two cuttings of one text show the same reasoning, and the same content up to leading space. */
  lemma CutsAgree(tags: Tags, a: seq<string>, b: seq<string>)
    requires Join(a) == Join(b)
    ensures Shown(tags, a).0 == Shown(tags, b).0
    ensures LStrip(Shown(tags, a).1) == LStrip(Shown(tags, b).1)
  {
    hide Shown, Tagged, End;
    ShownIsAnswer(tags, a);
    ShownIsAnswer(tags, b);
    var t := Answer(tags, Join(a));
    var x, y := Shown(tags, a).1, Shown(tags, b).1;
    assert t == t[..|t| - |x|] + x;
    assert t == t[..|t| - |y|] + y;
    LStripAfterSpace(t[..|t| - |x|], x);
    LStripAfterSpace(t[..|t| - |y|], y);
  }

  /** All leading white space of the answer is gone exactly when the delta that ended the closing
      tag also brought a visible character, or was followed by one or by nothing. */
  lemma StripsAllIff(tags: Tags, deltas: seq<string>)
    requires ClosedTag(tags, Join(deltas))
    ensures var text := Join(deltas);
            var head := Head(tags, text);
            var cut := Reached(deltas, head);
            Shown(tags, deltas).1 == LStrip(Rest(tags, text))
            <==> (!AllSpace(text[head..cut]) || cut == |text| || !IsSpace(text[cut]))
  {
    ShownClosed(tags, deltas);
    hide Shown, Reached, Join, Said, Rest, Lead, IndexOf;
    var text := Join(deltas);
    var head := Head(tags, text);
    SaidStripsIff(text, head, Reached(deltas, head));
  }

  lemma SaidStripsIff(text: string, head: nat, cut: nat)
    requires head <= cut <= |text|
    ensures Said(text, head, cut) == LStrip(text[head..])
            <==> (!AllSpace(text[head..cut]) || cut == |text| || !IsSpace(text[cut]))
  {
    var part, tail := text[head..cut], text[cut..];
    var n := Lead(part, 0);
    assert text[head..] == part + tail;
    if n < |part| {
      assert part[n] in part;
      assert part + tail == part[..n] + (part[n..] + tail);
      LStripIs(part[..n], part[n..] + tail);
    } else {
      assert AllSpace(part);
      LStripAfterSpace(part, tail);
      assert Said(text, head, cut) == "" + tail == tail;
      assert tail == "" || tail[0] == text[cut];
    }
  }

  lemma HeadOf(tags: Tags, thought: string, rest: string)
    requires IndexOf(thought + tags.close + rest, tags.close) == |thought|
    ensures var text := tags.open + (thought + tags.close + rest);
            ClosedTag(tags, text) && Head(tags, text) == |text| - |rest| && Rest(tags, text) == rest
            && Body(tags, text)[..End(tags, text)] == thought
  {
    hide IndexOf;
    var body := thought + tags.close + rest;
    var text := tags.open + body;
    assert text[|tags.open|..] == body;
    assert tags.open <= text;
    assert body[|thought| + |tags.close|..] == rest && body[..|thought|] == thought;
  }

  lemma OneOrTwo(first: string, late: string)
    requires first != ""
    ensures Join([first + late]) == Join([first, late]) == first + late
    ensures Reached([first + late], |first|) == |first + late|
    ensures Reached([first, late], |first|) == |first|
  {
    assert [] + [first + late] == [first + late] && [] + [first] == [first] && [first] + [late] == [first, late];
    assert "" + (first + late) == first + late && "" + first == first;
    ReachedSnoc([], first + late, |first|);
    ReachedSnoc([], first, |first|);
    ReachedSnoc([first], late, |first|);
  }

  lemma LateSpaceSaid(first: string, late: string)
    ensures var text := first + late;
            Said(text, |first|, |text|) == LStrip(late) && Said(text, |first|, |first|) == late
  {
    var text := first + late;
    assert text[|first|..|text|] == late && text[|text|..] == "" && text[|first|..] == late;
    assert text[|first|..|first|] == "";
    assert LStrip("") == "" && LStrip(late) + "" == LStrip(late) && "" + late == late;
  }

  /** The same answer cut in two ways: what comes after the delta that ends the tag is shown with
      its leading space. */
  lemma LateSpaceIsShown(tags: Tags, thought: string, late: string)
    requires IndexOf(thought + tags.close + late, tags.close) == |thought| && tags.close != ""
    ensures var first := tags.open + (thought + tags.close);
            && Shown(tags, [first + late]).1 == LStrip(late)
            && Shown(tags, [first, late]).1 == late
  {
    hide Join, Reached, Lead, IndexOf;
    var first := tags.open + (thought + tags.close);
    HeadOf(tags, thought, late);
    assert first + late == tags.open + (thought + tags.close + late);
    OneOrTwo(first, late);
    ShownClosed(tags, [first + late]);
    ShownClosed(tags, [first, late]);
    hide Shown, End, Body, Tagged, Rest;
    LateSpaceSaid(first, late);
  }

  lemma LateSpaceExample()
    ensures Shown(THINK, ["<think>a</think> b"]).1 == "b"
    ensures Shown(THINK, ["<think>a</think>", " b"]).1 == " b"
  {
    hide Shown;
    var body := "a" + THINK.close + " b";
    assert body[0..8][0] == 'a';
    assert body[1..9] == THINK.close;
    IndexOfIs(body, THINK.close, 1);
    LateSpaceIsShown(THINK, "a", " b");
    assert " b"[1..] == "b";
    assert THINK.open + ("a" + THINK.close) == "<think>a</think>";
    assert "<think>a</think>" + " b" == "<think>a</think> b";
  }
}
