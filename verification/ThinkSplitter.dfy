/** The incremental tokenizer of a model's answer: a leading `<think>...</think>` becomes
    reasoning, everything else content, whatever way the text is cut into deltas. The reading
    of a whole text is defined for any pair of tags; the class fixes the two real ones. */
module ThinkSplitting {
  import opened Text

  datatype Kind = Reasoning | Content

  datatype Piece = Piece(kind: Kind, text: string)

  datatype State = Start | Thinking | Plain

  datatype Tags = Tags(open: string, close: string)

  const THINK: Tags := Tags("<think>", "</think>")

  /** The text of all pieces of one kind, in order. */
  function TextOf(kind: Kind, pieces: seq<Piece>): string {
    if pieces == [] then ""
    else (if pieces[0].kind == kind then pieces[0].text else "") + TextOf(kind, pieces[1..])
  }

  lemma {:induction false} TextOfConcat(kind: Kind, a: seq<Piece>, b: seq<Piece>)
    ensures TextOf(kind, a + b) == TextOf(kind, a) + TextOf(kind, b)
  {
    if a == [] {
      assert a + b == b;
    } else {
      assert (a + b)[1..] == a[1..] + b;
      TextOfConcat(kind, a[1..], b);
    }
  }

  // ---------- what a whole text means, before any cutting ----------

  predicate Tagged(tags: Tags, text: string) {
    tags.open <= text
  }

  /** What follows the leading tag. */
  function Body(tags: Tags, text: string): string
    requires Tagged(tags, text)
  {
    text[|tags.open|..]
  }

  /** Where in the body the first closing tag is, or -1. */
  function End(tags: Tags, text: string): int
    requires Tagged(tags, text)
  {
    IndexOf(Body(tags, text), tags.close)
  }

  /** The number of characters that the shortest prefix of the deltas holding at least `n` holds. */
  function Reached(deltas: seq<string>, n: nat): (b: nat)
    requires n <= |Join(deltas)|
    ensures n <= b <= |Join(deltas)|
  {
    if deltas == [] then 0
    else
      var sooner := deltas[..|deltas| - 1];
      if n <= |Join(sooner)| then Reached(sooner, n) else |Join(deltas)|
  }

  /** What the reader of the stream ends up with, as (reasoning, content). A text without a leading
      tag is all content, an unclosed leading tag is all reasoning; after a closing tag only the
      white space that came in the same delta as the end of that tag is dropped. */
  function Shown(tags: Tags, deltas: seq<string>): (string, string) {
    var text := Join(deltas);
    if !Tagged(tags, text) then ("", text)
    else
      var body, end := Body(tags, text), End(tags, text);
      if end < 0 then (body, "")
      else
        var head := |tags.open| + end + |tags.close|;
        var cut := Reached(deltas, head);
        (body[..end], Said(text, head, cut))
  }

  /** The content after a closing tag that ends at `head` and arrived in a delta ending at `cut`. */
  function Said(text: string, head: nat, cut: nat): string
    requires head <= cut <= |text|
  {
    LStrip(text[head..cut]) + text[cut..]
  }

  // ---------- how that reading grows with one more delta ----------

  lemma ReachedSnoc(deltas: seq<string>, more: string, n: nat)
    requires n <= |Join(deltas)| + |more|
    ensures Join(deltas + [more]) == Join(deltas) + more
    ensures Reached(deltas + [more], n)
            == if n <= |Join(deltas)| then Reached(deltas, n) else |Join(deltas)| + |more|
  {
    JoinSnoc(deltas, more);
    assert (deltas + [more])[..|deltas|] == deltas;
  }

  /** The leading tag is closed, or cannot come any more. */
  predicate Settled(tags: Tags, text: string) {
    if Tagged(tags, text) then End(tags, text) >= 0 else !(text <= tags.open)
  }

  lemma SettledStays(tags: Tags, text: string, more: string)
    requires Settled(tags, text)
    ensures Settled(tags, text + more) && Tagged(tags, text + more) == Tagged(tags, text)
    ensures Tagged(tags, text) ==> End(tags, text + more) == End(tags, text)
                                   && Body(tags, text + more) == Body(tags, text) + more
  {
    if Tagged(tags, text) {
      assert (text + more)[|tags.open|..] == text[|tags.open|..] + more;
      FirstStays(Body(tags, text), more, tags.close);
    } else {
      assert text == (text + more)[..|text|];
      assert text + more <= tags.open ==> text <= tags.open;
    }
  }

  /** From then on further text is content as it is. */
  lemma ShownExtends(tags: Tags, deltas: seq<string>, more: string)
    requires Settled(tags, Join(deltas))
    ensures Settled(tags, Join(deltas + [more]))
    ensures Shown(tags, deltas + [more]) == (Shown(tags, deltas).0, Shown(tags, deltas).1 + more)
  {
    hide Reached, Join, Said;
    var text := Join(deltas);
    JoinSnoc(deltas, more);
    SettledStays(tags, text, more);
    if Tagged(tags, text) {
      var end := End(tags, text);
      var head := |tags.open| + end + |tags.close|;
      ReachedSnoc(deltas, more, head);
      SaidSnoc(text, more, head, Reached(deltas, head));
      PrefixSnoc(Body(tags, text), more, end);
    }
  }

  lemma PrefixSnoc(body: string, more: string, end: nat)
    requires end <= |body|
    ensures (body + more)[..end] == body[..end]
  {
  }

  lemma SaidSnoc(text: string, more: string, head: nat, cut: nat)
    requires head <= cut <= |text|
    ensures Said(text + more, head, cut) == Said(text, head, cut) + more
  {
    assert (text + more)[head..cut] == text[head..cut];
    assert (text + more)[cut..] == text[cut..] + more;
  }

  /** Looking at the held tail is enough to find the first closing tag. */
  lemma BodyGrows(tags: Tags, text: string, done: string, held: string, arrived: string)
    requires IndexOf(done + held, tags.close) < 0
    requires done == "" || |held| + 1 >= |tags.close|
    requires text == tags.open + (done + (held + arrived))
    ensures var end := IndexOf(held + arrived, tags.close);
            Tagged(tags, text) && Body(tags, text) == done + (held + arrived)
            && End(tags, text) == if end < 0 then -1 else |done| + end
  {
    assert text[|tags.open|..] == done + (held + arrived);
    assert tags.open <= text;
    FirstAcross(done, held, arrived, tags.close);
  }

  /** The delta that completes the closing tag. */
  lemma ShownCloses(tags: Tags, deltas: seq<string>, delta: string, done: string, b: string, end: nat)
    requires var text := Join(deltas) + delta;
             text == tags.open + (done + b) && Tagged(tags, text) && Body(tags, text) == done + b
             && End(tags, text) == |done| + end
    requires end + |tags.close| <= |b|
    requires |Join(deltas)| < |tags.open| + |done| + end + |tags.close|
    ensures Shown(tags, deltas + [delta]) == (done + b[..end], LStrip(b[end + |tags.close|..]))
  {
    hide Reached, Join, Said;
    JoinSnoc(deltas, delta);
    ReachedSnoc(deltas, delta, |tags.open| + (|done| + end) + |tags.close|);
    CloseSlices(tags.open, done, b, end, |tags.close|);
  }

  lemma CloseSlices(open: string, done: string, b: string, end: nat, close: nat)
    requires end + close <= |b|
    ensures var text := open + (done + b);
            (done + b)[..|done| + end] == done + b[..end]
            && Said(text, |open| + (|done| + end) + close, |text|) == LStrip(b[end + close..])
  {
    var text := open + (done + b);
    assert text[|open| + (|done| + end) + close..|text|] == b[end + close..];
  }

  // ---------- the splitter ----------

  /** How the splitter's state and buffer and the texts emitted so far account for the deltas. */
  ghost predicate Accounts(tags: Tags, deltas: seq<string>, state: State, buf: string, thought: string, said: string) {
    var text := Join(deltas);
    match state
    case Start => text == buf && buf <= tags.open && |buf| < |tags.open| && thought == said == ""
    case Thinking =>
      && text == tags.open + (thought + buf) && IndexOf(thought + buf, tags.close) < 0 && said == ""
      && |buf| < |tags.close| && (thought == "" || |buf| + 1 == |tags.close|)
    case Plain => buf == "" && Settled(tags, text) && Shown(tags, deltas) == (thought, said)
  }

  lemma Opens(tags: Tags, deltas: seq<string>, state: State, buf: string, thought: string, said: string)
    requires Accounts(tags, deltas, state, buf, thought, said)
    ensures state == Start ==> thought == "" && said == ""
    ensures state == Thinking ==> said == ""
    ensures state == Plain ==> buf == ""
  {
  }

  /** The buffer turns out not to begin with the tag. */
  lemma StartsPlain(tags: Tags, deltas: seq<string>, delta: string, buf: string)
    requires Accounts(tags, deltas, Start, buf, "", "")
    requires !(tags.open <= buf + delta) && !(buf + delta <= tags.open)
    ensures Accounts(tags, deltas + [delta], Plain, "", "", buf + delta)
  {
    JoinSnoc(deltas, delta);
  }

  /** The buffer may still become the tag. */
  lemma StartWaits(tags: Tags, deltas: seq<string>, delta: string, buf: string)
    requires Accounts(tags, deltas, Start, buf, "", "")
    requires buf + delta <= tags.open && |buf + delta| < |tags.open|
    ensures Accounts(tags, deltas + [delta], Start, buf + delta, "", "")
  {
    JoinSnoc(deltas, delta);
  }

  /** What the scan of the thought may rely on. */
  ghost predicate Scannable(tags: Tags, deltas: seq<string>, delta: string, done: string,
                            held: string, arrived: string) {
    && IndexOf(done + held, tags.close) < 0 && |held| < |tags.close|
    && (done == "" || |held| + 1 >= |tags.close|)
    && Join(deltas) + delta == tags.open + (done + (held + arrived))
    && |Join(deltas)| <= |tags.open| + |done| + |held|
  }

  /** The buffer turns out to begin with the tag. */
  lemma StartsThinking(tags: Tags, deltas: seq<string>, delta: string, buf: string)
    requires Accounts(tags, deltas, Start, buf, "", "")
    requires tags.open <= buf + delta && |tags.close| > 0
    ensures Scannable(tags, deltas, delta, "", "", (buf + delta)[|tags.open|..])
  {
    var arrived := (buf + delta)[|tags.open|..];
    assert buf + delta == tags.open + arrived;
    assert "" + ("" + arrived) == arrived;
  }

  lemma ThinksOn(tags: Tags, deltas: seq<string>, delta: string, buf: string, done: string)
    requires Accounts(tags, deltas, Thinking, buf, done, "")
    ensures Scannable(tags, deltas, delta, done, buf, delta)
  {
  }

  /** A scan of `held + arrived` inside the thought that finds no closing tag. */
  lemma ScanGoesOn(tags: Tags, deltas: seq<string>, delta: string, done: string, held: string, arrived: string)
    requires Scannable(tags, deltas, delta, done, held, arrived)
    requires IndexOf(held + arrived, tags.close) < 0
    ensures var b := held + arrived;
            var keep := |tags.close| - 1;
            if |b| > keep
            then Accounts(tags, deltas + [delta], Thinking, b[|b| - keep..], done + b[..|b| - keep], "")
            else done == "" || |b| == keep ==> Accounts(tags, deltas + [delta], Thinking, b, done, "")
  {
    hide IndexOf, Join, Accounts;
    var b := held + arrived;
    var keep := |tags.close| - 1;
    JoinSnoc(deltas, delta);
    FirstAcross(done, held, arrived, tags.close);
    if |b| > keep {
      StillThinking(tags, deltas + [delta], done, b, |b| - keep);
    } else if done == "" || |b| == keep {
      StillThinking(tags, deltas + [delta], done, b, 0);
      assert done + b[..0] == done && b[0..] == b;
    }
  }

  lemma StillThinking(tags: Tags, deltas: seq<string>, done: string, b: string, n: nat)
    requires n <= |b| && Join(deltas) == tags.open + (done + b) && IndexOf(done + b, tags.close) < 0
    requires |b| - n < |tags.close| && (done + b[..n] == "" || |b| - n + 1 == |tags.close|)
    ensures Accounts(tags, deltas, Thinking, b[n..], done + b[..n], "")
  {
    hide IndexOf, Join;
    assert done + b[..n] + b[n..] == done + b;
  }

  /** A scan that finds it. */
  lemma ScanEnds(tags: Tags, deltas: seq<string>, delta: string, done: string, held: string, arrived: string)
    requires Scannable(tags, deltas, delta, done, held, arrived)
    requires IndexOf(held + arrived, tags.close) >= 0
    ensures var b := held + arrived;
            var end := IndexOf(b, tags.close);
            Accounts(tags, deltas + [delta], Plain, "", done + b[..end], LStrip(b[end + |tags.close|..]))
  {
    hide Join, Shown, Body, IndexOf;
    var b := held + arrived;
    var end := IndexOf(b, tags.close);
    JoinSnoc(deltas, delta);
    BodyGrows(tags, Join(deltas) + delta, done, held, arrived);
    ShownCloses(tags, deltas, delta, done, b, end);
  }

  lemma PlainGoesOn(tags: Tags, deltas: seq<string>, delta: string, thought: string, said: string)
    requires Accounts(tags, deltas, Plain, "", thought, said)
    ensures Accounts(tags, deltas + [delta], Plain, "", thought, said + delta)
  {
    ShownExtends(tags, deltas, delta);
  }

  /** What is still held decides how the text so far would end. */
  lemma HeldShows(tags: Tags, deltas: seq<string>, state: State, buf: string, thought: string, said: string)
    requires Accounts(tags, deltas, state, buf, thought, said)
    ensures Shown(tags, deltas)
            == if state == Thinking then (thought + buf, said) else (thought, said + buf)
  {
    if state == Thinking {
      assert Join(deltas)[|tags.open|..] == thought + buf;
      assert tags.open <= Join(deltas);
    } else {
      assert said + buf == if state == Start then buf else said;
    }
  }

  /** The pieces of one step: at most one of reasoning, then at most one of content. */
  function Pieces(thought: string, said: string): (out: seq<Piece>)
    ensures TextOf(Reasoning, out) == thought && TextOf(Content, out) == said
  {
    var r := if thought == "" then [] else [Piece(Reasoning, thought)];
    var c := if said == "" then [] else [Piece(Content, said)];
    TextOfConcat(Reasoning, r, c);
    TextOfConcat(Content, r, c);
    r + c
  }

  lemma PiecesThen(thought: string, said: string)
    ensures Pieces("", "") == []
    ensures Pieces(thought, "") + (if said == "" then [] else [Piece(Content, said)]) == Pieces(thought, said)
  {
  }

  class ThinkSplitter {
    const tags: Tags
    var state: State
    var buf: string
    /** Every delta fed so far, and every piece returned so far. */
    ghost var fed: seq<string>
    ghost var emitted: seq<Piece>

    ghost predicate Valid()
      reads this
    {
      Accounts(tags, fed, state, buf, TextOf(Reasoning, emitted), TextOf(Content, emitted))
    }

    constructor ()
      ensures Valid() && fed == [] && emitted == [] && tags == THINK
    {
      tags, state, buf := THINK, Start, "";
      fed, emitted := [], [];
    }

    ghost method Log(text: string, out: seq<Piece>, thought: string, said: string)
      requires Accounts(tags, fed + [text], state, buf, TextOf(Reasoning, emitted) + thought,
                        TextOf(Content, emitted) + said)
      requires out == Pieces(thought, said)
      modifies this`fed, this`emitted
      ensures Valid() && fed == old(fed) + [text] && emitted == old(emitted) + out
    {
      TextOfConcat(Reasoning, emitted, out);
      TextOfConcat(Content, emitted, out);
      fed, emitted := fed + [text], emitted + out;
    }

    /** The part of `Feed` that looks for the closing tag. */
    method Scan(ghost text: string, ghost done: string, ghost held: string, ghost arrived: string)
      returns (out: seq<Piece>, ghost thought: string)
      requires state == Thinking && buf == held + arrived
      requires Scannable(tags, fed, text, done, held, arrived)
      modifies this`buf, this`state
      ensures out == Pieces(thought, "")
      ensures state == Thinking ==> Accounts(tags, fed + [text], Thinking, buf, done + thought, "")
      ensures state != Thinking ==> state == Plain && Accounts(tags, fed + [text], Plain, "", done + thought, buf)
    {
      hide Accounts;
      out, thought := [], "";
      var end := IndexOf(buf, tags.close);
      if end >= 0 {
        ScanEnds(tags, fed, text, done, held, arrived);
        thought := buf[..end];
        if end > 0 {
          out := [Piece(Reasoning, buf[..end])];
        }
        buf := LStrip(buf[end + |tags.close|..]);
        state := Plain;
      } else {
        // Keep a tail that could be the start of the closing tag.
        ScanGoesOn(tags, fed, text, done, held, arrived);
        var keep := |tags.close| - 1;
        if |buf| > keep {
          thought := buf[..|buf| - keep];
          out := [Piece(Reasoning, buf[..|buf| - keep])];
          buf := buf[|buf| - keep..];
        }
        assert done + "" == done;
      }
    }

    /** The part of `Feed` after the leading tag is decided. */
    method Route(text: string, ghost held: string, ghost arrived: string) returns (out: seq<Piece>)
      requires state != Start
      requires state == Thinking ==> buf == held + arrived && TextOf(Content, emitted) == ""
                                     && Scannable(tags, fed, text, TextOf(Reasoning, emitted), held, arrived)
      requires state == Plain ==> Accounts(tags, fed + [text], Plain, "", TextOf(Reasoning, emitted),
                                           TextOf(Content, emitted) + buf)
      modifies this
      ensures Valid()
      ensures fed == old(fed) + [text]
      ensures emitted == old(emitted) + out
    {
      hide Accounts, Pieces, TextOf;
      PiecesThen("", "");
      out := [];
      ghost var thought := "";
      assert TextOf(Reasoning, emitted) + "" == TextOf(Reasoning, emitted);
      if state == Thinking {
        out, thought := Scan(text, TextOf(Reasoning, emitted), held, arrived);
        assert TextOf(Content, emitted) + buf == buf;
        if state == Thinking {
          assert TextOf(Content, emitted) + "" == "";
          Log(text, out, thought, "");
          return;
        }
      }
      ghost var shown := buf;
      PiecesThen(thought, shown);
      if buf != "" {
        out := out + [Piece(Content, buf)];
        buf := "";
      }
      Log(text, out, thought, shown);
    }

    /** Nothing emitted is ever taken back. */
    method Feed(text: string) returns (out: seq<Piece>)
      requires Valid() && |tags.open| > 0 && |tags.close| > 0
      modifies this
      ensures Valid()
      ensures fed == old(fed) + [text]
      ensures emitted == old(emitted) + out
    {
      hide Accounts, Scannable, TextOf;
      ghost var held, arrived := buf, text;
      Opens(tags, fed, state, buf, TextOf(Reasoning, emitted), TextOf(Content, emitted));
      assert state == Plain ==> "" + text == text;
      assert state == Start ==> "" + (buf + text) == buf + text;
      buf := buf + text;
      if state == Start {
        if buf <= tags.open && |buf| < |tags.open| {
          StartWaits(tags, fed, text, held);
          Log(text, [], "", "");
          return [];
        }
        if tags.open <= buf {
          StartsThinking(tags, fed, text, held);
          buf := buf[|tags.open|..];
          state := Thinking;
          held, arrived := "", buf;
        } else {
          StartsPlain(tags, fed, text, held);
          state := Plain;
        }
      } else if state == Thinking {
        ThinksOn(tags, fed, text, held, TextOf(Reasoning, emitted));
      } else {
        PlainGoesOn(tags, fed, text, TextOf(Reasoning, emitted), TextOf(Content, emitted));
      }
      out := Route(text, held, arrived);
    }

    /** The held tail is released as what it was waiting to be. */
    method Flush() returns (out: seq<Piece>)
      requires Valid()
      modifies this
      ensures buf == "" && fed == old(fed) && emitted == old(emitted) + out
      ensures (TextOf(Reasoning, emitted), TextOf(Content, emitted)) == Shown(tags, fed)
    {
      var kind := if state == Thinking then Reasoning else Content;
      out := if buf != "" then [Piece(kind, buf)] else [];
      HeldShows(tags, fed, state, buf, TextOf(Reasoning, emitted), TextOf(Content, emitted));
      TextOfConcat(Reasoning, emitted, out);
      TextOfConcat(Content, emitted, out);
      assert out == if kind == Reasoning then Pieces(buf, "") else Pieces("", buf);
      assert TextOf(Reasoning, emitted) + "" == TextOf(Reasoning, emitted);
      assert TextOf(Content, emitted) + "" == TextOf(Content, emitted);
      emitted := emitted + out;
      buf := "";
    }
  }
}
