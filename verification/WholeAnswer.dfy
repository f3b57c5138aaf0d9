/** The non-streaming reading of an answer removes every closed block anywhere, then strips the
    ends. It agrees with the streamed content on exactly the texts characterised here. */
module WholeAnswer {
  import opened Text
  import opened ThinkSplitting
  import opened ThinkLaws

  datatype Block = NoBlock | Block(start: nat, end: nat)

  /** The first match, from `from` on, of "opening tag, as little as possible, closing tag". */
  function NextBlock(tags: Tags, s: string, from: nat): (b: Block)
    requires from <= |s| && tags.close != ""
    ensures b.Block? ==> from <= b.start && b.start + |tags.open| < b.end <= |s|
                         && OccursAt(s, tags.open, b.start) && OccursAt(s, tags.close, b.end - |tags.close|)
  {
    var i := IndexFrom(s, tags.open, from);
    if i < 0 then NoBlock
    else
      var j := IndexFrom(s, tags.close, i + |tags.open|);
      if j < 0 then NoBlock else Block(i, j + |tags.close|)
  }

  /** What `re.sub` leaves of the text from `from` on. */
  function Removed(tags: Tags, s: string, from: nat): string
    requires from <= |s| && tags.close != ""
    decreases |s| - from
  {
    var b := NextBlock(tags, s, from);
    if b.NoBlock? then s[from..] else s[from..b.start] + Removed(tags, s, b.end)
  }

  function Complete(tags: Tags, text: string): string
    requires tags.close != ""
  {
    Strip(Removed(tags, text, 0))
  }

  predicate HasBlock(tags: Tags, s: string)
    requires tags.close != ""
  {
    NextBlock(tags, s, 0).Block?
  }

  // ---------- moving the starting point ----------

  lemma IndexFromIs(s: string, p: string, from: nat, r: int)
    requires r >= 0 ==> r >= from && OccursAt(s, p, r)
    requires r >= -1 && forall j :: from <= j && (r < 0 || j < r) ==> !OccursAt(s, p, j)
    ensures IndexFrom(s, p, from) == r
  {
    var k := IndexFrom(s, p, from);
    assert r >= 0 ==> k >= 0;
  }

  lemma IndexFromShift(a: string, s: string, p: string, from: nat)
    ensures var r := IndexFrom(s, p, from);
            IndexFrom(a + s, p, |a| + from) == if r < 0 then -1 else |a| + r
  {
    var r := IndexFrom(s, p, from);
    var q := if r < 0 then -1 else |a| + r;
    if r >= 0 {
      OccursInSuffix(a, s, p, r);
    }
    forall j | |a| + from <= j && (q < 0 || j < q) ensures !OccursAt(a + s, p, j) {
      OccursInSuffix(a, s, p, j - |a|);
    }
    IndexFromIs(a + s, p, |a| + from, q);
  }

  lemma NextBlockShift(tags: Tags, a: string, s: string, from: nat)
    requires from <= |s| && tags.close != ""
    ensures NextBlock(tags, a + s, |a| + from)
            == match NextBlock(tags, s, from)
               case NoBlock => NoBlock
               case Block(i, j) => Block(|a| + i, |a| + j)
  {
    hide IndexFrom;
    IndexFromShift(a, s, tags.open, from);
    var i := IndexFrom(s, tags.open, from);
    if i >= 0 {
      IndexFromShift(a, s, tags.close, i + |tags.open|);
    }
  }

  lemma {:induction false} RemovedShift(tags: Tags, a: string, s: string, from: nat)
    requires from <= |s| && tags.close != ""
    ensures Removed(tags, a + s, |a| + from) == Removed(tags, s, from)
    decreases |s| - from
  {
    hide NextBlock, Removed;
    NextBlockShift(tags, a, s, from);
    RemovedStep(tags, s, from);
    RemovedStep(tags, a + s, |a| + from);
    match NextBlock(tags, s, from)
    case NoBlock => SliceShift(a, s, from, |s|);
    case Block(i, j) =>
      SliceShift(a, s, from, i);
      RemovedShift(tags, a, s, j);
  }

  lemma RemovedStep(tags: Tags, s: string, from: nat)
    requires from <= |s| && tags.close != ""
    ensures var b := NextBlock(tags, s, from);
            Removed(tags, s, from) == if b.NoBlock? then s[from..|s|] else s[from..b.start] + Removed(tags, s, b.end)
  {
    assert s[from..] == s[from..|s|];
  }

  // ---------- counting visible characters ----------

  function Visible(s: string): nat {
    if s == "" then 0 else Visible(s[..|s| - 1]) + (if IsSpace(s[|s| - 1]) then 0 else 1)
  }

  lemma {:induction false} VisibleConcat(a: string, b: string)
    ensures Visible(a + b) == Visible(a) + Visible(b)
  {
    if b == "" {
      assert a + b == a;
    } else {
      assert (a + b)[..|a + b| - 1] == a + b[..|b| - 1];
      VisibleConcat(a, b[..|b| - 1]);
    }
  }

  lemma {:induction false} VisibleSpace(s: string)
    ensures Visible(s) == 0 <==> AllSpace(s)
  {
    if s != "" {
      var t := s[..|s| - 1];
      assert s == t + [s[|s| - 1]];
      VisibleSpace(t);
    }
  }

  lemma VisibleSplit(s: string, n: nat)
    requires n <= |s|
    ensures Visible(s) == Visible(s[..n]) + Visible(s[n..])
    ensures AllSpace(s[..n]) ==> Visible(s) == Visible(s[n..])
    ensures AllSpace(s[n..]) ==> Visible(s) == Visible(s[..n])
  {
    hide Visible;
    assert s == s[..n] + s[n..];
    VisibleConcat(s[..n], s[n..]);
    VisibleSpace(s[..n]);
    VisibleSpace(s[n..]);
  }

  lemma VisibleStrip(s: string)
    ensures Visible(Strip(s)) == Visible(s)
  {
    hide Visible;
    var t := LStrip(s);
    VisibleSplit(s, Lead(s, 0));
    VisibleSplit(t, Trail(t, |t|));
  }

  lemma VisibleAround(s: string, from: nat, i: nat, j: nat)
    requires from <= i <= j <= |s|
    ensures Visible(s[from..]) == Visible(s[from..i]) + Visible(s[i..j]) + Visible(s[j..])
  {
    hide Visible;
    assert s[from..] == s[from..i] + (s[i..j] + s[j..]);
    VisibleConcat(s[from..i], s[i..j] + s[j..]);
    VisibleConcat(s[i..j], s[j..]);
  }

  lemma {:induction false} RemovedVisible(tags: Tags, s: string, from: nat)
    requires from <= |s| && tags.close != ""
    ensures Visible(Removed(tags, s, from)) <= Visible(s[from..])
    decreases |s| - from
  {
    hide NextBlock, Visible;
    match NextBlock(tags, s, from)
    case NoBlock =>
    case Block(i, j) =>
      RemovedVisible(tags, s, j);
      VisibleAround(s, from, i, j);
      VisibleConcat(s[from..i], Removed(tags, s, j));
  }

  lemma OpenVisible(tags: Tags, s: string, i: nat, j: nat)
    requires OccursAt(s, tags.open, i) && i + |tags.open| <= j <= |s| && !AllSpace(tags.open)
    ensures Visible(s[i..j]) > 0
  {
    hide Visible;
    assert s[i..j] == tags.open + s[i + |tags.open|..j];
    VisibleConcat(tags.open, s[i + |tags.open|..j]);
    VisibleSpace(tags.open);
  }

  /** Removing a block takes visible characters away. */
  lemma BlockVisible(tags: Tags, s: string)
    requires tags.close != "" && !AllSpace(tags.open) && HasBlock(tags, s)
    ensures Visible(Removed(tags, s, 0)) < Visible(s)
  {
    hide NextBlock, Visible;
    var Block(i, j) := NextBlock(tags, s, 0);
    RemovedVisible(tags, s, j);
    VisibleAround(s, 0, i, j);
    VisibleConcat(s[0..i], Removed(tags, s, j));
    assert s[0..] == s;
    OpenVisible(tags, s, i, j);
  }

  // ---------- agreement ----------

  lemma LeadingBlock(tags: Tags, text: string)
    requires Tagged(tags, text) && tags.close != ""
    ensures NextBlock(tags, text, 0)
            == if End(tags, text) < 0 then NoBlock else Block(0, |tags.open| + End(tags, text) + |tags.close|)
  {
    hide IndexFrom;
    var body := Body(tags, text);
    assert text == tags.open + body;
    assert OccursAt(text, tags.open, 0);
    IndexFromIs(text, tags.open, 0, 0);
    IndexFromShift(tags.open, body, tags.close, 0);
  }

  /** A closed leading block disappears whole; what is left of the text is read on its own. */
  lemma CompleteOfAnswer(tags: Tags, text: string)
    requires tags.close != "" && (Tagged(tags, text) ==> ClosedTag(tags, text))
    ensures Complete(tags, text) == Strip(Removed(tags, Answer(tags, text), 0))
  {
    hide NextBlock, Strip, IndexFrom, Removed;
    if Tagged(tags, text) {
      LeadingBlock(tags, text);
      var head := |tags.open| + End(tags, text) + |tags.close|;
      RemovedFirst(tags, text, head);
      RemovedTail(tags, text, head);
      assert Rest(tags, text) == text[head..];
    }
  }

  lemma RemovedFirst(tags: Tags, s: string, j: nat)
    requires tags.close != "" && NextBlock(tags, s, 0) == Block(0, j)
    ensures Removed(tags, s, 0) == Removed(tags, s, j)
  {
    hide NextBlock;
    assert s[0..0] == "" && "" + Removed(tags, s, j) == Removed(tags, s, j);
  }

  lemma RemovedTail(tags: Tags, s: string, from: nat)
    requires from <= |s| && tags.close != ""
    ensures Removed(tags, s, from) == Removed(tags, s[from..], 0)
  {
    hide Removed;
    RemovedShift(tags, s[..from], s[from..], 0);
    assert s[..from] + s[from..] == s;
  }

  lemma StripAfterSpace(w: string, s: string)
    requires AllSpace(w)
    ensures Strip(w + s) == Strip(s)
  {
    LStripAfterSpace(w, s);
  }

  /** Streamed and whole readings give the same stripped text exactly when a leading tag is closed
      and the answer behind it has no further closed block. */
  lemma StreamMatchesComplete(tags: Tags, deltas: seq<string>)
    requires tags.close != "" && !AllSpace(tags.open)
    ensures var text := Join(deltas);
            Strip(Shown(tags, deltas).1) == Complete(tags, text)
            <==> (Tagged(tags, text) ==> ClosedTag(tags, text)) && !HasBlock(tags, Answer(tags, text))
  {
    hide Shown, Strip, Complete, HasBlock, Join, Tagged, ClosedTag, Answer;
    var text := Join(deltas);
    SaidIsAnswer(tags, deltas);
    if Tagged(tags, text) && !ClosedTag(tags, text) {
      UnclosedDiffers(tags, deltas);
      StripEmpty();
    } else {
      CompleteOfAnswer(tags, text);
      BlockFreeIff(tags, Answer(tags, text));
    }
  }

  lemma StripEmpty()
    ensures Strip("") == ""
  {
  }

  lemma SaidIsAnswer(tags: Tags, deltas: seq<string>)
    ensures Strip(Shown(tags, deltas).1) == Strip(Answer(tags, Join(deltas)))
  {
    hide Shown, Strip, Join;
    var said, answer := Shown(tags, deltas).1, Answer(tags, Join(deltas));
    ShownIsAnswer(tags, deltas);
    var w := answer[..|answer| - |said|];
    assert answer == w + said;
    StripAfterSpace(w, said);
  }

  /** Read on its own, a text loses something exactly when it has a closed block. */
  lemma BlockFreeIff(tags: Tags, s: string)
    requires tags.close != "" && !AllSpace(tags.open)
    ensures Strip(s) == Strip(Removed(tags, s, 0)) <==> !HasBlock(tags, s)
  {
    hide Strip, Visible, NextBlock;
    VisibleStrip(s);
    VisibleStrip(Removed(tags, s, 0));
    if HasBlock(tags, s) {
      BlockVisible(tags, s);
    } else {
      assert s[0..] == s;
    }
  }

  /** A text with an unclosed leading tag: nothing of it is content when it is streamed, and something is
      left of it when it is read whole. */
  lemma UnclosedDiffers(tags: Tags, deltas: seq<string>)
    requires tags.close != "" && !AllSpace(tags.open)
    requires Tagged(tags, Join(deltas)) && !ClosedTag(tags, Join(deltas))
    ensures Shown(tags, deltas).1 == "" && Complete(tags, Join(deltas)) != ""
  {
    hide Shown, Join, Visible, NextBlock, Reached;
    ShownOpen(tags, deltas);
    UnclosedIsLeft(tags, Join(deltas));
    assert Strip("") == "";
  }

  lemma UnclosedIsLeft(tags: Tags, text: string)
    requires tags.close != "" && !AllSpace(tags.open)
    requires Tagged(tags, text) && !ClosedTag(tags, text)
    ensures Complete(tags, text) != Strip("")
  {
    hide NextBlock, Visible;
    LeadingBlock(tags, text);
    var body := Body(tags, text);
    assert text == tags.open + body;
    assert Removed(tags, text, 0) == text;
    VisibleStrip(text);
    VisibleStrip("");
    VisibleConcat(tags.open, body);
    VisibleSpace(tags.open);
    VisibleSpace("");
  }
}
