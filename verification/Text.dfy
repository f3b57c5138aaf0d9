/** Options and the few string operations that the modelled Python and TypeScript code relies on. */
module Text {

  datatype Option<+T> = None | Some(value: T)

  /** `p` occurs in `s` at offset `i`. */
  predicate OccursAt(s: string, p: string, i: int) {
    0 <= i && i + |p| <= |s| && s[i..i + |p|] == p
  }

  /** Python's `s.find(p)`: the first offset of `p`, or -1. */
  function IndexOf(s: string, p: string): (r: int)
    ensures -1 <= r <= |s|
    ensures r >= 0 ==> OccursAt(s, p, r)
    ensures forall j :: 0 <= j && (r < 0 || j < r) ==> !OccursAt(s, p, j)
  {
    IndexFrom(s, p, 0)
  }

  function IndexFrom(s: string, p: string, from: nat): (r: int)
    ensures r == -1 || from <= r <= |s|
    ensures r >= 0 ==> OccursAt(s, p, r)
    ensures forall j :: from <= j && (r < 0 || j < r) ==> !OccursAt(s, p, j)
    decreases |s| - from
  {
    if from + |p| > |s| then -1
    else if OccursAt(s, p, from) then from
    else IndexFrom(s, p, from + 1)
  }

  /** `r` is the offset that `IndexOf` must return. */
  lemma IndexOfIs(s: string, p: string, r: nat)
    requires OccursAt(s, p, r)
    requires forall j :: 0 <= j < r ==> !OccursAt(s, p, j)
    ensures IndexOf(s, p) == r
  {
    var k := IndexOf(s, p);
    assert k >= 0;
    assert !(k < r);
  }

  /** What follows a string neither makes nor hides an occurrence inside it. */
  lemma OccursInPrefix(s: string, t: string, p: string, i: int)
    requires i + |p| <= |s|
    ensures OccursAt(s + t, p, i) <==> OccursAt(s, p, i)
  {
    if 0 <= i {
      assert (s + t)[i..i + |p|] == s[i..i + |p|];
    }
  }

  /** What precedes a string only shifts its occurrences. */
  lemma OccursInSuffix(s: string, t: string, p: string, i: nat)
    ensures OccursAt(s + t, p, |s| + i) <==> OccursAt(t, p, i)
  {
    if i + |p| <= |t| {
      assert (s + t)[|s| + i..|s| + i + |p|] == t[i..i + |p|];
    }
  }

  /** A first occurrence stays first when text is added behind it. */
  lemma FirstStays(s: string, t: string, p: string)
    requires IndexOf(s, p) >= 0
    ensures IndexOf(s + t, p) == IndexOf(s, p)
  {
    var r := IndexOf(s, p);
    OccursInPrefix(s, t, p, r);
    forall j | 0 <= j < r ensures !OccursAt(s + t, p, j) {
      OccursInPrefix(s, t, p, j);
    }
    IndexOfIs(s + t, p, r);
  }

  /** When nothing starts in `a`, the first `p` of `a + b` is the first one of `b`, shifted. */
  lemma FirstShifted(a: string, b: string, p: string)
    requires forall j :: 0 <= j < |a| ==> !OccursAt(a + b, p, j)
    ensures IndexOf(a + b, p) == if IndexOf(b, p) < 0 then -1 else |a| + IndexOf(b, p)
  {
    var e := IndexOf(b, p);
    var k := IndexOf(a + b, p);
    if k >= 0 {
      assert k >= |a|;
      OccursInSuffix(a, b, p, k - |a|);
      assert 0 <= e <= k - |a|;
    }
    if e >= 0 {
      OccursInSuffix(a, b, p, e);
      assert 0 <= k <= |a| + e;
    }
  }

  /** A text without `p` has none starting early in any continuation. */
  lemma NoneEarly(s: string, more: string, p: string, n: nat)
    requires IndexOf(s, p) < 0
    requires n == 0 || n - 1 + |p| <= |s|
    ensures forall j :: 0 <= j < n ==> !OccursAt(s + more, p, j)
  {
    forall j | 0 <= j < n ensures !OccursAt(s + more, p, j) {
      OccursInPrefix(s, more, p, j);
    }
  }

  /** Where the first `p` of `done + held + more` is, when `done + held` has none and `held` is long
      enough to contain any proper beginning of `p`: exactly where `held + more` has its first. */
  lemma FirstAcross(done: string, held: string, more: string, p: string)
    requires IndexOf(done + held, p) < 0
    requires done == "" || |held| + 1 >= |p|
    ensures var e := IndexOf(held + more, p);
            IndexOf(done + (held + more), p) == if e < 0 then -1 else |done| + e
  {
    NoneEarly(done + held, more, p, |done|);
    assert done + held + more == done + (held + more);
    FirstShifted(done, held + more, p);
  }

  /** Slices move with the text they are in. */
  lemma SliceShift(a: string, s: string, from: nat, to: nat)
    requires from <= to <= |s|
    ensures (a + s)[|a| + from..|a| + to] == s[from..to]
    ensures to == |s| ==> (a + s)[|a| + from..] == s[from..]
  {
  }

  /** White space as Python's `str.isspace` sees it, the set `strip` and `lstrip` remove. */
  predicate IsSpace(c: char) {
    || '\t' <= c <= '\r'
    || '\U{1c}' <= c <= ' '
    || c == '\U{85}' || c == '\U{a0}' || c == '\U{1680}'
    || '\U{2000}' <= c <= '\U{200a}'
    || c == '\U{2028}' || c == '\U{2029}' || c == '\U{202f}' || c == '\U{205f}' || c == '\U{3000}'
  }

  /** White space as Python's `str.isspace` has it, by code points. */
  lemma SpaceIs(c: char)
    ensures IsSpace(c) <==>
              var u := c as int;
              9 <= u <= 13 || 28 <= u <= 32 || u == 133 || u == 160 || u == 5760 || 8192 <= u <= 8202
              || u in {8232, 8233, 8239, 8287, 12288}
  {
  }

  predicate AllSpace(s: string) {
    forall c :: c in s ==> IsSpace(c)
  }

  /** The number of leading white space characters from `from` on. */
  function Lead(s: string, from: nat): (n: nat)
    requires from <= |s|
    ensures from <= n <= |s|
    ensures forall k :: from <= k < n ==> IsSpace(s[k])
    ensures n == |s| || !IsSpace(s[n])
    decreases |s| - from
  {
    if from == |s| || !IsSpace(s[from]) then from else Lead(s, from + 1)
  }

  /** The end of what is left after removing trailing white space before `end`. */
  function Trail(s: string, end: nat): (n: nat)
    requires end <= |s|
    ensures n <= end
    ensures forall k :: n <= k < end ==> IsSpace(s[k])
    ensures n == 0 || !IsSpace(s[n - 1])
  {
    if end == 0 || !IsSpace(s[end - 1]) then end else Trail(s, end - 1)
  }

  /** Python's `s.lstrip()`. */
  function LStrip(s: string): string {
    s[Lead(s, 0)..]
  }

  /** Python's `s.rstrip()`. */
  function RStrip(s: string): string {
    s[..Trail(s, |s|)]
  }

  /** Python's `s.strip()`. */
  function Strip(s: string): string {
    RStrip(LStrip(s))
  }

  /** What is cut off is white space, and what is left neither begins nor ends with it. */
  lemma StripIs(s: string)
    ensures var r := Strip(s);
      && (exists n: nat :: n + |r| <= |s| && s[n..n + |r|] == r && AllSpace(s[..n]) && AllSpace(s[n + |r|..]))
      && (r == "" || (!IsSpace(r[0]) && !IsSpace(r[|r| - 1])))
  {
    hide IsSpace, Lead, Trail;
    var n := Lead(s, 0);
    var l := s[n..];
    var m := Trail(l, |l|);
    var r := Strip(s);
    assert r == l[..m] == s[n..n + m] && |r| == m;
    assert AllSpace(s[..n]);
    var tail := s[n + m..];
    assert forall k :: 0 <= k < |tail| ==> tail[k] == l[m + k];
    assert AllSpace(s[n + |r|..]);
    assert m > 0 ==> r[0] == s[n] && r[m - 1] == l[m - 1];
  }

  /** The concatenation of all pieces, in order. */
  function Join(pieces: seq<string>): string {
    if pieces == [] then "" else Join(pieces[..|pieces| - 1]) + pieces[|pieces| - 1]
  }

  lemma JoinSnoc(a: seq<string>, x: string)
    ensures Join(a + [x]) == Join(a) + x
  {
    assert (a + [x])[..|a|] == a;
  }

  lemma {:induction false} JoinPrefix(a: seq<string>, n: nat)
    requires n <= |a|
    ensures Join(a[..n]) <= Join(a)
  {
    if n < |a| {
      assert a[..|a| - 1][..n] == a[..n];
      JoinPrefix(a[..|a| - 1], n);
    } else {
      assert a[..n] == a;
    }
  }

  /** A split into leading space and a rest without any determines `LStrip`. */
  lemma LStripIs(w: string, r: string)
    requires AllSpace(w) && (r == "" || !IsSpace(r[0]))
    ensures LStrip(w + r) == r
  {
    var s := w + r;
    assert forall k :: 0 <= k < |w| ==> w[k] in w && s[k] == w[k];
    if r != "" {
      assert s[|w|] == r[0];
    }
    assert Lead(s, 0) == |w|;
  }

  /** Leading space never survives `LStrip`, whatever follows it. */
  lemma LStripAfterSpace(w: string, s: string)
    requires AllSpace(w)
    ensures LStrip(w + s) == LStrip(s)
  {
    var n := Lead(s, 0);
    assert w + s == (w + s[..n]) + s[n..];
    LStripIs(w + s[..n], s[n..]);
  }

  /** `lower` on ASCII letters; other characters are left alone. */
  function Lower(s: string): (r: string)
    ensures |r| == |s|
  {
    seq(|s|, i requires 0 <= i < |s| => if 'A' <= s[i] <= 'Z' then s[i] - 'A' + 'a' else s[i])
  }

  lemma LowerIs(s: string, k: nat)
    requires k < |s|
    ensures var u := s[k] as int;
      Lower(s)[k] as int == if 65 <= u <= 90 then u + 32 else u
  {
  }
}
