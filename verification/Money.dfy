/** Amounts in a model's answer, read leniently: printing an amount and reading it back. Digits are
    the ASCII ones. */
module Money {
  import opened Decimals
  import opened Text

  /** `coef / 10^places`, with its sign. */
  datatype Number = Number(negative: bool, coef: nat, places: nat)

  /** A JSON value as the reader sees it; a number comes with its exact value, if it is finite. */
  datatype Value = Boolean | Numeric(number: Option<Number>) | Str(text: string) | Other

  // ---------- reading ----------

  predicate IsDigit(c: char) {
    '0' <= c <= '9'
  }

  predicate IsMark(c: char) {
    c == ',' || c == '.'
  }

  predicate IsE(c: char) {
    c == 'e' || c == 'E'
  }

  /** The pattern `\d[eE][+-]?\d` matches somewhere. */
  predicate HasExponent(s: string) {
    exists i :: 0 <= i && i + 2 < |s| && ExponentAt(s, i)
  }

  predicate ExponentAt(s: string, i: nat)
    requires i + 2 < |s|
  {
    IsDigit(s[i]) && IsE(s[i + 1])
    && (IsDigit(s[i + 2]) || ((s[i + 2] == '+' || s[i + 2] == '-') && i + 3 < |s| && IsDigit(s[i + 3])))
  }

  function Kept(s: string): string
    decreases |s|
  {
    if s == "" then ""
    else
      var n := |s| - 1;
      Kept(s[..n]) + if IsDigit(s[n]) || IsMark(s[n]) || s[n] == '-' then [s[n]] else ""
  }

  function WithoutMarks(s: string): string
    decreases |s|
  {
    if s == "" then ""
    else
      var n := |s| - 1;
      WithoutMarks(s[..n]) + if IsMark(s[n]) then "" else [s[n]]
  }

  /** Python's `rfind` of one character. */
  function LastOf(s: string, c: char): (r: int)
    ensures -1 <= r < |s|
    ensures r >= 0 ==> s[r] == c
    ensures forall j :: r < j < |s| ==> s[j] != c
    decreases |s|
  {
    if s == "" then -1
    else if s[|s| - 1] == c then |s| - 1
    else LastOf(s[..|s| - 1], c)
  }

  function Count(s: string, c: char): nat
    decreases |s|
  {
    if s == "" then 0 else Count(s[..|s| - 1], c) + if s[|s| - 1] == c then 1 else 0
  }

  predicate AllDigits(s: string) {
    forall i :: 0 <= i < |s| ==> IsDigit(s[i])
  }

  function ValueOf(s: string): nat
    requires AllDigits(s)
    decreases |s|
  {
    if s == "" then 0 else 10 * ValueOf(s[..|s| - 1]) + (s[|s| - 1] - '0') as int
  }

  /** `Decimal(text)` for a text of digits, points and minus signs; None is InvalidOperation. */
  function Parse(text: string): Option<Number> {
    var negative := text != "" && text[0] == '-';
    var rest := if negative then text[1..] else text;
    var dot := IndexOf(rest, ".");
    var whole, fraction := if dot < 0 then rest else rest[..dot], if dot < 0 then "" else rest[dot + 1..];
    if AllDigits(whole) && AllDigits(fraction) && whole + fraction != ""
    then Some(Number(negative, ValueOf(whole + fraction), |fraction|))
    else None
  }

  function Max(a: int, b: int): int {
    if a >= b then a else b
  }

  /** The text that is handed to `Decimal`. */
  function Cleaned(s: string): string {
    var text := Kept(s);
    var mark := Max(LastOf(text, ','), LastOf(text, '.'));
    if mark < 0 then text
    else if Count(text, text[mark]) > 1 then WithoutMarks(text)
    else WithoutMarks(text[..mark]) + "." + text[mark + 1..]
  }

  function Money(value: Value): Option<Number> {
    match value
    case Boolean => None
    case Numeric(number) => number
    case Str(s) => if HasExponent(s) then None else Parse(Cleaned(s))
    case Other => None
  }

  // ---------- printing ----------

  function Digit(d: nat): char
    requires d < 10
  {
    '0' + d as char
  }

  function Digits(n: nat): string {
    if n < 10 then [Digit(n)] else Digits(n / 10) + [Digit(n % 10)]
  }

  function Two(n: nat): string
    requires n < 100
  {
    [Digit(n / 10), Digit(n % 10)]
  }

  function Three(n: nat): string
    requires n < 1000
  {
    [Digit(n / 100)] + Two(n % 100)
  }

  /** In groups of three with `g` between them; an empty `g` prints no groups. */
  function Grouped(n: nat, g: string): string {
    if n < 1000 then Digits(n) else Grouped(n / 1000, g) + g + Three(n % 1000)
  }

  /** Cents as an amount with two decimals. */
  function Amount(cents: nat, g: string, mark: char): string {
    Grouped(cents / 100, g) + [mark] + Two(cents % 100)
  }

  /** A group separator: nothing, or one character that is no digit, minus or `e` and not the mark. */
  predicate Separates(g: string, mark: char) {
    g == "" || (|g| == 1 && g[0] != mark && !IsDigit(g[0]) && g[0] != '-' && !IsE(g[0]))
  }

  /** Text around the amount, a currency sign for one: no digit, mark or minus in it. */
  predicate Around(s: string) {
    forall i :: 0 <= i < |s| ==> !IsDigit(s[i]) && !IsMark(s[i]) && s[i] != '-'
  }

  // ---------- filtering ----------

  lemma {:induction false} KeptOfBoth(s: string, t: string)
    ensures Kept(s + t) == Kept(s) + Kept(t)
    decreases |t|
  {
    if t == "" {
      assert s + t == s;
    } else {
      var n := |t| - 1;
      KeptOfBoth(s, t[..n]);
      assert (s + t)[..|s + t| - 1] == s + t[..n];
    }
  }

  lemma {:induction false} WithoutMarksOfBoth(s: string, t: string)
    ensures WithoutMarks(s + t) == WithoutMarks(s) + WithoutMarks(t)
    decreases |t|
  {
    if t == "" {
      assert s + t == s;
    } else {
      var n := |t| - 1;
      WithoutMarksOfBoth(s, t[..n]);
      assert (s + t)[..|s + t| - 1] == s + t[..n];
    }
  }

  lemma {:induction false} CountOfBoth(s: string, t: string, c: char)
    ensures Count(s + t, c) == Count(s, c) + Count(t, c)
    decreases |t|
  {
    if t == "" {
      assert s + t == s;
    } else {
      var n := |t| - 1;
      CountOfBoth(s, t[..n], c);
      assert (s + t)[..|s + t| - 1] == s + t[..n];
    }
  }

  lemma {:induction false} AroundGoes(s: string)
    requires Around(s)
    ensures Kept(s) == ""
    decreases |s|
  {
    if s != "" {
      AroundGoes(s[..|s| - 1]);
    }
  }

  lemma {:induction false} DigitsStay(s: string)
    requires AllDigits(s)
    ensures Kept(s) == s && WithoutMarks(s) == s && Count(s, ',') == 0 && Count(s, '.') == 0
    decreases |s|
  {
    if s != "" {
      DigitsStay(s[..|s| - 1]);
    }
  }

  // ---------- what is printed ----------

  lemma DigitIs(d: nat)
    requires d < 10
    ensures IsDigit(Digit(d)) && (Digit(d) - '0') as int == d
  {
  }

  lemma {:induction false} DigitsValue(n: nat)
    ensures AllDigits(Digits(n)) && ValueOf(Digits(n)) == n && Digits(n) != ""
    decreases n
  {
    DigitIs(n % 10);
    if n >= 10 {
      DigitsValue(n / 10);
      assert Digits(n)[..|Digits(n)| - 1] == Digits(n / 10);
    } else {
      assert Digits(n)[..0] == "";
    }
  }

  lemma FewZeros(c: nat)
    ensures WithZeros(c, 2) == 100 * c && WithZeros(c, 3) == 1000 * c
  {
    assert WithZeros(c, 1) == 10 * c;
  }

  lemma {:induction false} ValueOfBoth(s: string, t: string)
    requires AllDigits(s) && AllDigits(t)
    ensures AllDigits(s + t) && ValueOf(s + t) == WithZeros(ValueOf(s), |t|) + ValueOf(t)
    decreases |t|
  {
    if t == "" {
      assert s + t == s;
    } else {
      var n := |t| - 1;
      ValueOfBoth(s, t[..n]);
      assert (s + t)[..|s + t| - 1] == s + t[..n];
    }
  }

  lemma TwoValue(n: nat)
    requires n < 100
    ensures AllDigits(Two(n)) && ValueOf(Two(n)) == n && |Two(n)| == 2
  {
    DigitIs(n / 10);
    DigitIs(n % 10);
    var s, first := Two(n), [Digit(n / 10)];
    assert first[..0] == "" && ValueOf(first) == n / 10;
    assert s[..1] == first;
  }

  lemma ThreeValue(n: nat)
    requires n < 1000
    ensures AllDigits(Three(n)) && ValueOf(Three(n)) == n && |Three(n)| == 3
  {
    DigitIs(n / 100);
    TwoValue(n % 100);
    var first := [Digit(n / 100)];
    assert first[..0] == "";
    ValueOfBoth(first, Two(n % 100));
    FewZeros(ValueOf(first));
  }

  /** How many separators are printed. */
  function Groups(n: nat): nat {
    if n < 1000 then 0 else 1 + Groups(n / 1000)
  }

  /** Without its separators a grouped number is a plain one, with the same value. */
  function Plain(n: nat): string {
    Grouped(n, "")
  }

  lemma {:induction false} PlainValue(n: nat)
    ensures AllDigits(Plain(n)) && ValueOf(Plain(n)) == n && Plain(n) != ""
    decreases n
  {
    if n < 1000 {
      DigitsValue(n);
    } else {
      PlainValue(n / 1000);
      ThreeValue(n % 1000);
      assert Plain(n) == Plain(n / 1000) + Three(n % 1000);
      ValueOfBoth(Plain(n / 1000), Three(n % 1000));
      FewZeros(n / 1000);
    }
  }

  /** The separators that the reader removes at once, such as spaces, might as well not be there. */
  function Visible(g: string): string {
    Kept(g)
  }

  lemma {:induction false} KeptOfGrouped(n: nat, g: string)
    ensures Kept(Grouped(n, g)) == Grouped(n, Visible(g))
    decreases n
  {
    if n < 1000 {
      DigitsValue(n);
      DigitsStay(Digits(n));
    } else {
      KeptOfGrouped(n / 1000, g);
      ThreeValue(n % 1000);
      DigitsStay(Three(n % 1000));
      KeptOfBoth(Grouped(n / 1000, g) + g, Three(n % 1000));
      KeptOfBoth(Grouped(n / 1000, g), g);
    }
  }

  /** A separator that is still visible is a mark. */
  predicate MarkOrNothing(g: string) {
    g == "" || (|g| == 1 && IsMark(g[0]))
  }

  lemma SeparatorSeen(g: string, mark: char)
    requires Separates(g, mark)
    ensures MarkOrNothing(Visible(g)) && (Visible(g) != "" ==> Visible(g)[0] != mark)
  {
    if g != "" {
      assert g == [g[0]] && g[..|g| - 1] == "";
      assert Kept(g) == "" + if IsDigit(g[0]) || IsMark(g[0]) || g[0] == '-' then g else "";
    }
  }

  lemma {:induction false} GroupedPlain(n: nat, g: string)
    requires MarkOrNothing(g)
    ensures WithoutMarks(Grouped(n, g)) == Plain(n)
    decreases n
  {
    hide WithoutMarks;
    if n < 1000 {
      DigitsValue(n);
      DigitsStay(Digits(n));
    } else {
      var head, tail := Grouped(n / 1000, g), Three(n % 1000);
      GroupedPlain(n / 1000, g);
      ThreeValue(n % 1000);
      DigitsStay(tail);
      WithoutMarksOfBoth(head + g, tail);
      WithoutMarksOfBoth(head, g);
      MarkGoes(g);
      assert Plain(n) == Plain(n / 1000) + tail;
    }
  }

  lemma {:induction false} GroupedCount(n: nat, g: string, c: char)
    requires MarkOrNothing(g) && IsMark(c)
    ensures Count(Grouped(n, g), c) == if g == [c] then Groups(n) else 0
    decreases n
  {
    hide Count;
    if n < 1000 {
      DigitsValue(n);
      DigitsStay(Digits(n));
    } else {
      var head, tail := Grouped(n / 1000, g), Three(n % 1000);
      GroupedCount(n / 1000, g, c);
      ThreeValue(n % 1000);
      DigitsStay(tail);
      CountOfBoth(head + g, tail, c);
      CountOfBoth(head, g, c);
      MarkGoes(g);
    }
  }

  lemma MarkGoes(g: string)
    requires MarkOrNothing(g)
    ensures WithoutMarks(g) == "" && forall c :: Count(g, c) == if g == [c] then 1 else 0
  {
    if g != "" {
      assert g[..|g| - 1] == "" && g == [g[0]];
      assert WithoutMarks(g[..|g| - 1]) == "";
      forall c ensures Count(g, c) == if g == [c] then 1 else 0 {
        assert Count(g[..|g| - 1], c) == 0;
      }
    }
  }

  // ---------- reading back ----------

  /** No exponent appears when the only digits are in a core without an `e`. */
  lemma NoExponent(pre: string, core: string, post: string)
    requires Around(pre) && Around(post) && forall i :: 0 <= i < |core| ==> !IsE(core[i])
    ensures !HasExponent(pre + core + post)
  {
    var s := pre + core + post;
    forall i: nat | i + 2 < |s| ensures !ExponentAt(s, i) {
      var a, b := |pre|, |pre| + |core|;
      assert i + 1 < a ==> s[i] == pre[i];
      assert a <= i + 1 < b ==> s[i + 1] == core[i + 1 - a];
      assert b <= i + 1 ==> s[i + 2] == post[i + 2 - b];
      assert b <= i + 1 && i + 3 < |s| ==> s[i + 3] == post[i + 3 - b];
    }
  }

  lemma AroundIsCutOff(pre: string, core: string, post: string)
    requires Around(pre) && Around(post)
    ensures Kept(pre + core + post) == Kept(core)
  {
    KeptOfBoth(pre + core, post);
    KeptOfBoth(pre, core);
    AroundGoes(pre);
    AroundGoes(post);
  }

  /** The last separator is the mark when only digits follow it. */
  lemma LastMark(head: string, mark: char, tail: string)
    requires IsMark(mark) && AllDigits(tail)
    ensures var text := head + [mark] + tail;
      Max(LastOf(text, ','), LastOf(text, '.')) == |head|
  {
    var text := head + [mark] + tail;
    forall j | |head| < j < |text| ensures IsDigit(text[j]) {
      assert text[j] == tail[j - |head| - 1];
    }
    assert text[|head|] == mark;
  }

  /** A number as `Decimal` takes it: a minus, digits, a point and digits again, in part. */
  function Written(negative: bool, whole: string, pointed: bool, fraction: string): string {
    (if negative then "-" else "") + (whole + (if pointed then "." + fraction else ""))
  }

  predicate IsWritten(text: string, negative: bool, whole: string, pointed: bool, fraction: string) {
    && text == Written(negative, whole, pointed, fraction) && AllDigits(whole) && AllDigits(fraction)
    && whole + fraction != "" && (!pointed ==> fraction == "")
  }

  lemma ParseReads(text: string, negative: bool, whole: string, pointed: bool, fraction: string)
    requires IsWritten(text, negative, whole, pointed, fraction)
    ensures Parse(text) == Some(Number(negative, ValueOf(whole + fraction), |fraction|))
  {
    hide ValueOf, IndexOf, Written;
    var rest := whole + (if pointed then "." + fraction else "");
    SignThenRest(text, negative, whole, pointed, fraction);
    FirstPoint(whole, pointed, fraction);
    assert whole + "" == whole;
  }

  lemma SignThenRest(text: string, negative: bool, whole: string, pointed: bool, fraction: string)
    requires IsWritten(text, negative, whole, pointed, fraction)
    ensures text != "" && (text[0] == '-' <==> negative)
    ensures (if negative then text[1..] else text) == whole + (if pointed then "." + fraction else "")
  {
  }

  lemma FirstPoint(whole: string, pointed: bool, fraction: string)
    requires AllDigits(whole) && AllDigits(fraction) && (!pointed ==> fraction == "")
    ensures var rest := whole + (if pointed then "." + fraction else "");
      if pointed then IndexOf(rest, ".") == |whole| && rest[..|whole|] == whole && rest[|whole| + 1..] == fraction
      else rest == whole && IndexOf(rest, ".") < 0
  {
    hide IndexOf;
    var rest := whole + (if pointed then "." + fraction else "");
    forall j | 0 <= j < |whole| ensures !OccursAt(rest, ".", j) {
      assert rest[j..j + 1] == [whole[j]];
    }
    if pointed {
      assert rest[|whole|..|whole| + 1] == ".";
      IndexOfIs(rest, ".", |whole|);
    } else if IndexOf(rest, ".") >= 0 {
      assert false;
    }
  }

  /** Nothing else is a number. */
  lemma ParseRefusesOthers(text: string)
    requires Parse(text).Some?
    ensures exists negative, whole, pointed, fraction :: IsWritten(text, negative, whole, pointed, fraction)
  {
    hide ValueOf, AllDigits, Parse, IndexOf, IsWritten;
    var rest := if text != "" && text[0] == '-' then text[1..] else text;
    var dot := IndexOf(rest, ".");
    ParsedParts(text);
    AtPoint(rest);
    if dot < 0 {
      Rejoined(text, rest, rest, false, "");
    } else {
      Rejoined(text, rest, rest[..dot], true, rest[dot + 1..]);
    }
  }

  lemma ParsedParts(text: string)
    requires Parse(text).Some?
    ensures var rest := if text != "" && text[0] == '-' then text[1..] else text;
      var dot := IndexOf(rest, ".");
      if dot < 0 then AllDigits(rest) && rest + "" != ""
      else AllDigits(rest[..dot]) && dot < |rest| && AllDigits(rest[dot + 1..]) && rest[..dot] + rest[dot + 1..] != ""
  {
    hide ValueOf, IndexOf, AllDigits;
    var rest := if text != "" && text[0] == '-' then text[1..] else text;
    AtPoint(rest);
  }

  lemma Rejoined(text: string, rest: string, whole: string, pointed: bool, fraction: string)
    requires rest == if text != "" && text[0] == '-' then text[1..] else text
    requires rest == whole + (if pointed then "." + fraction else "")
    requires AllDigits(whole) && AllDigits(fraction) && whole + fraction != "" && (!pointed ==> fraction == "")
    ensures IsWritten(text, text != "" && text[0] == '-', whole, pointed, fraction)
  {
  }

  lemma AtPoint(rest: string)
    ensures var dot := IndexOf(rest, ".");
      if dot < 0 then rest == rest + "" else dot < |rest| && rest == rest[..dot] + ("." + rest[dot + 1..])
  {
    hide IndexOf;
    var dot := IndexOf(rest, ".");
    if dot >= 0 {
      assert rest[dot..dot + 1] == ".";
    }
  }

  lemma ParseWithPoint(whole: string, fraction: string)
    requires AllDigits(whole) && AllDigits(fraction) && whole != ""
    ensures Parse(whole + "." + fraction) == Some(Number(false, ValueOf(whole + fraction), |fraction|))
  {
    hide Parse;
    assert whole + "." + fraction == Written(false, whole, true, fraction);
    ParseReads(whole + "." + fraction, false, whole, true, fraction);
  }

  lemma ParsePlain(whole: string)
    requires AllDigits(whole) && whole != ""
    ensures Parse(whole) == Some(Number(false, ValueOf(whole), 0))
  {
    hide Parse;
    assert whole == Written(false, whole, false, "") && whole + "" == whole;
    ParseReads(whole, false, whole, false, "");
  }

  lemma CleanedWithMark(head: string, mark: char, tail: string)
    requires IsMark(mark) && AllDigits(tail) && Count(head, mark) == 0
    requires Kept(head + [mark] + tail) == head + [mark] + tail
    ensures Cleaned(head + [mark] + tail) == WithoutMarks(head) + "." + tail
  {
    var text := head + [mark] + tail;
    LastMark(head, mark, tail);
    assert text[|head|] == mark && text[..|head|] == head && text[|head| + 1..] == tail;
    CountOfBoth(head + [mark], tail, mark);
    CountOfBoth(head, [mark], mark);
    DigitsStay(tail);
    assert [mark][..0] == "";
  }

  /** `Cleaned` sees only what `Kept` leaves. */
  lemma CleanedSeesKept(s: string, t: string)
    requires Kept(s) == t == Kept(t)
    ensures Cleaned(s) == Cleaned(t)
  {
  }

  /** Any amount with two decimals, printed with groups or without, with a decimal mark that is not the
      group separator, and with any currency sign before or after, is read back to the cent. */
  lemma AmountRoundTrip(cents: nat, g: string, mark: char, pre: string, post: string)
    requires IsMark(mark) && Separates(g, mark) && Around(pre) && Around(post)
    ensures Money(Str(pre + Amount(cents, g, mark) + post)) == Some(Number(false, cents, 2))
  {
    hide Kept, WithoutMarks, Count, Cleaned, Grouped, Two, Parse, HasExponent, ValueOf;
    var n, core := cents / 100, Amount(cents, g, mark);
    var seen, tail := Visible(g), Two(cents % 100);
    TwoValue(cents % 100);
    SeparatorSeen(g, mark);
    NoEInAmount(cents, g, mark);
    NoExponent(pre, core, post);
    AroundIsCutOff(pre, core, post);
    KeptOfAmount(cents, g, mark);
    var head := Grouped(n, seen);
    KeptTwice(n, seen, mark, tail);
    CleanedSeesKept(pre + core + post, head + [mark] + tail);
    GroupedPlain(n, seen);
    GroupedCount(n, seen, mark);
    CleanedWithMark(head, mark, tail);
    PlainValue(n);
    ParseWithPoint(Plain(n), tail);
    ValueOfBoth(Plain(n), tail);
    FewZeros(n);
  }

  lemma KeptOfAmount(cents: nat, g: string, mark: char)
    requires IsMark(mark)
    ensures Kept(Amount(cents, g, mark)) == Grouped(cents / 100, Visible(g)) + [mark] + Two(cents % 100)
  {
    hide Grouped, Two, Kept;
    var n, tail := cents / 100, Two(cents % 100);
    TwoValue(cents % 100);
    KeptOfBoth(Grouped(n, g) + [mark], tail);
    KeptOfBoth(Grouped(n, g), [mark]);
    KeptOfGrouped(n, g);
    DigitsStay(tail);
    KeptMark([mark]);
  }

  lemma KeptMark(g: string)
    requires MarkOrNothing(g)
    ensures Kept(g) == g
  {
    if g != "" {
      assert g == [g[0]] && g[..|g| - 1] == "";
      assert Kept(g) == "" + g;
    }
  }

  lemma KeptTwice(n: nat, seen: string, mark: char, tail: string)
    requires MarkOrNothing(seen) && IsMark(mark) && AllDigits(tail)
    ensures Kept(Grouped(n, seen) + [mark] + tail) == Grouped(n, seen) + [mark] + tail
    ensures Kept(Grouped(n, seen)) == Grouped(n, seen)
  {
    hide Grouped, Kept;
    KeptOfBoth(Grouped(n, seen) + [mark], tail);
    KeptOfBoth(Grouped(n, seen), [mark]);
    KeptOfGrouped(n, seen);
    DigitsStay(tail);
    KeptMark([mark]);
    KeptMark(seen);
  }

  lemma {:induction false} NoEInGrouped(n: nat, g: string)
    requires forall i :: 0 <= i < |g| ==> !IsE(g[i])
    ensures forall i :: 0 <= i < |Grouped(n, g)| ==> !IsE(Grouped(n, g)[i])
    decreases n
  {
    if n < 1000 {
      DigitsValue(n);
    } else {
      NoEInGrouped(n / 1000, g);
      ThreeValue(n % 1000);
    }
  }

  lemma NoEInAmount(cents: nat, g: string, mark: char)
    requires IsMark(mark) && Separates(g, mark)
    ensures forall i :: 0 <= i < |Amount(cents, g, mark)| ==> !IsE(Amount(cents, g, mark)[i])
  {
    hide Grouped;
    NoEInGrouped(cents / 100, g);
    TwoValue(cents % 100);
  }

  /** A whole number printed with comma or dot groups: two or more separators, or none, and it is read
      back; a single one is taken for a decimal mark, and the number is a thousandth of what it was. */
  lemma WholeNumberReadBack(n: nat, c: char, pre: string, post: string)
    requires IsMark(c) && Around(pre) && Around(post)
    ensures Money(Str(pre + Grouped(n, [c]) + post)) == Some(Number(false, n, if Groups(n) == 1 then 3 else 0))
  {
    hide Kept, WithoutMarks, Count, Cleaned, Grouped, Parse, HasExponent, ValueOf;
    var text := Grouped(n, [c]);
    NoEInGrouped(n, [c]);
    NoExponent(pre, text, post);
    AroundIsCutOff(pre, text, post);
    KeptTwice(n, [c], c, "");
    CleanedSeesKept(pre + text + post, text);
    PlainValue(n);
    if Groups(n) == 1 {
      OneGroup(n, c);
    } else {
      OtherGroups(n, c);
      ParsePlain(Plain(n));
    }
  }

  lemma OneGroup(n: nat, c: char)
    requires IsMark(c) && Groups(n) == 1
    ensures Parse(Cleaned(Grouped(n, [c]))) == Some(Number(false, n, 3))
  {
    var head, tail := Digits(n / 1000), Three(n % 1000);
    assert Grouped(n, [c]) == head + [c] + tail && Grouped(n / 1000, [c]) == head;
    hide Kept, Cleaned, Parse, ValueOf, Grouped, Count, WithoutMarks, Digits, Three;
    GroupValue(n);
    DigitsStay(head);
    KeptTwice(n / 1000, [c], c, tail);
    CleanedWithMark(head, c, tail);
    ParseWithPoint(head, tail);
  }

  lemma GroupValue(n: nat)
    ensures var head, tail := Digits(n / 1000), Three(n % 1000);
            AllDigits(head) && AllDigits(tail) && head != "" && |tail| == 3 && ValueOf(head + tail) == n
  {
    hide ValueOf, Digits, Three;
    var head, tail := Digits(n / 1000), Three(n % 1000);
    DigitsValue(n / 1000);
    ThreeValue(n % 1000);
    ValueOfBoth(head, tail);
    FewZeros(n / 1000);
  }

  lemma OtherGroups(n: nat, c: char)
    requires IsMark(c) && Groups(n) != 1
    ensures Cleaned(Grouped(n, [c])) == Plain(n)
  {
    hide Kept, WithoutMarks, Count;
    var text := Grouped(n, [c]);
    GroupedPlain(n, [c]);
    GroupedCount(n, [c], c);
    KeptTwice(n, [c], c, "");
    if Groups(n) == 0 {
      DigitsValue(n);
      DigitsStay(text);
    } else {
      CountedOccurs(text, c);
      var d := if c == ',' then '.' else ',';
      GroupedCount(n, [c], d);
      assert d !in text by {
        if d in text {
          OccursCounted(text, d);
        }
      }
    }
  }

  lemma {:induction false} OccursCounted(s: string, c: char)
    requires c in s
    ensures Count(s, c) > 0
    decreases |s|
  {
    if s[|s| - 1] != c {
      OccursCounted(s[..|s| - 1], c);
    }
  }

  lemma {:induction false} CountedOccurs(s: string, c: char)
    requires Count(s, c) > 0
    ensures c in s
    decreases |s|
  {
    if s[|s| - 1] != c {
      CountedOccurs(s[..|s| - 1], c);
    }
  }

  /** So such a number comes back as itself if and only if it is not printed with exactly one separator. */
  lemma WholeNumberIff(n: nat, c: char)
    requires IsMark(c)
    ensures Money(Str(Grouped(n, [c]))) == Some(Number(false, n, 0)) <==> n < 1_000 || n >= 1_000_000
  {
    hide Money, Grouped;
    WholeNumberReadBack(n, c, "", "");
    assert "" + Grouped(n, [c]) + "" == Grouped(n, [c]);
    assert Groups(n) == 1 <==> 1_000 <= n < 1_000_000;
  }

  /** Digits on both sides of an `e` are never glued together into a number. */
  lemma ExponentIsRefused(pre: string, a: char, e: char, sign: string, b: char, post: string)
    requires '0' <= a <= '9' && (e == 'e' || e == 'E') && '0' <= b <= '9' && sign in ["", "+", "-"]
    ensures Money(Str(pre + [a, e] + sign + [b] + post)) == None
  {
    var s := pre + [a, e] + sign + [b] + post;
    var i := |pre|;
    assert s[i] == a && s[i + 1] == e && s[i + 2 + |sign|] == b;
    assert sign != "" ==> s[i + 2] == sign[0];
    assert ExponentAt(s, i);
  }

  // ---------- the API's limits ----------

  /** `a / b` to the nearest whole number, a tie upwards. */
  function HalfUp(a: nat, b: nat): nat
    requires b > 0
  {
    (2 * a + b) / (2 * b)
  }

  /** The column value in units of `10^-places`. */
  function Quantized(x: Number, places: nat): nat {
    if x.places <= places then x.coef * Pow10(places - x.places) else HalfUp(x.coef, Pow10(x.places - places))
  }

  function Bounded(value: Value, limit: nat, places: nat): Option<nat> {
    match Money(value)
    case None => None
    case Some(x) =>
      if (x.negative && x.coef > 0) || x.coef >= limit * Pow10(x.places) then None else Some(Quantized(x, places))
  }

  /** A JSON number is taken as it is, a truth value and anything else is no amount. */
  lemma OtherKinds(number: Option<Number>)
    ensures Money(Numeric(number)) == number && Money(Boolean) == None && Money(Other) == None
  {
  }

  /** What is kept at all: an amount that is not negative and below the limit. */
  lemma BoundedIff(value: Value, limit: nat, places: nat)
    ensures Bounded(value, limit, places).Some? <==>
              && Money(value).Some?
              && var x := Money(value).value;
                 && (!x.negative || x.coef == 0) && x.coef < limit * Pow10(x.places)
  {
    hide Money, Quantized;
  }

  lemma HalfUpNear(a: nat, b: nat)
    requires b > 0
    ensures 2 * a - b < 2 * b * HalfUp(a, b) <= 2 * a + b
  {
    var q, r := (2 * a + b) / (2 * b), (2 * a + b) % (2 * b);
    assert 2 * a + b == q * (2 * b) + r;
    assert q * (2 * b) == 2 * b * q;
  }

  /** A number in bounds is kept to the nearest unit, exactly when it has no more places than the column;
      the limit is checked before the rounding, so the column may hold the limit itself, and does if and
      only if the number has more places and is at most half a unit below the limit. */
  lemma BoundedMayReachLimit(value: Value, limit: nat, places: nat)
    requires Money(value).Some? && !Money(value).value.negative
    requires Money(value).value.coef < limit * Pow10(Money(value).value.places)
    ensures var x := Money(value).value;
      var r := Bounded(value, limit, places);
      && r.Some? && r.value <= limit * Pow10(places)
      && if x.places <= places then r.value == x.coef * Pow10(places - x.places) < limit * Pow10(places)
         else
           var unit := Pow10(x.places - places);
           && 2 * x.coef - unit < 2 * unit * r.value <= 2 * x.coef + unit
           && (r.value == limit * Pow10(places) <==> 2 * x.coef + unit >= 2 * (limit * Pow10(x.places)))
  {
    hide Money, HalfUp, Pow10;
    var x := Money(value).value;
    if x.places > places {
      RoundedMayReachLimit(x.coef, x.places, limit, places);
    } else {
      StaysBelow(x.coef, limit, Pow10(x.places), Pow10(places - x.places));
      Pow10Adds(x.places, places - x.places);
    }
  }

  lemma StaysBelow(a: nat, limit: nat, t: nat, more: nat)
    requires a < limit * t && more > 0
    ensures a * more < limit * (t * more)
  {
    assert (a + 1) * more <= (limit * t) * more by { Monotone(more, a + 1, limit * t); }
    assert (limit * t) * more == limit * (t * more);
  }

  lemma RoundedMayReachLimit(coef: nat, from: nat, limit: nat, places: nat)
    requires from > places && coef < limit * Pow10(from)
    ensures var unit := Pow10(from - places);
      var r := HalfUp(coef, unit);
      && 2 * coef - unit < 2 * unit * r <= 2 * coef + unit
      && r <= limit * Pow10(places)
      && (r == limit * Pow10(places) <==> 2 * coef + unit >= 2 * (limit * Pow10(from)))
  {
    hide HalfUp, Pow10;
    var unit, top := Pow10(from - places), limit * Pow10(places);
    HalfUpNear(coef, unit);
    Pow10Adds(places, from - places);
    assert limit * Pow10(from) == top * unit by {
      assert limit * (Pow10(places) * unit) == (limit * Pow10(places)) * unit;
    }
    ReachesTop(coef, unit, top, HalfUp(coef, unit));
  }

  /** For every limit, the number half a cent below it is accepted and becomes the limit. */
  lemma HalfACentBelow(limit: nat)
    requires limit > 0
    ensures var text := Plain(limit - 1) + ".995";
      && Money(Str(text)) == Some(Number(false, 1000 * limit - 5, 3))
      && Bounded(Str(text), limit, 2) == Some(limit * 100)
  {
    hide Kept, WithoutMarks, Count, Cleaned, Grouped, Parse, HasExponent, ValueOf, Pow10;
    var whole, tail := Plain(limit - 1), Three(995);
    ThreeValue(995);
    assert tail == "995" && Plain(limit - 1) + ".995" == whole + ['.'] + tail;
    PlainValue(limit - 1);
    NoEInGrouped(limit - 1, "");
    NoExponent("", whole + ['.'] + tail, "");
    assert "" + (whole + ['.'] + tail) + "" == whole + ['.'] + tail;
    KeptTwice(limit - 1, "", '.', tail);
    DigitsStay(whole);
    CleanedWithMark(whole, '.', tail);
    ParseWithPoint(whole, tail);
    ValueOfBoth(whole, tail);
    FewZeros(limit - 1);
    Thousand();
    BoundedMayReachLimit(Str(whole + ['.'] + tail), limit, 2);
  }

  lemma Thousand()
    ensures Pow10(1) == 10 && Pow10(2) == 100 && Pow10(3) == 1000
  {
    assert Pow10(0) == 1;
  }

  lemma PlainSplits(n: nat, last: nat)
    requires n > 0 && last < 1000
    ensures Plain(1000 * n + last) == Plain(n) + Three(last)
  {
    hide Three, Digits;
    assert (1000 * n + last) / 1000 == n && (1000 * n + last) % 1000 == last;
    assert Grouped(n, "") + "" == Grouped(n, "");
  }

  lemma TenNines()
    ensures Plain(9_999_999_999) == "9999999999"
  {
    assert Three(999) == "999" && Plain(9) == "9";
    hide Grouped, Three;
    PlainSplits(9, 999);
    PlainSplits(9_999, 999);
    PlainSplits(9_999_999, 999);
    assert "9" + "999" == "9999" && "9999" + "999" == "9999999" && "9999999" + "999" == "9999999999";
  }

  /** With the limit of the amount columns. */
  lemma LimitExample()
    ensures Bounded(Str("9999999999.995"), 10_000_000_000, 2) == Some(1_000_000_000_000)
  {
    hide *;
    HalfACentBelow(10_000_000_000);
    TenNines();
    assert "9999999999" + ".995" == "9999999999.995";
  }

  lemma ReachesTop(a: nat, unit: nat, top: nat, r: nat)
    requires unit > 0 && a < top * unit && 2 * a - unit < 2 * unit * r <= 2 * a + unit
    ensures r <= top && (r == top <==> 2 * a + unit >= 2 * (top * unit))
  {
    Monotone(2 * unit, top + 1, r);
    Monotone(2 * unit, r + 1, top);
    assert 2 * unit * (top + 1) == 2 * (top * unit) + 2 * unit;
    assert 2 * unit * (r + 1) == 2 * unit * r + 2 * unit;
    assert 2 * unit * top == 2 * (top * unit);
  }
}
