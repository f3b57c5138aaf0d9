/** Two version uploads that both pass the quota check: the run that breaks the quota. */
module FileRaces {
  import opened FileTable
  import opened FileWorld
  import opened FileRuns
  import opened FolderTree
  import opened Text

  /** Two files of three bytes each, put and finalized. */
  function TwoFiles(o: Sub): World {
    World([Some(FreshRow(o, A, 3, 0)), Some(FreshRow(o, B, 3, 0))],
          map[0 := Object([3], true), 1 := Object([3], true)], map[], map[])
  }

  const A := Place(None, "a")
  const B := Place(None, "b")

  function FreshRow(o: Sub, place: Place, size: nat, now: Stamp): Row {
    Row(o, place, size, true, now, false, [Version(1, 0, size)], Some(0))
  }

  /** An upload of a new file that nothing comes between, from the reservation to the end. */
  lemma UploadOne(w: World, r: RequestId, o: Sub, place: Place, size: nat, now: Stamp, quota: nat)
    requires r !in w.uploads && |w.rows| !in w.objects && UsedBytes(w.rows, o) + size <= quota
    requires !NameClash(w.rows, |w.rows|, FreshRow(o, place, size, now))
    ensures var w1 := Step(w, Reserve(r, o, place, size, now), quota);
      Enabled(w1, Put(r, true))
      && var w2 := Step(w1, Put(r, true), quota);
      Enabled(w2, Finalize(r))
      && Step(w2, Finalize(r), quota)
         == w.(rows := w.rows + [Some(FreshRow(o, place, size, now))],
               objects := w.objects[|w.rows| := Object([size], true)])
  {
    hide UsedBytes;
    var f := |w.rows|;
    var w1 := Step(w, Reserve(r, o, place, size, now), quota);
    var w2 := Step(w1, Put(r, true), quota);
    assert w2.uploads - {r} == w.uploads;
    assert w2.objects == w.objects[f := Object([size], true)] by {
      assert [] + [size] == [size];
    }
    var row := w2.rows[f].value;
    assert row.versions + [Version(1, 0, size)] == [Version(1, 0, size)];
    assert Finalized(w2.rows, f, 0) == w.rows + [Some(FreshRow(o, place, size, now))];
  }

  function UploadOf(r: RequestId, o: Sub, place: Place): seq<Action> {
    [Reserve(r, o, place, 3, 0), Put(r, true), Finalize(r)]
  }

  lemma TwoFilesAreReached(o: Sub)
    ensures Possible(EMPTY, UploadOf(0, o, A) + UploadOf(1, o, B), 9)
    ensures Exec(EMPTY, UploadOf(0, o, A) + UploadOf(1, o, B), 9) == TwoFiles(o)
  {
    var row, other := FreshRow(o, A, 3, 0), FreshRow(o, B, 3, 0);
    var one := World([Some(row)], map[0 := Object([3], true)], map[], map[]);
    OneUsed(row, o);
    hide Step, UsedBytes, Possible, Exec;
    UploadOne(EMPTY, 0, o, A, 3, 0, 9);
    assert [] + [Some(row)] == [Some(row)];
    assert Lower(A.name)[0] != Lower(B.name)[0];
    UploadOne(one, 1, o, B, 3, 0, 9);
    assert [Some(row)] + [Some(other)] == TwoFiles(o).rows;
    NoSteps(EMPTY, 9);
    ThreeMore(EMPTY, [], Reserve(0, o, A, 3, 0), Put(0, true), Finalize(0), 9);
    assert [] + UploadOf(0, o, A) == UploadOf(0, o, A);
    ThreeMore(EMPTY, UploadOf(0, o, A), Reserve(1, o, B, 3, 0), Put(1, true), Finalize(1), 9);
  }

  lemma OneUsed(a: Row, o: Sub)
    ensures UsedBytes([], o) == 0 && UsedBytes([Some(a)], o) == SizeFor(Some(a), o)
  {
    assert [Some(a)][..0] == [];
  }

  lemma ThreeMore(w: World, run: seq<Action>, a: Action, b: Action, c: Action, quota: nat)
    requires Possible(w, run, quota) && Enabled(Exec(w, run, quota), a)
    requires Enabled(Step(Exec(w, run, quota), a, quota), b)
    requires Enabled(Step(Step(Exec(w, run, quota), a, quota), b, quota), c)
    ensures Possible(w, run + [a, b, c], quota)
    ensures Exec(w, run + [a, b, c], quota) == Step(Step(Step(Exec(w, run, quota), a, quota), b, quota), c, quota)
  {
    hide Step, Enabled, Possible, Exec;
    ExecSnoc(w, run, a, quota);
    ExecSnoc(w, run + [a], b, quota);
    ExecSnoc(w, run + [a] + [b], c, quota);
    assert run + [a] + [b] + [c] == run + [a, b, c];
  }

  lemma ExecSnoc(w: World, run: seq<Action>, a: Action, quota: nat)
    requires Possible(w, run, quota) && Enabled(Exec(w, run, quota), a)
    ensures Possible(w, run + [a], quota) && Exec(w, run + [a], quota) == Step(Exec(w, run, quota), a, quota)
  {
    hide Step, Enabled;
    assert (run + [a])[..|run|] == run;
  }

  /** From there, two version uploads of the same owner: both pass their check against a quota of nine
      bytes, and when both have landed twelve are used. */
  lemma RacingVersionsExceedQuota(o: Sub)
    ensures var w0 := TwoFiles(o);
      && WithinQuota(w0, 9)
      && Enabled(w0, CheckVersion(2, 0, 6))
      && var w1 := Step(w0, CheckVersion(2, 0, 6), 9);
      Enabled(w1, CheckVersion(3, 1, 6))
      && var w2 := Step(w1, CheckVersion(3, 1, 6), 9);
      w2 == w0.(uploads := map[2 := Checked(0, 6), 3 := Checked(1, 6)])
      && var w3 := Step(w2, PutVersion(2, true), 9);
      Enabled(w3, PutVersion(3, true))
      && var w4 := Step(w3, PutVersion(3, true), 9);
      Enabled(w4, AddVersion(2))
      && var w5 := Step(w4, AddVersion(2), 9);
      Enabled(w5, AddVersion(3)) && UsedBytes(Step(w5, AddVersion(3), 9).rows, o) == 12
  {
    var first, second := FreshRow(o, A, 3, 0), FreshRow(o, B, 3, 0);
    SumOfTwo(LongRow(o, A), LongRow(o, B), o);
    forall other ensures UsedBytes(TwoFiles(o).rows, other) <= 6 {
      SumOfTwo(first, second, other);
    }
    SumOfTwo(first, second, o);
    hide UsedBytes, Step, Enabled;
    BothCheck(o);
    BothWrite(o);
    BothLand(o);
  }

  lemma BothLand(o: Sub)
    ensures Enabled(BothWritten(o), AddVersion(2))
      && var w5 := Step(BothWritten(o), AddVersion(2), 9);
      Enabled(w5, AddVersion(3))
      && Step(w5, AddVersion(3), 9).rows == [Some(LongRow(o, A)), Some(LongRow(o, B))]
  {
    assert [Version(1, 0, 3)][..0] == [] && Highest([Version(1, 0, 3)]) == 1;
    assert WithVersion(FreshRow(o, A, 3, 0), 1, 6) == LongRow(o, A);
    assert WithVersion(FreshRow(o, B, 3, 0), 1, 6) == LongRow(o, B);
    hide UsedBytes, WithVersion, Highest, PutBytes;
    var w5 := Step(BothWritten(o), AddVersion(2), 9);
    assert w5.rows == [Some(LongRow(o, A)), Some(FreshRow(o, B, 3, 0))] && w5.uploads[3] == Appending(1, 6, 1);
  }

  function LongRow(o: Sub, place: Place): Row {
    Row(o, place, 6, true, 0, false, [Version(1, 0, 3), Version(2, 1, 6)], Some(1))
  }

  function BothWritten(o: Sub): World {
    World(TwoFiles(o).rows, map[0 := Object([3, 6], true), 1 := Object([3, 6], true)],
          map[2 := Appending(0, 6, 1), 3 := Appending(1, 6, 1)], map[])
  }

  lemma BothCheck(o: Sub)
    requires UsedBytes(TwoFiles(o).rows, o) == 6
    ensures var w1 := Step(TwoFiles(o), CheckVersion(2, 0, 6), 9);
      Enabled(w1, CheckVersion(3, 1, 6))
      && Step(w1, CheckVersion(3, 1, 6), 9) == TwoFiles(o).(uploads := map[2 := Checked(0, 6), 3 := Checked(1, 6)])
  {
    hide UsedBytes;
  }

  lemma BothWrite(o: Sub)
    ensures var w2 := TwoFiles(o).(uploads := map[2 := Checked(0, 6), 3 := Checked(1, 6)]);
      var w3 := Step(w2, PutVersion(2, true), 9);
      Enabled(w3, PutVersion(3, true)) && Step(w3, PutVersion(3, true), 9) == BothWritten(o)
  {
    hide UsedBytes;
    assert [3] + [6] == [3, 6];
  }

  lemma SumOfTwo(a: Row, b: Row, o: Sub)
    ensures UsedBytes([Some(a), Some(b)], o) == SizeFor(Some(a), o) + SizeFor(Some(b), o)
  {
    assert [Some(a), Some(b)][..1] == [Some(a)] && [Some(a)][..0] == [];
    assert UsedBytes([Some(a)], o) == UsedBytes([], o) + SizeFor(Some(a), o);
  }
}
