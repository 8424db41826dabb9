// display-summary-sidecar.ts: the append-only summary log, any of whose appends may be torn.

module SummaryLog {
  import opened Options
  import opened Lines

  /** Renderer ids and summaries are only stored and compared. */
  type Id = int
  type Summary = int

  datatype Record = Record(id: Id, summary: Summary)

  /**
   * The log's line format for one session: how a record is written, which lines read back as one, and which mark
   * the file as ours.
   */
  datatype Format = Format(encode: Record -> string, parse: string -> Option<Record>, marks: string -> bool,
      blank: string -> bool)

  /**
   * A record line reads back as its record and marks the file; no strict part of it parses as anything;
   * it holds no newline (section 7 of RFC 8259) and is not blank; blank lines are neither records nor marks.
   */
  ghost predicate Sound(f: Format) {
    && (forall r :: f.parse(f.encode(r)) == Some(r) && f.marks(f.encode(r)) && '\n' !in f.encode(r))
    && (forall r, n: nat | n < |f.encode(r)| :: f.parse(f.encode(r)[..n]) == None && !f.marks(f.encode(r)[..n]))
    && (forall line | f.blank(line) :: f.parse(line) == None && !f.marks(line))
    && f.blank("")
  }

  // ----- what a file holds

  function Rows(f: Format, lines: seq<string>): seq<Record> {
    if lines == [] then []
    else
      var last := lines[|lines| - 1];
      Rows(f, lines[..|lines| - 1]) + if f.parse(last).Some? then [f.parse(last).value] else []
  }

  function Records(f: Format, data: string): seq<Record> {
    Rows(f, Split(data, '\n'))
  }

  /** Later records win. */
  function LastWriter(rs: seq<Record>): map<Id, Summary> {
    if rs == [] then map[] else LastWriter(rs[..|rs| - 1])[rs[|rs| - 1].id := rs[|rs| - 1].summary]
  }

  lemma {:induction false} LastWriterStep(rs: seq<Record>, r: Record)
    ensures LastWriter(rs + [r]) == LastWriter(rs)[r.id := r.summary]
  {
    assert (rs + [r])[..|rs|] == rs;
  }

  predicate AllBlank(f: Format, lines: seq<string>) {
    forall k | 0 <= k < |lines| :: f.blank(lines[k])
  }

  predicate SomeMarks(f: Format, lines: seq<string>) {
    exists k :: 0 <= k < |lines| && f.marks(lines[k])
  }

  /** The file is ours to append to: nothing but blanks, or some line that marks it. */
  predicate Usable(f: Format, data: string) {
    AllBlank(f, Split(data, '\n')) || Owned(f, data)
  }

  /** Some line marks the file as ours. */
  predicate Owned(f: Format, data: string) {
    SomeMarks(f, Split(data, '\n'))
  }

  lemma {:induction false} RowsStep(f: Format, lines: seq<string>, i: nat)
    requires i < |lines|
    ensures Rows(f, lines[..i + 1]) ==
            if f.parse(lines[i]).Some? then Rows(f, lines[..i]) + [f.parse(lines[i]).value] else Rows(f, lines[..i])
  {
    assert lines[..i + 1][..i] == lines[..i];
  }

  /** What a load keeps of the records that read back: the retained ids. */
  function Retained(m: map<Id, Summary>, ids: set<Id>): map<Id, Summary> {
    map id | id in m && id in ids :: m[id]
  }

  lemma {:induction false} RetainedStep(rs: seq<Record>, r: Record, ids: set<Id>)
    ensures var before, now := Retained(LastWriter(rs), ids), Retained(LastWriter(rs + [r]), ids);
            now == if r.id in ids then before[r.id := r.summary] else before
  {
    LastWriterStep(rs, r);
  }

  datatype Loaded = Loaded(present: bool, usable: bool, summaries: map<Id, Summary>)

  /**
   * `parseLines` and the load loop: a foreign file gives nothing, a missing one may be started, blank lines are
   * skipped.
   */
  method LoadSidecar(f: Format, file: Option<string>, ids: set<Id>) returns (loaded: Loaded)
    requires Sound(f)
    ensures loaded.present <==> file.Some?
    ensures loaded.usable <==> file.None? || Usable(f, file.value)
    ensures loaded.summaries ==
            if file.Some? && loaded.usable then Retained(LastWriter(Records(f, file.value)), ids) else map[]
  {
    if file.None? {
      return Loaded(false, true, map[]);
    }
    var lines := Split(file.value, '\n');
    if !Usable(f, file.value) {
      return Loaded(true, false, map[]);
    }
    var summaries: map<Id, Summary> := map[];
    var i := 0;
    while i < |lines|
      invariant 0 <= i <= |lines| && summaries == Retained(LastWriter(Rows(f, lines[..i])), ids)
    {
      RowsStep(f, lines, i);
      if !f.blank(lines[i]) {
        var row := f.parse(lines[i]);
        if row.Some? {
          RetainedStep(Rows(f, lines[..i]), row.value, ids);
          if row.value.id in ids {
            summaries := summaries[row.value.id := row.value.summary];
          }
        }
      } else {
        assert f.parse(lines[i]) == None;
      }
      i := i + 1;
    }
    assert lines[..|lines|] == lines;
    return Loaded(true, true, summaries);
  }

  // ----- one append

  function Boundary(data: string): string {
    if data != "" && data[|data| - 1] != '\n' then "\n" else ""
  }

  /** The lines of a batch, each terminated. */
  function Block(f: Format, batch: seq<Record>): string {
    if batch == [] then "" else f.encode(batch[0]) + ['\n'] + Block(f, batch[1..])
  }

  /** What lands of an append cut after `n` units. */
  function Cut(f: Format, data: string, batch: seq<Record>, n: nat): string {
    var text := Boundary(data) + Block(f, batch);
    if n <= |text| then text[..n] else text
  }

  /** An append of which only the first `n` units land. */
  function Append(f: Format, data: string, batch: seq<Record>, n: nat): string {
    data + Cut(f, data, batch, n)
  }

  /** How many records of a block land whole when its first `n` units do; the newline after the last need not. */
  function Landed(f: Format, batch: seq<Record>, n: nat): (k: nat)
    ensures k <= |batch|
  {
    if batch == [] || n < |f.encode(batch[0])| then 0
    else if n == |f.encode(batch[0])| then 1
    else 1 + Landed(f, batch[1..], n - |f.encode(batch[0])| - 1)
  }

  /** How many records an append cut after `n` units leaves whole: none while the cut falls inside the boundary. */
  function LandedOf(f: Format, data: string, batch: seq<Record>, n: nat): (k: nat)
    ensures k <= |batch|
  {
    var m := |Cut(f, data, batch, n)|;
    if m < |Boundary(data)| then 0 else Landed(f, batch, m - |Boundary(data)|)
  }

  lemma {:induction false} BlockStep(f: Format, batch: seq<Record>, k: nat)
    requires 0 < k <= |batch|
    ensures |Block(f, batch[..k])| == |f.encode(batch[0])| + 1 + |Block(f, batch[1..][..k - 1])|
  {
    assert batch[..k][1..] == batch[1..][..k - 1];
  }

  /**
   * The count is the greatest that fits: its records and the newlines between them are within the cut, and one
   * more is not.
   */
  lemma {:induction false} LandedExactly(f: Format, batch: seq<Record>, n: nat)
    ensures var k := Landed(f, batch, n);
            && (k > 0 ==> |Block(f, batch[..k])| - 1 <= n)
            && (k < |batch| ==> n < |Block(f, batch[..k + 1])| - 1)
  {
    if batch != [] {
      var k, first := Landed(f, batch, n), |f.encode(batch[0])|;
      if n <= first {
        assert batch[1..][..0] == [];
        BlockStep(f, batch, 1);
        if k < |batch| && k == 1 {
          BlockStep(f, batch, 2);
          BlockStep(f, batch[1..], 1);
        }
      } else {
        LandedExactly(f, batch[1..], n - first - 1);
        BlockStep(f, batch, k);
        if k < |batch| {
          BlockStep(f, batch, k + 1);
        }
        assert batch[1..][..0] == [];
      }
    }
  }

  lemma {:induction false} RowsConcat(f: Format, a: seq<string>, b: seq<string>)
    ensures Rows(f, a + b) == Rows(f, a) + Rows(f, b)
  {
    if b == [] {
      assert a + b == a;
    } else {
      assert (a + b)[..|a + b| - 1] == a + b[..|b| - 1];
      RowsConcat(f, a, b[..|b| - 1]);
    }
  }

  lemma {:induction false} RowsOfOne(f: Format, line: string)
    ensures Rows(f, [line]) == if f.parse(line).Some? then [f.parse(line).value] else []
  {
    assert [line][..0] == [];
  }

  /** A file of whole lines, then more: the lines read the same. */
  lemma {:induction false} RecordsAfterLines(f: Format, data: string, rest: string)
    requires Sound(f) && Whole(data, '\n')
    ensures Records(f, data + rest) == Records(f, data) + Records(f, rest)
  {
    LinesOfConcat(data, rest, '\n');
    RowsConcat(f, LinesOf(data, '\n'), Split(rest, '\n'));
    RecordsOfLines(f, data);
  }

  lemma {:induction false} RecordsOfLines(f: Format, data: string)
    requires Sound(f) && Whole(data, '\n')
    ensures Records(f, data) == Rows(f, LinesOf(data, '\n'))
  {
    LinesOfConcat(data, "", '\n');
    assert data + "" == data && Split("", '\n') == [""];
    RowsConcat(f, LinesOf(data, '\n'), [""]);
    RowsOfOne(f, "");
    assert f.blank("");
  }

  /** Past a line boundary a file reads as what was there, then what follows: nothing before can damage it. */
  lemma {:induction false} RecordsAfterBoundary(f: Format, data: string, rest: string)
    requires Sound(f)
    ensures Records(f, data + Boundary(data) + rest) == Records(f, data) + Records(f, rest)
  {
    if Boundary(data) == "" {
      assert data + Boundary(data) + rest == data + rest;
      RecordsAfterLines(f, data, rest);
    } else {
      assert data + Boundary(data) + rest == data + ['\n'] + rest;
      SplitAt(data, rest, '\n');
      RowsConcat(f, Split(data, '\n'), Split(rest, '\n'));
    }
  }

  /** Part of a line that may be a whole one. */
  lemma {:induction false} TornLine(f: Format, r: Record, n: nat)
    requires Sound(f) && n <= |f.encode(r)|
    ensures Records(f, f.encode(r)[..n]) == if n == |f.encode(r)| then [r] else []
  {
    var part := f.encode(r)[..n];
    SplitWhole(part, '\n');
    RowsOfOne(f, part);
    if n == |f.encode(r)| {
      assert part == f.encode(r);
    }
  }

  lemma {:induction false} LineThen(f: Format, r: Record, rest: string)
    requires Sound(f)
    ensures Records(f, f.encode(r) + ['\n'] + rest) == [r] + Records(f, rest)
  {
    SplitAt(f.encode(r), rest, '\n');
    SplitWhole(f.encode(r), '\n');
    RowsConcat(f, [f.encode(r)], Split(rest, '\n'));
    RowsOfOne(f, f.encode(r));
  }

  /** A torn block reads as the records that landed whole. */
  lemma {:induction false} TornBlock(f: Format, batch: seq<Record>, n: nat)
    requires Sound(f) && n <= |Block(f, batch)|
    ensures Records(f, Block(f, batch)[..n]) == batch[..Landed(f, batch, n)]
    decreases |batch|
  {
    if batch == [] {
      RecordsOfLines(f, "");
    } else {
      var line, rest := f.encode(batch[0]), Block(f, batch[1..]);
      if n <= |line| {
        assert Block(f, batch)[..n] == line[..n];
        TornLine(f, batch[0], n);
      } else {
        var m := n - |line| - 1;
        assert Block(f, batch)[..n] == line + ['\n'] + rest[..m];
        TornBlock(f, batch[1..], m);
        LineThen(f, batch[0], rest[..m]);
        assert batch[..Landed(f, batch, n)] == [batch[0]] + batch[1..][..Landed(f, batch[1..], m)];
      }
    }
  }

  /**
   * What an append's cut leaves: nothing past the data while inside the boundary, else the boundary and a part
   * of the block.
   */
  lemma {:induction false} AppendSplits(f: Format, data: string, batch: seq<Record>, n: nat)
    ensures var boundary, cut := Boundary(data), Cut(f, data, batch, n);
            if |cut| < |boundary| then cut == "" && Append(f, data, batch, n) == data
            else
              var m := |cut| - |boundary|;
              && m <= |Block(f, batch)| && cut == boundary + Block(f, batch)[..m]
              && Append(f, data, batch, n) == data + boundary + Block(f, batch)[..m]
  {
  }

  /** An append cut at most one unit short leaves every record whole: the last newline may miss. */
  lemma {:induction false} WholeAppendLands(f: Format, data: string, batch: seq<Record>, n: nat)
    requires n > 0 && n + 1 >= |Boundary(data)| + |Block(f, batch)|
    ensures LandedOf(f, data, batch, n) == |batch|
  {
    LastNewlineMayMiss(f, batch, |Cut(f, data, batch, n)| - |Boundary(data)|);
  }

  lemma {:induction false} TornRecords(f: Format, data: string, batch: seq<Record>, m: nat)
    requires Sound(f) && m <= |Block(f, batch)|
    ensures Records(f, data + Boundary(data) + Block(f, batch)[..m]) == Records(f, data) + batch[..Landed(f, batch, m)]
  {
    RecordsAfterBoundary(f, data, Block(f, batch)[..m]);
    TornBlock(f, batch, m);
  }

  /** What a torn append adds: exactly the records the cut left whole, and nothing else changes. */
  lemma {:induction false} TornAppend(f: Format, data: string, batch: seq<Record>, n: nat)
    requires Sound(f)
    ensures Records(f, Append(f, data, batch, n)) == Records(f, data) + batch[..LandedOf(f, data, batch, n)]
    ensures n + 1 >= |Boundary(data)| + |Block(f, batch)| && n > 0 ==> LandedOf(f, data, batch, n) == |batch|
  {
    AppendSplits(f, data, batch, n);
    if |Cut(f, data, batch, n)| >= |Boundary(data)| {
      TornRecords(f, data, batch, |Cut(f, data, batch, n)| - |Boundary(data)|);
    }
    if n > 0 && n + 1 >= |Boundary(data)| + |Block(f, batch)| {
      WholeAppendLands(f, data, batch, n);
    }
  }

  /** All but the last newline is enough for a whole block. */
  lemma {:induction false} LastNewlineMayMiss(f: Format, batch: seq<Record>, n: nat)
    requires |Block(f, batch)| - 1 <= n <= |Block(f, batch)|
    ensures Landed(f, batch, n) == |batch|
  {
    if |batch| > 1 {
      LastNewlineMayMiss(f, batch[1..], n - |f.encode(batch[0])| - 1);
    }
  }

  /** Either nothing more, or more whole lines: what stood on a terminated or interrupted line still does. */
  lemma {:induction false} LinesKept(data: string, landed: string, k: nat)
    requires k < |Split(data, '\n')| && (k < |Split(data, '\n')| - 1 || landed == "" || landed[0] == '\n')
    ensures k < |Split(data + landed, '\n')| && Split(data + landed, '\n')[k] == Split(data, '\n')[k]
  {
    if landed == "" {
      assert data + landed == data;
    } else if landed[0] == '\n' {
      assert data + landed == data + ['\n'] + landed[1..];
      SplitAt(data, landed[1..], '\n');
    } else {
      SplitGrows(data, landed, k);
    }
  }

  lemma {:induction false} SplitGrows(data: string, landed: string, k: nat)
    requires k < |Split(data, '\n')| - 1
    ensures k < |Split(data + landed, '\n')| && Split(data + landed, '\n')[k] == Split(data, '\n')[k]
  {
    assert (data + landed)[1..] == data[1..] + landed;
    if data[0] != '\n' {
      SplitGrows(data[1..], landed, k);
    } else if k > 0 {
      SplitGrows(data[1..], landed, k - 1);
    }
  }

  lemma {:induction false} LastPieceOfLines(data: string)
    requires data != "" && data[|data| - 1] == '\n'
    ensures Split(data, '\n')[|Split(data, '\n')| - 1] == ""
  {
    var body := data[..|data| - 1];
    assert data == body + ['\n'] + "";
    SplitAt(body, "", '\n');
  }

  /** A file with one of our lines stays ours, whatever is appended and wherever it tears. */
  lemma {:induction false} StaysOwned(f: Format, data: string, batch: seq<Record>, n: nat)
    requires Sound(f) && Owned(f, data)
    ensures Owned(f, Append(f, data, batch, n))
  {
    var k :| 0 <= k < |Split(data, '\n')| && f.marks(Split(data, '\n')[k]);
    var landed := Cut(f, data, batch, n);
    assert !f.marks("") by {
      assert f.blank("");
    }
    if data != "" && data[|data| - 1] == '\n' {
      LastPieceOfLines(data);
    }
    LinesKept(data, landed, k);
    assert f.marks(Split(data + landed, '\n')[k]);
  }

  // ----- the first append

  lemma {:induction false} LinesJoin(f: Format, a: seq<string>, b: seq<string>)
    ensures AllBlank(f, a + b) <==> AllBlank(f, a) && AllBlank(f, b)
    ensures SomeMarks(f, a + b) <==> SomeMarks(f, a) || SomeMarks(f, b)
  {
    assert forall k | 0 <= k < |a| :: (a + b)[k] == a[k];
    assert forall k | 0 <= k < |b| :: (a + b)[|a| + k] == b[k];
  }

  /** The lines of a file past a line boundary: blank, or marked, by either part. */
  lemma {:induction false} PastBoundary(f: Format, data: string, rest: string)
    requires Sound(f)
    ensures var whole := Split(data + Boundary(data) + rest, '\n');
            && (AllBlank(f, whole) <==> AllBlank(f, Split(data, '\n')) && AllBlank(f, Split(rest, '\n')))
            && (SomeMarks(f, whole) <==> SomeMarks(f, Split(data, '\n')) || SomeMarks(f, Split(rest, '\n')))
  {
    if Boundary(data) == "" {
      assert data + Boundary(data) + rest == data + rest;
      LinesOfConcat(data, rest, '\n');
      LinesJoin(f, LinesOf(data, '\n'), Split(rest, '\n'));
      LinesOfConcat(data, "", '\n');
      assert data + "" == data && Split("", '\n') == [""];
      LinesJoin(f, LinesOf(data, '\n'), [""]);
      assert f.blank("") && [""][0] == "";
    } else {
      assert data + Boundary(data) + rest == data + ['\n'] + rest;
      SplitAt(data, rest, '\n');
      LinesJoin(f, Split(data, '\n'), Split(rest, '\n'));
    }
  }

  /** A torn block marks the file exactly when a whole record is in it. */
  lemma {:induction false} TornBlockMarks(f: Format, batch: seq<Record>, n: nat)
    requires Sound(f) && n <= |Block(f, batch)|
    ensures SomeMarks(f, Split(Block(f, batch)[..n], '\n')) <==> Landed(f, batch, n) > 0
  {
    if batch == [] {
      assert Split("", '\n') == [""] && f.blank("");
    } else {
      var line, rest := f.encode(batch[0]), Block(f, batch[1..]);
      if n <= |line| {
        assert Block(f, batch)[..n] == line[..n];
        SplitWhole(line[..n], '\n');
        assert [line[..n]][0] == line[..n] && line[..|line|] == line;
      } else {
        assert Block(f, batch)[..n] == line + ['\n'] + rest[..n - |line| - 1];
        SplitAt(line, rest[..n - |line| - 1], '\n');
        SplitWhole(line, '\n');
        LinesJoin(f, [line], Split(rest[..n - |line| - 1], '\n'));
        assert [line][0] == line;
      }
    }
  }

  lemma {:induction false} BlankMarksNothing(f: Format, lines: seq<string>)
    requires Sound(f) && AllBlank(f, lines)
    ensures !SomeMarks(f, lines)
  {
  }

  /** A file of blanks stays ours after an append exactly when a whole record landed, or nothing but blanks did. */
  lemma {:induction false} FirstAppendUsable(f: Format, data: string, batch: seq<Record>, n: nat)
    requires Sound(f) && AllBlank(f, Split(data, '\n'))
    ensures Usable(f, Append(f, data, batch, n)) <==>
            LandedOf(f, data, batch, n) > 0 || AllBlank(f, Split(Cut(f, data, batch, n), '\n'))
  {
    var boundary, cut := Boundary(data), Cut(f, data, batch, n);
    BlankMarksNothing(f, Split(data, '\n'));
    AppendSplits(f, data, batch, n);
    if |cut| < |boundary| {
      assert Split("", '\n') == [""] && f.blank("");
    } else {
      var m := |cut| - |boundary|;
      PastBoundary(f, data, Block(f, batch)[..m]);
      TornBlockMarks(f, batch, m);
      BlanksAlone(f, boundary, Block(f, batch)[..m]);
    }
  }

  lemma {:induction false} BlanksAlone(f: Format, boundary: string, part: string)
    requires Sound(f) && (boundary == "" || boundary == "\n")
    ensures AllBlank(f, Split(boundary + part, '\n')) <==> AllBlank(f, Split(part, '\n'))
  {
    if boundary == "" {
      assert boundary + part == part;
    } else {
      assert boundary + part == "" + ['\n'] + part;
      SplitAt("", part, '\n');
      LinesJoin(f, Split("", '\n'), Split(part, '\n'));
      assert Split("", '\n') == [""] && f.blank("");
    }
  }

  // ----- a run of appends

  datatype Write = Write(batch: seq<Record>, landed: nat)

  /** Each append rereads the file and stops for good when it is not ours. */
  function Written(f: Format, data: string, writes: seq<Write>): string {
    if writes == [] then data
    else
      var before, w := Written(f, data, writes[..|writes| - 1]), writes[|writes| - 1];
      if Usable(f, before) then Append(f, before, w.batch, w.landed) else before
  }

  /** What each append leaves whole of its batch, given the file it found. */
  function Contribution(f: Format, data: string, writes: seq<Write>): seq<Record> {
    if writes == [] then []
    else
      var init, w := writes[..|writes| - 1], writes[|writes| - 1];
      Contribution(f, data, init) + w.batch[..LandedOf(f, Written(f, data, init), w.batch, w.landed)]
  }

  /**
   * Once one own line is whole on disk: after any sequence of appends, each torn anywhere or not at all,
   * the file holds the old records and, append by append, exactly those its cut left whole; loading gives
   * last-writer-wins over them.
   */
  lemma {:induction false} LoadsWhatLanded(f: Format, data: string, writes: seq<Write>)
    requires Sound(f) && Owned(f, data)
    ensures Owned(f, Written(f, data, writes))
    ensures Records(f, Written(f, data, writes)) == Records(f, data) + Contribution(f, data, writes)
    ensures LastWriter(Records(f, Written(f, data, writes)))
            == LastWriter(Records(f, data)) + LastWriter(Contribution(f, data, writes))
  {
    RecordsLanded(f, data, writes);
    LastWriterConcat(Records(f, data), Contribution(f, data, writes));
  }

  lemma {:induction false} RecordsLanded(f: Format, data: string, writes: seq<Write>)
    requires Sound(f) && Owned(f, data)
    ensures Owned(f, Written(f, data, writes))
    ensures Records(f, Written(f, data, writes)) == Records(f, data) + Contribution(f, data, writes)
  {
    if writes != [] {
      var init, w := writes[..|writes| - 1], writes[|writes| - 1];
      var before := Written(f, data, init);
      RecordsLanded(f, data, init);
      StaysOwned(f, before, w.batch, w.landed);
      TornAppend(f, before, w.batch, w.landed);
      assert Written(f, data, writes) == Append(f, before, w.batch, w.landed);
      SeqAssoc(Records(f, data), Contribution(f, data, init), w.batch[..LandedOf(f, before, w.batch, w.landed)]);
    }
  }

  lemma {:induction false} SeqAssoc<T>(a: seq<T>, b: seq<T>, c: seq<T>)
    ensures (a + b) + c == a + (b + c)
  {
  }

  /** A file that is not ours is never written, whatever is asked of the log later. */
  lemma {:induction false} UnusableStays(f: Format, data: string, writes: seq<Write>)
    requires !Usable(f, data)
    ensures Written(f, data, writes) == data
  {
    if writes != [] {
      UnusableStays(f, data, writes[..|writes| - 1]);
    }
  }

  /**
   * A first append to a file of blanks that tore inside its first record, past some non-blank, ends the log for
   * good.
   */
  lemma {:induction false} TornFirstRecordDisables(f: Format, data: string, batch: seq<Record>, n: nat,
          writes: seq<Write>)
    requires Sound(f) && AllBlank(f, Split(data, '\n'))
    requires LandedOf(f, data, batch, n) == 0 && !AllBlank(f, Split(Cut(f, data, batch, n), '\n'))
    ensures Written(f, Append(f, data, batch, n), writes) == Append(f, data, batch, n)
  {
    FirstAppendUsable(f, data, batch, n);
    UnusableStays(f, Append(f, data, batch, n), writes);
  }

  // ----- the in-memory side

  lemma {:induction false} LastWriterConcat(a: seq<Record>, b: seq<Record>)
    ensures LastWriter(a + b) == LastWriter(a) + LastWriter(b)
  {
    if b == [] {
      assert a + b == a;
    } else {
      assert (a + b)[..|a + b| - 1] == a + b[..|b| - 1];
      LastWriterConcat(a, b[..|b| - 1]);
    }
  }

  /** The records an append writes: those whose ids the conversation still retains. */
  function Eligible(rs: seq<Record>, ids: set<Id>): seq<Record> {
    if rs == [] then []
    else
      var last := rs[|rs| - 1];
      if last.id in ids then Eligible(rs[..|rs| - 1], ids) + [last] else Eligible(rs[..|rs| - 1], ids)
  }

  /** Filtering by retained ids takes or leaves each record by itself and keeps the order. */
  lemma {:induction false} EligibleParts(a: seq<Record>, r: Record, b: seq<Record>, ids: set<Id>)
    ensures Eligible(a + [r] + b, ids) == Eligible(a, ids) + (if r.id in ids then [r] else []) + Eligible(b, ids)
  {
    if b == [] {
      assert a + [r] + b == a + [r] && (a + [r])[..|a|] == a;
    } else {
      var init, last := b[..|b| - 1], b[|b| - 1];
      EligibleParts(a, r, init, ids);
      assert a + [r] + b == (a + [r] + init) + [last];
      assert (a + [r] + b)[..|a + [r] + init|] == a + [r] + init;
    }
  }

  lemma {:induction false} EligibleLastWriter(rs: seq<Record>, ids: set<Id>)
    ensures LastWriter(Eligible(rs, ids)) == Retained(LastWriter(rs), ids)
  {
    if rs != [] {
      EligibleLastWriter(rs[..|rs| - 1], ids);
      LastWriterStep(Eligible(rs[..|rs| - 1], ids), rs[|rs| - 1]);
    }
  }

  /** Whatever part of a batch lands, only the batch's own ids are touched. */
  lemma {:induction false} PartTouchesOwnIds(rs: seq<Record>, ids: set<Id>, n: nat)
    requires n <= |Eligible(rs, ids)|
    ensures LastWriter(Eligible(rs, ids)[..n]).Keys <= LastWriter(rs).Keys * ids
  {
    EligibleLastWriter(rs, ids);
    assert Eligible(rs, ids) == Eligible(rs, ids)[..n] + Eligible(rs, ids)[n..];
    LastWriterConcat(Eligible(rs, ids)[..n], Eligible(rs, ids)[n..]);
  }

  function Flat(batches: seq<seq<Record>>): seq<Record> {
    if batches == [] then [] else batches[0] + Flat(batches[1..])
  }

  lemma {:induction false} FlatOnly(batches: seq<seq<Record>>, batch: seq<Record>)
    ensures Flat(batches + [batch]) == Flat(batches) + batch
  {
    if batches == [] {
      assert Flat([batch]) == batch + Flat([]) == batch;
    } else {
      assert (batches + [batch])[1..] == batches[1..] + [batch];
      FlatOnly(batches[1..], batch);
    }
  }

  lemma {:induction false} FlatAppend(batches: seq<seq<Record>>, batch: seq<Record>)
    ensures LastWriter(Flat(batches + [batch])) == LastWriter(Flat(batches)) + LastWriter(batch)
  {
    FlatOnly(batches, batch);
    LastWriterConcat(Flat(batches), batch);
  }

  /** The candidates a sync restores: retained, and neither live nor restored before. */
  function ToReplay(candidates: seq<Record>, ids: set<Id>, settled: set<Id>): (m: map<Id, Summary>)
    ensures m.Keys !! settled && m.Keys <= ids
  {
    if candidates == [] then map[]
    else
      var before, c := ToReplay(candidates[..|candidates| - 1], ids, settled), candidates[|candidates| - 1];
      if c.id in ids && c.id !in settled && c.id !in before then before[c.id := c.summary] else before
  }

  /** The first candidate of this id. */
  predicate FirstCandidate(candidates: seq<Record>, k: nat, id: Id) {
    k < |candidates| && candidates[k].id == id && forall i | 0 <= i < k :: candidates[i].id != id
  }

  /** A sync restores exactly the retained ids among the candidates not settled yet, each as its first candidate. */
  lemma {:induction false} ReplayExactly(candidates: seq<Record>, ids: set<Id>, settled: set<Id>, id: Id)
    ensures var m := ToReplay(candidates, ids, settled);
            id in m <==> id in ids && id !in settled && exists k: nat :: FirstCandidate(candidates, k, id)
    ensures forall k: nat | FirstCandidate(candidates, k, id) && id in ToReplay(candidates, ids, settled) ::
              ToReplay(candidates, ids, settled)[id] == candidates[k].summary
  {
    if candidates != [] {
      var init, last := candidates[..|candidates| - 1], candidates[|candidates| - 1];
      ReplayExactly(init, ids, settled, id);
      forall k: nat | k < |init|
        ensures FirstCandidate(candidates, k, id) <==> FirstCandidate(init, k, id)
      {
        assert forall i | 0 <= i <= k :: candidates[i] == init[i];
      }
      if last.id == id && forall k: nat :: !FirstCandidate(init, k, id) {
        NoCandidate(init, id, |init|);
        assert FirstCandidate(candidates, |init|, id);
      }
    }
  }

  lemma {:induction false} NoCandidate(candidates: seq<Record>, id: Id, n: nat)
    requires n <= |candidates| && forall k: nat :: !FirstCandidate(candidates, k, id)
    ensures forall i | 0 <= i < n :: candidates[i].id != id
  {
    if n > 0 {
      NoCandidate(candidates, id, n - 1);
      assert !FirstCandidate(candidates, n - 1, id);
    }
  }

  lemma {:induction false} ReplayStep(candidates: seq<Record>, i: nat, ids: set<Id>, settled: set<Id>)
    requires i < |candidates|
    ensures var before, c := ToReplay(candidates[..i], ids, settled), candidates[i];
            ToReplay(candidates[..i + 1], ids, settled) ==
            if c.id in ids && c.id !in settled && c.id !in before then before[c.id := c.summary] else before
  {
    assert candidates[..i + 1][..i] == candidates[..i];
  }

  lemma {:induction false} RetainedInsert(m: map<Id, Summary>, r: Record, ids: set<Id>)
    ensures Retained(m[r.id := r.summary], ids) ==
            if r.id in ids then Retained(m, ids)[r.id := r.summary] else Retained(m, ids)
  {
  }

  lemma {:induction false} InsertLast(a: map<Id, Summary>, b: map<Id, Summary>, r: Record)
    ensures (a + b)[r.id := r.summary] == a + b[r.id := r.summary]
  {
  }

  /** How a write ended: with everything on disk, or in an error after some units had landed. */
  datatype Outcome = Done | Failed(units: nat)

  /** The units of an append that land. */
  function Units(f: Format, data: string, batch: seq<Record>, outcome: Outcome): nat {
    if outcome.Done? then |Boundary(data)| + |Block(f, batch)| else outcome.units
  }

  /** A batch whose retained part is to be written to a file that is not ours: nothing is, now or later. */
  predicate Refuses(f: Format, data: string, batch: seq<Record>, ids: set<Id>) {
    Eligible(batch, ids) != [] && !Usable(f, data)
  }

  /** The file once a batch's retained part was appended, if it may be. */
  function Appended(f: Format, data: string, batch: seq<Record>, ids: set<Id>, outcome: Outcome): string {
    var eligible := Eligible(batch, ids);
    if eligible == [] || !Usable(f, data) then data
    else Append(f, data, eligible, Units(f, data, eligible, outcome))
  }

  /** A completed append lands all of its batch, a failed one an initial part. */
  lemma {:induction false} WriteLands(f: Format, data: string, batch: seq<Record>, outcome: Outcome) returns (k: nat)
    requires Sound(f)
    ensures k <= |batch| && (outcome.Done? ==> k == |batch|)
    ensures Records(f, Append(f, data, batch, Units(f, data, batch, outcome))) == Records(f, data) + batch[..k]
  {
    TornAppend(f, data, batch, Units(f, data, batch, outcome));
    k := LandedOf(f, data, batch, Units(f, data, batch, outcome));
  }

  /**
   * One conversation's summaries, in memory and in its file. Steps of the write queue never overlap each
   * other, while a live summary may be accepted between any two of them.
   */
  /** What is queued is the latest accepted; whatever else was accepted and retained is stored. */
  predicate Backed(queued: map<Id, Summary>, stored: map<Id, Summary>, accepted: map<Id, Summary>,
          unretained: set<Id>) {
    && (forall id | id in queued :: id in accepted && queued[id] == accepted[id])
    && (forall id | id in accepted && id !in queued && id !in unretained :: id in stored && stored[id] == accepted[id])
  }

  /** Storing only what is queued, or was never accepted, disturbs nothing. */
  lemma {:induction false} StoringMore(queued: map<Id, Summary>, stored: map<Id, Summary>, accepted: map<Id, Summary>,
        unretained: set<Id>, more: map<Id, Summary>)
    requires Backed(queued, stored, accepted, unretained) && forall id | id in more && id in accepted :: id in queued
    ensures Backed(queued, stored + more, accepted, unretained)
  {
  }

  /** A batch written whole leaves the queue: its retained ids are stored, the others are not to be. */
  lemma {:induction false} StoringBatch(batch: map<Id, Summary>, rest: map<Id, Summary>, stored: map<Id, Summary>,
        accepted: map<Id, Summary>, unretained: set<Id>, ids: set<Id>)
    requires Backed(batch + rest, stored, accepted, unretained)
    ensures Backed(rest, stored + Retained(batch, ids), accepted, unretained - (batch.Keys * ids) + (batch.Keys - ids))
  {
    assert forall id | id in batch && id !in rest :: (batch + rest)[id] == batch[id];
    assert forall id | id in rest :: (batch + rest)[id] == rest[id];
    assert forall id | id !in batch && id !in rest :: id !in batch + rest;
  }

  lemma {:induction false} StillBacked(queued: map<Id, Summary>, stored: map<Id, Summary>, accepted: map<Id, Summary>,
        unretained: set<Id>, batch: map<Id, Summary>)
    requires Backed(queued, stored, accepted, unretained)
    ensures Backed(queued + batch, stored, accepted + batch, unretained)
  {
  }

  class SummarySidecar {
    const format: Format
    var values: map<Id, Summary>
    var live: set<Id>
    var candidates: seq<Record>
    var inheritedWrites: set<Id>
    var replayed: set<Id>
    /** Inherited summaries a running sync is about to write. */
    var seed: seq<Record>
    var pending: seq<seq<Record>>
    var disabled: bool
    var file: string
    /** The latest accepted summary of every live id. */
    ghost var accepted: map<Id, Summary>
    /** Live ids the conversation no longer retained when their summary was due to be written. */
    ghost var unretained: set<Id>

    ghost predicate InMemory()
      reads this`values, this`live, this`accepted
    {
      && live == accepted.Keys
      && forall id | id in live :: id in values && values[id] == accepted[id]
    }

    /** What is queued is the latest accepted; whatever is not queued is on disk already, and read back last. */
    ghost predicate OnDisk()
      reads this`live, this`accepted, this`pending, this`file, this`unretained
    {
      && live == accepted.Keys
      && Backed(LastWriter(Flat(pending)), LastWriter(Records(format, file)), accepted, unretained)
    }

    /** An inherited summary on its way to disk is overtaken by any live one of its id. */
    ghost predicate SeedYields()
      reads this`live, this`pending, this`seed
    {
      var queued := LastWriter(Flat(pending));
      forall id | id in LastWriter(seed) && id in live :: id in queued
    }

    ghost predicate Valid()
      reads this
    {
      Sound(format) && InMemory() && OnDisk() && SeedYields()
    }

    constructor (format: Format, file: string)
      requires Sound(format)
      ensures Valid() && accepted == map[] && pending == [] && seed == [] && values == map[] && !disabled
      ensures this.format == format && this.file == file
    {
      this.format, this.file := format, file;
      values, live, candidates, inheritedWrites, replayed, seed := map[], {}, [], {}, {}, [];
      pending, disabled, accepted, unretained := [], false, map[], {};
    }

    /** A conversation with its own file restores from it; one without restores what it inherits, and will write it. */
    method Open(own: Option<seq<Record>>, inherited: seq<Record>)
      requires Valid()
      modifies this`candidates, this`inheritedWrites
      ensures Valid()
      ensures candidates == if own.Some? then own.value else inherited
      ensures inheritedWrites == if own.Some? then {} else LastWriter(inherited).Keys
    {
      candidates := if own.Some? then own.value else inherited;
      inheritedWrites := if own.Some? then {} else LastWriter(inherited).Keys;
    }

    method Accept(batch: seq<Record>)
      requires Valid()
      modifies this`values, this`live, this`pending, this`accepted
      ensures Valid() && accepted == old(accepted) + LastWriter(batch) && values == old(values) + LastWriter(batch)
      ensures pending == old(pending) + [batch]
    {
      FlatAppend(pending, batch);
      StillBacked(LastWriter(Flat(pending)), LastWriter(Records(format, file)), accepted, unretained,
          LastWriter(batch));
      values, live := values + LastWriter(batch), live + LastWriter(batch).Keys;
      pending := pending + [batch];
      accepted := accepted + LastWriter(batch);
    }

    /** The replay loop of a sync: a candidate is restored once, and only while nothing live has its id. */
    method Replay(ids: set<Id>) returns (replay: map<Id, Summary>)
      requires Valid() && seed == []
      modifies this`values, this`replayed, this`seed
      ensures Valid()
      ensures replay == ToReplay(candidates, ids, live + old(replayed))
      ensures values == old(values) + replay && replayed == old(replayed) + replay.Keys
      ensures LastWriter(seed) == Retained(replay, inheritedWrites)
    {
      replay := map[];
      ghost var settled := live + replayed;
      var i := 0;
      while i < |candidates|
        invariant 0 <= i <= |candidates|
        invariant replay == ToReplay(candidates[..i], ids, settled)
        invariant values == old(values) + replay && replayed == old(replayed) + replay.Keys
        invariant LastWriter(seed) == Retained(replay, inheritedWrites)
      {
        ReplayStep(candidates, i, ids, settled);
        replay := Restore(candidates[i], ids, old(values), replay);
        i := i + 1;
      }
      assert candidates[..|candidates|] == candidates;
    }

    /** One candidate's turn. */
    method Restore(c: Record, ids: set<Id>, ghost before: map<Id, Summary>, replay: map<Id, Summary>)
        returns (more: map<Id, Summary>)
      requires values == before + replay && replay.Keys <= replayed
               && LastWriter(seed) == Retained(replay, inheritedWrites)
      modifies this`values, this`replayed, this`seed
      ensures more ==
              if c.id in ids && c.id !in live && c.id !in old(replayed) then replay[c.id := c.summary] else replay
      ensures values == before + more && replayed == old(replayed) + more.Keys
      ensures LastWriter(seed) == Retained(more, inheritedWrites)
    {
      if c.id !in ids || c.id in live || c.id in replayed {
        return replay;
      }
      RetainedInsert(replay, c, inheritedWrites);
      InsertLast(before, replay, c);
      replayed := replayed + {c.id};
      values := values[c.id := c.summary];
      if c.id in inheritedWrites {
        LastWriterStep(seed, c);
        seed := seed + [c];
      }
      return replay[c.id := c.summary];
    }

    /**
     * `append`, after its ids were filtered: nothing to write leaves everything, a file that is not ours
     * disables the log, else the batch is appended, whole or torn.
     */
    method AppendEligible(eligible: seq<Record>, outcome: Outcome) returns (ghost landed: nat)
      requires Sound(format) && !disabled
      modifies this`file, this`disabled
      ensures disabled <==> eligible != [] && !Usable(format, old(file))
      ensures file == if eligible == [] || disabled then old(file)
                      else Append(format, old(file), eligible, Units(format, old(file), eligible, outcome))
      ensures landed <= |eligible| && Records(format, file) == Records(format, old(file)) + eligible[..landed]
      ensures !disabled && outcome.Done? ==> landed == |eligible|
    {
      if eligible == [] {
        return 0;
      }
      if !Usable(format, file) {
        disabled := true;
        return 0;
      }
      landed := WriteLands(format, file, eligible, outcome);
      file := Append(format, file, eligible, Units(format, file, eligible, outcome));
    }

    /** One append of a batch: what it stores is part of the retained summaries, all of them when it is done. */
    method AppendBatch(batch: seq<Record>, ids: set<Id>, outcome: Outcome) returns (ghost more: map<Id, Summary>)
      requires Sound(format) && !disabled
      modifies this`file, this`disabled
      ensures disabled <==> Refuses(format, old(file), batch, ids)
      ensures file == Appended(format, old(file), batch, ids, outcome)
      ensures LastWriter(Records(format, file)) == LastWriter(Records(format, old(file))) + more
      ensures more.Keys <= LastWriter(batch).Keys * ids
      ensures !disabled && outcome.Done? ==> more == Retained(LastWriter(batch), ids)
    {
      var eligible := Eligible(batch, ids);
      ghost var before := Records(format, file);
      ghost var landed := AppendEligible(eligible, outcome);
      LastWriterConcat(before, eligible[..landed]);
      PartTouchesOwnIds(batch, ids, landed);
      EligibleLastWriter(batch, ids);
      assert eligible[..|eligible|] == eligible;
      more := LastWriter(eligible[..landed]);
    }

    /**
     * The append of a sync's inherited summaries, live ones dropped first; later acceptances are still queued
     * behind it.
     */
    method WriteSeed(ids: set<Id>, outcome: Outcome)
      requires Valid() && !disabled
      modifies this`seed, this`file, this`disabled
      ensures Valid() && seed == []
      ensures disabled <==> Refuses(format, old(file), NotLive(old(seed), live), ids)
      ensures file == Appended(format, old(file), NotLive(old(seed), live), ids, outcome)
    {
      ghost var stored := LastWriter(Records(format, file));
      NotLiveIds(seed, live);
      ghost var more := AppendBatch(NotLive(seed, live), ids, outcome);
      StoringMore(LastWriter(Flat(pending)), stored, accepted, unretained, more);
      seed := [];
    }

    /** A batch that was written leaves the queue, one that was not stays. */
    method Settle(ids: set<Id>, written: bool, ghost stored: map<Id, Summary>, ghost more: map<Id, Summary>)
      requires pending != [] && Backed(LastWriter(Flat(pending)), stored, accepted, unretained)
      requires more.Keys <= LastWriter(pending[0]).Keys && (written ==> more == Retained(LastWriter(pending[0]), ids))
      modifies this`pending, this`unretained
      ensures Backed(LastWriter(Flat(pending)), stored + more, accepted, unretained)
      ensures pending == if written then old(pending)[1..] else old(pending)
      ensures unretained <= old(unretained) + (LastWriter(old(pending)[0]).Keys - ids)
    {
      ghost var batch := LastWriter(pending[0]);
      LastWriterConcat(pending[0], Flat(pending[1..]));
      if written {
        StoringBatch(batch, LastWriter(Flat(pending[1..])), stored, accepted, unretained, ids);
        pending := pending[1..];
        unretained := unretained - (batch.Keys * ids) + (batch.Keys - ids);
      } else {
        StoringMore(LastWriter(Flat(pending)), stored, accepted, unretained, more);
      }
    }

    /** One pending batch: a completed append removes it, a failed one keeps it to be written again. */
    method Flush(ids: set<Id>, outcome: Outcome)
      requires Valid() && !disabled && seed == [] && pending != []
      modifies this`pending, this`file, this`disabled, this`unretained
      ensures Valid()
      ensures disabled <==> Refuses(format, old(file), old(pending)[0], ids)
      ensures file == Appended(format, old(file), old(pending)[0], ids, outcome)
      ensures pending == if !disabled && outcome.Done? then old(pending)[1..] else old(pending)
      ensures unretained <= old(unretained) + (LastWriter(old(pending)[0]).Keys - ids)
    {
      ghost var stored := LastWriter(Records(format, file));
      var batch := pending[0];
      ghost var more := AppendBatch(batch, ids, outcome);
      var written := !disabled && outcome.Done?;
      assert written ==> more == Retained(LastWriter(batch), ids);
      Settle(ids, written, stored, more);
    }
  }

  function NotLive(rs: seq<Record>, live: set<Id>): seq<Record> {
    if rs == [] then []
    else
      var last := rs[|rs| - 1];
      if last.id in live then NotLive(rs[..|rs| - 1], live) else NotLive(rs[..|rs| - 1], live) + [last]
  }

  /** Dropping live ids takes or leaves each record by itself and keeps the order. */
  lemma {:induction false} NotLiveParts(a: seq<Record>, r: Record, b: seq<Record>, live: set<Id>)
    ensures NotLive(a + [r] + b, live) == NotLive(a, live) + (if r.id in live then [] else [r]) + NotLive(b, live)
  {
    if b == [] {
      assert a + [r] + b == a + [r] && (a + [r])[..|a|] == a;
    } else {
      var init, last := b[..|b| - 1], b[|b| - 1];
      NotLiveParts(a, r, init, live);
      assert a + [r] + b == (a + [r] + init) + [last];
      assert (a + [r] + b)[..|a + [r] + init|] == a + [r] + init;
    }
  }

  lemma {:induction false} NotLiveIds(rs: seq<Record>, live: set<Id>)
    ensures LastWriter(NotLive(rs, live)).Keys == LastWriter(rs).Keys - live
  {
    if rs != [] {
      NotLiveIds(rs[..|rs| - 1], live);
      LastWriterStep(NotLive(rs[..|rs| - 1], live), rs[|rs| - 1]);
    }
  }
}
