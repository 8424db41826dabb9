// agent-telemetry.ts: the whole-file session reader, the incremental reader that must agree
// with it, and the usage reduction that either of them feeds.

module SessionFormat {
  import opened Options
  import opened Json
  import opened Lines

  newtype Byte = x: int | 0 <= x < 256
  const NEWLINE: Byte := 10

  type Line = seq<Byte>
  type Digest = string

  /** What the readers take from the platform: the JSON parser, the line hash and the deep comparison. */
  datatype Format = Format(parse: Line -> Option<Json>, hash: Line -> Digest, equal: (Json, Json) -> bool) {
    /** Distinct lines hash apart, and a value equals itself. */
    ghost predicate Sound() {
      && (forall a, b :: hash(a) == hash(b) ==> a == b)
      && (forall v :: equal(v, v))
    }

    predicate Parses(line: Line) {
      parse(line).Some?
    }

    predicate AllParse(lines: seq<Line>) {
      forall k | 0 <= k < |lines| :: Parses(lines[k])
    }

    predicate IsEntryOf(line: Line, id: string) {
      Parses(line) && ValidEntry(parse(line).value) && EntryId(parse(line).value) == id
    }
  }

  datatype Header = Header(id: string, parentSession: Option<string>)

  /** One read of a session: its entries, an absence of evidence, or a readable contradiction. */
  datatype SessionRead =
    | Session(header: Header, entries: seq<Json>)
    | Transient
    | Contradiction

  function SessionHeaderOf(v: Json): Option<Header> {
    var id, parent := Field(Some(v), "id"), Field(Some(v), "parentSession");
    if Field(Some(v), "type") != Some(Text("session")) || Field(Some(v), "version") != Some(Number(3.0))
       || !id.Some? || !id.value.Text? || id.value.text == ""
    then None
    else Some(Header(id.value.text,
                     if parent.Some? && parent.value.Text? && parent.value.text != ""
                     then Some(parent.value.text) else None))
  }

  predicate ValidEntry(v: Json) {
    v.Object? && "id" in v.fields && v.fields["id"].Text? && v.fields["id"].text != ""
  }

  function EntryId(v: Json): string
    requires ValidEntry(v)
  {
    v.fields["id"].text
  }

  /** The fields of an entry that the reduction reads, and nothing else. */
  function ProjectEntry(e: Json): Json
    requires ValidEntry(e)
  {
    Object(map["id" := e.fields["id"]]
           + Keep(e.fields, "type")
           + (if "message" in e.fields then map["message" := ProjectMessage(e.fields["message"])] else map[])
           + Keep(e.fields, "usage"))
  }

  function ProjectMessage(m: Json): Json {
    match m
    case Null => Null
    case Object(fields) => Object(Keep(fields, "role") + Keep(fields, "usage"))
    case _ => Object(map[])
  }

  /** A projection keeps exactly these fields of an entry, and of its message exactly its role and usage. */
  lemma {:induction false} ProjectionExactly(e: Json, key: string)
    requires ValidEntry(e)
    ensures ProjectEntry(e).Object?
    ensures key in ProjectEntry(e).fields <==>
              key in e.fields && (key == "id" || key == "type" || key == "message" || key == "usage")
    ensures key in ProjectEntry(e).fields && key != "message" ==> ProjectEntry(e).fields[key] == e.fields[key]
    ensures key == "message" && key in e.fields ==> MessageKept(e.fields[key], ProjectEntry(e).fields[key])
  {
    if key == "message" && key in e.fields {
      MessageProjected(e.fields[key]);
    }
  }

  lemma {:induction false} MessageProjected(m: Json)
    ensures MessageKept(m, ProjectMessage(m))
  {
  }

  /** Null stays null, an object keeps its role and usage, anything else reads as an empty object. */
  ghost predicate MessageKept(m: Json, kept: Json) {
    if m.Null? then kept.Null?
    else
      && kept.Object?
      && (forall key :: key in kept.fields <==> m.Object? && key in m.fields && (key == "role" || key == "usage"))
      && forall key | key in kept.fields :: kept.fields[key] == m.fields[key]
  }

  function ProjectAll(es: seq<Json>): (r: seq<Json>)
    requires forall k | 0 <= k < |es| :: ValidEntry(es[k])
  {
    seq(|es|, k requires 0 <= k < |es| => ProjectEntry(es[k]))
  }

  function ProjectRead(r: SessionRead): SessionRead
    requires r.Session? ==> forall k | 0 <= k < |r.entries| :: ValidEntry(r.entries[k])
  {
    if r.Session? then Session(r.header, ProjectAll(r.entries)) else r
  }

  // ----- what a session file means

  /** The first line that is an entry with this id. */
  function FirstLine(f: Format, lines: seq<Line>, id: string): (r: Option<Line>)
    ensures r.Some? ==> f.IsEntryOf(r.value, id)
  {
    if lines == [] then None
    else
      var earlier := FirstLine(f, lines[..|lines| - 1], id);
      if earlier.Some? then earlier
      else if f.IsEntryOf(lines[|lines| - 1], id) then Some(lines[|lines| - 1])
      else None
  }

  /** How one parsed entry line relates to the lines before it. */
  datatype Admission = Admitted(entry: Json) | Duplicate | Rejected

  function Admit(f: Format, before: seq<Line>, value: Json): Admission {
    if !ValidEntry(value) then Rejected
    else
      var prior := FirstLine(f, before, EntryId(value));
      if prior.None? then Admitted(value)
      else if f.equal(f.parse(prior.value).value, value) then Duplicate
      else Rejected
  }

  /**
   * The distinct entries of some parsed lines, in order, or nothing when a line is no entry or contradicts its
   * first occurrence.
   */
  function Collect(f: Format, lines: seq<Line>): (r: Option<seq<Json>>)
    requires f.AllParse(lines)
    ensures r.Some? ==> forall k | 0 <= k < |r.value| :: ValidEntry(r.value[k])
  {
    if lines == [] then Some([])
    else
      var before, last := lines[..|lines| - 1], lines[|lines| - 1];
      var entries := Collect(f, before);
      if entries.None? then None
      else
        match Admit(f, before, f.parse(last).value)
        case Admitted(e) => Some(entries.value + [e])
        case Duplicate => entries
        case Rejected => None
  }

  function Interpret(f: Format, lines: seq<Line>): (r: SessionRead)
    requires f.AllParse(lines)
    ensures !r.Transient?
    ensures r.Session? ==> forall k | 0 <= k < |r.entries| :: ValidEntry(r.entries[k])
  {
    if lines == [] then Contradiction
    else
      var header, entries := SessionHeaderOf(f.parse(lines[0]).value), Collect(f, lines[1..]);
      if header.None? || entries.None? then Contradiction else Session(header.value, entries.value)
  }

  /**
   * The verdict on a file's lines: a torn last line is transient, an unparseable earlier line or a contradiction
   * is final.
   */
  function Verdict(f: Format, lines: seq<Line>): (r: SessionRead)
    ensures r.Session? ==> forall k | 0 <= k < |r.entries| :: ValidEntry(r.entries[k])
  {
    if lines == [] then Contradiction
    else if !f.AllParse(lines[..|lines| - 1]) then Contradiction
    else if !f.Parses(lines[|lines| - 1]) then Transient
    else Interpret(f, lines)
  }

  function Meaning(f: Format, file: seq<Byte>): (r: SessionRead)
    ensures r.Session? ==> forall k | 0 <= k < |r.entries| :: ValidEntry(r.entries[k])
  {
    Verdict(f, LinesOf(file, NEWLINE))
  }

  function MeaningOf(f: Format, file: Option<seq<Byte>>): (r: SessionRead)
    ensures r.Session? ==> forall k | 0 <= k < |r.entries| :: ValidEntry(r.entries[k])
  {
    if file.None? then Transient else Meaning(f, file.value)
  }

  // ----- lemmas about the meaning

  lemma {:induction false} FirstLineStable(f: Format, head: seq<Line>, tail: seq<Line>, id: string)
    requires FirstLine(f, head, id).Some?
    ensures FirstLine(f, head + tail, id) == FirstLine(f, head, id)
  {
    if tail == [] {
      assert head + tail == head;
    } else {
      assert (head + tail)[..|head + tail| - 1] == head + tail[..|tail| - 1];
      FirstLineStable(f, head, tail[..|tail| - 1], id);
    }
  }

  lemma {:induction false} VerdictByLastLine(f: Format, lines: seq<Line>, last: Line)
    ensures f.AllParse(lines) && f.Parses(last) ==> f.AllParse(lines + [last])
    ensures Verdict(f, lines + [last]) ==
            if !f.AllParse(lines) then Contradiction
            else if !f.Parses(last) then Transient
            else Interpret(f, lines + [last])
  {
    assert (lines + [last])[..|lines|] == lines;
  }

  /** The lines of a file are those before any line boundary, then those after it: here, one last line. */
  lemma {:induction false} LinesBeforeLast(head: seq<Byte>, last: Line, terminated: bool)
    requires Whole(head, NEWLINE) && NEWLINE !in last
    requires terminated || last != []
    ensures LinesOf(head + last + (if terminated then [NEWLINE] else []), NEWLINE) == LinesOf(head, NEWLINE) + [last]
  {
    var tail := last + if terminated then [NEWLINE] else [];
    assert head + last + (if terminated then [NEWLINE] else []) == head + tail;
    LinesOfConcat(head, tail, NEWLINE);
    LinesOfOne(last, NEWLINE);
    assert last + [] == last;
  }

  lemma {:induction false} InterpretByLastLine(f: Format, lines: seq<Line>, last: Line)
    requires f.AllParse(lines) && f.Parses(last) && lines != []
    ensures f.AllParse(lines + [last])
    ensures var before := Interpret(f, lines);
            Interpret(f, lines + [last]) ==
            if before.Contradiction? then Contradiction
            else
              match Admit(f, lines[1..], f.parse(last).value)
              case Admitted(e) => Session(before.header, before.entries + [e])
              case Duplicate => before
              case Rejected => Contradiction
  {
    var longer := lines + [last];
    assert forall k | 0 <= k < |longer| :: f.Parses(longer[k]);
    assert longer[1..] == lines[1..] + [last];
    assert longer[1..][..|lines| - 1] == lines[1..];
  }

  lemma {:induction false} FirstLineStep(f: Format, lines: seq<Line>, id: string)
    requires lines != []
    ensures var before := FirstLine(f, lines[..|lines| - 1], id);
            before.Some? ==> FirstLine(f, lines, id) == before
  {
  }

  /** An entry of the reading is the first line with its id. */
  lemma {:induction false} CollectedIsFirst(f: Format, lines: seq<Line>, k: nat)
    requires f.AllParse(lines) && Collect(f, lines).Some? && k < |Collect(f, lines).value|
    ensures var e := Collect(f, lines).value[k];
            FirstLine(f, lines, EntryId(e)).Some? && f.parse(FirstLine(f, lines, EntryId(e)).value).value == e
  {
    if lines != [] {
      var before := lines[..|lines| - 1];
      var es := Collect(f, before).value;
      if k < |es| {
        CollectedIsFirst(f, before, k);
        FirstLineStep(f, lines, EntryId(es[k]));
      }
    }
  }

  /** The first line with an id is an entry of the reading. */
  lemma {:induction false} FirstIsCollected(f: Format, lines: seq<Line>, id: string)
    requires f.AllParse(lines) && Collect(f, lines).Some? && FirstLine(f, lines, id).Some?
    ensures f.parse(FirstLine(f, lines, id).value).value in Collect(f, lines).value
  {
    var before := lines[..|lines| - 1];
    if FirstLine(f, before, id).Some? {
      FirstIsCollected(f, before, id);
    }
  }

  /** Line `k` is an entry and equals the first line with its id. */
  ghost predicate EqualsItsFirst(f: Format, lines: seq<Line>, k: nat)
    requires k < |lines| && f.Parses(lines[k])
  {
    var v := f.parse(lines[k]).value;
    && ValidEntry(v)
    && var first := FirstLine(f, lines, EntryId(v));
    first.Some? && f.equal(f.parse(first.value).value, v)
  }

  lemma {:induction false} LineEqualsItsFirst(f: Format, lines: seq<Line>, k: nat)
    requires f.Sound() && f.AllParse(lines) && Collect(f, lines).Some? && k < |lines|
    ensures EqualsItsFirst(f, lines, k)
  {
    var before := lines[..|lines| - 1];
    if k < |before| {
      LineEqualsItsFirst(f, before, k);
      FirstLineStep(f, lines, EntryId(f.parse(lines[k]).value));
    }
  }

  lemma {:induction false} CollectedIdsDistinct(f: Format, lines: seq<Line>, j: nat, k: nat)
    requires f.AllParse(lines) && Collect(f, lines).Some? && j < k < |Collect(f, lines).value|
    ensures EntryId(Collect(f, lines).value[j]) != EntryId(Collect(f, lines).value[k])
  {
    var before := lines[..|lines| - 1];
    var es := Collect(f, before).value;
    if k < |es| {
      CollectedIdsDistinct(f, before, j, k);
    } else {
      CollectedIsFirst(f, before, j);
    }
  }

  /**
   * What a reading says about the entry lines: every line is an entry equal to the first line with
   * its id, and the entries returned are exactly those first lines, with distinct ids.
   */
  lemma {:induction false} CollectMeaning(f: Format, lines: seq<Line>)
    requires f.Sound() && f.AllParse(lines) && Collect(f, lines).Some?
    ensures forall k | 0 <= k < |lines| :: EqualsItsFirst(f, lines, k)
    ensures var es := Collect(f, lines).value;
            forall v :: v in es <==> ValidEntry(v) && var first := FirstLine(f, lines, EntryId(v));
                                     first.Some? && f.parse(first.value).value == v
    ensures var es := Collect(f, lines).value;
            forall j, k | 0 <= j < k < |es| :: EntryId(es[j]) != EntryId(es[k])
  {
    var es := Collect(f, lines).value;
    forall k | 0 <= k < |lines|
      ensures EqualsItsFirst(f, lines, k)
    {
      LineEqualsItsFirst(f, lines, k);
    }
    forall v
      ensures v in es <==> ValidEntry(v) && var first := FirstLine(f, lines, EntryId(v));
                           first.Some? && f.parse(first.value).value == v
    {
      if v in es {
        var k :| 0 <= k < |es| && es[k] == v;
        CollectedIsFirst(f, lines, k);
      } else if ValidEntry(v) && FirstLine(f, lines, EntryId(v)).Some? {
        FirstIsCollected(f, lines, EntryId(v));
      }
    }
    forall j, k | 0 <= j < k < |es|
      ensures EntryId(es[j]) != EntryId(es[k])
    {
      CollectedIdsDistinct(f, lines, j, k);
    }
  }

  // ----- what a session is, in the raw fields of its lines

  predicate HasText(v: Json, key: string) {
    v.Object? && key in v.fields && v.fields[key].Text? && v.fields[key].text != ""
  }

  predicate IsHeader(v: Json) {
    && HasText(v, "id")
    && "type" in v.fields && v.fields["type"] == Text("session")
    && "version" in v.fields && v.fields["version"] == Number(3.0)
  }

  /** A header names its session, and the session it was started from if it gives that as a non-empty text. */
  predicate HeaderSays(v: Json, h: Header) {
    && HasText(v, "id") && h.id == v.fields["id"].text
    && (h.parentSession.Some? <==> HasText(v, "parentSession"))
    && (h.parentSession.Some? ==> h.parentSession.value == v.fields["parentSession"].text)
  }

  predicate Named(f: Format, line: Line, id: string) {
    f.Parses(line) && HasText(f.parse(line).value, "id") && f.parse(line).value.fields["id"].text == id
  }

  /** Line `k` is the first with its id. */
  predicate IsFirst(f: Format, lines: seq<Line>, k: nat) {
    && k < |lines| && f.Parses(lines[k]) && HasText(f.parse(lines[k]).value, "id")
    && forall i | 0 <= i < k :: !Named(f, lines[i], f.parse(lines[k]).value.fields["id"].text)
  }

  /** Line `k` has an id, and is what the first line with that id is. */
  ghost predicate Agrees(f: Format, lines: seq<Line>, k: nat) {
    && k < |lines| && f.Parses(lines[k]) && HasText(f.parse(lines[k]).value, "id")
    && forall j | 0 <= j < k && IsFirst(f, lines, j) && Named(f, lines[j], f.parse(lines[k]).value.fields["id"].text) ::
         f.equal(f.parse(lines[j]).value, f.parse(lines[k]).value)
  }

  ghost predicate AllAgree(f: Format, lines: seq<Line>) {
    forall k | 0 <= k < |lines| :: Agrees(f, lines, k)
  }

  /** A header, then entries in which every repeated id repeats its first entry. */
  ghost predicate IsSession(f: Format, lines: seq<Line>) {
    && lines != [] && f.AllParse(lines) && IsHeader(f.parse(lines[0]).value)
    && AllAgree(f, lines[1..])
  }

  /** Everything parses but the last line. */
  predicate IsTorn(f: Format, lines: seq<Line>) {
    lines != [] && f.AllParse(lines[..|lines| - 1]) && !f.Parses(lines[|lines| - 1])
  }

  /** The positions of the first lines of each id, in file order. */
  ghost predicate Firsts(f: Format, lines: seq<Line>, at: seq<nat>) {
    && (forall i | 0 <= i < |at| :: IsFirst(f, lines, at[i]))
    && (forall i, j | 0 <= i < j < |at| :: at[i] < at[j])
    && (forall k | 0 <= k < |lines| && IsFirst(f, lines, k) :: k in at)
  }

  /** The entries are those lines, whole or projected. */
  ghost predicate Entries(f: Format, lines: seq<Line>, at: seq<nat>, entries: seq<Json>, projected: bool) {
    && Firsts(f, lines, at) && |entries| == |at|
    && forall i | 0 <= i < |at| ::
         var v := f.parse(lines[at[i]]).value;
         entries[i] == if projected then ProjectEntry(v) else v
  }

  /**
   * What a reader owes for some lines: a session exactly when they are one, with the header's id and parent and
   * the first line of each id in file order; transient exactly when only the last line fails to parse.
   */
  ghost predicate Answers(f: Format, lines: seq<Line>, r: SessionRead, projected: bool) {
    && (r.Session? <==> IsSession(f, lines))
    && (r.Transient? <==> IsTorn(f, lines))
    && (r.Session? ==>
          && HeaderSays(f.parse(lines[0]).value, r.header)
          && exists at: seq<nat> :: Entries(f, lines[1..], at, r.entries, projected))
  }

  lemma {:induction false} FirstLineIs(f: Format, lines: seq<Line>, id: string)
    ensures id != "" ==>
              var r := FirstLine(f, lines, id);
              if r.None? then forall k | 0 <= k < |lines| :: !Named(f, lines[k], id)
              else exists k: nat :: k < |lines| && lines[k] == r.value && Named(f, lines[k], id) && IsFirst(f, lines, k)
  {
    if lines != [] && id != "" {
      var init := lines[..|lines| - 1];
      FirstLineIs(f, init, id);
      if FirstLine(f, init, id).Some? {
        var k: nat :|
          k < |init| && init[k] == FirstLine(f, init, id).value && Named(f, init[k], id) && IsFirst(f, init, k);
        assert lines[k] == init[k] && IsFirst(f, lines, k);
      } else if f.IsEntryOf(lines[|init|], id) {
        assert forall i | 0 <= i < |init| :: lines[i] == init[i];
        assert IsFirst(f, lines, |init|);
      }
    }
  }

  lemma {:induction false} FirstIsFirst(f: Format, lines: seq<Line>, j: nat, k: nat)
    requires IsFirst(f, lines, j) && IsFirst(f, lines, k)
    requires f.parse(lines[j]).value.fields["id"] == f.parse(lines[k]).value.fields["id"]
    ensures j == k
  {
    var id := f.parse(lines[j]).value.fields["id"].text;
    assert Named(f, lines[j], id) && Named(f, lines[k], id);
  }

  /** Admitting one more line: when it is the first of its id, repeats it, or breaks the session. */
  lemma {:induction false} AdmitIs(f: Format, before: seq<Line>, last: Line)
    requires f.Parses(last)
    ensures var a, k, lines := Admit(f, before, f.parse(last).value), |before|, before + [last];
            && (a.Rejected? <==> !Agrees(f, lines, k))
            && (a.Admitted? <==> IsFirst(f, lines, k))
            && (a.Admitted? ==> a.entry == f.parse(last).value)
  {
    var v, lines := f.parse(last).value, before + [last];
    assert forall i | 0 <= i < |before| :: lines[i] == before[i];
    if HasText(v, "id") {
      var id := v.fields["id"].text;
      FirstLineIs(f, before, id);
      var prior := FirstLine(f, before, id);
      if prior.Some? {
        var j: nat :| j < |before| && before[j] == prior.value && Named(f, before[j], id) && IsFirst(f, before, j);
        assert IsFirst(f, lines, j) && Named(f, lines[j], id);
        forall i | 0 <= i < |before| && IsFirst(f, lines, i) && Named(f, lines[i], id)
          ensures i == j
        {
          FirstIsFirst(f, lines, i, j);
        }
      }
    }
  }

  lemma {:induction false} AgreesBefore(f: Format, lines: seq<Line>, last: Line, k: nat)
    requires k < |lines|
    ensures IsFirst(f, lines + [last], k) <==> IsFirst(f, lines, k)
    ensures Agrees(f, lines + [last], k) <==> Agrees(f, lines, k)
  {
    var more := lines + [last];
    assert forall i | 0 <= i < |lines| :: more[i] == lines[i];
    assert forall i | 0 <= i <= k :: IsFirst(f, more, i) <==> IsFirst(f, lines, i);
  }

  lemma {:induction false} AllAgreeMore(f: Format, before: seq<Line>, last: Line)
    ensures AllAgree(f, before + [last]) <==> AllAgree(f, before) && Agrees(f, before + [last], |before|)
  {
    var lines := before + [last];
    forall k | 0 <= k < |before|
      ensures Agrees(f, lines, k) <==> Agrees(f, before, k)
    {
      AgreesBefore(f, before, last, k);
    }
    if AllAgree(f, lines) {
      forall k | 0 <= k < |before|
        ensures Agrees(f, before, k)
      {
        assert Agrees(f, lines, k);
      }
    }
  }

  /** One line more changes nothing about which earlier lines are first. */
  lemma {:induction false} FirstsBefore(f: Format, before: seq<Line>, last: Line)
    ensures forall k | 0 <= k < |before| :: IsFirst(f, before + [last], k) <==> IsFirst(f, before, k)
  {
    forall k | 0 <= k < |before|
      ensures IsFirst(f, before + [last], k) <==> IsFirst(f, before, k)
    {
      AgreesBefore(f, before, last, k);
    }
  }

  lemma {:induction false} FirstsSame(f: Format, before: seq<Line>, last: Line, at: seq<nat>)
    requires Firsts(f, before, at) && !IsFirst(f, before + [last], |before|)
    ensures Firsts(f, before + [last], at)
  {
    FirstsBefore(f, before, last);
  }

  lemma {:induction false} FirstsPlus(f: Format, before: seq<Line>, last: Line, at: seq<nat>)
    requires Firsts(f, before, at) && IsFirst(f, before + [last], |before|)
    ensures Firsts(f, before + [last], at + [|before|])
  {
    FirstsBefore(f, before, last);
    var more := at + [|before|];
    assert forall i | 0 <= i < |at| :: more[i] == at[i];
    assert more[|at|] == |before|;
    assert forall k | 0 <= k < |before| && IsFirst(f, before, k) :: k in more by {
      assert forall k | k in at :: k in more;
    }
  }

  lemma {:induction false} EntriesSame(f: Format, before: seq<Line>, last: Line, at: seq<nat>, entries: seq<Json>)
    requires Entries(f, before, at, entries, false) && !IsFirst(f, before + [last], |before|)
    ensures Entries(f, before + [last], at, entries, false)
  {
    FirstsSame(f, before, last, at);
    forall i | 0 <= i < |at|
      ensures entries[i] == f.parse((before + [last])[at[i]]).value
    {
      assert (before + [last])[at[i]] == before[at[i]];
    }
  }

  lemma {:induction false} EntriesPlus(f: Format, before: seq<Line>, last: Line, at: seq<nat>, entries: seq<Json>)
    requires Entries(f, before, at, entries, false) && f.Parses(last) && IsFirst(f, before + [last], |before|)
    ensures Entries(f, before + [last], at + [|before|], entries + [f.parse(last).value], false)
  {
    var lines, more, longer := before + [last], at + [|before|], entries + [f.parse(last).value];
    FirstsPlus(f, before, last, at);
    forall i | 0 <= i < |more|
      ensures longer[i] == f.parse(lines[more[i]]).value
    {
      if i < |at| {
        assert lines[at[i]] == before[at[i]];
      }
    }
  }

  lemma {:induction false} CollectMore(f: Format, before: seq<Line>, last: Line)
    requires f.AllParse(before) && f.Parses(last)
    ensures f.AllParse(before + [last])
    ensures Collect(f, before + [last]) ==
            if Collect(f, before).None? || Admit(f, before, f.parse(last).value).Rejected? then None
            else if Admit(f, before, f.parse(last).value).Admitted?
            then Some(Collect(f, before).value + [Admit(f, before, f.parse(last).value).entry])
            else Collect(f, before)
  {
    assert (before + [last])[..|before|] == before;
  }

  lemma {:induction false} CollectIs(f: Format, lines: seq<Line>) returns (at: seq<nat>)
    requires f.AllParse(lines)
    ensures Collect(f, lines).Some? <==> AllAgree(f, lines)
    ensures Collect(f, lines).Some? ==> Entries(f, lines, at, Collect(f, lines).value, false)
  {
    if lines == [] {
      return [];
    }
    var before, last := lines[..|lines| - 1], lines[|lines| - 1];
    assert lines == before + [last];
    at := CollectIs(f, before);
    AdmitIs(f, before, last);
    AllAgreeMore(f, before, last);
    CollectMore(f, before, last);
    if Collect(f, lines).Some? {
      if IsFirst(f, lines, |before|) {
        EntriesPlus(f, before, last, at, Collect(f, before).value);
        at := at + [|before|];
      } else {
        EntriesSame(f, before, last, at, Collect(f, before).value);
      }
    }
  }

  /** The meaning of a file is what a reader owes for its lines. */
  lemma {:induction false} MeaningAnswers(f: Format, file: seq<Byte>)
    ensures Answers(f, LinesOf(file, NEWLINE), Meaning(f, file), false)
    ensures Answers(f, LinesOf(file, NEWLINE), ProjectRead(Meaning(f, file)), true)
  {
    var lines := LinesOf(file, NEWLINE);
    var r := Meaning(f, file);
    if lines != [] {
      assert f.AllParse(lines) <==> f.AllParse(lines[..|lines| - 1]) && f.Parses(lines[|lines| - 1]);
      if f.AllParse(lines) {
        var at := CollectIs(f, lines[1..]);
        if r.Session? {
          assert Entries(f, lines[1..], at, r.entries, false);
          assert Entries(f, lines[1..], at, ProjectRead(r).entries, true);
        }
      }
    }
  }

  /** Every line has an id, no two the same. */
  ghost predicate GivenOnce(f: Format, lines: seq<Line>) {
    && (forall k | 0 <= k < |lines| :: f.Parses(lines[k]) && HasText(f.parse(lines[k]).value, "id"))
    && forall j, k, id | 0 <= j < k < |lines| && Named(f, lines[j], id) :: !Named(f, lines[k], id)
  }

  /** With every id given once, the entries are all lines after the header, in file order. */
  lemma {:induction false} DistinctEntries(f: Format, lines: seq<Line>, r: SessionRead, projected: bool)
    requires Answers(f, lines, r, projected) && lines != [] && f.Parses(lines[0]) && IsHeader(f.parse(lines[0]).value)
    requires GivenOnce(f, lines[1..])
    ensures r.Session? && |r.entries| == |lines| - 1
    ensures forall k | 0 <= k < |r.entries| ::
              var v := f.parse(lines[1..][k]).value;
              r.entries[k] == if projected then ProjectEntry(v) else v
  {
    OnceIsSession(f, lines);
    var at: seq<nat> :| Entries(f, lines[1..], at, r.entries, projected);
    OnceInOrder(f, lines[1..], at, r.entries, projected);
  }

  lemma {:induction false} OnceIsSession(f: Format, lines: seq<Line>)
    requires lines != [] && f.Parses(lines[0]) && IsHeader(f.parse(lines[0]).value) && GivenOnce(f, lines[1..])
    ensures IsSession(f, lines)
  {
    OnceIsFirst(f, lines[1..]);
    assert forall k | 1 <= k < |lines| :: lines[k] == lines[1..][k - 1];
  }

  lemma {:induction false} OnceInOrder(f: Format, lines: seq<Line>, at: seq<nat>, entries: seq<Json>, projected: bool)
    requires GivenOnce(f, lines) && Entries(f, lines, at, entries, projected)
    ensures |entries| == |lines|
    ensures forall k | 0 <= k < |lines| ::
              entries[k] == if projected then ProjectEntry(f.parse(lines[k]).value) else f.parse(lines[k]).value
  {
    OnceIsFirst(f, lines);
    AllPositions(at, |lines|);
  }

  lemma {:induction false} OnceIsFirst(f: Format, lines: seq<Line>)
    requires GivenOnce(f, lines)
    ensures AllAgree(f, lines) && forall k | 0 <= k < |lines| :: IsFirst(f, lines, k)
  {
    forall k | 0 <= k < |lines|
      ensures IsFirst(f, lines, k) && Agrees(f, lines, k)
    {
      assert Named(f, lines[k], f.parse(lines[k]).value.fields["id"].text);
    }
  }

  lemma {:induction false} AllPositions(at: seq<nat>, n: nat)
    requires forall i | 0 <= i < |at| :: at[i] < n
    requires forall i, j | 0 <= i < j < |at| :: at[i] < at[j]
    requires forall k | 0 <= k < n :: k in at
    ensures |at| == n && forall i | 0 <= i < n :: at[i] == i
  {
    IncreasingFits(at, n);
    if n > 0 {
      var m, last := |at| - 1, n - 1;
      assert last in at;
      var p :| 0 <= p < |at| && at[p] == last;
      LastIsGreatest(at, p);
      forall k | 0 <= k < last
        ensures k in at[..m]
      {
        assert k in at;
        var i :| 0 <= i < |at| && at[i] == k;
        assert at[..m][i] == k;
      }
      AllPositions(at[..m], last);
    }
  }

  lemma {:induction false} LastIsGreatest(at: seq<nat>, p: nat)
    requires p < |at| && forall i, j | 0 <= i < j < |at| :: at[i] < at[j]
    ensures at[p] <= at[|at| - 1]
  {
  }

  lemma {:induction false} IncreasingFits(at: seq<nat>, n: nat)
    requires forall i | 0 <= i < |at| :: at[i] < n
    requires forall i, j | 0 <= i < j < |at| :: at[i] < at[j]
    ensures |at| <= n
  {
    if at != [] {
      var m := |at| - 1;
      IncreasingFits(at[..m], at[m]);
    }
  }

  // ----- the whole-file reader

  /** `readSessionEntries`: parse every line, then the header, then the entries with their duplicates checked. */
  method ReadSessionEntries(f: Format, file: Option<seq<Byte>>) returns (r: SessionRead)
    ensures r == MeaningOf(f, file)
    ensures if file.None? then r.Transient? else Answers(f, LinesOf(file.value, NEWLINE), r, false)
  {
    if file.None? {
      return Transient;
    }
    MeaningAnswers(f, file.value);
    r := ReadLines(f, LinesOf(file.value, NEWLINE));
  }

  method ReadLines(f: Format, lines: seq<Line>) returns (r: SessionRead)
    ensures r == Verdict(f, lines)
  {
    var i := 0;
    while i < |lines|
      invariant 0 <= i <= |lines|
      invariant f.AllParse(lines[..i])
    {
      if !f.Parses(lines[i]) {
        return if i == |lines| - 1 then Transient else Contradiction;
      }
      i := i + 1;
    }
    assert lines[..|lines|] == lines;
    if lines == [] || SessionHeaderOf(f.parse(lines[0]).value).None? {
      return Contradiction;
    }
    var entries := CollectEntries(f, lines[1..]);
    return if entries.None? then Contradiction
           else Session(SessionHeaderOf(f.parse(lines[0]).value).value, entries.value);
  }

  /** The entry loop of the whole-file reader, with its map from id to first occurrence. */
  method CollectEntries(f: Format, lines: seq<Line>) returns (r: Option<seq<Json>>)
    requires f.AllParse(lines)
    ensures r == Collect(f, lines)
  {
    var entries: seq<Json> := [];
    var byId: map<string, Json> := map[];
    var i := 0;
    while i < |lines|
      invariant 0 <= i <= |lines|
      invariant Collect(f, lines[..i]) == Some(entries)
      invariant forall id :: id in byId <==> FirstLine(f, lines[..i], id).Some?
      invariant forall id | id in byId :: byId[id] == f.parse(FirstLine(f, lines[..i], id).value).value
    {
      assert lines[..i + 1][..i] == lines[..i];
      var e := f.parse(lines[i]).value;
      if !ValidEntry(e) || (EntryId(e) in byId && !f.equal(byId[EntryId(e)], e)) {
        CollectFails(f, lines, i);
        return None;
      }
      if EntryId(e) !in byId {
        byId := byId[EntryId(e) := e];
        entries := entries + [e];
      }
      i := i + 1;
    }
    assert lines[..|lines|] == lines;
    return Some(entries);
  }

  /** A rejected line stays rejected however the file goes on. */
  lemma {:induction false} CollectFails(f: Format, lines: seq<Line>, i: nat)
    requires f.AllParse(lines) && i < |lines|
    requires Collect(f, lines[..i + 1]).None?
    ensures Collect(f, lines).None?
    decreases |lines|
  {
    if i + 1 < |lines| {
      var before := lines[..|lines| - 1];
      assert before[..i + 1] == lines[..i + 1];
      CollectFails(f, before, i);
    } else {
      assert lines[..i + 1] == lines;
    }
  }
}

module IncrementalReader {
  import opened Options
  import opened Json
  import opened Lines
  import opened SessionFormat

  /** Sticky verdict over the consumed lines. */
  datatype Stuck = Unset | Unparseable | Invalid

  /** Length (with its newline) and hash of the consumed header line. */
  datatype HeaderLine = HeaderLine(length: nat, hash: Digest)

  function LastTerminated(s: seq<Byte>): (r: seq<Byte>)
    ensures r <= s && Whole(r, NEWLINE)
    ensures NEWLINE !in s[|r|..]
  {
    if s == [] || s[|s| - 1] == NEWLINE then s else LastTerminated(s[..|s| - 1])
  }

  /** Everything before the last line of a file: the bytes one refresh may consume. */
  function Settled(file: seq<Byte>): (r: seq<Byte>)
    ensures r <= file && Whole(r, NEWLINE)
  {
    if file == [] then [] else LastTerminated(file[..|file| - 1])
  }

  /**
   * The file no longer looks like an extension of what was consumed: it is no longer than that, its
   * first line differs, or the last consumed byte is not a newline any more.
   */
  ghost predicate ResetTrips(consumed: seq<Byte>, file: seq<Byte>)
    requires Whole(consumed, NEWLINE) && consumed != []
  {
    var header := HeaderBytes(consumed);
    || |file| <= |consumed|
    || file[..|header|] != header
    || (|consumed| != |header| && file[|consumed| - 1] != NEWLINE)
  }

  /** The consumed header line with its newline. */
  ghost function HeaderBytes(consumed: seq<Byte>): (r: seq<Byte>)
    requires Whole(consumed, NEWLINE) && consumed != []
    ensures r <= consumed
  {
    HeaderBytesFit(consumed);
    LinesOf(consumed, NEWLINE)[0] + [NEWLINE]
  }

  lemma {:induction false} HeaderBytesFit(consumed: seq<Byte>)
    requires Whole(consumed, NEWLINE) && consumed != []
    ensures LinesOf(consumed, NEWLINE) != []
    ensures LinesOf(consumed, NEWLINE)[0] + [NEWLINE] <= consumed
  {
    SplitStarts(consumed);
  }

  lemma {:induction false} SplitStarts(s: seq<Byte>)
    requires NEWLINE in s
    ensures |Split(s, NEWLINE)| >= 2
    ensures Split(s, NEWLINE)[0] + [NEWLINE] <= s
  {
    if s[0] != NEWLINE {
      SplitStarts(s[1..]);
    }
  }

  /**
   * What the reader's contract asks of the next file state: an extension of the consumed bytes, or one that
   * trips a reset test.
   */
  ghost predicate Compatible(consumed: seq<Byte>, file: Option<seq<Byte>>)
    requires Whole(consumed, NEWLINE)
  {
    consumed == [] || file.None? || consumed <= file.value || ResetTrips(consumed, file.value)
  }

  /** The bytes consumed after one refresh. */
  ghost function NextConsumed(f: Format, consumed: seq<Byte>, file: Option<seq<Byte>>): (r: seq<Byte>)
    requires Whole(consumed, NEWLINE)
    ensures Whole(r, NEWLINE)
  {
    if file.None? then []
    else
      var base := if consumed != [] && ResetTrips(consumed, file.value) then [] else consumed;
      if f.AllParse(LinesOf(base, NEWLINE)) then Settled(file.value) else base
  }

  lemma {:induction false} LinesAfterHeader(consumed: seq<Byte>, file: seq<Byte>)
    requires Whole(consumed, NEWLINE) && consumed != [] && consumed <= file
    ensures LinesOf(consumed, NEWLINE) != []
    ensures Split(file, NEWLINE)[1..] == LinesOf(consumed, NEWLINE)[1..] + Split(file[|consumed|..], NEWLINE)
  {
    assert consumed + file[|consumed|..] == file;
    LinesOfConcat(consumed, file[|consumed|..], NEWLINE);
    HeaderBytesFit(consumed);
  }

  /** The scan of the fallback: the first line that is an entry with the id of `e`, unparseable lines skipped. */
  method EqualsFirstOf(f: Format, lines: seq<Line>, e: Json) returns (r: bool)
    requires ValidEntry(e) && FirstLine(f, lines, EntryId(e)).Some?
    ensures r == f.equal(f.parse(FirstLine(f, lines, EntryId(e)).value).value, e)
  {
    assert lines[..|lines|] == lines;
    r := false;
    var i := 0;
    while i < |lines|
      invariant 0 <= i <= |lines|
      invariant FirstLine(f, lines[..i], EntryId(e)).None?
    {
      assert lines[..i + 1][..i] == lines[..i];
      if f.IsEntryOf(lines[i], EntryId(e)) {
        assert lines == lines[..i + 1] + lines[i + 1..];
        FirstLineStable(f, lines[..i + 1], lines[i + 1..], EntryId(e));
        return f.equal(f.parse(lines[i]).value, e);
      }
      i := i + 1;
    }
  }

  /** Result-equivalent to the whole-file reader, reading only what was appended. */
  class IncrementalSessionReader {
    const format: Format
    var path: Option<string>
    var offset: nat
    var header: Option<HeaderLine>
    var sessionHeader: Option<Header>
    var entries: seq<Json>
    var hashes: map<string, Digest>
    var variants: map<(string, Digest), bool>
    var verdict: Stuck
    ghost var consumed: seq<Byte>
    ghost var lines: seq<Line>

    /** The retained state is a function of the consumed bytes alone. */
    ghost predicate Valid()
      reads this
    {
      format.Sound() && Positioned(lines) && Tracks()
    }

    /** The reader stands after whole lines, and knows the hash of the first. */
    ghost predicate Positioned(before: seq<Line>)
      reads this`offset, this`header, this`consumed
    {
      && Whole(consumed, NEWLINE) && offset == |consumed|
      && before == LinesOf(consumed, NEWLINE) && (before == [] <==> consumed == [])
      && (header == if before == [] then None
          else Some(HeaderLine(|before[0]| + 1, format.hash(before[0] + [NEWLINE]))))
    }

    /** The verdict and the retained entries are those of the consumed lines. */
    ghost predicate Tracks()
      reads this`verdict, this`sessionHeader, this`entries, this`hashes, this`variants, this`lines
    {
      && (verdict.Unparseable? <==> !format.AllParse(lines))
      && (lines == [] ==> verdict.Unset?)
      && (lines != [] && format.AllParse(lines) ==>
            (verdict.Invalid? <==> Interpret(format, lines).Contradiction?))
      && (lines != [] && verdict.Unset? ==> Retained())
    }

    /** While nothing is wrong: the entries, the hash of each id's first line, and sound duplicate verdicts. */
    ghost predicate Retained()
      requires format.AllParse(lines) && lines != []
      reads this`sessionHeader, this`entries, this`hashes, this`variants, this`lines
    {
      var reading := Interpret(format, lines);
      && reading.Session?
      && sessionHeader == Some(reading.header)
      && entries == ProjectAll(reading.entries)
      && IndexedBy(lines[1..])
    }

    ghost predicate IndexedBy(before: seq<Line>)
      reads this`hashes, this`variants
    {
      && (forall id :: id in hashes <==> FirstLine(format, before, id).Some?)
      && (forall id | id in hashes :: hashes[id] == format.hash(FirstLine(format, before, id).value))
      && (forall id, line | (id, format.hash(line)) in variants && format.IsEntryOf(line, id) ::
            && FirstLine(format, before, id).Some?
            && variants[(id, format.hash(line))] ==
               format.equal(format.parse(FirstLine(format, before, id).value).value, format.parse(line).value))
    }

    constructor (format: Format)
      requires format.Sound()
      ensures Valid() && consumed == [] && this.format == format
    {
      this.format := format;
      path, offset, header, sessionHeader := None, 0, None, None;
      entries, hashes, variants, verdict := [], map[], map[], Unset;
      consumed, lines := [], [];
    }

    method Reset(path: string)
      requires format.Sound()
      modifies this
      ensures Valid() && consumed == [] && this.path == Some(path)
    {
      this.path, offset, header, verdict := Some(path), 0, None, Unset;
      sessionHeader := None;
      entries, hashes, variants := [], map[], map[];
      consumed, lines := [], [];
    }

    method Invalidate(kind: Stuck)
      modifies this`verdict, this`sessionHeader, this`entries, this`hashes, this`variants
      ensures verdict == if old(verdict).Unparseable? then Unparseable else kind
    {
      if !verdict.Unparseable? {
        verdict := kind;
      }
      sessionHeader := None;
      entries, hashes, variants := [], map[], map[];
    }

    method BoundaryIntact(file: seq<Byte>) returns (r: bool)
      requires Valid() && consumed != []
      ensures r <==> !ResetTrips(consumed, file)
    {
      if |file| <= offset || header.None? {
        return false;
      }
      assert HeaderBytes(consumed) <= consumed;
      var first := file[..header.value.length];
      if format.hash(first) != header.value.hash {
        return false;
      }
      return offset == header.value.length || file[offset - 1] == NEWLINE;
    }

    method ResetUnlessIntact(file: seq<Byte>)
      requires Valid() && path.Some?
      modifies this
      ensures Valid() && path == old(path)
      ensures consumed == if old(consumed) != [] && ResetTrips(old(consumed), file) then [] else old(consumed)
    {
      if offset > 0 {
        var intact := BoundaryIntact(file);
        if !intact {
          Reset(path.value);
        }
      }
    }

    /** The conflicting-duplicate fallback: one read of the whole file for the id's first occurrence. */
    method EqualsFirstOccurrence(e: Json, file: seq<Byte>, ghost before: seq<Line>) returns (r: bool)
      requires before <= Split(file, NEWLINE)[1..]
      requires ValidEntry(e) && FirstLine(format, before, EntryId(e)).Some?
      ensures r == format.equal(format.parse(FirstLine(format, before, EntryId(e)).value).value, e)
    {
      var lines := Split(file, NEWLINE)[1..];
      assert before + lines[|before|..] == lines;
      FirstLineStable(format, before, lines[|before|..], EntryId(e));
      r := EqualsFirstOf(format, lines, e);
    }

    /**
     * A new entry, a duplicate equal to its first occurrence, or a contradiction; `before` are the entry lines
     * consumed so far.
     */
    method AdmitLine(value: Json, bytes: Line, file: seq<Byte>, ghost before: seq<Line>) returns (r: Admission)
      requires format.Sound() && IndexedBy(before) && before <= Split(file, NEWLINE)[1..]
      requires format.parse(bytes) == Some(value)
      modifies this`variants
      ensures IndexedBy(before)
      ensures r == Admit(format, before, value)
    {
      if !ValidEntry(value) {
        return Rejected;
      }
      var id := EntryId(value);
      if id !in hashes {
        return Admitted(value);
      }
      var hash := format.hash(bytes);
      if hashes[id] == hash {
        return Duplicate;
      }
      var key := (id, hash);
      if key !in variants {
        var equal := EqualsFirstOccurrence(value, file, before);
        variants := variants[key := equal];
      }
      assert format.IsEntryOf(bytes, id);
      return if variants[key] then Duplicate else Rejected;
    }

    /** Consumes one terminated line, which is never the last line again. */
    method Consume(bytes: Line, file: seq<Byte>)
      requires Valid() && NEWLINE !in bytes
      requires consumed + bytes + [NEWLINE] <= file
      modifies this
      ensures Valid() && path == old(path)
      ensures consumed == old(consumed) + bytes + [NEWLINE]
    {
      ConsumedLines(consumed, bytes, file);
      var isHeader := Advance(bytes, lines);
      TakeLine(bytes, isHeader, file);
    }

    method Advance(bytes: Line, ghost before: seq<Line>) returns (isHeader: bool)
      requires Positioned(before) && NEWLINE !in bytes
      modifies this`offset, this`header, this`consumed
      ensures Positioned(before + [bytes]) && consumed == old(consumed) + bytes + [NEWLINE]
      ensures isHeader <==> before == []
    {
      LinesBeforeLast(consumed, bytes, true);
      isHeader := offset == 0;
      if isHeader {
        header := Some(HeaderLine(|bytes| + 1, format.hash(bytes + [NEWLINE])));
      }
      offset := offset + |bytes| + 1;
      consumed := consumed + bytes + [NEWLINE];
    }

    method TakeLine(bytes: Line, isHeader: bool, file: seq<Byte>)
      requires format.Sound() && Tracks()
      requires isHeader <==> lines == []
      requires lines != [] ==> lines[1..] <= Split(file, NEWLINE)[1..]
      modifies this`verdict, this`sessionHeader, this`entries, this`hashes, this`variants, this`lines
      ensures Tracks() && lines == old(lines) + [bytes]
    {
      ghost var before := lines;
      lines := lines + [bytes];
      if verdict.Unparseable? {
        SomeLineFails(format, before, bytes);
        return;
      }
      var parsed := format.parse(bytes);
      if parsed.None? {
        assert !format.Parses(lines[|before|]);
        Invalidate(Unparseable);
        return;
      }
      assert format.AllParse(lines);
      if isHeader {
        sessionHeader := SessionHeaderOf(parsed.value);
        entries, hashes, variants := [], map[], map[];
        if sessionHeader.None? {
          Invalidate(Invalid);
        }
        return;
      }
      InterpretByLastLine(format, before, bytes);
      if verdict.Invalid? {
        return;
      }
      assert IndexedBy(before[1..]);
      var admitted := AdmitLine(parsed.value, bytes, file, before[1..]);
      if admitted.Rejected? {
        Invalidate(Invalid);
        return;
      }
      KeepLine(before, bytes, admitted);
    }

    /** Records an admitted line: a new entry keeps its projection and the hash of its line. */
    method KeepLine(ghost before: seq<Line>, bytes: Line, admitted: Admission)
      requires format.Sound() && before != [] && lines == before + [bytes]
      requires format.AllParse(before) && format.Parses(bytes)
      requires verdict.Unset? && IndexedBy(before[1..])
      requires var reading := Interpret(format, before);
               reading.Session? && sessionHeader == Some(reading.header) && entries == ProjectAll(reading.entries)
      requires admitted == Admit(format, before[1..], format.parse(bytes).value) && !admitted.Rejected?
      modifies this`entries, this`hashes
      ensures Tracks()
    {
      InterpretByLastLine(format, before, bytes);
      IndexedByLonger(format, before[1..], bytes);
      assert lines[1..] == before[1..] + [bytes];
      if admitted.Admitted? {
        hashes := hashes[EntryId(admitted.entry) := format.hash(bytes)];
        entries := entries + [ProjectEntry(admitted.entry)];
      }
    }

    /**
     * The last line decides `transient`, then the consumed prefix's verdict, then its own validity; nothing of
     * it is retained.
     */
    method EvaluateLast(bytes: Line, terminated: bool, file: seq<Byte>) returns (r: SessionRead)
      requires Valid() && NEWLINE !in bytes && (terminated || bytes != [])
      requires file == consumed + bytes + if terminated then [NEWLINE] else []
      modifies this`variants
      ensures Valid()
      ensures r == ProjectRead(Meaning(format, file))
    {
      MeaningByLastLine(format, consumed, bytes, terminated);
      assert ProjectRead(Meaning(format, file)) == LastAnswer(format, lines, bytes);
      if verdict.Unparseable? {
        return Contradiction;
      }
      var parsed := format.parse(bytes);
      if parsed.None? {
        return Transient;
      }
      if !verdict.Unset? {
        return Contradiction;
      }
      if offset == 0 {
        var first := SessionHeaderOf(parsed.value);
        return if first.None? then Contradiction else Session(first.value, []);
      }
      LinesAfterHeader(consumed, file);
      var admitted := AdmitLine(parsed.value, bytes, file, lines[1..]);
      match admitted
      case Rejected => return Contradiction;
      case Duplicate => return Session(sessionHeader.value, entries);
      case Admitted(e) => return Session(sessionHeader.value, entries + [ProjectEntry(e)]);
    }

    /** Consumes every line that is not the last one. */
    method ConsumeSettled(file: seq<Byte>) returns (tail: seq<Byte>)
      requires Valid() && consumed <= file
      requires consumed == [] || |consumed| < |file|
      modifies this
      ensures Valid() && path == old(path)
      ensures consumed == Settled(file) && file == consumed + tail
      ensures tail == [] ==> file == []
      ensures tail != [] ==> NEWLINE !in tail[..|tail| - 1]
    {
      tail := file[offset..];
      var nl := IndexOf(tail, NEWLINE, 0);
      while 0 <= nl < |tail| - 1
        invariant Valid() && path == old(path)
        invariant file == consumed + tail && (tail == [] ==> file == [])
        invariant nl == IndexOf(tail, NEWLINE, 0)
        decreases |tail|
      {
        CutLine(consumed, tail, nl, file);
        Consume(tail[..nl], file);
        tail := tail[nl + 1..];
        nl := IndexOf(tail, NEWLINE, 0);
      }
      NoLineLeft(tail);
      SettledBefore(file, consumed, tail);
    }

    method ReadOpen(file: seq<Byte>) returns (r: SessionRead)
      requires Valid() && path.Some? && Compatible(consumed, Some(file))
      modifies this
      ensures Valid() && path == old(path)
      ensures r == ProjectRead(Meaning(format, file))
      ensures consumed == NextConsumed(format, old(consumed), Some(file))
    {
      ResetUnlessIntact(file);
      if verdict.Unparseable? {
        UnparseablePrefix(format, consumed, file);
        return Contradiction;
      }
      var tail := ConsumeSettled(file);
      if tail == [] {
        return Contradiction;
      }
      r := EvaluateTail(tail, file);
    }

    method EvaluateTail(tail: seq<Byte>, file: seq<Byte>) returns (r: SessionRead)
      requires Valid() && file == consumed + tail && tail != [] && NEWLINE !in tail[..|tail| - 1]
      modifies this`variants
      ensures Valid()
      ensures r == ProjectRead(Meaning(format, file))
    {
      var terminated := tail[|tail| - 1] == NEWLINE;
      var last := if terminated then tail[..|tail| - 1] else tail;
      assert tail == last + if terminated then [NEWLINE] else [];
      assert !terminated ==> tail == tail[..|tail| - 1] + [tail[|tail| - 1]];
      r := EvaluateLast(last, terminated, file);
    }

    /**
     * The answer is the whole-file reader's, with each entry projected, for every file state that
     * extends the consumed bytes or trips a reset test; a missing or failing file reads as transient.
     */
    method Read(path: string, file: Option<seq<Byte>>) returns (r: SessionRead)
      requires Valid()
      requires this.path == Some(path) ==> Compatible(consumed, file)
      modifies this
      ensures Valid() && this.path == Some(path)
      ensures r == ProjectRead(MeaningOf(format, file))
      ensures if file.None? then r.Transient? else Answers(format, LinesOf(file.value, NEWLINE), r, true)
      ensures consumed == NextConsumed(format, if old(this.path) == Some(path) then old(consumed) else [], file)
    {
      if Some(path) != this.path {
        Reset(path);
      }
      if file.None? {
        Reset(path);
        return Transient;
      }
      r := ReadOpen(file.value);
      MeaningAnswers(format, file.value);
    }
  }

  // ----- lemmas about one refresh

  lemma {:induction false} ConsumedLines(consumed: seq<Byte>, bytes: Line, file: seq<Byte>)
    requires Whole(consumed, NEWLINE) && NEWLINE !in bytes && consumed + bytes + [NEWLINE] <= file
    ensures LinesOf(consumed + bytes + [NEWLINE], NEWLINE) == LinesOf(consumed, NEWLINE) + [bytes]
    ensures LinesOf(consumed, NEWLINE) != [] ==> LinesOf(consumed, NEWLINE)[1..] <= Split(file, NEWLINE)[1..]
  {
    LinesBeforeLast(consumed, bytes, true);
    if LinesOf(consumed, NEWLINE) != [] {
      LinesAfterHeader(consumed, file);
    }
  }

  lemma {:induction false} CutLine(head: seq<Byte>, tail: seq<Byte>, nl: nat, file: seq<Byte>)
    requires nl < |tail| && tail[nl] == NEWLINE && file == head + tail
    ensures file == (head + tail[..nl] + [NEWLINE]) + tail[nl + 1..]
    ensures head + tail[..nl] + [NEWLINE] <= file
  {
    assert tail == tail[..nl] + [NEWLINE] + tail[nl + 1..];
  }

  lemma {:induction false} NoLineLeft(tail: seq<Byte>)
    requires !(0 <= IndexOf(tail, NEWLINE, 0) < |tail| - 1)
    ensures tail != [] ==> NEWLINE !in tail[..|tail| - 1]
  {
    if tail != [] {
      var nl := IndexOf(tail, NEWLINE, 0);
      if nl < 0 {
        assert tail == tail[0..];
      } else {
        assert nl == |tail| - 1 && tail[..nl] == tail[0..nl];
      }
    }
  }

  lemma {:induction false} SettledBefore(file: seq<Byte>, consumed: seq<Byte>, tail: seq<Byte>)
    requires file == consumed + tail && Whole(consumed, NEWLINE)
    requires tail == [] ==> file == []
    requires tail != [] ==> NEWLINE !in tail[..|tail| - 1]
    ensures consumed == Settled(file)
  {
    if file != [] {
      assert file[|consumed|..|file| - 1] == tail[..|tail| - 1];
    }
    SettledIs(file, consumed);
  }

  /** The answer once all but the last line is consumed, from the consumed lines' reading and the last line. */
  function LastAnswer(f: Format, lines: seq<Line>, last: Line): SessionRead {
    if !f.AllParse(lines) then Contradiction
    else if !f.Parses(last) then Transient
    else
      var value := f.parse(last).value;
      if lines == [] then
        if SessionHeaderOf(value).None? then Contradiction else Session(SessionHeaderOf(value).value, [])
      else
        var before := Interpret(f, lines);
        if before.Contradiction? then Contradiction
        else
          match Admit(f, lines[1..], value)
          case Admitted(e) => Session(before.header, ProjectAll(before.entries) + [ProjectEntry(e)])
          case Duplicate => Session(before.header, ProjectAll(before.entries))
          case Rejected => Contradiction
  }

  lemma {:induction false} MeaningByLastLine(f: Format, consumed: seq<Byte>, last: Line, terminated: bool)
    requires Whole(consumed, NEWLINE) && NEWLINE !in last && (terminated || last != [])
    ensures ProjectRead(Meaning(f, consumed + last + if terminated then [NEWLINE] else [])) ==
            LastAnswer(f, LinesOf(consumed, NEWLINE), last)
  {
    var lines := LinesOf(consumed, NEWLINE);
    LinesBeforeLast(consumed, last, terminated);
    VerdictByLastLine(f, lines, last);
    if f.AllParse(lines) && f.Parses(last) {
      if lines == [] {
        assert lines + [last] == [last] && [last][1..] == [];
      } else {
        InterpretByLastLine(f, lines, last);
        var before, after := Interpret(f, lines), Interpret(f, lines + [last]);
        if before.Session? && after.Session? && |after.entries| > |before.entries| {
          var e := after.entries[|before.entries|];
          assert ProjectAll(before.entries + [e]) == ProjectAll(before.entries) + [ProjectEntry(e)];
        }
      }
    }
  }

  function IndexOf(s: seq<Byte>, b: Byte, start: nat): (r: int)
    requires start <= |s|
    ensures -1 <= r < |s|
    ensures r >= 0 ==> start <= r && s[r] == b && b !in s[start..r]
    ensures r < 0 ==> b !in s[start..]
    decreases |s| - start
  {
    if start == |s| then -1 else if s[start] == b then start else IndexOf(s, b, start + 1)
  }

  lemma {:induction false} SomeLineFails(f: Format, lines: seq<Line>, last: Line)
    requires !f.AllParse(lines)
    ensures !f.AllParse(lines + [last])
  {
    var k :| 0 <= k < |lines| && !f.Parses(lines[k]);
    assert (lines + [last])[k] == lines[k];
  }

  /** Consuming one more entry line keeps every first occurrence and adds at most one. */
  lemma {:induction false} IndexedByLonger(f: Format, before: seq<Line>, bytes: Line)
    ensures forall id :: FirstLine(f, before + [bytes], id) ==
                         if FirstLine(f, before, id).Some? then FirstLine(f, before, id)
                         else if f.IsEntryOf(bytes, id) then Some(bytes)
                         else None
  {
    assert (before + [bytes])[..|before|] == before;
  }

  lemma {:induction false} UnparseablePrefix(f: Format, consumed: seq<Byte>, file: seq<Byte>)
    requires Whole(consumed, NEWLINE) && consumed <= file && |consumed| < |file|
    requires !f.AllParse(LinesOf(consumed, NEWLINE))
    ensures Meaning(f, file) == Contradiction
  {
    var head, tail := LinesOf(consumed, NEWLINE), file[|consumed|..];
    assert consumed + tail == file;
    LinesOfConcat(consumed, tail, NEWLINE);
    SomeLineLeft(tail);
    FailureDecides(f, head, LinesOf(tail, NEWLINE));
  }

  lemma {:induction false} SomeLineLeft(tail: seq<Byte>)
    requires tail != []
    ensures LinesOf(tail, NEWLINE) != []
  {
    if NEWLINE !in tail {
      SplitWhole(tail, NEWLINE);
    } else {
      SplitStarts(tail);
    }
  }

  lemma {:induction false} FailureDecides(f: Format, head: seq<Line>, more: seq<Line>)
    requires !f.AllParse(head) && more != []
    ensures Verdict(f, head + more) == Contradiction
  {
    var k :| 0 <= k < |head| && !f.Parses(head[k]);
    var lines := head + more;
    assert lines[..|lines| - 1][k] == head[k];
  }

  lemma {:induction false} SettledIs(file: seq<Byte>, r: seq<Byte>)
    requires r <= file && Whole(r, NEWLINE)
    requires if file == [] then r == [] else |r| < |file| && NEWLINE !in file[|r|..|file| - 1]
    ensures Settled(file) == r
  {
    if file != [] {
      LastTerminatedIs(file[..|file| - 1], r);
    }
  }

  lemma {:induction false} LastTerminatedIs(s: seq<Byte>, r: seq<Byte>)
    requires r <= s && Whole(r, NEWLINE) && NEWLINE !in s[|r|..]
    ensures LastTerminated(s) == r
  {
    if |r| < |s| {
      assert s[|s| - 1] == s[|r|..][|s| - 1 - |r|];
      LastTerminatedIs(s[..|s| - 1], r);
    }
  }

  // ----- whole histories

  /** A history of states of one file, each of which the reader's contract covers. */
  ghost predicate Covered(f: Format, consumed: seq<Byte>, files: seq<Option<seq<Byte>>>)
    requires Whole(consumed, NEWLINE)
    decreases |files|
  {
    files == [] ||
    (Compatible(consumed, files[0]) && Covered(f, NextConsumed(f, consumed, files[0]), files[1..]))
  }

  /** Every answer is the whole-file reader's on the state it was asked about. */
  ghost predicate Agree(f: Format, files: seq<Option<seq<Byte>>>, answers: seq<SessionRead>) {
    |answers| == |files| &&
    forall k | 0 <= k < |files| :: answers[k] == ProjectRead(MeaningOf(f, files[k]))
  }

  /** One refresh per state of a covered history. */
  method Replay(reader: IncrementalSessionReader, path: string, files: seq<Option<seq<Byte>>>)
        returns (answers: seq<SessionRead>)
    requires reader.Valid() && reader.path == Some(path)
    requires Covered(reader.format, reader.consumed, files)
    modifies reader
    ensures reader.Valid() && Agree(reader.format, files, answers)
  {
    answers := [];
    if files != [] {
      var first := reader.Read(path, files[0]);
      assert Covered(reader.format, reader.consumed, files[1..]);
      var rest := Replay(reader, path, files[1..]);
      answers := [first] + rest;
      assert answers[1..] == rest;
    }
  }

  /** The later states of a history extend the earlier ones; the file may be missing in between. */
  ghost predicate AppendOnly(files: seq<Option<seq<Byte>>>) {
    forall i, j | 0 <= i < j < |files| && files[i].Some? && files[j].Some? :: files[i].value <= files[j].value
  }

  /** Every append-only history is covered. */
  lemma {:induction false} AppendOnlyCovered(f: Format, consumed: seq<Byte>, files: seq<Option<seq<Byte>>>)
    requires Whole(consumed, NEWLINE) && AppendOnly(files)
    requires forall i | 0 <= i < |files| && files[i].Some? :: consumed <= files[i].value
    ensures Covered(f, consumed, files)
    decreases |files|
  {
    if files != [] {
      var next := NextConsumed(f, consumed, files[0]);
      forall i | 0 <= i < |files[1..]| && files[1..][i].Some?
        ensures next <= files[1..][i].value
      {
        assert files[1..][i] == files[i + 1];
        if files[0].Some? {
          assert next <= files[0].value <= files[i + 1].value;
        }
      }
      forall i, j | 0 <= i < j < |files[1..]| && files[1..][i].Some? && files[1..][j].Some?
        ensures files[1..][i].value <= files[1..][j].value
      {
        assert files[1..][i] == files[i + 1] && files[1..][j] == files[j + 1];
      }
      AppendOnlyCovered(f, next, files[1..]);
    }
  }

  /** A rewrite that changes the header line is covered whatever else it does: it trips the reset. */
  lemma {:induction false} HeaderRewriteCovered(consumed: seq<Byte>, file: seq<Byte>)
    requires Whole(consumed, NEWLINE) && consumed != []
    requires !(HeaderBytes(consumed) <= file)
    ensures Compatible(consumed, Some(file))
  {
    var header := HeaderBytes(consumed);
    assert |file| > |consumed| ==> file[..|header|] <= file;
  }
}
