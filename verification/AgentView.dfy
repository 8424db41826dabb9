// agent-view.ts: the batch model relayed hop by hop from a descendant to the root.

module AgentView {
  import opened Bounds
  import opened Options
  import opened Batches

  const MAX_SUBTREE_DESCENDANTS: nat := 128
  const TOOL_NAME_CAP: nat := 64
  const BATCH_ARGS_PREVIEW_CAP: nat := 200
  const MAX_SAFE_INTEGER: nat := 9007199254740991

  // ----- what a receiver may find in a message

  /** A field as parsed: missing, a finite number, a string, or anything else. */
  datatype Field = Absent | Number(n: real) | Text(s: string) | Other

  /** An object-valued field by the fields it is read for; `Bad` is any value that is not an object. */
  datatype RawRunning = NotRunning | BadRunning
                      | RawRunning(toolName: Field, argsPreview: Field, startedAt: Field, done: Field,
                          othersRunning: Field)

  datatype RawPhase = NoPhase | BadPhase | RawPhase(kind: Field, phaseStartedAt: Field, toolName: Field, chars: Field)

  datatype RawBatch = BadBatch
                    | RawBatch(epoch: Field, seqNo: Field, toolNames: Option<seq<Field>>, callCount: Field,
                        failed: Field,
                               startedAt: Field, endedAt: Field, running: RawRunning, generating: RawPhase)

  /** One entry of the agent list; `batches` is nothing when it is not an array. */
  datatype RawAgent = BadAgent | RawAgent(id: Field, batches: Option<seq<RawBatch>>)

  /** A message body; nothing when `agents` is not an array. */
  type Message = Option<seq<RawAgent>>

  // ----- parsing one batch

  function SafeCount(f: Field): (r: Option<nat>)
    ensures r.Some? ==> r.value <= MAX_SAFE_INTEGER && f == Number(r.value as real)
  {
    if f.Number? && 0.0 <= f.n <= MAX_SAFE_INTEGER as real && f.n.Floor as real == f.n then Some(f.n.Floor) else None
  }

  function ClockOf(f: Field): (r: Option<Clock>)
    ensures r.Some? ==> r.value >= 0.0
  {
    if f.Number? && f.n >= 0.0 then Some(f.n) else None
  }

  predicate Control(c: char) {
    c as int < 0x20 || 0x7f <= c as int <= 0x9f
  }

  function Printable(s: string): (r: string)
    ensures |r| == |s|
  {
    seq(|s|, i requires 0 <= i < |s| => if Control(s[i]) then ' ' else s[i])
  }

  /** Control characters become spaces; a longer string ends in an ellipsis at the cap. */
  function CapString(s: string, cap: nat): string
    requires cap > 0
  {
    var flat := Printable(s);
    if |flat| <= cap then flat else flat[..cap - 1] + ['\U{2026}']
  }

  predicate Capped(s: string, cap: nat) {
    |s| <= cap && forall i | 0 <= i < |s| :: !Control(s[i])
  }

  predicate EpochChar(c: char) {
    'A' <= c <= 'Z' || 'a' <= c <= 'z' || '0' <= c <= '9' || c == '_' || c == '-'
  }

  predicate EpochOk(epoch: string) {
    1 <= |epoch| <= 32 && forall i | 0 <= i < |epoch| :: EpochChar(epoch[i])
  }

  /** The non-empty strings of a list, in order. */
  function Named(names: seq<Field>): (r: seq<string>)
    ensures |r| <= |names|
    ensures forall k | 0 <= k < |r| :: r[k] != ""
  {
    if names == [] then []
    else if names[0].Text? && names[0].s != "" then [names[0].s] + Named(names[1..])
    else Named(names[1..])
  }

  function Trimmed(names: seq<string>): (r: seq<string>)
    ensures |r| <= BATCH_TOOL_NAME_CAP
  {
    var n := if |names| <= BATCH_TOOL_NAME_CAP then |names| else BATCH_TOOL_NAME_CAP;
    seq(n, i requires 0 <= i < n => CapString(names[i], TOOL_NAME_CAP))
  }

  function ParseRunning(raw: RawRunning): Option<Running> {
    if !raw.RawRunning? || !raw.toolName.Text? || !raw.argsPreview.Text? then None
    else
      var startedAt, done, others := ClockOf(raw.startedAt), SafeCount(raw.done), SafeCount(raw.othersRunning);
      if startedAt.None? || done.None? || others.None? then None
      else Some(Running(CapString(raw.toolName.s, TOOL_NAME_CAP), CapString(raw.argsPreview.s, BATCH_ARGS_PREVIEW_CAP),
                        startedAt.value, done.value, others.value))
  }

  function ParseGenerating(raw: RawPhase): Option<Phase> {
    if !raw.RawPhase? || ClockOf(raw.phaseStartedAt).None? then None
    else
      var at := ClockOf(raw.phaseStartedAt).value;
      if raw.kind == Text("thinking") then Some(Phase(Thinking, at, None, None))
      else if raw.kind == Text("replying") then Some(Phase(Replying, at, None, None))
      else if raw.kind != Text("tool") || !raw.toolName.Text? || SafeCount(raw.chars).None? then None
      else Some(Phase(Tool, at, Some(CapString(raw.toolName.s, TOOL_NAME_CAP)), SafeCount(raw.chars)))
  }

  /** How many of the three mutually exclusive fields an object holds. */
  function RawPresent(raw: RawBatch): nat
    requires raw.RawBatch?
  {
    (if raw.endedAt.Absent? then 0 else 1) + (if raw.running.NotRunning? then 0 else 1)
        + (if raw.generating.NoPhase? then 0 else 1)
  }

  function ParseHead(raw: RawBatch): Option<View> {
    if !raw.RawBatch? then None
    else
      var seqNo, callCount, failed, startedAt := SafeCount(raw.seqNo), SafeCount(raw.callCount), SafeCount(raw.failed),
          ClockOf(raw.startedAt);
      if seqNo.None? || seqNo.value == 0 || callCount.None? || failed.None? || failed.value > callCount.value
         || startedAt.None? || raw.toolNames.None? then None
      else
        var epoch := if raw.epoch.Text? && EpochOk(raw.epoch.s) then Some(raw.epoch.s) else None;
        Some(View(epoch, seqNo.value, Trimmed(Named(raw.toolNames.value)), callCount.value, failed.value,
            startedAt.value, None, None, None))
  }

  /** `parseBatch`. */
  function ParseBatch(raw: RawBatch): Option<View> {
    var head := ParseHead(raw);
    if head.None? || RawPresent(raw) != 1 then None
    else if !raw.endedAt.Absent? then
      if ClockOf(raw.endedAt).None? then None else Some(head.value.(endedAt := ClockOf(raw.endedAt)))
    else if !raw.running.NotRunning? then
      if ParseRunning(raw.running).None? then None else Some(head.value.(running := ParseRunning(raw.running)))
    else if ParseGenerating(raw.generating).None? then None
    else Some(head.value.(generating := ParseGenerating(raw.generating)))
  }

  // ----- printing

  function PrintNames(names: seq<string>): (r: seq<Field>)
    ensures |r| == |names|
  {
    seq(|names|, i requires 0 <= i < |names| => Text(names[i]))
  }

  function PrintRunning(r: Option<Running>): RawRunning {
    if r.None? then NotRunning
    else RawRunning(Text(r.value.toolName), Text(r.value.argsPreview), Number(r.value.startedAt),
                    Number(r.value.done as real), Number(r.value.othersRunning as real))
  }

  function PrintPhase(p: Option<Phase>): RawPhase {
    if p.None? then NoPhase
    else
      RawPhase(Text(match p.value.kind case Thinking => "thinking" case Replying => "replying" case Tool => "tool"),
               Number(p.value.phaseStartedAt),
               if p.value.toolName.Some? then Text(p.value.toolName.value) else Absent,
               if p.value.chars.Some? then Number(p.value.chars.value as real) else Absent)
  }

  function PrintBatch(v: View): RawBatch {
    RawBatch(if v.epoch.Some? then Text(v.epoch.value) else Absent,
             Number(v.seqNo as real), Some(PrintNames(v.toolNames)),
             Number(v.callCount as real), Number(v.failed as real), Number(v.startedAt),
             if v.endedAt.Some? then Number(v.endedAt.value) else Absent,
             PrintRunning(v.running), PrintPhase(v.generating))
  }

  // ----- one batch across hops

  /** The counts survive a double. */
  predicate Safe(v: View) {
    && v.seqNo <= MAX_SAFE_INTEGER && v.callCount <= MAX_SAFE_INTEGER && v.failed <= MAX_SAFE_INTEGER
    && (v.running.Some? ==>
          v.running.value.done <= MAX_SAFE_INTEGER && v.running.value.othersRunning <= MAX_SAFE_INTEGER)
    && (v.generating.Some? && v.generating.value.chars.Some? ==> v.generating.value.chars.value <= MAX_SAFE_INTEGER)
  }

  /**
   * What every accepted batch is: exactly one of ended, running and generating, counts in bounds, strings capped
   * and clean.
   */
  predicate WireOk(v: View) {
    && Present(v) == 1 && Safe(v)
    && v.seqNo > 0 && v.failed <= v.callCount && v.startedAt >= 0.0
    && (v.epoch.Some? ==> EpochOk(v.epoch.value))
    && |v.toolNames| <= BATCH_TOOL_NAME_CAP
    && (forall i | 0 <= i < |v.toolNames| :: v.toolNames[i] != "" && Capped(v.toolNames[i], TOOL_NAME_CAP))
    && (v.endedAt.Some? ==> v.endedAt.value >= 0.0)
    && (v.running.Some? ==> v.running.value.startedAt >= 0.0 && Capped(v.running.value.toolName, TOOL_NAME_CAP)
                            && Capped(v.running.value.argsPreview, BATCH_ARGS_PREVIEW_CAP))
    && (v.generating.Some? ==> PhaseOk(v.generating.value)
                               && (v.generating.value.toolName.Some? ==>
                                   Capped(v.generating.value.toolName.value, TOOL_NAME_CAP)))
  }

  /** What a hop does to a batch: names and previews capped, an odd epoch dropped. */
  function AfterHop(v: View): View {
    v.(epoch := if v.epoch.Some? && EpochOk(v.epoch.value) then v.epoch else None,
       toolNames := Trimmed(Nonempty(v.toolNames)),
       running := if v.running.None? then None
                  else Some(v.running.value.(toolName := CapString(v.running.value.toolName, TOOL_NAME_CAP),
                                             argsPreview :=
                                               CapString(v.running.value.argsPreview, BATCH_ARGS_PREVIEW_CAP))),
       generating := if v.generating.None? || v.generating.value.toolName.None? then v.generating
                     else Some(v.generating.value.(toolName :=
                         Some(CapString(v.generating.value.toolName.value, TOOL_NAME_CAP)))))
  }

  function Nonempty(names: seq<string>): seq<string> {
    if names == [] then [] else (if names[0] == "" then [] else [names[0]]) + Nonempty(names[1..])
  }

  lemma {:induction false} CapStringCaps(s: string, cap: nat)
    requires cap > 0
    ensures Capped(CapString(s, cap), cap)
    ensures s != "" ==> CapString(s, cap) != ""
    ensures Capped(s, cap) ==> CapString(s, cap) == s
  {
    var flat := Printable(s);
    assert forall i | 0 <= i < |flat| :: !Control(flat[i]);
    assert Capped(s, cap) ==> flat == s;
  }

  lemma {:induction false} NamedOfPrinted(names: seq<string>)
    ensures Named(PrintNames(names)) == Nonempty(names)
  {
    if names != [] {
      assert PrintNames(names)[1..] == PrintNames(names[1..]);
      NamedOfPrinted(names[1..]);
    }
  }

  lemma {:induction false} NonemptyKeeps(names: seq<string>)
    requires forall i | 0 <= i < |names| :: names[i] != ""
    ensures Nonempty(names) == names
  {
    if names != [] {
      NonemptyKeeps(names[1..]);
    }
  }

  lemma {:induction false} TrimmedCaps(names: seq<string>)
    requires forall i | 0 <= i < |names| :: names[i] != ""
    ensures forall i | 0 <= i < |Trimmed(names)| :: Trimmed(names)[i] != "" && Capped(Trimmed(names)[i], TOOL_NAME_CAP)
    ensures |names| <= BATCH_TOOL_NAME_CAP && (forall i | 0 <= i < |names| :: Capped(names[i], TOOL_NAME_CAP)) ==>
            Trimmed(names) == names
  {
    forall i | 0 <= i < |Trimmed(names)|
      ensures Trimmed(names)[i] != "" && Capped(Trimmed(names)[i], TOOL_NAME_CAP)
      ensures Capped(names[i], TOOL_NAME_CAP) ==> Trimmed(names)[i] == names[i]
    {
      CapStringCaps(names[i], TOOL_NAME_CAP);
    }
  }

  /** Whatever arrives, what is accepted is well formed. */
  lemma {:induction false} AcceptedIsWireOk(raw: RawBatch)
    requires ParseBatch(raw).Some?
    ensures WireOk(ParseBatch(raw).value)
  {
    TrimmedCaps(Named(raw.toolNames.value));
    if raw.running.RawRunning? && raw.running.toolName.Text? && raw.running.argsPreview.Text? {
      CapStringCaps(raw.running.toolName.s, TOOL_NAME_CAP);
      CapStringCaps(raw.running.argsPreview.s, BATCH_ARGS_PREVIEW_CAP);
    }
    if raw.generating.RawPhase? && raw.generating.toolName.Text? {
      CapStringCaps(raw.generating.toolName.s, TOOL_NAME_CAP);
    }
  }

  // ----- what is accepted of a batch, in the fields of the object

  predicate IsCount(f: Field, n: nat) {
    n <= MAX_SAFE_INTEGER && f == Number(n as real)
  }

  predicate IsClock(f: Field, at: Clock) {
    at >= 0.0 && f == Number(at)
  }

  /** The text with a space for each control character, and past the cap its first part before an ellipsis. */
  predicate ShownAs(s: string, cap: nat, r: string)
    requires cap > 0
  {
    && |r| == (if |s| <= cap then |s| else cap)
    && (|s| > cap ==> r[cap - 1] == '\U{2026}')
    && forall i | 0 <= i < |r| && (|s| <= cap || i < cap - 1) :: r[i] == if Control(s[i]) then ' ' else s[i]
  }

  predicate Increasing(at: seq<nat>) {
    forall i, j | 0 <= i < j < |at| :: at[i] < at[j]
  }

  predicate IsName(f: Field) {
    f.Text? && f.s != ""
  }

  /** The first five non-empty texts of the list, capped. */
  predicate NamesTaken(names: seq<Field>, r: seq<string>, at: seq<nat>) {
    && |at| == |r| <= BATCH_TOOL_NAME_CAP && Increasing(at)
    && (forall i | 0 <= i < |at| ::
          at[i] < |names| && IsName(names[at[i]]) && ShownAs(names[at[i]].s, TOOL_NAME_CAP, r[i]))
    && forall k: nat | k < |names| && IsName(names[k]) && k !in at ::
         |at| == BATCH_TOOL_NAME_CAP && forall i | 0 <= i < |at| :: at[i] < k
  }

  predicate RunningSays(raw: RawRunning, r: Running) {
    && raw.RawRunning? && raw.toolName.Text? && raw.argsPreview.Text?
    && ShownAs(raw.toolName.s, TOOL_NAME_CAP, r.toolName)
    && ShownAs(raw.argsPreview.s, BATCH_ARGS_PREVIEW_CAP, r.argsPreview)
    && IsClock(raw.startedAt, r.startedAt) && IsCount(raw.done, r.done) && IsCount(raw.othersRunning, r.othersRunning)
  }

  predicate PhaseSays(raw: RawPhase, p: Phase) {
    && raw.RawPhase? && IsClock(raw.phaseStartedAt, p.phaseStartedAt)
    && match p.kind
       case Thinking => raw.kind == Text("thinking") && p.toolName.None? && p.chars.None?
       case Replying => raw.kind == Text("replying") && p.toolName.None? && p.chars.None?
       case Tool =>
         && raw.kind == Text("tool") && raw.toolName.Text? && p.toolName.Some? && p.chars.Some?
         && ShownAs(raw.toolName.s, TOOL_NAME_CAP, p.toolName.value) && IsCount(raw.chars, p.chars.value)
  }

  predicate HeadSays(raw: RawBatch, v: View) {
    && raw.RawBatch? && IsCount(raw.seqNo, v.seqNo) && v.seqNo > 0
    && IsCount(raw.callCount, v.callCount) && IsCount(raw.failed, v.failed) && v.failed <= v.callCount
    && IsClock(raw.startedAt, v.startedAt) && raw.toolNames.Some?
    && v.epoch == if raw.epoch.Text? && EpochOk(raw.epoch.s) then Some(raw.epoch.s) else None
  }

  /** The object is a batch, and this is it: one of the three state fields is there, well formed, and no other. */
  ghost predicate Says(raw: RawBatch, v: View) {
    && HeadSays(raw, v) && (exists at: seq<nat> :: NamesTaken(raw.toolNames.value, v.toolNames, at))
    && (raw.endedAt.Absent? <==> v.endedAt.None?) && (v.endedAt.Some? ==> IsClock(raw.endedAt, v.endedAt.value))
    && (raw.running.NotRunning? <==> v.running.None?) && (v.running.Some? ==> RunningSays(raw.running, v.running.value))
    && (raw.generating.NoPhase? <==> v.generating.None?)
    && (v.generating.Some? ==> PhaseSays(raw.generating, v.generating.value))
    && Present(v) == 1
  }

  lemma {:induction false} CapStringShows(s: string, cap: nat)
    requires cap > 0
    ensures ShownAs(s, cap, CapString(s, cap))
  {
  }

  lemma {:induction false} CountIsExact(f: Field, n: nat)
    ensures SafeCount(f) == Some(n) <==> IsCount(f, n)
  {
    CountRoundTrip(n);
  }

  /** `named` are the non-empty texts of the list, found at these positions. */
  predicate NamesAll(names: seq<Field>, named: seq<string>, at: seq<nat>) {
    && |at| == |named| && Increasing(at)
    && (forall i | 0 <= i < |at| :: at[i] < |names| && names[at[i]] == Text(named[i]) && named[i] != "")
    && forall k: nat | k < |names| && IsName(names[k]) :: k in at
  }

  lemma {:induction false} NamedOneMore(names: seq<Field>, named: seq<string>, at: seq<nat>, last: Field)
    requires NamesAll(names, named, at)
    ensures if IsName(last) then NamesAll(names + [last], named + [last.s], at + [|names|])
            else NamesAll(names + [last], named, at)
  {
    var more := names + [last];
    forall k: nat | k < |more| && IsName(more[k])
      ensures k in at + [|names|] && (k < |names| ==> k in at)
    {
      assert k < |names| ==> IsName(names[k]);
    }
  }

  lemma {:induction false} NamedOf(names: seq<Field>, last: Field)
    ensures Named(names + [last]) == Named(names) + if IsName(last) then [last.s] else []
  {
    if names == [] {
      assert [last][1..] == [];
    } else {
      assert (names + [last])[1..] == names[1..] + [last];
      NamedOf(names[1..], last);
    }
  }

  lemma {:induction false} NamedAre(names: seq<Field>) returns (at: seq<nat>)
    ensures NamesAll(names, Named(names), at)
  {
    at := [];
    if names != [] {
      var init, last := names[..|names| - 1], names[|names| - 1];
      assert names == init + [last];
      at := NamedAre(init);
      NamedOneMore(init, Named(init), at, last);
      NamedOf(init, last);
      at := if IsName(last) then at + [|init|] else at;
    }
  }

  lemma {:induction false} TrimmedTakes(names: seq<Field>) returns (at: seq<nat>)
    ensures NamesTaken(names, Trimmed(Named(names)), at)
  {
    var all := NamedAre(names);
    var r := Trimmed(Named(names));
    at := all[..|r|];
    forall i | 0 <= i < |at|
      ensures ShownAs(names[at[i]].s, TOOL_NAME_CAP, r[i])
    {
      CapStringShows(names[at[i]].s, TOOL_NAME_CAP);
    }
    forall k: nat | k < |names| && IsName(names[k]) && k !in at
      ensures |at| == BATCH_TOOL_NAME_CAP && forall i | 0 <= i < |at| :: at[i] < k
    {
      var j :| 0 <= j < |all| && all[j] == k;
      assert forall i | 0 <= i < |at| :: at[i] == all[i];
      assert j >= |at|;
    }
  }

  lemma {:induction false} RunningExactly(raw: RawRunning)
    ensures ParseRunning(raw).Some? ==> RunningSays(raw, ParseRunning(raw).value)
    ensures ParseRunning(raw).None? ==> forall r :: !RunningSays(raw, r)
  {
    if raw.RawRunning? && raw.toolName.Text? && raw.argsPreview.Text? {
      CapStringShows(raw.toolName.s, TOOL_NAME_CAP);
      CapStringShows(raw.argsPreview.s, BATCH_ARGS_PREVIEW_CAP);
      forall n: nat
        ensures SafeCount(raw.done) == Some(n) <==> IsCount(raw.done, n)
        ensures SafeCount(raw.othersRunning) == Some(n) <==> IsCount(raw.othersRunning, n)
      {
        CountIsExact(raw.done, n);
        CountIsExact(raw.othersRunning, n);
      }
    }
  }

  lemma {:induction false} PhaseExactly(raw: RawPhase)
    ensures ParseGenerating(raw).Some? ==> PhaseSays(raw, ParseGenerating(raw).value)
    ensures ParseGenerating(raw).None? ==> forall p :: !PhaseSays(raw, p)
  {
    assert "tool"[0] == 't' && "tool"[1] == 'o' && "thinking"[1] == 'h' && "replying"[0] == 'r';
    if raw.RawPhase? {
      if raw.toolName.Text? {
        CapStringShows(raw.toolName.s, TOOL_NAME_CAP);
      }
      forall n: nat
        ensures SafeCount(raw.chars) == Some(n) <==> IsCount(raw.chars, n)
      {
        CountIsExact(raw.chars, n);
      }
    }
  }

  lemma {:induction false} HeadExactly(raw: RawBatch)
    ensures ParseHead(raw).Some? ==> HeadSays(raw, ParseHead(raw).value)
    ensures ParseHead(raw).None? ==> forall v :: !HeadSays(raw, v)
  {
    if raw.RawBatch? {
      forall n: nat
        ensures SafeCount(raw.seqNo) == Some(n) <==> IsCount(raw.seqNo, n)
        ensures SafeCount(raw.callCount) == Some(n) <==> IsCount(raw.callCount, n)
        ensures SafeCount(raw.failed) == Some(n) <==> IsCount(raw.failed, n)
      {
        CountIsExact(raw.seqNo, n);
        CountIsExact(raw.callCount, n);
        CountIsExact(raw.failed, n);
      }
    }
  }

  /** A batch is accepted exactly when its fields say some view, and then the view they say. */
  lemma {:induction false} AcceptedExactly(raw: RawBatch)
    ensures ParseBatch(raw).Some? ==> Says(raw, ParseBatch(raw).value)
    ensures ParseBatch(raw).None? ==> forall v :: !Says(raw, v)
  {
    HeadExactly(raw);
    if raw.RawBatch? {
      RunningExactly(raw.running);
      PhaseExactly(raw.generating);
    }
    if ParseBatch(raw).Some? {
      var at := TrimmedTakes(raw.toolNames.value);
    }
  }

  lemma {:induction false} CountRoundTrip(n: nat)
    ensures SafeCount(Number(n as real)) == if n <= MAX_SAFE_INTEGER then Some(n) else None
  {
    assert (n as real).Floor == n;
  }

  lemma {:induction false} RunningRoundTrip(r: Running)
    requires r.startedAt >= 0.0
    ensures ParseRunning(PrintRunning(Some(r))) ==
            if r.done <= MAX_SAFE_INTEGER && r.othersRunning <= MAX_SAFE_INTEGER
            then Some(r.(toolName := CapString(r.toolName, TOOL_NAME_CAP),
                argsPreview := CapString(r.argsPreview, BATCH_ARGS_PREVIEW_CAP)))
            else None
  {
    CountRoundTrip(r.done);
    CountRoundTrip(r.othersRunning);
  }

  lemma {:induction false} PhaseRoundTrip(p: Phase)
    requires PhaseOk(p)
    ensures ParseGenerating(PrintPhase(Some(p))) ==
            if p.chars.Some? && p.chars.value > MAX_SAFE_INTEGER then None
            else if p.toolName.None? then Some(p)
            else Some(p.(toolName := Some(CapString(p.toolName.value, TOOL_NAME_CAP))))
  {
    assert "tool"[0] == 't' && "tool"[1] == 'o' && "thinking"[1] == 'h' && "replying"[0] == 'r';
    if p.chars.Some? {
      CountRoundTrip(p.chars.value);
    }
  }

  lemma {:induction false} HeadRoundTrip(v: View)
    requires v.seqNo > 0 && v.failed <= v.callCount && v.startedAt >= 0.0
    ensures ParseHead(PrintBatch(v)) ==
            if v.seqNo <= MAX_SAFE_INTEGER && v.callCount <= MAX_SAFE_INTEGER
            then Some(AfterHop(v).(endedAt := None, running := None, generating := None))
            else None
  {
    CountRoundTrip(v.seqNo);
    CountRoundTrip(v.callCount);
    CountRoundTrip(v.failed);
    NamedOfPrinted(v.toolNames);
  }

  /** One hop takes a well-formed view to its capped form, and drops it exactly when a count does not fit a double. */
  lemma {:induction false} OneHop(v: View)
    requires Present(v) == 1 && v.seqNo > 0 && v.failed <= v.callCount && v.startedAt >= 0.0
    requires v.endedAt.Some? ==> v.endedAt.value >= 0.0
    requires v.running.Some? ==> v.running.value.startedAt >= 0.0
    requires v.generating.Some? ==> PhaseOk(v.generating.value)
    ensures ParseBatch(PrintBatch(v)) == if Safe(v) then Some(AfterHop(v)) else None
  {
    HeadRoundTrip(v);
    if v.running.Some? {
      RunningRoundTrip(v.running.value);
    }
    if v.generating.Some? {
      PhaseRoundTrip(v.generating.value);
    }
  }

  /** A view that came off the wire goes over it unchanged. */
  lemma {:induction false} LaterHopsKeep(v: View)
    requires WireOk(v)
    ensures AfterHop(v) == v && ParseBatch(PrintBatch(v)) == Some(v)
  {
    OneHop(v);
    NonemptyKeeps(v.toolNames);
    TrimmedCaps(v.toolNames);
    if v.running.Some? {
      CapStringCaps(v.running.value.toolName, TOOL_NAME_CAP);
      CapStringCaps(v.running.value.argsPreview, BATCH_ARGS_PREVIEW_CAP);
    }
    if v.generating.Some? && v.generating.value.toolName.Some? {
      CapStringCaps(v.generating.value.toolName.value, TOOL_NAME_CAP);
    }
  }

  // ----- a whole message

  /** An agent's views, oldest first. A model lists its agents parent before child, each once. */
  datatype Entry = Entry(id: string, views: seq<View>)

  function ParsedBatches(raws: seq<RawBatch>): seq<View> {
    if raws == [] then []
    else
      var init, last := ParsedBatches(raws[..|raws| - 1]), ParseBatch(raws[|raws| - 1]);
      if last.Some? then init + [last.value] else init
  }

  predicate Has(model: seq<Entry>, id: string) {
    exists k :: 0 <= k < |model| && model[k].id == id
  }

  /** What one listed agent offers on its own. */
  function Offer(raw: RawAgent): (r: Option<Entry>)
    ensures r.Some? ==> r.value.id != "" && r.value.views != [] && |r.value.views| <= AGENT_BATCH_CAP
  {
    if !raw.RawAgent? || !raw.id.Text? || raw.id.s == "" || raw.batches.None? then None
    else
      var views := Newest(ParsedBatches(raw.batches.value), AGENT_BATCH_CAP);
      if views == [] then None else Some(Entry(raw.id.s, views))
  }

  function TakeOne(before: seq<Entry>, next: Option<Entry>): seq<Entry> {
    if |before| >= MAX_SUBTREE_DESCENDANTS || next.None? || Has(before, next.value.id) then before
    else before + [next.value]
  }

  function Taken(agents: seq<RawAgent>): seq<Entry> {
    if agents == [] then [] else TakeOne(Taken(agents[..|agents| - 1]), Offer(agents[|agents| - 1]))
  }

  /** Once the model is full, nothing later is taken. */
  lemma {:induction false} FullStays(agents: seq<RawAgent>, n: nat)
    requires n <= |agents| && |Taken(agents[..n])| >= MAX_SUBTREE_DESCENDANTS
    ensures Taken(agents) == Taken(agents[..n])
  {
    if n < |agents| {
      assert agents[..|agents| - 1][..n] == agents[..n];
      FullStays(agents[..|agents| - 1], n);
    } else {
      assert agents[..n] == agents;
    }
  }

  /** `parseAgentViewMessage`. */
  method ParseAgentViewMessage(message: Message) returns (model: Option<seq<Entry>>)
    ensures model == if message.Some? then Some(Taken(message.value)) else None
  {
    if message.None? {
      return None;
    }
    var agents := message.value;
    var entries: seq<Entry> := [];
    var i := 0;
    while i < |agents|
      invariant 0 <= i <= |agents| && entries == Taken(agents[..i])
    {
      if |entries| >= MAX_SUBTREE_DESCENDANTS {
        FullStays(agents, i);
        return Some(entries);
      }
      assert agents[..i + 1][..i] == agents[..i];
      var raw := agents[i];
      if raw.RawAgent? && raw.id.Text? && raw.id.s != "" && !Has(entries, raw.id.s) && raw.batches.Some? {
        var views := Newest(ParsedBatches(raw.batches.value), AGENT_BATCH_CAP);
        if views != [] {
          entries := entries + [Entry(raw.id.s, views)];
        }
      }
      i := i + 1;
    }
    assert agents[..|agents|] == agents;
    return Some(entries);
  }

  predicate Distinct(model: seq<Entry>) {
    forall i, j | 0 <= i < j < |model| :: model[i].id != model[j].id
  }

  /** The `k`-th agent offers this entry, and no earlier one offers anything under its id. */
  predicate FirstOffer(agents: seq<RawAgent>, k: nat, e: Entry) {
    && k < |agents| && Offer(agents[k]) == Some(e)
    && forall j | 0 <= j < k :: Offer(agents[j]).None? || Offer(agents[j]).value.id != e.id
  }

  lemma {:induction false} FirstOfferGrows(agents: seq<RawAgent>, k: nat, e: Entry)
    requires agents != [] && FirstOffer(agents[..|agents| - 1], k, e)
    ensures FirstOffer(agents, k, e)
  {
    var init := agents[..|agents| - 1];
    assert forall j | 0 <= j <= k :: agents[j] == init[j];
  }

  lemma {:induction false} TakeOneHas(before: seq<Entry>, next: Option<Entry>, id: string)
    requires Has(before, id) || (next.Some? && next.value.id == id && |TakeOne(before, next)| < MAX_SUBTREE_DESCENDANTS)
    ensures Has(TakeOne(before, next), id)
  {
    var after := TakeOne(before, next);
    if Has(before, id) {
      var k :| 0 <= k < |before| && before[k].id == id;
      assert after[k].id == id;
    } else {
      assert after[|before|].id == id;
    }
  }

  /** With room to spare no offer is lost, but to an earlier one of its id. */
  lemma {:induction false} NoOfferLost(agents: seq<RawAgent>, k: nat)
    requires |Taken(agents)| < MAX_SUBTREE_DESCENDANTS && k < |agents| && Offer(agents[k]).Some?
    ensures Has(Taken(agents), Offer(agents[k]).value.id)
  {
    var n := |agents| - 1;
    if k < n {
      assert agents[..n][k] == agents[k];
      NoOfferLost(agents[..n], k);
    }
    TakeOneHas(Taken(agents[..n]), Offer(agents[n]), Offer(agents[k]).value.id);
  }

  /**
   * Every entry taken is some agent's offer, the first of its id; an offer left out lost to its id or to a full
   * model.
   */
  lemma {:induction false} FirstOfferWins(agents: seq<RawAgent>)
    ensures |Taken(agents)| <= MAX_SUBTREE_DESCENDANTS && Distinct(Taken(agents))
    ensures forall e | e in Taken(agents) :: exists k: nat :: FirstOffer(agents, k, e)
    ensures |Taken(agents)| < MAX_SUBTREE_DESCENDANTS ==>
              forall k | 0 <= k < |agents| && Offer(agents[k]).Some? :: Has(Taken(agents), Offer(agents[k]).value.id)
  {
    if agents != [] {
      var n := |agents| - 1;
      var init := agents[..n];
      FirstOfferWins(init);
      forall e | e in Taken(agents)
        ensures exists k: nat :: FirstOffer(agents, k, e)
      {
        if e in Taken(init) {
          var k: nat :| FirstOffer(init, k, e);
          FirstOfferGrows(agents, k, e);
        } else {
          LastOfferFirst(agents, e);
        }
      }
      if |Taken(agents)| < MAX_SUBTREE_DESCENDANTS {
        forall k | 0 <= k < |agents| && Offer(agents[k]).Some?
          ensures Has(Taken(agents), Offer(agents[k]).value.id)
        {
          NoOfferLost(agents, k);
        }
      }
    }
  }

  lemma {:induction false} LastOfferFirst(agents: seq<RawAgent>, e: Entry)
    requires agents != [] && e in Taken(agents) && e !in Taken(agents[..|agents| - 1])
    ensures FirstOffer(agents, |agents| - 1, e)
  {
    var init := agents[..|agents| - 1];
    forall j | 0 <= j < |init| && Offer(init[j]).Some?
      ensures Offer(agents[j]).value.id != e.id
    {
      NoOfferLost(init, j);
    }
  }

  ghost predicate IsBatch(raw: RawBatch) {
    exists v :: Says(raw, v)
  }

  /** The batches of the list, found at these positions, with the views they say. */
  ghost predicate ViewsAll(raws: seq<RawBatch>, views: seq<View>, at: seq<nat>) {
    && |at| == |views| && Increasing(at)
    && (forall i | 0 <= i < |at| :: at[i] < |raws| && Says(raws[at[i]], views[i]))
    && forall k: nat | k < |raws| && IsBatch(raws[k]) :: k in at
  }

  lemma {:induction false} ViewsOneMore(raws: seq<RawBatch>, views: seq<View>, at: seq<nat>, last: RawBatch, v: View)
    requires ViewsAll(raws, views, at) && Says(last, v)
    ensures ViewsAll(raws + [last], views + [v], at + [|raws|])
  {
    forall k: nat | k < |raws| && IsBatch((raws + [last])[k])
      ensures k in at
    {
      assert IsBatch(raws[k]);
    }
  }

  lemma {:induction false} ViewsNoMore(raws: seq<RawBatch>, views: seq<View>, at: seq<nat>, last: RawBatch)
    requires ViewsAll(raws, views, at) && !IsBatch(last)
    ensures ViewsAll(raws + [last], views, at)
  {
  }

  lemma {:induction false} ParsedAre(raws: seq<RawBatch>) returns (at: seq<nat>)
    ensures ViewsAll(raws, ParsedBatches(raws), at)
  {
    at := [];
    if raws != [] {
      var init, last := raws[..|raws| - 1], raws[|raws| - 1];
      assert raws == init + [last];
      at := ParsedAre(init);
      AcceptedExactly(last);
      if ParseBatch(last).Some? {
        ViewsOneMore(init, ParsedBatches(init), at, last, ParseBatch(last).value);
        at := at + [|init|];
      } else {
        ViewsNoMore(init, ParsedBatches(init), at, last);
      }
    }
  }

  /** The newest five of the views said, at least one. */
  ghost predicate NewestSaid(raws: seq<RawBatch>, kept: seq<View>) {
    exists views: seq<View>, at: seq<nat> :: ViewsAll(raws, views, at) && IsNewest(views, kept)
  }

  predicate IsNewest(views: seq<View>, kept: seq<View>) {
    && 0 < |kept| == (if |views| <= AGENT_BATCH_CAP then |views| else AGENT_BATCH_CAP)
    && kept == views[|views| - |kept|..]
  }

  ghost predicate Offers(raw: RawAgent, e: Entry) {
    raw.RawAgent? && raw.id == Text(e.id) && e.id != "" && raw.batches.Some? && NewestSaid(raw.batches.value, e.views)
  }

  /** An agent is offered exactly with a name and a batch that says a view, and then under its newest five. */
  lemma {:induction false} OfferExactly(raw: RawAgent)
    ensures Offer(raw).Some? ==> Offers(raw, Offer(raw).value)
    ensures Offer(raw).None? ==> forall e :: !Offers(raw, e)
  {
    if raw.RawAgent? && raw.batches.Some? {
      var raws := raw.batches.value;
      var at := ParsedAre(raws);
      forall views: seq<View>, elsewhere: seq<nat> | ViewsAll(raws, views, elsewhere) && views != []
        ensures ParsedBatches(raws) != []
      {
        SaidOnce(raws, ParsedBatches(raws), at, views, elsewhere);
      }
      if ParsedBatches(raws) != [] {
        assert IsNewest(ParsedBatches(raws), Newest(ParsedBatches(raws), AGENT_BATCH_CAP));
      }
    }
  }

  lemma {:induction false} SaidOnce(
      raws: seq<RawBatch>, views: seq<View>, at: seq<nat>, others: seq<View>, elsewhere: seq<nat>)
    requires ViewsAll(raws, views, at) && ViewsAll(raws, others, elsewhere) && others != []
    ensures views != []
  {
    assert IsBatch(raws[elsewhere[0]]);
  }

  /** The model holds the first offers of their ids, in order, all of them or the first that fill it. */
  ghost predicate FirstOffers(agents: seq<RawAgent>, model: seq<Entry>, at: seq<nat>) {
    && |at| == |model| <= MAX_SUBTREE_DESCENDANTS && Increasing(at)
    && (forall i | 0 <= i < |at| :: FirstOffer(agents, at[i], model[i]))
    && forall k: nat, e | FirstOffer(agents, k, e) && k !in at ::
         |at| == MAX_SUBTREE_DESCENDANTS && forall i | 0 <= i < |at| :: at[i] < k
  }

  lemma {:induction false} FirstOfferBefore(agents: seq<RawAgent>, last: RawAgent, k: nat, e: Entry)
    requires k < |agents|
    ensures FirstOffer(agents + [last], k, e) <==> FirstOffer(agents, k, e)
  {
    assert forall j | 0 <= j <= k :: (agents + [last])[j] == agents[j];
  }

  lemma {:induction false} FirstOffersOneMore(agents: seq<RawAgent>, model: seq<Entry>, at: seq<nat>, last: RawAgent)
    requires FirstOffers(agents, model, at)
    requires forall e | FirstOffer(agents + [last], |agents|, e) :: |model| == MAX_SUBTREE_DESCENDANTS
    ensures FirstOffers(agents + [last], model, at)
  {
    forall k: nat, e | k < |agents|
      ensures FirstOffer(agents + [last], k, e) <==> FirstOffer(agents, k, e)
    {
      FirstOfferBefore(agents, last, k, e);
    }
  }

  lemma {:induction false} FirstOffersTake(
      agents: seq<RawAgent>, model: seq<Entry>, at: seq<nat>, last: RawAgent, e: Entry)
    requires FirstOffers(agents, model, at) && |model| < MAX_SUBTREE_DESCENDANTS
    requires FirstOffer(agents + [last], |agents|, e)
    ensures FirstOffers(agents + [last], model + [e], at + [|agents|])
  {
    forall k: nat, x | k < |agents|
      ensures FirstOffer(agents + [last], k, x) <==> FirstOffer(agents, k, x)
    {
      FirstOfferBefore(agents, last, k, x);
    }
  }

  lemma {:induction false} TakenInOrder(agents: seq<RawAgent>) returns (at: seq<nat>)
    ensures FirstOffers(agents, Taken(agents), at)
  {
    at := [];
    if agents != [] {
      var init, last := agents[..|agents| - 1], agents[|agents| - 1];
      assert agents == init + [last];
      at := TakenInOrder(init);
      var before, next := Taken(init), Offer(last);
      if |before| < MAX_SUBTREE_DESCENDANTS && next.Some? && !Has(before, next.value.id) {
        LastOfferFirst(agents, next.value);
        FirstOffersTake(init, before, at, last, next.value);
        at := at + [|init|];
      } else {
        if |before| < MAX_SUBTREE_DESCENDANTS && next.Some? {
          NotFirst(init, before, at, last, next.value);
        }
        FirstOffersOneMore(init, before, at, last);
      }
    }
  }

  lemma {:induction false} NotFirst(agents: seq<RawAgent>, model: seq<Entry>, at: seq<nat>, last: RawAgent, e: Entry)
    requires FirstOffers(agents, model, at) && Has(model, e.id) && Offer(last) == Some(e)
    ensures forall x :: !FirstOffer(agents + [last], |agents|, x)
  {
    var i :| 0 <= i < |model| && model[i].id == e.id;
    assert FirstOffer(agents, at[i], model[i]);
    assert (agents + [last])[at[i]] == agents[at[i]];
  }

  // ----- a model across hops

  function PrintViews(views: seq<View>): (r: seq<RawBatch>)
    ensures |r| == |views|
  {
    seq(|views|, i requires 0 <= i < |views| => PrintBatch(views[i]))
  }

  function PrintModel(model: seq<Entry>): (r: seq<RawAgent>)
    ensures |r| == |model|
  {
    seq(|model|, i requires 0 <= i < |model| => PrintEntry(model[i]))
  }

  /** A hop: print, parse. */
  function Hop(model: seq<Entry>): seq<Entry> {
    Taken(PrintModel(model))
  }

  /** A view some buffer shows, or one relayed before: what `OneHop` asks. */
  predicate Sendable(v: View) {
    && Present(v) == 1 && v.seqNo > 0 && v.failed <= v.callCount && v.startedAt >= 0.0
    && (v.endedAt.Some? ==> v.endedAt.value >= 0.0)
    && (v.running.Some? ==> v.running.value.startedAt >= 0.0)
    && (v.generating.Some? ==> PhaseOk(v.generating.value))
  }

  /** The views that fit, each capped. */
  function HopViews(views: seq<View>): seq<View> {
    if views == [] then []
    else
      var init, last := HopViews(views[..|views| - 1]), views[|views| - 1];
      if Safe(last) then init + [AfterHop(last)] else init
  }

  lemma {:induction false} ParsedOfPrinted(views: seq<View>)
    requires forall i | 0 <= i < |views| :: Sendable(views[i])
    ensures ParsedBatches(PrintViews(views)) == HopViews(views)
  {
    if views != [] {
      var init := views[..|views| - 1];
      assert PrintViews(views)[..|views| - 1] == PrintViews(init);
      ParsedOfPrinted(init);
      OneHop(views[|views| - 1]);
    }
  }

  /** A model a hop may send: few enough agents, each named once, every view well formed. */
  predicate ModelOk(model: seq<Entry>) {
    && |model| <= MAX_SUBTREE_DESCENDANTS && Distinct(model)
    && forall i | 0 <= i < |model| :: EntrySendable(model[i])
  }

  /** The newest five of an agent's surviving views; an agent none of whose views survive is gone. */
  function HopEntries(model: seq<Entry>): (r: seq<Entry>)
    ensures |r| <= |model|
  {
    if model == [] then []
    else
      var init, last := HopEntries(model[..|model| - 1]), model[|model| - 1];
      var views := Newest(HopViews(last.views), AGENT_BATCH_CAP);
      if views == [] then init else init + [Entry(last.id, views)]
  }

  lemma {:induction false} HopIds(model: seq<Entry>, id: string)
    requires forall k | 0 <= k < |model| :: model[k].id != id
    ensures !Has(HopEntries(model), id)
  {
    if model != [] {
      HopIds(model[..|model| - 1], id);
    }
  }

  function PrintEntry(e: Entry): RawAgent {
    RawAgent(Text(e.id), Some(PrintViews(e.views)))
  }

  predicate EntrySendable(e: Entry) {
    e.id != "" && forall k | 0 <= k < |e.views| :: Sendable(e.views[k])
  }

  lemma {:induction false} OfferOfPrinted(e: Entry)
    requires EntrySendable(e)
    ensures var views := Newest(HopViews(e.views), AGENT_BATCH_CAP);
            Offer(PrintEntry(e)) == if views == [] then None else Some(Entry(e.id, views))
  {
    ParsedOfPrinted(e.views);
  }

  lemma {:induction false} HopStep(model: seq<Entry>)
    requires model != []
    ensures var n := |model| - 1; Hop(model) == TakeOne(Hop(model[..n]), Offer(PrintEntry(model[n])))
  {
    var n := |model| - 1;
    assert PrintModel(model)[..n] == PrintModel(model[..n]);
  }

  lemma {:induction false} ShorterModelOk(model: seq<Entry>)
    requires ModelOk(model) && model != []
    ensures var init, last := model[..|model| - 1], model[|model| - 1];
            ModelOk(init) && EntrySendable(last) && forall k | 0 <= k < |init| :: init[k].id != last.id
  {
    var init := model[..|model| - 1];
    assert forall k | 0 <= k < |init| :: init[k] == model[k];
  }

  /**
   * What any hop does to any model it may send, agent by agent: order and parents kept, the newest five views,
   * capped.
   */
  lemma {:induction false} HopIsPointwise(model: seq<Entry>)
    requires ModelOk(model)
    ensures Hop(model) == HopEntries(model)
  {
    if model != [] {
      var init, last := model[..|model| - 1], model[|model| - 1];
      ShorterModelOk(model);
      HopIsPointwise(init);
      HopStep(model);
      OfferOfPrinted(last);
      HopIds(init, last.id);
    }
  }

  lemma {:induction false} WireViewKept(v: View)
    requires WireOk(v)
    ensures Safe(v) && AfterHop(v) == v
  {
    LaterHopsKeep(v);
  }

  lemma {:induction false} KeptLast(views: seq<View>, last: View)
    requires WireOk(last)
    ensures HopViews(views + [last]) == HopViews(views) + [last]
  {
    WireViewKept(last);
    assert (views + [last])[..|views|] == views;
  }

  lemma {:induction false} WireViewsKept(views: seq<View>)
    requires forall i | 0 <= i < |views| :: WireOk(views[i])
    ensures HopViews(views) == views
  {
    if views != [] {
      var init, last := views[..|views| - 1], views[|views| - 1];
      WireViewsKept(init);
      KeptLast(init, last);
      assert views == init + [last];
    }
  }

  lemma {:induction false} ParsedAreWireOk(raws: seq<RawBatch>)
    ensures forall i | 0 <= i < |ParsedBatches(raws)| :: WireOk(ParsedBatches(raws)[i])
  {
    if raws != [] {
      ParsedAreWireOk(raws[..|raws| - 1]);
      if ParseBatch(raws[|raws| - 1]).Some? {
        AcceptedIsWireOk(raws[|raws| - 1]);
      }
    }
  }

  /** What a receiver holds after any message: at most five views each, all well formed. */
  predicate Received(model: seq<Entry>) {
    && |model| <= MAX_SUBTREE_DESCENDANTS && Distinct(model)
    && forall i | 0 <= i < |model| :: EntryReceived(model[i])
  }

  predicate EntryReceived(e: Entry) {
    e.id != "" && 0 < |e.views| <= AGENT_BATCH_CAP && forall k | 0 <= k < |e.views| :: WireOk(e.views[k])
  }

  lemma {:induction false} TakenIsReceived(agents: seq<RawAgent>)
    ensures Received(Taken(agents))
  {
    FirstOfferWins(agents);
    forall i | 0 <= i < |Taken(agents)|
      ensures EntryReceived(Taken(agents)[i])
    {
      var e := Taken(agents)[i];
      assert e in Taken(agents);
      var k: nat :| FirstOffer(agents, k, e);
      ParsedAreWireOk(agents[k].batches.value);
    }
  }

  lemma {:induction false} SameLastKept(model: seq<Entry>, last: Entry)
    requires 0 < |last.views| <= AGENT_BATCH_CAP && HopViews(last.views) == last.views
    ensures HopEntries(model + [last]) == HopEntries(model) + [last]
  {
    assert (model + [last])[..|model|] == model;
  }

  lemma {:induction false} ReceivedLastKept(model: seq<Entry>, last: Entry)
    requires EntryReceived(last)
    ensures HopEntries(model + [last]) == HopEntries(model) + [last]
  {
    WireViewsKept(last.views);
    SameLastKept(model, last);
  }

  lemma {:induction false} ReceivedEntriesKept(model: seq<Entry>)
    requires forall i | 0 <= i < |model| :: EntryReceived(model[i])
    ensures HopEntries(model) == model
  {
    if model != [] {
      var init, last := model[..|model| - 1], model[|model| - 1];
      ReceivedEntriesKept(init);
      ReceivedLastKept(init, last);
      assert model == init + [last];
    }
  }

  /** Whatever message a hop received, relaying what it kept loses nothing more: every later hop is the identity. */
  lemma {:induction false} LaterHopsAreIdentity(agents: seq<RawAgent>)
    ensures Hop(Taken(agents)) == Taken(agents)
  {
    var model := Taken(agents);
    TakenIsReceived(agents);
    assert ModelOk(model) by {
      forall i | 0 <= i < |model|
        ensures EntrySendable(model[i])
      {
        assert EntryReceived(model[i]);
      }
    }
    HopIsPointwise(model);
    ReceivedEntriesKept(model);
  }

  lemma {:induction false} SafeViewsHop(views: seq<View>)
    requires forall k | 0 <= k < |views| :: Safe(views[k])
    ensures |HopViews(views)| == |views| && forall k | 0 <= k < |views| :: HopViews(views)[k] == AfterHop(views[k])
  {
    if views != [] {
      SafeViewsHop(views[..|views| - 1]);
    }
  }

  /** The first hop of a child's own buffer: exactly the newest five of its views, each capped. */
  lemma {:induction false} FirstHop(id: string, events: seq<Timed>, epoch: string)
    requires TimesNonNegative(events) && id != ""
    requires var views := BatchViews(Run(Buffer(1, [], None), events), epoch);
             views != [] && forall k | 0 <= k < |views| :: Safe(views[k])
    ensures var views := BatchViews(Run(Buffer(1, [], None), events), epoch);
            var kept := Newest(views, AGENT_BATCH_CAP);
            var hopped := Hop([Entry(id, views)]);
            && |hopped| == 1 && hopped[0].id == id && |hopped[0].views| == |kept|
            && forall k | 0 <= k < |kept| :: hopped[0].views[k] == AfterHop(kept[k])
  {
    var views := BatchViews(Run(Buffer(1, [], None), events), epoch);
    ViewsAfterAnyRun(events, epoch);
    forall k | 0 <= k < |views|
      ensures Sendable(views[k])
    {
      assert ViewOk(views[k]);
    }
    FirstHopOf(id, views);
  }

  lemma {:induction false} FirstHopOf(id: string, views: seq<View>)
    requires id != "" && views != [] && forall k | 0 <= k < |views| :: Sendable(views[k]) && Safe(views[k])
    ensures var kept, hopped := Newest(views, AGENT_BATCH_CAP), Hop([Entry(id, views)]);
            && |hopped| == 1 && hopped[0].id == id && |hopped[0].views| == |kept|
            && forall k | 0 <= k < |kept| :: hopped[0].views[k] == AfterHop(kept[k])
  {
    var model := [Entry(id, views)];
    HopIsPointwise(model);
    assert model[..0] == [];
    SafeViewsHop(views);
  }

  // ----- many hops

  /**
   * What one process adds on the way up: its direct children's own views, which agents are its direct
   * children, models other children forwarded earlier, and the agents its snapshot keeps, parent first.
   */
  datatype Place = Place(own: map<string, seq<View>>, registry: set<string>, earlier: seq<Entry>, rows: seq<string>)

  function FirstOf(forwarded: seq<Entry>, id: string): Option<seq<View>> {
    if forwarded == [] then None
    else if forwarded[0].id == id then Some(forwarded[0].views)
    else FirstOf(forwarded[1..], id)
  }

  /** A direct child's own buffer wins over anything forwarded under its id. */
  function Source(place: Place, forwarded: seq<Entry>, id: string): Option<seq<View>> {
    if id in place.own && place.own[id] != [] then Some(place.own[id])
    else if id in place.registry then None
    else FirstOf(place.earlier + forwarded, id)
  }

  function BuildFor(place: Place, forwarded: seq<Entry>, rows: seq<string>): (r: seq<Entry>)
    ensures |r| <= |rows|
  {
    if rows == [] then []
    else
      var before, id := BuildFor(place, forwarded, rows[..|rows| - 1]), rows[|rows| - 1];
      if Source(place, forwarded, id).Some? && !Has(before, id)
      then before + [Entry(id, Source(place, forwarded, id).value)]
      else before
  }

  /** `buildAgentViewModel`. */
  function Build(place: Place, forwarded: seq<Entry>): seq<Entry> {
    BuildFor(place, forwarded, place.rows)
  }

  /** The snapshot's bound, and views only buffers and earlier hops make. */
  predicate PlaceOk(place: Place) {
    && |place.rows| <= MAX_SUBTREE_DESCENDANTS && (forall k | 0 <= k < |place.rows| :: place.rows[k] != "")
    && (forall id | id in place.own :: forall k | 0 <= k < |place.own[id]| :: Sendable(place.own[id][k]))
    && (forall k | 0 <= k < |place.earlier| :: EntryReceived(place.earlier[k]))
  }

  /** The process is above the agent, not its parent, keeps it, and heard of it from this child first. */
  predicate Passes(place: Place, id: string) {
    id !in place.own && id !in place.registry && id in place.rows && !Has(place.earlier, id)
  }

  lemma {:induction false} FirstOfReceived(forwarded: seq<Entry>, id: string)
    requires forall k | 0 <= k < |forwarded| :: EntryReceived(forwarded[k])
    ensures FirstOf(forwarded, id).Some? ==> EntryReceived(Entry(id, FirstOf(forwarded, id).value)) || id == ""
  {
    if forwarded != [] {
      assert EntryReceived(forwarded[0]);
      FirstOfReceived(forwarded[1..], id);
    }
  }

  lemma {:induction false} FirstOfDistinct(forwarded: seq<Entry>, k: nat)
    requires k < |forwarded| && Distinct(forwarded)
    ensures FirstOf(forwarded, forwarded[k].id) == Some(forwarded[k].views)
  {
    if k > 0 {
      FirstOfDistinct(forwarded[1..], k - 1);
    }
  }

  lemma {:induction false} FirstOfPasses(earlier: seq<Entry>, forwarded: seq<Entry>, id: string)
    requires !Has(earlier, id)
    ensures FirstOf(earlier + forwarded, id) == FirstOf(forwarded, id)
  {
    if earlier != [] {
      assert (earlier + forwarded)[1..] == earlier[1..] + forwarded;
      assert earlier[0].id != id;
      assert forall k | 0 <= k < |earlier[1..]| :: earlier[1..][k] == earlier[k + 1];
      FirstOfPasses(earlier[1..], forwarded, id);
    } else {
      assert earlier + forwarded == forwarded;
    }
  }

  lemma {:induction false} SourceSendable(place: Place, forwarded: seq<Entry>, id: string)
    requires PlaceOk(place) && Received(forwarded) && id != ""
    ensures Source(place, forwarded, id).Some? ==> EntrySendable(Entry(id, Source(place, forwarded, id).value))
  {
    if !(id in place.own && place.own[id] != []) && id !in place.registry {
      FirstOfReceived(place.earlier + forwarded, id);
    }
  }

  lemma {:induction false} BuildForOk(place: Place, forwarded: seq<Entry>, rows: seq<string>)
    requires PlaceOk(place) && Received(forwarded) && forall k | 0 <= k < |rows| :: rows[k] != ""
    ensures Distinct(BuildFor(place, forwarded, rows))
    ensures forall i | 0 <= i < |BuildFor(place, forwarded, rows)| :: EntrySendable(BuildFor(place, forwarded, rows)[i])
  {
    if rows != [] {
      BuildForOk(place, forwarded, rows[..|rows| - 1]);
      SourceSendable(place, forwarded, rows[|rows| - 1]);
    }
  }

  lemma {:induction false} BuildForHas(place: Place, forwarded: seq<Entry>, rows: seq<string>, id: string)
    requires id in rows && Source(place, forwarded, id).Some?
    ensures Entry(id, Source(place, forwarded, id).value) in BuildFor(place, forwarded, rows)
  {
    var n := |rows| - 1;
    BuildForSources(place, forwarded, rows);
    if rows[n] != id {
      assert id in rows[..n];
      BuildForHas(place, forwarded, rows[..n], id);
    } else if !Has(BuildFor(place, forwarded, rows[..n]), id) {
      assert BuildFor(place, forwarded, rows)[|BuildFor(place, forwarded, rows[..n])|].id == id;
    } else {
      BuildForSources(place, forwarded, rows[..n]);
      var k :| 0 <= k < |BuildFor(place, forwarded, rows[..n])| && BuildFor(place, forwarded, rows[..n])[k].id == id;
    }
  }

  lemma {:induction false} BuildForSources(place: Place, forwarded: seq<Entry>, rows: seq<string>)
    ensures forall i | 0 <= i < |BuildFor(place, forwarded, rows)| ::
              var e := BuildFor(place, forwarded, rows)[i];
              Source(place, forwarded, e.id) == Some(e.views)
  {
    if rows != [] {
      BuildForSources(place, forwarded, rows[..|rows| - 1]);
    }
  }

  /** The `k`-th forwarded model entry is the first for this agent. */
  predicate FirstForwarded(forwarded: seq<Entry>, k: nat, e: Entry) {
    k < |forwarded| && forwarded[k] == e && forall j | 0 <= j < k :: forwarded[j].id != e.id
  }

  /** Where an agent's views come from: its own buffer if it has any, and no other for a registered agent. */
  ghost predicate Comes(place: Place, forwarded: seq<Entry>, e: Entry) {
    if e.id in place.own && place.own[e.id] != [] then e.views == place.own[e.id]
    else e.id !in place.registry && exists k: nat :: FirstForwarded(place.earlier + forwarded, k, e)
  }

  predicate FirstRow(rows: seq<string>, k: nat, id: string) {
    k < |rows| && rows[k] == id && id !in rows[..k]
  }

  lemma {:induction false} FirstOfIs(forwarded: seq<Entry>, id: string)
    ensures FirstOf(forwarded, id).Some? ==>
              exists k: nat :: FirstForwarded(forwarded, k, Entry(id, FirstOf(forwarded, id).value))
    ensures forall k: nat, e | FirstForwarded(forwarded, k, e) && e.id == id :: FirstOf(forwarded, id) == Some(e.views)
  {
    if forwarded != [] {
      var rest := forwarded[1..];
      FirstOfIs(rest, id);
      if forwarded[0].id == id {
        assert FirstForwarded(forwarded, 0, forwarded[0]);
      } else {
        forall k: nat, e: Entry | e.id == id && k < |rest|
          ensures FirstForwarded(forwarded, k + 1, e) <==> FirstForwarded(rest, k, e)
        {
          assert forall j | 0 <= j <= k :: rest[j] == forwarded[j + 1];
        }
        if FirstOf(rest, id).Some? {
          var e := Entry(id, FirstOf(rest, id).value);
          var k: nat :| FirstForwarded(rest, k, e);
          assert FirstForwarded(forwarded, k + 1, e);
        }
        forall k: nat, e | FirstForwarded(forwarded, k, e) && e.id == id
          ensures FirstOf(forwarded, id) == Some(e.views)
        {
          assert FirstForwarded(rest, k - 1, e);
        }
      }
    }
  }

  lemma {:induction false} SourceIs(place: Place, forwarded: seq<Entry>, e: Entry)
    ensures Source(place, forwarded, e.id) == Some(e.views) <==> Comes(place, forwarded, e)
  {
    FirstOfIs(place.earlier + forwarded, e.id);
  }

  /** A process lists exactly the agents its snapshot keeps that have views, under the views they come with. */
  lemma {:induction false} BuildExactly(place: Place, forwarded: seq<Entry>, e: Entry)
    ensures e in Build(place, forwarded) <==> e.id in place.rows && Comes(place, forwarded, e)
  {
    SourceIs(place, forwarded, e);
    BuildForSources(place, forwarded, place.rows);
    BuildForRows(place, forwarded, place.rows);
    if e.id in place.rows && Comes(place, forwarded, e) {
      BuildForHas(place, forwarded, place.rows, e.id);
    }
  }

  lemma {:induction false} BuildForRows(place: Place, forwarded: seq<Entry>, rows: seq<string>)
    ensures forall i | 0 <= i < |BuildFor(place, forwarded, rows)| :: BuildFor(place, forwarded, rows)[i].id in rows
  {
    if rows != [] {
      BuildForRows(place, forwarded, rows[..|rows| - 1]);
    }
  }

  /** Agents are listed in the order of the snapshot. */
  lemma {:induction false} BuildInOrder(place: Place, forwarded: seq<Entry>, rows: seq<string>) returns (at: seq<nat>)
    ensures var built := BuildFor(place, forwarded, rows);
            && |at| == |built| && Increasing(at)
            && forall i | 0 <= i < |at| :: FirstRow(rows, at[i], built[i].id)
  {
    at := [];
    if rows != [] {
      var n := |rows| - 1;
      at := BuildInOrder(place, forwarded, rows[..n]);
      var before := BuildFor(place, forwarded, rows[..n]);
      forall i | 0 <= i < |at|
        ensures FirstRow(rows, at[i], before[i].id)
      {
        assert rows[..n][..at[i]] == rows[..at[i]];
      }
      if |BuildFor(place, forwarded, rows)| > |before| {
        NotListed(place, forwarded, rows[..n], rows[n]);
        at := at + [n];
      }
    }
  }

  lemma {:induction false} NotListed(place: Place, forwarded: seq<Entry>, rows: seq<string>, id: string)
    requires Source(place, forwarded, id).Some? && !Has(BuildFor(place, forwarded, rows), id)
    ensures id !in rows
  {
    if id in rows {
      BuildForHas(place, forwarded, rows, id);
    }
  }

  lemma {:induction false} BuildOk(place: Place, forwarded: seq<Entry>)
    requires PlaceOk(place) && Received(forwarded)
    ensures ModelOk(Build(place, forwarded))
  {
    BuildForOk(place, forwarded, place.rows);
  }

  /** An entry that came off the wire survives any hop it is sent over. */
  lemma {:induction false} ReceivedEntryKept(model: seq<Entry>, e: Entry)
    requires EntryReceived(e) && e in model
    ensures e in HopEntries(model)
  {
    var n := |model| - 1;
    if model[n] == e {
      WireViewsKept(e.views);
    } else {
      assert e in model[..n];
      ReceivedEntryKept(model[..n], e);
      assert forall x | x in HopEntries(model[..n]) :: x in HopEntries(model);
    }
  }

  /** Up through a chain of processes, each building its model and sending it on. */
  function Relay(places: seq<Place>, model: seq<Entry>): seq<Entry> {
    if places == [] then model
    else Hop(Build(places[|places| - 1], Relay(places[..|places| - 1], model)))
  }

  /**
   * However many hops lie between: a descendant's views, once received by its parent's parent, reach the
   * root exactly as they were, past any siblings, own views and other agents each hop adds.
   */
  lemma {:induction false} ReachesTheRoot(places: seq<Place>, model: seq<Entry>, e: Entry)
    requires Received(model) && e in model
    requires forall k | 0 <= k < |places| :: PlaceOk(places[k]) && Passes(places[k], e.id)
    ensures Received(Relay(places, model)) && e in Relay(places, model)
  {
    if places != [] {
      var place, below := places[|places| - 1], Relay(places[..|places| - 1], model);
      ReachesTheRoot(places[..|places| - 1], model, e);
      var built := Build(place, below);
      BuildOk(place, below);
      var k :| 0 <= k < |below| && below[k] == e;
      FirstOfDistinct(below, k);
      FirstOfPasses(place.earlier, below, e.id);
      BuildForHas(place, below, place.rows, e.id);
      HopIsPointwise(built);
      var i :| 0 <= i < |model| && model[i] == e;
      assert EntryReceived(model[i]);
      assert e in built;
      ReceivedEntryKept(built, e);
      TakenIsReceived(PrintModel(built));
    }
  }
}
