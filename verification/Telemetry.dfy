// agent-telemetry.ts: the usage reduction over a session read.

module Telemetry {
  import opened Options
  import opened Json
  import opened SessionFormat

  datatype Origin = Origin(sessionId: string, prefixEntryId: Option<string>, emptyPrefix: bool)

  datatype Reduced = Reduced(contextTokens: Option<real>, estimatedUsd: Option<real>, partialEstimatedUsd: Option<real>)

  datatype Usage = Usage(contextTokens: Option<real>, cost: Option<real>)

  function Nonnegative(v: Option<Json>): (r: Option<real>)
    ensures r.Some? ==> r.value >= 0.0
  {
    if v.Some? && v.value.Number? && v.value.value >= 0.0 then Some(v.value.value) else None
  }

  function AddPart(sum: Option<real>, part: Option<real>): Option<real> {
    if part.None? then sum else if sum.None? then part else Some(sum.value + part.value)
  }

  function UsageOf(raw: Option<Json>): (r: Option<Usage>)
    ensures r.Some? && r.value.cost.Some? ==> r.value.cost.value >= 0.0
  {
    var explicit := Nonnegative(Field(raw, "totalTokens"));
    var summed := AddPart(AddPart(AddPart(Nonnegative(Field(raw, "input")), Nonnegative(Field(raw, "output"))),
                                  Nonnegative(Field(raw, "cacheRead"))), Nonnegative(Field(raw, "cacheWrite")));
    var contextTokens := if explicit.Some? then explicit else summed;
    var cost := Nonnegative(Field(Field(raw, "cost"), "total"));
    if contextTokens.None? && cost.None? then None else Some(Usage(contextTokens, cost))
  }

  /** The loop state of the reduction. */
  datatype Running = Running(total: real, observedCost: bool, invalidCost: bool, contextTokens: Option<real>)

  const START := Running(0.0, false, false, None)

  /** The fields of an entry that the reduction looks at. */
  datatype Parts = Parts(kind: Option<Json>, role: Option<Json>, ofMessage: Option<Json>, ofEntry: Option<Json>)

  function PartsOf(e: Json): Parts {
    var message := Field(Some(e), "message");
    Parts(Field(Some(e), "type"), Field(message, "role"), Field(message, "usage"), Field(Some(e), "usage"))
  }

  function Step(r: Running, e: Json): Running {
    Add(r, PartsOf(e))
  }

  function Add(r: Running, p: Parts): Running {
    var isMessage := p.kind == Some(Text("message"));
    var assistant := isMessage && p.role == Some(Text("assistant"));
    var summary := p.kind == Some(Text("compaction")) || p.kind == Some(Text("branch_summary"));
    var raw := if p.ofMessage.None? || p.ofMessage.value.Null? then p.ofEntry else p.ofMessage;
    var usage := UsageOf(raw);
    if usage.None? then
      r.(invalidCost := r.invalidCost || assistant || (raw.Some? && (summary || isMessage)),
         contextTokens := if assistant || summary then None else r.contextTokens)
    else
      var tokens := if summary then None else if assistant then usage.value.contextTokens else r.contextTokens;
      if usage.value.cost.None? then r.(invalidCost := true, contextTokens := tokens)
      else r.(observedCost := true, total := r.total + usage.value.cost.value, contextTokens := tokens)
  }

  function Fold(es: seq<Json>): Running {
    if es == [] then START else Step(Fold(es[..|es| - 1]), es[|es| - 1])
  }

  function Outcome(r: Running): Reduced {
    Reduced(r.contextTokens,
            if !r.invalidCost && r.observedCost then Some(r.total) else None,
            if r.invalidCost && r.observedCost then Some(r.total) else None)
  }

  function IndexOfId(es: seq<Json>, id: string): (r: int)
    ensures -1 <= r < |es|
    ensures r >= 0 ==> Field(Some(es[r]), "id") == Some(Text(id))
  {
    if es == [] then -1
    else if Field(Some(es[0]), "id") == Some(Text(id)) then 0
    else
      var rest := IndexOfId(es[1..], id);
      if rest < 0 then -1 else rest + 1
  }

  /** Where the attributable entries start, or nothing when the origin's prefix is not in the session. */
  function StartIndex(origin: Origin, es: seq<Json>): (r: Option<nat>)
    ensures r.Some? ==> r.value <= |es|
  {
    if origin.prefixEntryId.Some? && origin.prefixEntryId.value != "" then
      var at := IndexOfId(es, origin.prefixEntryId.value);
      if at < 0 then None else Some(at + 1)
    else if origin.emptyPrefix then Some(0)
    else None
  }

  function Reduce(origin: Origin, read: SessionRead): Option<Reduced> {
    if !read.Session? || read.header.id != origin.sessionId then None
    else
      var start := StartIndex(origin, read.entries);
      if start.None? then None else Some(Outcome(Fold(read.entries[start.value..])))
  }

  // ----- what a reduction reports, in the raw fields of the entries

  predicate IsText(v: Json, key: string, text: string) {
    v.Object? && key in v.fields && v.fields[key] == Text(text)
  }

  /** The usage an entry carries: its message's, or else its own; a null in the message counts as absent. */
  function UsageIn(e: Json): Option<Json> {
    if e.Object? && "message" in e.fields && e.fields["message"].Object? && "usage" in e.fields["message"].fields
       && !e.fields["message"].fields["usage"].Null?
    then Some(e.fields["message"].fields["usage"])
    else if e.Object? && "usage" in e.fields then Some(e.fields["usage"])
    else None
  }

  predicate HasAmount(v: Json, key: string) {
    v.Object? && key in v.fields && v.fields[key].Number? && v.fields[key].value >= 0.0
  }

  function Amount(v: Json, key: string): real {
    if HasAmount(v, key) then v.fields[key].value else 0.0
  }

  /** A usage with a price: `cost.total` is a non-negative number. */
  predicate Priced(u: Json) {
    u.Object? && "cost" in u.fields && HasAmount(u.fields["cost"], "total")
  }

  predicate HasParts(u: Json) {
    HasAmount(u, "input") || HasAmount(u, "output") || HasAmount(u, "cacheRead") || HasAmount(u, "cacheWrite")
  }

  predicate HasTokens(u: Json) {
    HasAmount(u, "totalTokens") || HasParts(u)
  }

  /** The given total, or else the sum of the parts given. */
  function Tokens(u: Json): real {
    if HasAmount(u, "totalTokens") then Amount(u, "totalTokens")
    else Amount(u, "input") + Amount(u, "output") + Amount(u, "cacheRead") + Amount(u, "cacheWrite")
  }

  predicate Assistant(e: Json) {
    IsText(e, "type", "message") && "message" in e.fields && IsText(e.fields["message"], "role", "assistant")
  }

  predicate Summary(e: Json) {
    IsText(e, "type", "compaction") || IsText(e, "type", "branch_summary")
  }

  predicate Paid(e: Json) {
    UsageIn(e).Some? && Priced(UsageIn(e).value)
  }

  function Price(e: Json): real {
    if Paid(e) then UsageIn(e).value.fields["cost"].fields["total"].value else 0.0
  }

  /**
   * The entry leaves a gap in the sum: usage that counts tokens but names no price, an assistant message with
   * no usable usage, or a message or summary whose usage is not usable.
   */
  predicate Gap(e: Json) {
    && !Paid(e)
    && ((UsageIn(e).Some? && HasTokens(UsageIn(e).value))
        || Assistant(e)
        || (UsageIn(e).Some? && (IsText(e, "type", "message") || Summary(e))))
  }

  function Dollars(es: seq<Json>): real {
    if es == [] then 0.0 else Price(es[0]) + Dollars(es[1..])
  }

  /** The last assistant message or summary says how full the context is; a summary makes it unknown. */
  ghost predicate ContextOf(es: seq<Json>, tokens: Option<real>) {
    if forall k | 0 <= k < |es| :: !Assistant(es[k]) && !Summary(es[k]) then tokens.None?
    else exists k :: LastSpeaks(es, k, tokens)
  }

  ghost predicate LastSpeaks(es: seq<Json>, k: nat, tokens: Option<real>) {
    && k < |es| && (Assistant(es[k]) || Summary(es[k]))
    && (forall j | k < j < |es| :: !Assistant(es[j]) && !Summary(es[j]))
    && tokens == if Assistant(es[k]) && UsageIn(es[k]).Some? && HasTokens(UsageIn(es[k]).value)
                 then Some(Tokens(UsageIn(es[k]).value)) else None
  }

  ghost predicate AnyPaid(es: seq<Json>) {
    exists k :: 0 <= k < |es| && Paid(es[k])
  }

  ghost predicate AnyGap(es: seq<Json>) {
    exists k :: 0 <= k < |es| && Gap(es[k])
  }

  /**
   * The dollars are the sum of all prices, reported when there is one: complete exactly when no entry leaves a
   * gap, partial otherwise.
   */
  ghost predicate Reports(es: seq<Json>, r: Reduced) {
    && r.estimatedUsd == (if AnyPaid(es) && !AnyGap(es) then Some(Dollars(es)) else None)
    && r.partialEstimatedUsd == (if AnyPaid(es) && AnyGap(es) then Some(Dollars(es)) else None)
    && ContextOf(es, r.contextTokens)
  }

  /** The attributable entries start behind the first one with the origin's prefix id, or at the beginning. */
  ghost predicate StartsAt(origin: Origin, es: seq<Json>, start: nat) {
    if origin.prefixEntryId.Some? && origin.prefixEntryId.value != ""
    then
      && 0 < start <= |es| && IsText(es[start - 1], "id", origin.prefixEntryId.value)
      && forall k | 0 <= k < start - 1 :: !IsText(es[k], "id", origin.prefixEntryId.value)
    else origin.emptyPrefix && start == 0
  }

  ghost predicate Attributable(origin: Origin, read: SessionRead) {
    read.Session? && read.header.id == origin.sessionId && exists start: nat :: StartsAt(origin, read.entries, start)
  }

  // ----- the fold computes it

  lemma {:induction false} UsageIs(u: Json)
    ensures UsageOf(Some(u)) ==
            if !HasTokens(u) && !Priced(u) then None
            else Some(Usage(if HasTokens(u) then Some(Tokens(u)) else None,
                            if Priced(u) then Some(u.fields["cost"].fields["total"].value) else None))
  {
  }

  lemma {:induction false} PartsAre(e: Json)
    ensures var p := PartsOf(e);
            && (p.kind == Some(Text("message")) && p.role == Some(Text("assistant")) <==> Assistant(e))
            && (p.kind == Some(Text("compaction")) || p.kind == Some(Text("branch_summary")) <==> Summary(e))
            && (p.kind == Some(Text("message")) <==> IsText(e, "type", "message"))
            && (if p.ofMessage.None? || p.ofMessage.value.Null? then p.ofEntry else p.ofMessage) == UsageIn(e)
  {
  }

  lemma {:induction false} AddIs(r: Running, e: Json)
    ensures var t := Step(r, e);
            && t.total == r.total + Price(e)
            && t.observedCost == (r.observedCost || Paid(e))
            && t.invalidCost == (r.invalidCost || Gap(e))
            && (!Assistant(e) && !Summary(e) ==> t.contextTokens == r.contextTokens)
            && (Assistant(e) || Summary(e) ==> LastSpeaks([e], 0, t.contextTokens))
  {
    PartsAre(e);
    if UsageIn(e).Some? {
      UsageIs(UsageIn(e).value);
    }
  }

  lemma {:induction false} DollarsMore(es: seq<Json>, e: Json)
    ensures Dollars(es + [e]) == Dollars(es) + Price(e)
  {
    if es != [] {
      assert (es + [e])[1..] == es[1..] + [e];
      DollarsMore(es[1..], e);
    } else {
      assert es + [e] == [e];
    }
  }

  lemma {:induction false} AnyPaidMore(es: seq<Json>, e: Json)
    ensures AnyPaid(es + [e]) <==> AnyPaid(es) || Paid(e)
  {
    assert (es + [e])[|es|] == e;
    if k :| 0 <= k < |es| && Paid(es[k]) {
      assert Paid((es + [e])[k]);
    }
  }

  lemma {:induction false} AnyGapMore(es: seq<Json>, e: Json)
    ensures AnyGap(es + [e]) <==> AnyGap(es) || Gap(e)
  {
    assert (es + [e])[|es|] == e;
    if k :| 0 <= k < |es| && Gap(es[k]) {
      assert Gap((es + [e])[k]);
    }
  }

  lemma {:induction false} ContextMore(es: seq<Json>, e: Json, before: Option<real>, after: Option<real>)
    requires ContextOf(es, before)
    requires if Assistant(e) || Summary(e) then LastSpeaks([e], 0, after) else after == before
    ensures ContextOf(es + [e], after)
  {
    var more := es + [e];
    assert more[|es|] == e && forall k | 0 <= k < |es| :: more[k] == es[k];
    if Assistant(e) || Summary(e) {
      assert LastSpeaks(more, |es|, after);
    } else if k: nat :| LastSpeaks(es, k, before) {
      assert LastSpeaks(more, k, after);
    }
  }

  lemma {:induction false} FoldIs(es: seq<Json>)
    ensures var t := Fold(es);
            && t.total == Dollars(es) && (t.observedCost <==> AnyPaid(es)) && (t.invalidCost <==> AnyGap(es))
            && ContextOf(es, t.contextTokens)
  {
    if es != [] {
      var before, e := es[..|es| - 1], es[|es| - 1];
      assert es == before + [e];
      FoldIs(before);
      AddIs(Fold(before), e);
      DollarsMore(before, e);
      AnyPaidMore(before, e);
      AnyGapMore(before, e);
      ContextMore(before, e, Fold(before).contextTokens, Fold(es).contextTokens);
    }
  }

  lemma {:induction false} IndexIs(es: seq<Json>, id: string)
    ensures var at := IndexOfId(es, id);
            if at < 0 then forall k | 0 <= k < |es| :: !IsText(es[k], "id", id)
            else IsText(es[at], "id", id) && forall k | 0 <= k < at :: !IsText(es[k], "id", id)
  {
    if es != [] {
      IndexIs(es[1..], id);
      assert forall k | 0 <= k < |es| - 1 :: es[1..][k] == es[k + 1];
    }
  }

  lemma {:induction false} StartIs(origin: Origin, es: seq<Json>)
    ensures var start := StartIndex(origin, es);
            if start.Some? then StartsAt(origin, es, start.value) else forall k: nat :: !StartsAt(origin, es, k)
  {
    if origin.prefixEntryId.Some? && origin.prefixEntryId.value != "" {
      IndexIs(es, origin.prefixEntryId.value);
    }
  }

  /** A reduction is there exactly for an attributable session, and reports the entries behind the prefix. */
  lemma {:induction false} ReduceReports(origin: Origin, read: SessionRead)
    ensures Reduce(origin, read).Some? <==> Attributable(origin, read)
    ensures Reduce(origin, read).Some? ==>
              exists start: nat ::
                StartsAt(origin, read.entries, start) && Reports(read.entries[start..], Reduce(origin, read).value)
  {
    if read.Session? {
      StartIs(origin, read.entries);
      if Reduce(origin, read).Some? {
        var start := StartIndex(origin, read.entries).value;
        FoldIs(read.entries[start..]);
        assert Reports(read.entries[start..], Reduce(origin, read).value);
      }
    }
  }

  /** `reduceTelemetry`: one pass over the entries after the origin's prefix. */
  method ReduceTelemetry(origin: Origin, read: SessionRead) returns (r: Option<Reduced>)
    ensures r == Reduce(origin, read)
    ensures r.Some? <==> Attributable(origin, read)
    ensures r.Some? ==>
              exists start: nat :: StartsAt(origin, read.entries, start) && Reports(read.entries[start..], r.value)
  {
    ReduceReports(origin, read);
    if !read.Session? || read.header.id != origin.sessionId {
      return None;
    }
    var start := StartIndex(origin, read.entries);
    if start.None? {
      return None;
    }
    var rest := read.entries[start.value..];
    var running := START;
    var i := 0;
    while i < |rest|
      invariant 0 <= i <= |rest|
      invariant running == Fold(rest[..i])
    {
      assert rest[..i + 1][..i] == rest[..i];
      running := Step(running, rest[i]);
      i := i + 1;
    }
    assert rest[..|rest|] == rest;
    return Some(Outcome(running));
  }

  // ----- the projection loses nothing the reduction reads

  lemma {:induction false} ProjectionKeepsParts(e: Json)
    requires ValidEntry(e)
    ensures PartsOf(ProjectEntry(e)) == PartsOf(e)
    ensures Field(Some(ProjectEntry(e)), "id") == Field(Some(e), "id")
  {
  }

  lemma {:induction false} FoldReadsProjection(es: seq<Json>)
    requires forall k | 0 <= k < |es| :: ValidEntry(es[k])
    ensures Fold(ProjectAll(es)) == Fold(es)
  {
    if es != [] {
      var before, last := es[..|es| - 1], es[|es| - 1];
      assert ProjectAll(es)[..|es| - 1] == ProjectAll(before);
      FoldReadsProjection(before);
      ProjectionKeepsParts(last);
    }
  }

  lemma {:induction false} IndexReadsProjection(es: seq<Json>, id: string)
    requires forall k | 0 <= k < |es| :: ValidEntry(es[k])
    ensures IndexOfId(ProjectAll(es), id) == IndexOfId(es, id)
  {
    if es != [] {
      ProjectionKeepsParts(es[0]);
      assert ProjectAll(es)[1..] == ProjectAll(es[1..]);
      IndexReadsProjection(es[1..], id);
    }
  }

  lemma {:induction false} StartReadsProjection(origin: Origin, es: seq<Json>)
    requires forall k | 0 <= k < |es| :: ValidEntry(es[k])
    ensures StartIndex(origin, ProjectAll(es)) == StartIndex(origin, es)
  {
    if origin.prefixEntryId.Some? {
      IndexReadsProjection(es, origin.prefixEntryId.value);
    }
  }

  lemma {:induction false} SuffixReadsProjection(es: seq<Json>, start: nat)
    requires start <= |es| && forall k | 0 <= k < |es| :: ValidEntry(es[k])
    ensures Fold(ProjectAll(es)[start..]) == Fold(es[start..])
  {
    assert ProjectAll(es)[start..] == ProjectAll(es[start..]);
    FoldReadsProjection(es[start..]);
  }

  /** The projected answer of the incremental reader reduces to the same telemetry as the full read of the same file. */
  lemma {:induction false} ReductionAgrees(origin: Origin, f: Format, file: Option<seq<Byte>>)
    ensures Reduce(origin, ProjectRead(MeaningOf(f, file))) == Reduce(origin, MeaningOf(f, file))
  {
    var read := MeaningOf(f, file);
    if read.Session? {
      StartReadsProjection(origin, read.entries);
      var start := StartIndex(origin, read.entries);
      if start.Some? {
        SuffixReadsProjection(read.entries, start.value);
      }
    }
  }

  // ----- recomputing over a longer session never lowers the known cost

  function KnownUsd(r: Reduced): real {
    if r.estimatedUsd.Some? then r.estimatedUsd.value
    else if r.partialEstimatedUsd.Some? then r.partialEstimatedUsd.value
    else 0.0
  }

  lemma {:induction false} FoldOnlyAdds(es: seq<Json>, more: seq<Json>)
    ensures Fold(es).total >= 0.0
    ensures Fold(es + more).total >= Fold(es).total
    ensures Fold(es).observedCost ==> Fold(es + more).observedCost
    ensures !Fold(es).observedCost ==> Fold(es).total == 0.0
    decreases |es| + |more|
  {
    if more != [] {
      assert (es + more)[..|es + more| - 1] == es + more[..|more| - 1];
      FoldOnlyAdds(es, more[..|more| - 1]);
    } else {
      assert es + more == es;
      if es != [] {
        FoldOnlyAdds(es[..|es| - 1], []);
      }
    }
  }

  lemma {:induction false} IndexStable(es: seq<Json>, more: seq<Json>, id: string)
    requires IndexOfId(es, id) >= 0
    ensures IndexOfId(es + more, id) == IndexOfId(es, id)
  {
    if Field(Some(es[0]), "id") != Some(Text(id)) {
      assert (es + more)[1..] == es[1..] + more;
      IndexStable(es[1..], more, id);
    }
  }

  lemma {:induction false} StartStable(origin: Origin, es: seq<Json>, more: seq<Json>)
    requires StartIndex(origin, es).Some?
    ensures StartIndex(origin, es + more) == StartIndex(origin, es)
  {
    if origin.prefixEntryId.Some? && origin.prefixEntryId.value != "" {
      IndexStable(es, more, origin.prefixEntryId.value);
    }
  }

  lemma {:induction false} OutcomeOnlyAdds(es: seq<Json>, more: seq<Json>)
    ensures KnownUsd(Outcome(Fold(es + more))) >= KnownUsd(Outcome(Fold(es)))
  {
    FoldOnlyAdds(es, more);
  }

  /** A session that grew keeps an attributable prefix, and its known cost is at least what it was. */
  lemma {:induction false} KnownUsdNeverFalls(origin: Origin, header: Header, es: seq<Json>, more: seq<Json>)
    requires Reduce(origin, Session(header, es)).Some?
    ensures Reduce(origin, Session(header, es + more)).Some?
    ensures KnownUsd(Reduce(origin, Session(header, es + more)).value)
            >= KnownUsd(Reduce(origin, Session(header, es)).value)
  {
    StartStable(origin, es, more);
    var start := StartIndex(origin, es).value;
    assert (es + more)[start..] == es[start..] + more;
    OutcomeOnlyAdds(es[start..], more);
  }
}
