// agent-batches.ts: the bounded tool-batch buffer one agent's events feed, and its views.

module Batches {
  import opened Bounds
  import opened Options

  const AGENT_BATCH_CAP: nat := 5
  const BATCH_TOOL_NAME_CAP: nat := 5

  /** Call ids are only compared. */
  type CallId = int
  type Clock = real

  datatype Call = Call(id: CallId, toolName: string, argsPreview: string, startedAt: Option<Clock>,
      endedAt: Option<Clock>,
                       isError: bool, resultPreview: string)

  datatype Batch = Batch(seqNo: nat, startedAt: Clock, endedAt: Option<Clock>, calls: seq<Call>)

  datatype Kind = Thinking | Replying | Tool

  /** The phase of an assistant message in flight; a tool phase names the streaming call and counts its characters. */
  datatype Phase = Phase(kind: Kind, phaseStartedAt: Clock, toolName: Option<string>, chars: Option<nat>)

  datatype Generating = Generating(startedAt: Clock, phase: Phase)

  datatype Buffer = Buffer(nextSeq: nat, batches: seq<Batch>, generating: Option<Generating>)

  datatype Update =
    | ToolcallDelta(length: nat)
    | ThinkingStart
    | TextStart
    | ToolcallStart(toolName: string)
    | OtherUpdate

  /** `MessageEnd` carries the calls an assistant message announces, or nothing for any other message. */
  datatype Event =
    | MessageStart(assistant: bool)
    | MessageUpdate(update: Update)
    | MessageEnd(calls: Option<seq<Announced>>)
    | ToolStart(id: CallId, toolName: string, args: Option<string>)
    | ToolEnd(id: CallId, isError: bool, result: string)
    | TurnOver
    | Other

  datatype Announced = Announced(id: CallId, toolName: string, argsPreview: string)

  function NewCall(a: Announced): Call {
    Call(a.id, a.toolName, a.argsPreview, None, None, false, "")
  }

  function NewCalls(calls: seq<Announced>): (r: seq<Call>)
    ensures |r| == |calls|
  {
    seq(|calls|, i requires 0 <= i < |calls| => NewCall(calls[i]))
  }

  // ----- what one event does to a buffer

  predicate HasOpen(b: Buffer) {
    b.batches != [] && b.batches[|b.batches| - 1].endedAt.None?
  }

  function Started(b: Buffer, now: Clock, calls: seq<Call>): Buffer {
    b.(nextSeq := b.nextSeq + 1, batches := Newest(b.batches + [Batch(b.nextSeq, now, None, calls)], AGENT_BATCH_CAP))
  }

  /** The buffer with an open batch, a new one when none is. */
  function Begun(b: Buffer, now: Clock): (r: Buffer)
    ensures r.batches != []
  {
    if HasOpen(b) then b else Started(b, now, [])
  }

  function WithLast(b: Buffer, batch: Batch): Buffer
    requires b.batches != []
  {
    b.(batches := b.batches[|b.batches| - 1 := batch])
  }

  function Ended(b: Buffer, now: Clock): Buffer {
    if HasOpen(b) then WithLast(b, b.batches[|b.batches| - 1].(endedAt := Some(now))) else b
  }

  /** The first call with this id that has not started, or that has not ended. */
  function FindCall(calls: seq<Call>, id: CallId, unstarted: bool): (k: int)
    ensures -1 <= k < |calls|
    ensures k >= 0 ==> calls[k].id == id && (if unstarted then calls[k].startedAt.None? else calls[k].endedAt.None?)
  {
    if calls == [] then -1
    else if calls[0].id == id && (if unstarted then calls[0].startedAt.None? else calls[0].endedAt.None?) then 0
    else
      var rest := FindCall(calls[1..], id, unstarted);
      if rest < 0 then -1 else rest + 1
  }

  function Joined(batch: Batch, id: CallId, toolName: string, args: Option<string>, now: Clock): Batch {
    var k := FindCall(batch.calls, id, true);
    if k < 0 then
      batch.(calls :=
          batch.calls + [Call(id, toolName, if args.Some? then args.value else "", Some(now), None, false, "")])
    else
      var call := batch.calls[k];
      batch.(calls :=
          batch.calls[k :=
              call.(startedAt := Some(now), argsPreview := if args.Some? then args.value else call.argsPreview)])
  }

  predicate AllEnded(calls: seq<Call>) {
    forall k | 0 <= k < |calls| :: calls[k].endedAt.Some?
  }

  function Finished(batch: Batch, k: nat, isError: bool, result: string, now: Clock): Batch
    requires k < |batch.calls|
  {
    var call := batch.calls[k];
    var calls := batch.calls[k := call.(startedAt := if call.startedAt.Some? then call.startedAt else Some(now),
                                        endedAt := Some(now), isError := isError, resultPreview := result)];
    batch.(calls := calls, endedAt := if AllEnded(calls) then Some(now) else batch.endedAt)
  }

  function PhaseAfter(g: Generating, u: Update, now: Clock): Generating {
    match u
    case ToolcallDelta(length) =>
      if g.phase.kind.Tool? && length > 0 then
        g.(phase := g.phase.(chars := Some((if g.phase.chars.Some? then g.phase.chars.value else 0) + length)))
      else g
    case ThinkingStart => if g.phase.kind.Thinking? then g else g.(phase := Phase(Thinking, now, None, None))
    case TextStart => if g.phase.kind.Replying? then g else g.(phase := Phase(Replying, now, None, None))
    case ToolcallStart(toolName) => g.(phase := Phase(Tool, now, Some(toolName), Some(0)))
    case OtherUpdate => g
  }

  function Observed(b: Buffer, e: Event, now: Clock): Buffer {
    match e
    case MessageStart(assistant) =>
      if assistant then b.(generating := Some(Generating(now, Phase(Thinking, now, None, None)))) else b
    case MessageUpdate(u) =>
      if b.generating.None? then b else b.(generating := Some(PhaseAfter(b.generating.value, u, now)))
    case MessageEnd(calls) =>
      if calls.None? then b
      else if calls.value == [] then b.(generating := None)
      else Started(Ended(b.(generating := None), now), now, NewCalls(calls.value))
    case ToolStart(id, toolName, args) =>
      var begun := Begun(b, now);
      WithLast(begun, Joined(begun.batches[|begun.batches| - 1], id, toolName, args, now))
    case ToolEnd(id, isError, result) =>
      if !HasOpen(b) then b
      else
        var batch := b.batches[|b.batches| - 1];
        var k := FindCall(batch.calls, id, false);
        if k < 0 then b else WithLast(b, Finished(batch, k, isError, result, now))
    case TurnOver => Ended(b.(generating := None), now)
    case Other => b
  }

  // ----- the buffer object

  class AgentBatchBuffer {
    var nextSeq: nat
    var batches: seq<Batch>
    var generating: Option<Generating>

    constructor ()
      ensures State() == Buffer(1, [], None)
    {
      nextSeq, batches, generating := 1, [], None;
    }

    function State(): Buffer
      reads this
    {
      Buffer(nextSeq, batches, generating)
    }

    method StartBatch(now: Clock, calls: seq<Call>)
      modifies this`nextSeq, this`batches
      ensures State() == Started(old(State()), now, calls)
    {
      batches := batches + [Batch(nextSeq, now, None, calls)];
      nextSeq := nextSeq + 1;
      if |batches| > AGENT_BATCH_CAP {
        batches := batches[|batches| - AGENT_BATCH_CAP..];
      }
    }

    /** Ends the open batch and drops any generating message. */
    method CloseOpenBatch(now: Clock) returns (changed: bool)
      modifies this`batches, this`generating
      ensures State() == Observed(old(State()), TurnOver, now)
      ensures changed <==> old(generating).Some? || HasOpen(old(State()))
    {
      var hadGenerating := generating.Some?;
      generating := None;
      if batches == [] || batches[|batches| - 1].endedAt.Some? {
        return hadGenerating;
      }
      batches := batches[|batches| - 1 := batches[|batches| - 1].(endedAt := Some(now))];
      return true;
    }

    method ObserveGenerating(u: Update, now: Clock) returns (changed: bool)
      modifies this`generating
      ensures State() == Observed(old(State()), MessageUpdate(u), now)
      ensures !changed ==> State() == old(State())
    {
      if generating.None? {
        return false;
      }
      var g := generating.value;
      match u
      case ToolcallDelta(length) =>
        if !g.phase.kind.Tool? || length == 0 {
          return false;
        }
        var chars := if g.phase.chars.Some? then g.phase.chars.value else 0;
        generating := Some(g.(phase := g.phase.(chars := Some(chars + length))));
        return true;
      case ThinkingStart =>
        if g.phase.kind.Thinking? {
          return false;
        }
        generating := Some(Generating(g.startedAt, Phase(Thinking, now, None, None)));
        return true;
      case TextStart =>
        if g.phase.kind.Replying? {
          return false;
        }
        generating := Some(Generating(g.startedAt, Phase(Replying, now, None, None)));
        return true;
      case ToolcallStart(toolName) =>
        generating := Some(Generating(g.startedAt, Phase(Tool, now, Some(toolName), Some(0))));
        return true;
      case OtherUpdate => return false;
    }

    /** Applies one event; an event that reports no change made none. */
    method ObserveBatchEvent(e: Event, now: Clock) returns (changed: bool)
      modifies this
      ensures State() == Observed(old(State()), e, now)
      ensures !changed ==> State() == old(State())
    {
      match e
      case MessageStart(assistant) =>
        if !assistant {
          return false;
        }
        generating := Some(Generating(now, Phase(Thinking, now, None, None)));
        return true;
      case MessageUpdate(u) => changed := ObserveGenerating(u, now);
      case MessageEnd(calls) => changed := ObserveMessageEnd(calls, now);
      case ToolStart(id, toolName, args) =>
        ObserveToolStart(id, toolName, args, now);
        return true;
      case ToolEnd(id, isError, result) => changed := ObserveToolEnd(id, isError, result, now);
      case TurnOver => changed := CloseOpenBatch(now);
      case Other => return false;
    }

    method ObserveMessageEnd(calls: Option<seq<Announced>>, now: Clock) returns (changed: bool)
      modifies this
      ensures State() == Observed(old(State()), MessageEnd(calls), now)
      ensures !changed ==> State() == old(State())
    {
      if calls.None? {
        return false;
      }
      if calls.value == [] {
        changed := generating.Some?;
        generating := None;
        return;
      }
      var closed := CloseOpenBatch(now);
      StartBatch(now, NewCalls(calls.value));
      return true;
    }

    method ObserveToolStart(id: CallId, toolName: string, args: Option<string>, now: Clock)
      modifies this`nextSeq, this`batches
      ensures State() == Observed(old(State()), ToolStart(id, toolName, args), now)
    {
      Begin(now);
      var joined := Joined(batches[|batches| - 1], id, toolName, args, now);
      batches := batches[|batches| - 1 := joined];
    }

    method Begin(now: Clock)
      modifies this`nextSeq, this`batches
      ensures State() == Begun(old(State()), now)
    {
      if batches == [] || batches[|batches| - 1].endedAt.Some? {
        StartBatch(now, []);
      }
    }

    method ObserveToolEnd(id: CallId, isError: bool, result: string, now: Clock) returns (changed: bool)
      modifies this`batches
      ensures State() == Observed(old(State()), ToolEnd(id, isError, result), now)
      ensures !changed ==> State() == old(State())
    {
      if batches == [] || batches[|batches| - 1].endedAt.Some? {
        return false;
      }
      var batch := batches[|batches| - 1];
      var k := FindCall(batch.calls, id, false);
      if k < 0 {
        return false;
      }
      batches := batches[|batches| - 1 := Finished(batch, k, isError, result, now)];
      return true;
    }
  }

  // ----- what every run keeps

  /** A call that ended had started; an open batch has a call that has not ended. */
  predicate BatchOk(batch: Batch) {
    && batch.startedAt >= 0.0
    && (forall k | 0 <= k < |batch.calls| :: CallOk(batch.calls[k]))
    && (batch.endedAt.Some? ==> batch.endedAt.value >= 0.0)
    && (batch.endedAt.None? ==> !AllEnded(batch.calls))
  }

  predicate CallOk(c: Call) {
    && (c.endedAt.Some? ==> c.startedAt.Some?)
    && (c.startedAt.Some? ==> c.startedAt.value >= 0.0)
  }

  predicate PhaseOk(p: Phase) {
    p.phaseStartedAt >= 0.0 && (p.kind.Tool? <==> p.toolName.Some?) && (p.kind.Tool? <==> p.chars.Some?)
  }

  /** At most five batches with consecutive numbers ending just below the next, only the last of which may be open. */
  predicate BufferOk(b: Buffer) {
    && b.nextSeq > |b.batches|
    && |b.batches| <= AGENT_BATCH_CAP
    && (forall i | 0 <= i < |b.batches| :: b.batches[i].seqNo == b.nextSeq - |b.batches| + i)
    && (forall i | 0 <= i < |b.batches| :: BatchOk(b.batches[i]))
    && (forall i | 0 <= i < |b.batches| - 1 :: b.batches[i].endedAt.Some?)
    && (b.generating.Some? ==> b.generating.value.startedAt >= 0.0 && PhaseOk(b.generating.value.phase))
  }

  /** A buffer is sound apart from what its last batch holds. */
  predicate AllButLastOk(b: Buffer) {
    && b.nextSeq > |b.batches| > 0
    && |b.batches| <= AGENT_BATCH_CAP
    && (forall i | 0 <= i < |b.batches| :: b.batches[i].seqNo == b.nextSeq - |b.batches| + i)
    && (forall i | 0 <= i < |b.batches| - 1 :: BatchOk(b.batches[i]) && b.batches[i].endedAt.Some?)
    && (b.generating.Some? ==> b.generating.value.startedAt >= 0.0 && PhaseOk(b.generating.value.phase))
  }

  lemma {:induction false} StartedOk(b: Buffer, now: Clock, calls: seq<Call>)
    requires BufferOk(b) && !HasOpen(b)
    ensures var t := Started(b, now, calls);
            AllButLastOk(t) && t.batches[|t.batches| - 1] == Batch(b.nextSeq, now, None, calls)
  {
    NewestStarted(b.batches, Batch(b.nextSeq, now, None, calls), b.nextSeq);
  }

  /** One more batch behind ended ones, the oldest dropped past five. */
  lemma {:induction false} NewestStarted(batches: seq<Batch>, started: Batch, next: nat)
    requires |batches| < next && (forall i | 0 <= i < |batches| :: batches[i].seqNo == next - |batches| + i)
    requires |batches| <= AGENT_BATCH_CAP && started.seqNo == next
    requires forall i | 0 <= i < |batches| :: BatchOk(batches[i]) && batches[i].endedAt.Some?
    ensures var kept := Newest(batches + [started], AGENT_BATCH_CAP);
            && 0 < |kept| <= next && kept[|kept| - 1] == started
            && (forall i | 0 <= i < |kept| :: kept[i].seqNo == next + 1 - |kept| + i)
            && (forall i | 0 <= i < |kept| - 1 :: BatchOk(kept[i]) && kept[i].endedAt.Some?)
  {
    var more := batches + [started];
    var drop := |more| - |Newest(more, AGENT_BATCH_CAP)|;
    assert forall i | 0 <= i < |more| - drop :: more[drop..][i] == more[drop + i];
  }

  lemma {:induction false} LastPutOk(b: Buffer, batch: Batch)
    requires AllButLastOk(b) && BatchOk(batch) && batch.seqNo == b.nextSeq - 1
    ensures BufferOk(WithLast(b, batch))
  {
  }

  lemma {:induction false} WithLastOk(b: Buffer, batch: Batch)
    requires BufferOk(b) && b.batches != [] && BatchOk(batch) && batch.seqNo == b.batches[|b.batches| - 1].seqNo
    ensures BufferOk(WithLast(b, batch))
  {
  }

  lemma {:induction false} EndedOk(b: Buffer, now: Clock)
    requires BufferOk(b) && now >= 0.0
    ensures BufferOk(Ended(b, now)) && !HasOpen(Ended(b, now)) && Ended(b, now).nextSeq == b.nextSeq
  {
    if HasOpen(b) {
      WithLastOk(b, b.batches[|b.batches| - 1].(endedAt := Some(now)));
    }
  }

  /** A started call leaves its batch with a call in flight. */
  lemma {:induction false} JoinedOk(batch: Batch, id: CallId, toolName: string, args: Option<string>, now: Clock)
    requires batch.endedAt.None? && batch.startedAt >= 0.0 && now >= 0.0
    requires forall k | 0 <= k < |batch.calls| :: CallOk(batch.calls[k])
    ensures BatchOk(Joined(batch, id, toolName, args, now))
            && Joined(batch, id, toolName, args, now).seqNo == batch.seqNo
  {
    var k := FindCall(batch.calls, id, true);
    var t := Joined(batch, id, toolName, args, now);
    var at := if k < 0 then |batch.calls| else k;
    assert CallOk(t.calls[at]) && t.calls[at].endedAt.None?;
  }

  lemma {:induction false} MessageEndOk(b: Buffer, calls: seq<Announced>, now: Clock)
    requires BufferOk(b) && now >= 0.0 && calls != []
    ensures BufferOk(Observed(b, MessageEnd(Some(calls)), now))
  {
    var closed, announced := Ended(b.(generating := None), now), NewCalls(calls);
    EndedOk(b.(generating := None), now);
    StartedOk(closed, now, announced);
    assert announced[0].endedAt.None?;
    var batch := Batch(closed.nextSeq, now, None, announced);
    LastPutOk(Started(closed, now, announced), batch);
    assert WithLast(Started(closed, now, announced), batch) == Started(closed, now, announced);
  }

  lemma {:induction false} ToolStartOk(b: Buffer, id: CallId, toolName: string, args: Option<string>, now: Clock)
    requires BufferOk(b) && now >= 0.0
    ensures BufferOk(Observed(b, ToolStart(id, toolName, args), now))
  {
    if HasOpen(b) {
      JoinedOk(b.batches[|b.batches| - 1], id, toolName, args, now);
      WithLastOk(b, Joined(b.batches[|b.batches| - 1], id, toolName, args, now));
    } else {
      OpensForTool(b, id, toolName, args, now);
    }
  }

  lemma {:induction false} OpensForTool(b: Buffer, id: CallId, toolName: string, args: Option<string>, now: Clock)
    requires BufferOk(b) && now >= 0.0 && !HasOpen(b)
    ensures var t := Started(b, now, []);
            t.batches != [] && BufferOk(WithLast(t, Joined(t.batches[|t.batches| - 1], id, toolName, args, now)))
  {
    StartedOk(b, now, []);
    JoinedOk(Batch(b.nextSeq, now, None, []), id, toolName, args, now);
    LastPutOk(Started(b, now, []), Joined(Batch(b.nextSeq, now, None, []), id, toolName, args, now));
  }

  /** A call that ends leaves its batch ended once no call is in flight. */
  lemma {:induction false} FinishedOk(batch: Batch, k: nat, isError: bool, result: string, now: Clock)
    requires BatchOk(batch) && now >= 0.0 && k < |batch.calls|
    ensures BatchOk(Finished(batch, k, isError, result, now))
            && Finished(batch, k, isError, result, now).seqNo == batch.seqNo
  {
    assert CallOk(batch.calls[k]);
  }

  lemma {:induction false} ToolEndOk(b: Buffer, id: CallId, isError: bool, result: string, now: Clock)
    requires BufferOk(b) && now >= 0.0
    ensures BufferOk(Observed(b, ToolEnd(id, isError, result), now))
  {
    if HasOpen(b) {
      var batch := b.batches[|b.batches| - 1];
      var k := FindCall(batch.calls, id, false);
      if k >= 0 {
        FinishedOk(batch, k, isError, result, now);
        WithLastOk(b, Finished(batch, k, isError, result, now));
      }
    }
  }

  lemma {:induction false} ObservedOk(b: Buffer, e: Event, now: Clock)
    requires BufferOk(b) && now >= 0.0
    ensures BufferOk(Observed(b, e, now))
  {
    match e
    case MessageStart(_) =>
    case MessageUpdate(_) =>
    case MessageEnd(calls) =>
      if calls.Some? && calls.value != [] {
        MessageEndOk(b, calls.value, now);
      }
    case ToolStart(id, toolName, args) => ToolStartOk(b, id, toolName, args, now);
    case ToolEnd(id, isError, result) => ToolEndOk(b, id, isError, result, now);
    case TurnOver => EndedOk(b.(generating := None), now);
    case Other =>
  }

  // ----- what one event does, in the calls it names

  function Last(b: Buffer): Batch
    requires b.batches != []
  {
    b.batches[|b.batches| - 1]
  }

  predicate IsOpen(b: Buffer) {
    b.batches != [] && Last(b).endedAt.None?
  }

  /** Only the last batch may differ. */
  predicate SameButLast(b: Buffer, t: Buffer) {
    && b.batches != [] && |t.batches| == |b.batches| && t.nextSeq == b.nextSeq
    && t.batches[..|t.batches| - 1] == b.batches[..|b.batches| - 1]
    && Last(t).seqNo == Last(b).seqNo && Last(t).startedAt == Last(b).startedAt
  }

  /** A new batch behind the newest four. */
  predicate OneMore(b: Buffer, t: Buffer, now: Clock) {
    && t.batches != [] && t.nextSeq == b.nextSeq + 1
    && Last(t).seqNo == b.nextSeq && Last(t).startedAt == now && Last(t).endedAt.None?
    && var kept := |t.batches| - 1;
       && kept == (if |b.batches| < AGENT_BATCH_CAP then |b.batches| else AGENT_BATCH_CAP - 1)
       && t.batches[..kept] == b.batches[|b.batches| - kept..]
  }

  /** The first call of this id that has not started, or none. */
  predicate FirstUnstarted(calls: seq<Call>, id: CallId, k: nat) {
    && k < |calls| && calls[k].id == id && calls[k].startedAt.None?
    && forall i | 0 <= i < k :: calls[i].id != id || calls[i].startedAt.Some?
  }

  predicate FirstUnfinished(calls: seq<Call>, id: CallId, k: nat) {
    && k < |calls| && calls[k].id == id && calls[k].endedAt.None?
    && forall i | 0 <= i < k :: calls[i].id != id || calls[i].endedAt.Some?
  }

  predicate OnlyCallDiffers(a: seq<Call>, b: seq<Call>, k: nat) {
    |a| == |b| && k < |a| && forall i | 0 <= i < |a| && i != k :: a[i] == b[i]
  }

  /** The calls once one of this id has started: an announced one, or a new one behind the others. */
  ghost predicate StartsCall(a: seq<Call>, b: seq<Call>, id: CallId, toolName: string, args: Option<string>,
        now: Clock) {
    if exists k: nat :: FirstUnstarted(a, id, k)
    then exists k: nat :: FirstUnstarted(a, id, k) && OnlyCallDiffers(a, b, k)
                          && b[k].id == id && b[k].toolName == a[k].toolName && b[k].startedAt == Some(now)
                          && b[k].endedAt == a[k].endedAt && b[k].isError == a[k].isError
                          && b[k].argsPreview == (if args.Some? then args.value else a[k].argsPreview)
                          && b[k].resultPreview == a[k].resultPreview
    else b == a + [Call(id, toolName, if args.Some? then args.value else "", Some(now), None, false, "")]
  }

  /** The calls once call `k` has finished. */
  predicate FinishesCall(a: seq<Call>, b: seq<Call>, k: nat, isError: bool, result: string, now: Clock) {
    && OnlyCallDiffers(a, b, k)
    && b[k].id == a[k].id && b[k].toolName == a[k].toolName && b[k].argsPreview == a[k].argsPreview
    && b[k].startedAt == (if a[k].startedAt.Some? then a[k].startedAt else Some(now))
    && b[k].endedAt == Some(now) && b[k].isError == isError && b[k].resultPreview == result
  }

  lemma {:induction false} FindCallIs(calls: seq<Call>, id: CallId)
    ensures var k := FindCall(calls, id, true);
            if k >= 0 then FirstUnstarted(calls, id, k) else forall i: nat :: !FirstUnstarted(calls, id, i)
    ensures var k := FindCall(calls, id, false);
            if k >= 0 then FirstUnfinished(calls, id, k) else forall i: nat :: !FirstUnfinished(calls, id, i)
  {
    if calls != [] {
      FindCallIs(calls[1..], id);
      assert forall i | 0 <= i < |calls| - 1 :: calls[1..][i] == calls[i + 1];
      forall i: nat | i > 0
        ensures FirstUnstarted(calls, id, i) ==> FirstUnstarted(calls[1..], id, i - 1)
        ensures FirstUnfinished(calls, id, i) ==> FirstUnfinished(calls[1..], id, i - 1)
      {
      }
    }
  }

  lemma {:induction false} StartedIs(b: Buffer, now: Clock, calls: seq<Call>)
    requires |b.batches| <= AGENT_BATCH_CAP
    ensures OneMore(b, Started(b, now, calls), now) && Last(Started(b, now, calls)).calls == calls
    ensures Started(b, now, calls).generating == b.generating
  {
    var more := b.batches + [Batch(b.nextSeq, now, None, calls)];
    var t := Started(b, now, calls);
    var kept := |t.batches| - 1;
    assert t.batches == more[|more| - |t.batches|..];
    assert t.batches[..kept] == b.batches[|b.batches| - kept..];
  }

  lemma {:induction false} JoinedIs(batch: Batch, id: CallId, toolName: string, args: Option<string>, now: Clock)
    ensures StartsCall(batch.calls, Joined(batch, id, toolName, args, now).calls, id, toolName, args, now)
  {
    FindCallIs(batch.calls, id);
    var k := FindCall(batch.calls, id, true);
    if k >= 0 {
      assert FirstUnstarted(batch.calls, id, k);
    }
  }

  lemma {:induction false} WithLastIs(b: Buffer, batch: Batch)
    requires b.batches != [] && batch.seqNo == Last(b).seqNo && batch.startedAt == Last(b).startedAt
    ensures var t := WithLast(b, batch); SameButLast(b, t) && Last(t) == batch && t.generating == b.generating
  {
  }

  lemma {:induction false} OneMoreThen(b: Buffer, m: Buffer, t: Buffer, now: Clock)
    requires OneMore(b, m, now) && SameButLast(m, t) && Last(t).endedAt.None?
    ensures OneMore(b, t, now)
  {
  }

  /** A call that starts joins the open batch, or opens one; no other batch and no message in flight is touched. */
  lemma {:induction false} ToolStartLaw(
      b: Buffer, t: Buffer, id: CallId, toolName: string, args: Option<string>, now: Clock)
    requires |b.batches| <= AGENT_BATCH_CAP && t == Observed(b, ToolStart(id, toolName, args), now)
    ensures t.generating == b.generating && IsOpen(t)
    ensures if IsOpen(b) then SameButLast(b, t) else OneMore(b, t, now)
    ensures StartsCall(if IsOpen(b) then Last(b).calls else [], Last(t).calls, id, toolName, args, now)
  {
    if IsOpen(b) {
      StartsIn(b, t, id, toolName, args, now);
    } else {
      StartsBehind(b, Started(b, now, []), t, id, toolName, args, now);
    }
  }

  lemma {:induction false} StartsBehind(
      b: Buffer, m: Buffer, t: Buffer, id: CallId, toolName: string, args: Option<string>, now: Clock)
    requires |b.batches| <= AGENT_BATCH_CAP && m == Started(b, now, [])
    requires m.batches != [] && t == WithLast(m, Joined(Last(m), id, toolName, args, now))
    ensures t.generating == b.generating && IsOpen(t) && OneMore(b, t, now)
    ensures StartsCall([], Last(t).calls, id, toolName, args, now)
  {
    StartedIs(b, now, []);
    StartsIn(m, t, id, toolName, args, now);
    OneMoreThen(b, m, t, now);
  }

  lemma {:induction false} StartsIn(
      b: Buffer, t: Buffer, id: CallId, toolName: string, args: Option<string>, now: Clock)
    requires IsOpen(b) && t == WithLast(b, Joined(Last(b), id, toolName, args, now))
    ensures t.generating == b.generating && IsOpen(t) && SameButLast(b, t)
    ensures StartsCall(Last(b).calls, Last(t).calls, id, toolName, args, now)
  {
    WithLastIs(b, Joined(Last(b), id, toolName, args, now));
    JoinedIs(Last(b), id, toolName, args, now);
  }

  /**
   * A call that ends finishes the first unfinished one of its id in the open batch, and the batch with the last
   * of them; with no such call nothing changes.
   */
  lemma {:induction false} ToolEndLaw(b: Buffer, id: CallId, isError: bool, result: string, now: Clock)
    ensures var t := Observed(b, ToolEnd(id, isError, result), now);
            if IsOpen(b) && exists k: nat :: FirstUnfinished(Last(b).calls, id, k)
            then
              && t.generating == b.generating && SameButLast(b, t)
              && (exists k: nat :: FirstUnfinished(Last(b).calls, id, k)
                                   && FinishesCall(Last(b).calls, Last(t).calls, k, isError, result, now))
              && Last(t).endedAt == (if AllEnded(Last(t).calls) then Some(now) else None)
            else t == b
  {
    if IsOpen(b) {
      FindCallIs(Last(b).calls, id);
      var k := FindCall(Last(b).calls, id, false);
      if k >= 0 {
        assert FirstUnfinished(Last(b).calls, id, k);
        assert FinishesCall(Last(b).calls, Finished(Last(b), k, isError, result, now).calls, k, isError, result, now);
      }
    }
  }

  /** The open batch has ended, with whatever calls it had; there is no message in flight. */
  predicate Closes(b: Buffer, t: Buffer, now: Clock) {
    && t.generating.None? && t.nextSeq == b.nextSeq
    && if IsOpen(b) then SameButLast(b, t) && Last(t).calls == Last(b).calls && Last(t).endedAt == Some(now)
       else t.batches == b.batches
  }

  lemma {:induction false} TurnOverLaw(b: Buffer, now: Clock)
    ensures Closes(b, Observed(b, TurnOver, now), now)
  {
  }

  /** An assistant message that ends with calls closes what is open and announces them in a batch of their own. */
  lemma {:induction false} MessageEndLaw(b: Buffer, t: Buffer, calls: Option<seq<Announced>>, now: Clock)
    requires |b.batches| <= AGENT_BATCH_CAP && t == Observed(b, MessageEnd(calls), now)
    ensures calls.None? ==> t == b
    ensures calls.Some? && calls.value == [] ==> t == b.(generating := None)
    ensures calls.Some? && calls.value != [] ==>
              && t.generating.None? && OneMore(Observed(b, TurnOver, now), t, now)
              && Announce(Last(t).calls, calls.value)
  {
    if calls.Some? && calls.value != [] {
      var closed := Observed(b, TurnOver, now);
      TurnOverLaw(b, now);
      Announces(closed, t, calls.value, now);
    }
  }

  /** The calls are those announced, none of them started. */
  predicate Announce(calls: seq<Call>, announced: seq<Announced>) {
    && |calls| == |announced|
    && forall i | 0 <= i < |calls| ::
         calls[i] == Call(announced[i].id, announced[i].toolName, announced[i].argsPreview, None, None, false, "")
  }

  lemma {:induction false} Announces(b: Buffer, t: Buffer, calls: seq<Announced>, now: Clock)
    requires |b.batches| <= AGENT_BATCH_CAP && t == Started(b, now, NewCalls(calls))
    ensures t.generating == b.generating && OneMore(b, t, now) && Announce(Last(t).calls, calls)
  {
    StartedIs(b, now, NewCalls(calls));
  }

  /** The message in flight: since when, in which phase, and the characters of the call it streams. */
  lemma {:induction false} GeneratingLaw(b: Buffer, e: Event, now: Clock)
    requires e.MessageStart? || e.MessageUpdate?
    ensures var t := Observed(b, e, now);
            && t.batches == b.batches && t.nextSeq == b.nextSeq
            && (e.MessageStart? && e.assistant ==>
                  t.generating == Some(Generating(now, Phase(Thinking, now, None, None))))
            && (e.MessageStart? && !e.assistant ==> t.generating == b.generating)
            && (e.MessageUpdate? && b.generating.None? ==> t.generating.None?)
            && (e.MessageUpdate? && b.generating.Some? ==>
                  t.generating.Some? && Updates(b.generating.value, e.update, now, t.generating.value))
  {
  }

  /** The same kind again keeps its clock, except that every tool call starts its own. */
  predicate Updates(g: Generating, u: Update, now: Clock, t: Generating) {
    && t.startedAt == g.startedAt
    && (u.ToolcallStart? ==> t.phase == Phase(Tool, now, Some(u.toolName), Some(0)))
    && (u.ThinkingStart? ==> t.phase == if g.phase.kind.Thinking? then g.phase else Phase(Thinking, now, None, None))
    && (u.TextStart? ==> t.phase == if g.phase.kind.Replying? then g.phase else Phase(Replying, now, None, None))
    && (u.OtherUpdate? ==> t.phase == g.phase)
    && (u.ToolcallDelta? ==>
          && t.phase.kind == g.phase.kind && t.phase.phaseStartedAt == g.phase.phaseStartedAt
          && t.phase.toolName == g.phase.toolName
          && (if g.phase.kind.Tool? && u.length > 0
              then t.phase.chars.Some?
                   && t.phase.chars.value == u.length + (if g.phase.chars.Some? then g.phase.chars.value else 0)
              else t.phase.chars == g.phase.chars))
  }

  datatype Timed = Timed(event: Event, now: Clock)

  function Run(b: Buffer, events: seq<Timed>): Buffer {
    if events == [] then b
    else Observed(Run(b, events[..|events| - 1]), events[|events| - 1].event, events[|events| - 1].now)
  }

  predicate TimesNonNegative(events: seq<Timed>) {
    forall k | 0 <= k < |events| :: events[k].now >= 0.0
  }

  lemma {:induction false} RunOk(b: Buffer, events: seq<Timed>)
    requires BufferOk(b) && TimesNonNegative(events)
    ensures BufferOk(Run(b, events))
  {
    if events != [] {
      var init := events[..|events| - 1];
      RunOk(b, init);
      ObservedOk(Run(b, init), events[|events| - 1].event, events[|events| - 1].now);
    }
  }

  // ----- views

  datatype Running = Running(toolName: string, argsPreview: string, startedAt: Clock, done: nat, othersRunning: nat)

  datatype View = View(epoch: Option<string>, seqNo: nat, toolNames: seq<string>, callCount: nat, failed: nat,
      startedAt: Clock,
                       endedAt: Option<Clock>, running: Option<Running>, generating: Option<Phase>)

  /** Distinct names in call order, up to the cap. */
  function ToolNames(calls: seq<Call>): (r: seq<string>)
    ensures |r| <= BATCH_TOOL_NAME_CAP
  {
    if calls == [] then []
    else
      var before, name := ToolNames(calls[..|calls| - 1]), calls[|calls| - 1].toolName;
      if |before| >= BATCH_TOOL_NAME_CAP || name in before then before else before + [name]
  }

  function CountCalls(calls: seq<Call>, test: Call -> bool): (n: nat)
    ensures n <= |calls|
    ensures n > 0 <==> exists k :: 0 <= k < |calls| && test(calls[k])
  {
    if calls == [] then 0
    else
      var init, last := calls[..|calls| - 1], calls[|calls| - 1];
      assert test(last) ==> test(calls[|calls| - 1]);
      assert forall k | 0 <= k < |init| :: init[k] == calls[k];
      CountCalls(init, test) + if test(last) then 1 else 0
  }

  predicate InFlight(c: Call) {
    c.startedAt.Some? && c.endedAt.None?
  }

  /** The oldest call in flight, the first among equals, or -1. */
  function Oldest(calls: seq<Call>): (k: int)
    ensures -1 <= k < |calls|
    ensures k >= 0 ==> InFlight(calls[k])
    ensures forall i | 0 <= i < |calls| && InFlight(calls[i]) ::
              k >= 0 && calls[k].startedAt.value <= calls[i].startedAt.value
  {
    if calls == [] then -1
    else
      var best, last := Oldest(calls[..|calls| - 1]), |calls| - 1;
      if InFlight(calls[last]) && (best < 0 || calls[last].startedAt.value < calls[best].startedAt.value) then last
      else best
  }

  function FirstUnended(calls: seq<Call>): (k: int)
    ensures -1 <= k < |calls|
    ensures k >= 0 ==> calls[k].endedAt.None?
    ensures k < 0 ==> AllEnded(calls)
  {
    if calls == [] then -1
    else if calls[0].endedAt.None? then 0
    else
      var rest := FirstUnended(calls[1..]);
      assert rest < 0 ==> forall k | 1 <= k < |calls| :: calls[k] == calls[1..][k - 1];
      if rest < 0 then -1 else rest + 1
  }

  function BatchView(batch: Batch, epoch: Option<string>): View {
    var failed := CountCalls(batch.calls, (c: Call) => c.isError || (batch.endedAt.Some? && c.endedAt.None?));
    var base := View(epoch, batch.seqNo, ToolNames(batch.calls), |batch.calls|, failed,
                     batch.startedAt, batch.endedAt, None, None);
    if batch.endedAt.Some? then base
    else
      var done, inFlight := CountCalls(batch.calls, (c: Call) => c.endedAt.Some?),
          CountCalls(batch.calls, (c: Call) => InFlight(c));
      var oldest := Oldest(batch.calls);
      var k := if oldest >= 0 then oldest else FirstUnended(batch.calls);
      base.(running := Some(
        if k < 0 then Running("tool", "", batch.startedAt, done, inFlight)
        else
          var c := batch.calls[k];
          Running(c.toolName, c.argsPreview, if c.startedAt.Some? then c.startedAt.value else batch.startedAt, done,
                  if c.startedAt.Some? && inFlight > 0 then inFlight - 1 else inFlight)))
  }

  function BatchViews(b: Buffer, epoch: string): (r: seq<View>)
    ensures |r| == |b.batches| + if b.generating.Some? then 1 else 0
  {
    seq(|b.batches|, i requires 0 <= i < |b.batches| => BatchView(b.batches[i], Some(epoch)))
    + if b.generating.None? then []
      else [View(Some(epoch), b.nextSeq, [], 0, 0, b.generating.value.startedAt, None, None,
          Some(b.generating.value.phase))]
  }

  function Present(v: View): nat {
    (if v.endedAt.Some? then 1 else 0) + (if v.running.Some? then 1 else 0) + (if v.generating.Some? then 1 else 0)
  }

  /** Exactly one of ended, running and generating; counts within the call count; no clock below zero. */
  predicate ViewOk(v: View) {
    && Present(v) == 1
    && v.seqNo > 0 && v.failed <= v.callCount && |v.toolNames| <= BATCH_TOOL_NAME_CAP && v.startedAt >= 0.0
    && (v.endedAt.Some? ==> v.endedAt.value >= 0.0)
    && (v.running.Some? ==>
          v.running.value.startedAt >= 0.0 && v.running.value.done + v.running.value.othersRunning < v.callCount)
    && (v.generating.Some? ==> PhaseOk(v.generating.value))
  }

  /** Ended, in-flight and announced calls are different calls. */
  lemma {:induction false} DoneAndInFlight(calls: seq<Call>)
    ensures var done, inFlight := CountCalls(calls, (c: Call) => c.endedAt.Some?),
            CountCalls(calls, (c: Call) => InFlight(c));
            && done + inFlight <= |calls|
            && (!AllEnded(calls) && inFlight == 0 ==> done < |calls|)
  {
    if calls != [] {
      var init := calls[..|calls| - 1];
      DoneAndInFlight(init);
      assert AllEnded(init) && calls[|calls| - 1].endedAt.Some? ==> AllEnded(calls);
    }
  }

  lemma {:induction false} BatchViewOk(batch: Batch, epoch: Option<string>)
    requires BatchOk(batch) && batch.seqNo > 0
    ensures ViewOk(BatchView(batch, epoch))
  {
    if batch.endedAt.None? {
      DoneAndInFlight(batch.calls);
      var inFlight := CountCalls(batch.calls, (c: Call) => InFlight(c));
      var oldest := Oldest(batch.calls);
      assert oldest >= 0 <==> inFlight > 0;
      if oldest >= 0 {
        assert CallOk(batch.calls[oldest]);
      } else {
        var k := FirstUnended(batch.calls);
        assert CallOk(batch.calls[k]) && !InFlight(batch.calls[k]);
      }
    }
  }

  // ----- what a view says, in the calls of its batch

  function Calls(calls: seq<Call>, test: Call -> bool): set<nat> {
    set k: nat | k < |calls| && test(calls[k])
  }

  lemma {:induction false} CountIs(calls: seq<Call>, test: Call -> bool)
    ensures CountCalls(calls, test) == |Calls(calls, test)|
  {
    if calls != [] {
      var m := |calls| - 1;
      CountIs(calls[..m], test);
      assert Calls(calls, test) == Calls(calls[..m], test) + if test(calls[m]) then {m} else {};
    }
  }

  /** Call `k` is the first with its tool name. */
  predicate FirstNamed(calls: seq<Call>, k: nat) {
    k < |calls| && forall i | 0 <= i < k :: calls[i].toolName != calls[k].toolName
  }

  /** The names are those of the first calls to bear each, in call order, all of them or the first five. */
  ghost predicate NamesAt(calls: seq<Call>, names: seq<string>, at: seq<nat>) {
    && |at| == |names| <= BATCH_TOOL_NAME_CAP
    && (forall i | 0 <= i < |at| :: FirstNamed(calls, at[i]) && names[i] == calls[at[i]].toolName)
    && (forall i, j | 0 <= i < j < |at| :: at[i] < at[j])
    && (forall k: nat | FirstNamed(calls, k) && k !in at ::
          |at| == BATCH_TOOL_NAME_CAP && forall i | 0 <= i < |at| :: at[i] < k)
  }

  lemma {:induction false} FirstNamedBefore(calls: seq<Call>, last: Call, k: nat)
    requires k < |calls|
    ensures FirstNamed(calls + [last], k) <==> FirstNamed(calls, k)
  {
    assert forall i | 0 <= i <= k :: (calls + [last])[i] == calls[i];
  }

  lemma {:induction false} NamesKeep(calls: seq<Call>, last: Call, names: seq<string>, at: seq<nat>)
    requires NamesAt(calls, names, at)
    requires |names| == BATCH_TOOL_NAME_CAP || !FirstNamed(calls + [last], |calls|)
    ensures NamesAt(calls + [last], names, at)
  {
    forall k: nat | k < |calls|
      ensures FirstNamed(calls + [last], k) <==> FirstNamed(calls, k)
    {
      FirstNamedBefore(calls, last, k);
    }
  }

  lemma {:induction false} NamesMore(calls: seq<Call>, last: Call, names: seq<string>, at: seq<nat>)
    requires NamesAt(calls, names, at) && |names| < BATCH_TOOL_NAME_CAP && FirstNamed(calls + [last], |calls|)
    ensures NamesAt(calls + [last], names + [last.toolName], at + [|calls|])
  {
    forall k: nat | k < |calls|
      ensures FirstNamed(calls + [last], k) <==> FirstNamed(calls, k)
    {
      FirstNamedBefore(calls, last, k);
    }
  }

  lemma {:induction false} ToolNamesAre(calls: seq<Call>) returns (at: seq<nat>)
    ensures NamesAt(calls, ToolNames(calls), at)
    ensures |ToolNames(calls)| < BATCH_TOOL_NAME_CAP ==>
              forall k | 0 <= k < |calls| :: calls[k].toolName in ToolNames(calls)
  {
    at := [];
    if calls != [] {
      var init, last := calls[..|calls| - 1], calls[|calls| - 1];
      assert calls == init + [last];
      at := ToolNamesAre(init);
      if |ToolNames(init)| < BATCH_TOOL_NAME_CAP && last.toolName !in ToolNames(init) {
        NamesMore(init, last, ToolNames(init), at);
        at := at + [|init|];
      } else {
        if |ToolNames(init)| < BATCH_TOOL_NAME_CAP {
          NamedEarlier(calls, ToolNames(init), at);
        }
        NamesKeep(init, last, ToolNames(init), at);
      }
    }
  }

  lemma {:induction false} NamedEarlier(calls: seq<Call>, names: seq<string>, at: seq<nat>)
    requires calls != [] && NamesAt(calls[..|calls| - 1], names, at) && calls[|calls| - 1].toolName in names
    ensures !FirstNamed(calls, |calls| - 1)
  {
    var i :| 0 <= i < |names| && names[i] == calls[|calls| - 1].toolName;
    assert calls[at[i]] == calls[..|calls| - 1][at[i]];
  }

  predicate Failed(batch: Batch, c: Call) {
    c.isError || (batch.endedAt.Some? && c.endedAt.None?)
  }

  /** The call in flight since longest, the first of them among equals. */
  predicate LongestInFlight(calls: seq<Call>, k: nat) {
    && k < |calls| && InFlight(calls[k])
    && (forall i | 0 <= i < |calls| && InFlight(calls[i]) :: calls[k].startedAt.value <= calls[i].startedAt.value)
    && forall i | 0 <= i < k && InFlight(calls[i]) :: calls[k].startedAt.value < calls[i].startedAt.value
  }

  predicate FirstOpenCall(calls: seq<Call>, k: nat) {
    k < |calls| && calls[k].endedAt.None? && forall i | 0 <= i < k :: calls[i].endedAt.Some?
  }

  /** What a running batch's view reports of it: the longest running call, or before any runs the first open one. */
  ghost predicate ReportsRunning(batch: Batch, r: Running) {
    var calls := batch.calls;
    && r.done == |Calls(calls, (c: Call) => c.endedAt.Some?)|
    && if Calls(calls, (c: Call) => InFlight(c)) != {}
       then
         && r.othersRunning == |Calls(calls, (c: Call) => InFlight(c))| - 1
         && exists k: nat :: LongestInFlight(calls, k) && r.toolName == calls[k].toolName
                             && r.argsPreview == calls[k].argsPreview && r.startedAt == calls[k].startedAt.value
       else
         && r.othersRunning == 0 && r.startedAt == batch.startedAt
         && exists k: nat :: FirstOpenCall(calls, k) && r.toolName == calls[k].toolName
                             && r.argsPreview == calls[k].argsPreview
  }

  ghost predicate ViewSays(batch: Batch, epoch: Option<string>, v: View) {
    && v.epoch == epoch && v.seqNo == batch.seqNo && v.startedAt == batch.startedAt && v.endedAt == batch.endedAt
    && v.generating.None? && v.callCount == |batch.calls|
    && v.failed == |Calls(batch.calls, (c: Call) => Failed(batch, c))|
    && (exists at: seq<nat> :: NamesAt(batch.calls, v.toolNames, at))
    && (v.running.Some? <==> batch.endedAt.None?)
    && (v.running.Some? ==> ReportsRunning(batch, v.running.value))
  }

  lemma {:induction false} OldestIs(calls: seq<Call>)
    ensures Oldest(calls) >= 0 ==> LongestInFlight(calls, Oldest(calls))
  {
    if calls != [] {
      var m := |calls| - 1;
      OldestIs(calls[..m]);
      assert forall i | 0 <= i < m :: calls[..m][i] == calls[i];
    }
  }

  lemma {:induction false} FirstUnendedIs(calls: seq<Call>)
    ensures FirstUnended(calls) >= 0 ==> FirstOpenCall(calls, FirstUnended(calls))
  {
    if calls != [] {
      FirstUnendedIs(calls[1..]);
      assert forall i | 0 <= i < |calls| - 1 :: calls[1..][i] == calls[i + 1];
    }
  }

  lemma {:induction false} RunningIs(batch: Batch, epoch: Option<string>)
    requires BatchOk(batch) && batch.endedAt.None?
    ensures BatchView(batch, epoch).running.Some? && ReportsRunning(batch, BatchView(batch, epoch).running.value)
  {
    var calls := batch.calls;
    CountIs(calls, (c: Call) => c.endedAt.Some?);
    CountIs(calls, (c: Call) => InFlight(c));
    OldestIs(calls);
    FirstUnendedIs(calls);
    var oldest := Oldest(calls);
    var inFlight := Calls(calls, (c: Call) => InFlight(c));
    if oldest >= 0 {
      assert oldest in inFlight;
    } else {
      assert inFlight == {};
      var k := FirstUnended(calls);
      assert FirstOpenCall(calls, k) && !InFlight(calls[k]);
    }
  }

  /** A batch's view says of its calls exactly this. */
  lemma {:induction false} BatchViewSays(batch: Batch, epoch: Option<string>)
    requires BatchOk(batch)
    ensures ViewSays(batch, epoch, BatchView(batch, epoch))
  {
    CountIs(batch.calls, (c: Call) => Failed(batch, c));
    CountSame(batch.calls, (c: Call) => c.isError || (batch.endedAt.Some? && c.endedAt.None?),
              (c: Call) => Failed(batch, c));
    var at := ToolNamesAre(batch.calls);
    if batch.endedAt.None? {
      RunningIs(batch, epoch);
    }
  }

  lemma {:induction false} CountSame(calls: seq<Call>, a: Call -> bool, b: Call -> bool)
    requires forall c :: a(c) == b(c)
    ensures CountCalls(calls, a) == CountCalls(calls, b)
  {
    if calls != [] {
      CountSame(calls[..|calls| - 1], a, b);
    }
  }

  /**
   * After every event sequence the buffer is bounded, its numbers are consecutive, only its last batch
   * is open, and each of its at most six views is exactly one of ended, running and generating.
   */
  lemma {:induction false} ViewsAfterAnyRun(events: seq<Timed>, epoch: string)
    requires TimesNonNegative(events)
    ensures var b := Run(Buffer(1, [], None), events);
            && BufferOk(b)
            && |BatchViews(b, epoch)| <= AGENT_BATCH_CAP + 1
            && (forall i | 0 <= i < |BatchViews(b, epoch)| :: ViewOk(BatchViews(b, epoch)[i]))
            && (forall i | 0 <= i < |b.batches| :: ViewSays(b.batches[i], Some(epoch), BatchViews(b, epoch)[i]))
            && (b.generating.Some? ==>
                  BatchViews(b, epoch)[|b.batches|] ==
                  View(Some(epoch), b.nextSeq, [], 0, 0, b.generating.value.startedAt, None, None,
                       Some(b.generating.value.phase)))
            && (forall i, j | 0 <= i < j < |BatchViews(b, epoch)| ::
                BatchViews(b, epoch)[j].seqNo == BatchViews(b, epoch)[i].seqNo + (j - i))
  {
    var b := Run(Buffer(1, [], None), events);
    RunOk(Buffer(1, [], None), events);
    forall i | 0 <= i < |b.batches|
      ensures ViewOk(BatchView(b.batches[i], Some(epoch)))
      ensures ViewSays(b.batches[i], Some(epoch), BatchView(b.batches[i], Some(epoch)))
    {
      BatchViewOk(b.batches[i], Some(epoch));
      BatchViewSays(b.batches[i], Some(epoch));
    }
  }
}
