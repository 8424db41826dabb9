// approval-protocol.ts, execute-gateway.ts, spawner.ts: one child's approval requests from end to end.
// The request travels on the child's event stream; the decision and its acknowledgement travel on the
// control channel, which may drop at any point.

module ApprovalChannel {
  import opened Options
  import opened Channel
  import opened ApprovalGate

  /** The approval section of a hello; a child from before the `consumed` field sends none. */
  datatype Resume = Resume(pending: Option<CmdId>, consumed: Option<seq<CmdId>>)

  /**
   * A decision is absent while the request is open, sent once delivered to a live connection, discarded once
   * that connection is gone.
   */
  datatype Status = Asked | Sent | Discarded

  datatype Request = Request(cmd: CmdId, status: Status)

  datatype Validation = Ok | NoPending | Mismatch | AlreadySent | AlreadyDiscarded

  /** `ws-approve` accepts a decision only for the request that is pending and still open. */
  function Validate(pending: Option<Request>, cmd: CmdId): (r: Validation)
    ensures r.Ok? <==> pending == Some(Request(cmd, Asked))
  {
    if pending.None? then NoPending
    else if pending.value.cmd != cmd then Mismatch
    else if pending.value.status.Sent? then AlreadySent
    else if pending.value.status.Discarded? then AlreadyDiscarded
    else Ok
  }

  /** The parent's reading of a reconnect hello: was this command consumed? */
  predicate WasConsumed(resume: Resume, cmd: CmdId) {
    if resume.consumed.Some? then cmd in resume.consumed.value else resume.pending != Some(cmd)
  }

  function OnDisconnect(pending: Option<Request>): Option<Request> {
    if pending.Some? && pending.value.status.Sent? then Some(pending.value.(status := Discarded)) else pending
  }

  function OnReconnect(pending: Option<Request>, resume: Resume): Option<Request> {
    if pending.None? || !pending.value.status.Discarded? then pending
    else if WasConsumed(resume, pending.value.cmd) then None
    else Some(pending.value.(status := Asked))
  }

  function OnConsumed(pending: Option<Request>, cmd: CmdId): Option<Request> {
    if pending.Some? && pending.value.cmd == cmd then None else pending
  }

  /** The child's event stream: a gated call began, or the run settled. */
  datatype Notice = CallBegan(cmd: CmdId) | RunSettled

  type Wire = Link<Resume, CmdId, Early>

  /**
   * The child runs any number of gated calls at once: those `begun` have announced themselves and not yet
   * waited, those in `gate.waiting` wait. `acked`, `taken` and `decided` are history: every acknowledged
   * id, every decision a wait took, and every decision the lead made; `requested` counts the ids the
   * parent has seen requests for.
   */
  datatype Pair = Pair(link: Wire, gate: Gate, begun: set<CmdId>, nextCmd: CmdId, stream: seq<Notice>,
      pending: Option<Request>,
                       acked: seq<CmdId>, taken: seq<Early>, decided: seq<Early>, requested: CmdId)

  datatype Event =
    | CallBegins
    | WaitBegins(cmd: CmdId, canSend: bool)
    | CallAborts(cmd: CmdId)
    | RunSettles
    | ParentHears
    | LeadDecides(decision: Decision, throws: bool)
    | ChildTakes(canSend: bool)
    | ChildDials
    | ChildEnds
    | ParentGreets(c: nat)
    | ParentTakes
    | ParentEnds
    | Breaks(c: nat, up: nat, down: nat)

  function ResumeOf(g: Gate): Resume {
    Resume(Pending(g), Some(g.consumed))
  }

  /** The child's wait took a decision: the acknowledgement is on its way (or lost with the connection). */
  function Took(p: Pair, gate: Gate, e: Early): Pair
    requires p.link.child.Online? && p.link.child.c < |p.link.conns|
  {
    p.(gate := gate, begun := p.begun - {e.cmd}, link := SendUp(p.link, p.link.child.c, e.cmd),
       acked := p.acked + [e.cmd], taken := p.taken + [e])
  }

  function Apply(p: Pair, e: Event): Pair
    requires LinkOk(p.link)
  {
    var l := p.link;
    match e
    case CallBegins =>
      p.(begun := p.begun + {p.nextCmd}, nextCmd := p.nextCmd + 1, stream := p.stream + [CallBegan(p.nextCmd)])
    case WaitBegins(cmd, canSend) =>
      if cmd !in p.begun then p
      else
        var (gate, d) := Open(p.gate, cmd, canSend && l.child.Online?);
        if d.Some? && l.child.Online? then Took(p, gate, Early(cmd, d.value))
        else p.(gate := gate, begun := p.begun - {cmd})
    case CallAborts(cmd) =>
      if cmd in p.begun then p.(gate := Refuse(p.gate, cmd), begun := p.begun - {cmd})
      else p.(gate := p.gate.(waiting := RemoveLast(p.gate.waiting, cmd)))
    case RunSettles => if p.begun == {} && p.gate.waiting == [] then p.(stream := p.stream + [RunSettled]) else p
    case ParentHears =>
      if p.stream == [] then p
      else
        var rest := p.(stream := p.stream[1..]);
        (match p.stream[0]
         case CallBegan(cmd) => rest.(pending := Some(Request(cmd, Asked)), requested := cmd + 1)
         case RunSettled => rest.(pending := None))
    case LeadDecides(d, throws) =>
      if p.pending.None? || !Validate(p.pending, p.pending.value.cmd).Ok? then p
      else
        var x := Early(p.pending.value.cmd, d);
        if l.live.None? || throws then
          p.(pending := Some(Request(x.cmd, Discarded)), decided := p.decided + [x])
        else
          p.(pending := Some(Request(x.cmd, Sent)), decided := p.decided + [x],
              link := SendDown(l, l.live.value, Carry(x)))
    case ChildTakes(canSend) =>
      if l.child.Offline? || l.conns[l.child.c].down == [] then p
      else
        var c, head := l.child.c, l.conns[l.child.c].down[0];
        var rest := p.(link := DropDown(l, c));
        if l.child.Greeting? then
          rest.(link := rest.link.(child := if head.Welcome? then Online(c) else Offline))
        else if !head.Carry? then rest
        else if head.msg.cmd in p.gate.waiting then
          if canSend then Took(rest, Consume(p.gate, head.msg.cmd), head.msg) else rest
        else rest.(gate := Keep(p.gate, head.msg.cmd, head.msg.decision))
    case ChildDials => if l.child.Offline? then p.(link := Dial(l, ResumeOf(p.gate))) else p
    case ChildEnds => p.(link := l.(child := Offline), gate := Disconnect(p.gate))
    case ParentGreets(c) =>
      if !(l.greeted < c < |l.conns|) then p
      else
        p.(link := Greet(l, c),
           pending := if l.live.None? then OnReconnect(p.pending, l.conns[c].hello) else p.pending)
    case ParentTakes =>
      if l.live.None? || l.conns[l.live.value].up == [] then p
      else p.(link := DropUp(l, l.live.value), pending := OnConsumed(p.pending, l.conns[l.live.value].up[0]))
    case ParentEnds => if l.live.None? then p else p.(link := l.(live := None), pending := OnDisconnect(p.pending))
    case Breaks(c, up, down) => if c < |l.conns| then p.(link := Break(l, c, up, down)) else p
  }

  /** The launch right after its first handshake: nothing asked, nothing decided. */
  function Launched(): (p: Pair)
    ensures PairInv(p)
  {
    var p := Pair(Established(Resume(None, Some([]))), Gate([], [], []), {}, 0, [], None, [], [], [], 0);
    assert DownKnown(p, 0);
    p
  }

  function Run(p: Pair, events: seq<Event>): Pair
    requires PairInv(p)
    decreases |events|
  {
    if events == [] then p
    else
      ApplyKeepsInv(p, events[0]);
      Run(Apply(p, events[0]), events[1..])
  }

  // ----- the invariant

  predicate Distinct(s: seq<CmdId>) {
    forall j, k | 0 <= j < k < |s| :: s[j] != s[k]
  }

  /** Notices in flight announce ids the parent has not seen, in order. */
  predicate StreamOk(stream: seq<Notice>, requested: CmdId, nextCmd: CmdId) {
    && (forall i | 0 <= i < |stream| && stream[i].CallBegan? :: requested <= stream[i].cmd < nextCmd)
    && (forall i, j | 0 <= i < j < |stream| && stream[i].CallBegan? && stream[j].CallBegan? ::
          stream[i].cmd < stream[j].cmd)
  }

  /** A decision in the child's hands or on the way was made by the lead, for an id the parent had seen. */
  predicate Known(p: Pair, e: Early) {
    KnownBy(p.requested, p.decided, e)
  }

  predicate KnownBy(requested: CmdId, decided: seq<Early>, e: Early) {
    e.cmd < requested && e in decided
  }

  predicate DownKnown(p: Pair, c: nat)
    requires c < |p.link.conns|
  {
    AllKnown(p.requested, p.decided, p.link.conns[c].down)
  }

  predicate AllKnown(requested: CmdId, decided: seq<Early>, down: seq<Downward<Early>>) {
    forall k | 0 <= k < |down| && down[k].Carry? :: KnownBy(requested, decided, down[k].msg)
  }

  /** What is in flight to the child's current connection. */
  function ToChild(l: Wire): seq<Downward<Early>> {
    if l.child.Offline? || l.child.c >= |l.conns| then [] else l.conns[l.child.c].down
  }

  predicate NoneCarries(down: seq<Downward<Early>>, cmd: CmdId) {
    forall k | 0 <= k < |down| && down[k].Carry? :: down[k].msg.cmd != cmd
  }

  predicate NoneEarly(early: seq<Early>, cmd: CmdId) {
    forall e | e in early :: e.cmd != cmd
  }

  /** No decision for `cmd` can still reach the child's wait. */
  predicate Unreachable(p: Pair, cmd: CmdId) {
    NoneEarly(p.gate.early, cmd) && NoneCarries(ToChild(p.link), cmd)
  }

  predicate AllBelow(s: seq<CmdId>, bound: CmdId) {
    forall i | 0 <= i < |s| :: s[i] < bound
  }

  predicate EarlyKnown(requested: CmdId, decided: seq<Early>, early: seq<Early>) {
    forall e | e in early :: KnownBy(requested, decided, e)
  }

  predicate TakenKnown(requested: CmdId, decided: seq<Early>, taken: seq<Early>, acked: seq<CmdId>) {
    && |taken| == |acked|
    && forall i | 0 <= i < |taken| :: taken[i].cmd == acked[i] && KnownBy(requested, decided, taken[i])
  }

  /** Every call is announced once, waits at most once, and is done once acknowledged. */
  predicate CallsOk(begun: set<CmdId>, waiting: seq<CmdId>, acked: seq<CmdId>, nextCmd: CmdId) {
    && Distinct(waiting) && Distinct(acked)
    && (forall id | id in begun :: id < nextCmd && id !in waiting && id !in acked)
    && (forall id | id in waiting :: id < nextCmd && id !in acked)
  }

  predicate ChildSide(p: Pair) {
    && AllBelow(p.acked, p.requested)
    && p.requested <= p.nextCmd
    && CallsOk(p.begun, p.gate.waiting, p.acked, p.nextCmd)
    && p.gate.consumed == Capped(p.acked)
    && (!p.link.child.Online? ==> p.gate.early == [])
    && EarlyKnown(p.requested, p.decided, p.gate.early)
    && TakenKnown(p.requested, p.decided, p.taken, p.acked)
  }

  predicate PendingOk(pending: Option<Request>, requested: CmdId) {
    pending.Some? ==> pending.value.cmd + 1 == requested
  }

  /** While the lead is asked, no earlier answer can still arrive, and the child's list shows no sign of one. */
  predicate AskedOk(pending: Option<Request>, consumed: seq<CmdId>, early: seq<Early>, down: seq<Downward<Early>>) {
    pending.Some? && pending.value.status.Asked? ==>
      pending.value.cmd !in consumed && NoneEarly(early, pending.value.cmd) && NoneCarries(down, pending.value.cmd)
  }

  predicate ParentSide(p: Pair) {
    && StreamOk(p.stream, p.requested, p.nextCmd)
    && PendingOk(p.pending, p.requested)
    && AskedOk(p.pending, p.gate.consumed, p.gate.early, ToChild(p.link))
  }

  predicate LinkSide(p: Pair) {
    && LinkOk(p.link)
    && (forall c | 0 <= c < |p.link.conns| :: DownKnown(p, c))
    && (forall c | p.link.greeted < c < |p.link.conns| :: p.link.conns[c].hello.consumed == Some(p.gate.consumed))
  }

  predicate PairInv(p: Pair) {
    LinkSide(p) && ChildSide(p) && ParentSide(p)
  }

  lemma {:induction false} ApplyKeepsInv(p: Pair, e: Event)
    requires PairInv(p)
    ensures PairInv(Apply(p, e))
  {
    match e
    case CallBegins => CallBeginsKeepsInv(p);
    case WaitBegins(cmd, canSend) => WaitBeginsKeepsInv(p, cmd, canSend);
    case CallAborts(cmd) => CallAbortsKeepsInv(p, cmd);
    case RunSettles =>
      assert StreamOk(p.stream + [RunSettled], p.requested, p.nextCmd);
      SameLinkKeepsInv(p, Apply(p, e));
    case ParentHears => ParentHearsKeepsInv(p);
    case LeadDecides(d, throws) => LeadDecidesKeepsInv(p, d, throws);
    case ChildTakes(canSend) => ChildTakesKeepsInv(p, canSend);
    case ChildDials => ChildDialsKeepsInv(p);
    case ChildEnds => ChildEndsKeepsInv(p);
    case ParentGreets(c) => ParentGreetsKeepsInv(p, c);
    case ParentTakes => ParentTakesKeepsInv(p);
    case ParentEnds => ParentEndsKeepsInv(p);
    case Breaks(c, up, down) => BreaksKeepsInv(p, c, up, down);
  }

  lemma {:induction false} StillKnown(requested: CmdId, decided: seq<Early>, down: seq<Downward<Early>>,
        later: CmdId, more: seq<Early>)
    requires AllKnown(requested, decided, down) && requested <= later
    ensures AllKnown(later, decided + more, down)
  {
  }

  lemma {:induction false} StillEarlyKnown(requested: CmdId, decided: seq<Early>, early: seq<Early>, later: CmdId,
        more: seq<Early>)
    requires EarlyKnown(requested, decided, early) && requested <= later
    ensures EarlyKnown(later, decided + more, early)
  {
  }

  /** A change that leaves the link and the history alone leaves what is in flight known. */
  lemma {:induction false} SameLinkKeepsInv(p: Pair, t: Pair)
    requires PairInv(p) && t.link == p.link && t.gate.consumed == p.gate.consumed
    requires t.requested >= p.requested && t.decided == p.decided
    requires ChildSide(t) && ParentSide(t)
    ensures PairInv(t)
  {
    forall c | 0 <= c < |t.link.conns|
      ensures DownKnown(t, c)
    {
      assert DownKnown(p, c);
      StillKnown(p.requested, p.decided, p.link.conns[c].down, t.requested, []);
      assert p.decided + [] == t.decided;
    }
  }

  lemma {:induction false} CallBeginsKeepsInv(p: Pair)
    requires PairInv(p)
    ensures PairInv(Apply(p, CallBegins))
  {
    SameLinkKeepsInv(p, Apply(p, CallBegins));
  }

  /** Removing an id that waits once removes it and nothing else. */
  lemma {:induction false} Unwait(waiting: seq<CmdId>, cmd: CmdId)
    requires Distinct(waiting)
    ensures Distinct(RemoveLast(waiting, cmd))
    ensures forall id :: id in RemoveLast(waiting, cmd) <==> id in waiting && id != cmd
  {
    if waiting != [] {
      var init, last := waiting[..|waiting| - 1], waiting[|waiting| - 1];
      Unwait(init, cmd);
      assert waiting == init + [last];
      assert forall id :: id in waiting <==> id in init || id == last;
      assert last !in init;
    }
  }

  /** An id that never waited comes and goes at the end. */
  lemma {:induction false} WaitedNot(waiting: seq<CmdId>, cmd: CmdId)
    ensures RemoveLast(waiting + [cmd], cmd) == waiting
  {
    assert (waiting + [cmd])[..|waiting|] == waiting;
  }

  lemma {:induction false} CallAbortsKeepsInv(p: Pair, cmd: CmdId)
    requires PairInv(p)
    ensures PairInv(Apply(p, CallAborts(cmd)))
  {
    Unwait(p.gate.waiting, cmd);
    SameLinkKeepsInv(p, Apply(p, CallAborts(cmd)));
  }

  lemma {:induction false} ParentHearsKeepsInv(p: Pair)
    requires PairInv(p)
    ensures PairInv(Apply(p, ParentHears))
  {
    if p.stream != [] {
      var t := Apply(p, ParentHears);
      if p.stream[0].CallBegan? {
        assert forall i | 0 <= i < |t.stream| :: t.stream[i] == p.stream[i + 1];
        if !t.link.child.Offline? {
          assert DownKnown(p, t.link.child.c);
        }
      }
      SameLinkKeepsInv(p, t);
    }
  }

  lemma {:induction false} LeadDecidesKeepsInv(p: Pair, d: Decision, throws: bool)
    requires PairInv(p)
    ensures PairInv(Apply(p, LeadDecides(d, throws)))
  {
    if p.pending.Some? && p.pending.value.status.Asked? {
      var t, x := Apply(p, LeadDecides(d, throws)), Early(p.pending.value.cmd, d);
      forall c | 0 <= c < |t.link.conns|
        ensures DownKnown(t, c)
      {
        assert DownKnown(p, c);
        StillKnown(p.requested, p.decided, p.link.conns[c].down, p.requested, [x]);
      }
      StillEarlyKnown(p.requested, p.decided, p.gate.early, p.requested, [x]);
      StillTakenKnown(p.requested, p.decided, p.taken, p.acked, [x]);
    }
  }

  lemma {:induction false} StillTakenKnown(requested: CmdId, decided: seq<Early>, taken: seq<Early>,
        acked: seq<CmdId>, more: seq<Early>)
    requires TakenKnown(requested, decided, taken, acked)
    ensures TakenKnown(requested, decided + more, taken, acked)
  {
  }

  lemma {:induction false} WaitBeginsKeepsInv(p: Pair, cmd: CmdId, canSend: bool)
    requires PairInv(p)
    ensures PairInv(Apply(p, WaitBegins(cmd, canSend)))
  {
    if cmd in p.begun {
      var t := Apply(p, WaitBegins(cmd, canSend));
      var d := Lookup(p.gate.early, cmd);
      if d.Some? && canSend && p.link.child.Online? {
        WaitedNot(p.gate.waiting, cmd);
        TookKeepsInv(p, t.gate, Early(cmd, d.value));
      } else {
        OpenedOk(p.begun, p.gate.waiting, p.acked, p.nextCmd, cmd);
        SameLinkKeepsInv(p, t);
      }
    }
  }

  lemma {:induction false} OpenedOk(begun: set<CmdId>, waiting: seq<CmdId>, acked: seq<CmdId>, nextCmd: CmdId,
          cmd: CmdId)
    requires CallsOk(begun, waiting, acked, nextCmd) && cmd in begun
    ensures CallsOk(begun - {cmd}, waiting + [cmd], acked, nextCmd)
  {
  }

  lemma {:induction false} DoneOk(begun: set<CmdId>, waiting: seq<CmdId>, left: seq<CmdId>, acked: seq<CmdId>,
          nextCmd: CmdId, cmd: CmdId)
    requires CallsOk(begun, waiting, acked, nextCmd) && (cmd in begun || cmd in waiting)
    requires Distinct(left) && forall id :: id in left <==> id in waiting && id != cmd
    ensures CallsOk(begun - {cmd}, left, acked + [cmd], nextCmd)
  {
  }

  lemma {:induction false} TookKeepsInv(p: Pair, gate: Gate, e: Early)
    requires PairInv(p) && p.link.child.Online? && Known(p, e)
    requires e.cmd in p.begun || e.cmd in p.gate.waiting
    requires p.pending.Some? && p.pending.value.cmd == e.cmd ==> !p.pending.value.status.Asked?
    requires gate.consumed == Capped(p.gate.consumed + [e.cmd])
    requires Distinct(gate.waiting) && forall id :: id in gate.waiting <==> id in p.gate.waiting && id != e.cmd
    requires forall x | x in gate.early :: x in p.gate.early
    ensures PairInv(Took(p, gate, e))
  {
    TookKeepsLink(p, gate, e);
    TookKeepsChild(p, gate, e);
    TookKeepsAsked(p, gate, e);
  }

  lemma {:induction false} TookKeepsLink(p: Pair, gate: Gate, e: Early)
    requires LinkSide(p) && p.link.child.Online?
    ensures LinkSide(Took(p, gate, e)) && ToChild(Took(p, gate, e).link) == ToChild(p.link)
  {
    var t := Took(p, gate, e);
    forall c | 0 <= c < |t.link.conns|
      ensures DownKnown(t, c)
    {
      assert DownKnown(p, c);
    }
  }

  lemma {:induction false} TakenMore(requested: CmdId, decided: seq<Early>, taken: seq<Early>, acked: seq<CmdId>,
          e: Early)
    requires TakenKnown(requested, decided, taken, acked) && KnownBy(requested, decided, e)
    ensures TakenKnown(requested, decided, taken + [e], acked + [e.cmd])
  {
  }

  lemma {:induction false} TookKeepsChild(p: Pair, gate: Gate, e: Early)
    requires ChildSide(p) && p.link.child.Online? && p.link.child.c < |p.link.conns| && Known(p, e)
    requires e.cmd in p.begun || e.cmd in p.gate.waiting
    requires gate.consumed == Capped(p.gate.consumed + [e.cmd])
    requires Distinct(gate.waiting) && forall id :: id in gate.waiting <==> id in p.gate.waiting && id != e.cmd
    requires forall x | x in gate.early :: x in p.gate.early
    ensures ChildSide(Took(p, gate, e))
  {
    CappedStep(p.acked, e.cmd);
    DoneOk(p.begun, p.gate.waiting, gate.waiting, p.acked, p.nextCmd, e.cmd);
    TakenMore(p.requested, p.decided, p.taken, p.acked, e);
  }

  lemma {:induction false} TookKeepsAsked(p: Pair, gate: Gate, e: Early)
    requires AskedOk(p.pending, p.gate.consumed, p.gate.early, ToChild(p.link))
    requires p.pending.Some? && p.pending.value.cmd == e.cmd ==> !p.pending.value.status.Asked?
    requires gate.consumed == Capped(p.gate.consumed + [e.cmd])
    requires forall x | x in gate.early :: x in p.gate.early
    ensures AskedOk(p.pending, gate.consumed, gate.early, ToChild(p.link))
  {
    assert forall id | id in gate.consumed :: id in p.gate.consumed || id == e.cmd;
  }

  /** What an online child does with a decision just read off its connection. */
  lemma {:induction false} CarriedKeepsInv(rest: Pair, e: Early, canSend: bool)
    requires PairInv(rest) && rest.link.child.Online? && Known(rest, e)
    requires rest.pending.Some? && rest.pending.value.cmd == e.cmd ==> !rest.pending.value.status.Asked?
    ensures PairInv(if e.cmd !in rest.gate.waiting then rest.(gate := Keep(rest.gate, e.cmd, e.decision))
                    else if canSend then Took(rest, Consume(rest.gate, e.cmd), e)
                    else rest)
  {
    if e.cmd !in rest.gate.waiting {
      KeepsEarly(rest, e);
    } else if canSend {
      Unwait(rest.gate.waiting, e.cmd);
      TookKeepsInv(rest, Consume(rest.gate, e.cmd), e);
    }
  }

  lemma {:induction false} ChildTakesKeepsInv(p: Pair, canSend: bool)
    requires PairInv(p)
    ensures PairInv(Apply(p, ChildTakes(canSend)))
  {
    var l := p.link;
    if !l.child.Offline? && l.conns[l.child.c].down != [] {
      var c, head := l.child.c, l.conns[l.child.c].down[0];
      DropDownKeepsInv(p, if l.child.Online? then l.child else if head.Welcome? then Online(c) else Offline);
      if l.child.Online? && head.Carry? {
        assert DownKnown(p, c);
        CarriedKeepsInv(p.(link := DropDown(l, c).(child := l.child)), head.msg, canSend);
      }
    }
  }

  lemma {:induction false} RestKnown(requested: CmdId, decided: seq<Early>, down: seq<Downward<Early>>)
    requires down != [] && AllKnown(requested, decided, down)
    ensures AllKnown(requested, decided, down[1..])
  {
  }

  lemma {:induction false} RestAsked(pending: Option<Request>, consumed: seq<CmdId>, early: seq<Early>,
          down: seq<Downward<Early>>)
    requires down != [] && AskedOk(pending, consumed, early, down)
    ensures AskedOk(pending, consumed, early, down[1..]) && AskedOk(pending, consumed, early, [])
  {
  }

  /** Reading one message off the child's connection, before acting on it; a handshake may end either way. */
  lemma {:induction false} DropDownKeepsInv(p: Pair, child: Phase)
    requires PairInv(p) && !p.link.child.Offline? && p.link.conns[p.link.child.c].down != []
    requires child == p.link.child
             || (p.link.child.Greeting?
                 && (child.Offline? || (child == Online(p.link.child.c) && p.link.child.c <= p.link.greeted)))
    ensures PairInv(p.(link := DropDown(p.link, p.link.child.c).(child := child)))
  {
    var at := p.link.child.c;
    var t := p.(link := DropDown(p.link, at).(child := child));
    forall c | 0 <= c < |t.link.conns|
      ensures DownKnown(t, c)
    {
      assert DownKnown(p, c);
      if c == at {
        RestKnown(p.requested, p.decided, p.link.conns[c].down);
      }
    }
    RestAsked(p.pending, p.gate.consumed, p.gate.early, p.link.conns[at].down);
    assert ToChild(t.link) == if child.Offline? then [] else p.link.conns[at].down[1..];
  }

  lemma {:induction false} KeepsEarly(p: Pair, e: Early)
    requires PairInv(p) && p.link.child.Online? && Known(p, e)
    requires p.pending.Some? && p.pending.value.cmd == e.cmd ==> !p.pending.value.status.Asked?
    ensures PairInv(p.(gate := Keep(p.gate, e.cmd, e.decision)))
  {
    var kept := Keep(p.gate, e.cmd, e.decision);
    KeptIds(p.gate, e.cmd, e.decision);
    assert EarlyKnown(p.requested, p.decided, kept.early);
    SameLinkKeepsInv(p, p.(gate := kept));
  }

  lemma {:induction false} KeptIds(g: Gate, cmd: CmdId, d: Decision)
    ensures forall e | e in Keep(g, cmd, d).early :: e in g.early || e == Early(cmd, d)
    ensures Keep(g, cmd, d).consumed == g.consumed && Keep(g, cmd, d).waiting == g.waiting
  {
  }

  lemma {:induction false} ChildDialsKeepsInv(p: Pair)
    requires PairInv(p)
    ensures PairInv(Apply(p, ChildDials))
  {
    var t := Apply(p, ChildDials);
    forall c | 0 <= c < |t.link.conns|
      ensures DownKnown(t, c)
    {
      if c < |p.link.conns| {
        assert DownKnown(p, c);
      }
    }
  }

  lemma {:induction false} ChildEndsKeepsInv(p: Pair)
    requires PairInv(p)
    ensures PairInv(Apply(p, ChildEnds))
  {
    var t := Apply(p, ChildEnds);
    forall c | 0 <= c < |t.link.conns|
      ensures DownKnown(t, c)
    {
      assert DownKnown(p, c);
    }
  }

  lemma {:induction false} ParentGreetsKeepsInv(p: Pair, c: nat)
    requires PairInv(p)
    ensures PairInv(Apply(p, ParentGreets(c)))
  {
    if p.link.greeted < c < |p.link.conns| {
      var t := p.(link := Greet(p.link, c));
      GreetKeepsInv(p, c);
      if p.link.live.None? {
        ReaskKeepsInv(t, OnReconnect(p.pending, p.link.conns[c].hello));
      }
    }
  }

  /** A new connection holds no decision yet, and the child has dropped those of the old one. */
  lemma {:induction false} GreetKeepsInv(p: Pair, c: nat)
    requires PairInv(p) && p.link.greeted < c < |p.link.conns|
    ensures PairInv(p.(link := Greet(p.link, c)))
    ensures forall cmd :: Unreachable(p.(link := Greet(p.link, c)), cmd)
  {
    var t := p.(link := Greet(p.link, c));
    forall k | 0 <= k < |t.link.conns|
      ensures DownKnown(t, k)
    {
      assert DownKnown(p, k);
    }
  }

  lemma {:induction false} ReaskKeepsInv(p: Pair, pending: Option<Request>)
    requires PairInv(p)
    requires pending.None? || (p.pending.Some? && pending.value.cmd == p.pending.value.cmd)
    requires pending.Some? && pending.value.status.Asked? ==>
               pending.value.cmd !in p.gate.consumed && Unreachable(p, pending.value.cmd)
    ensures PairInv(p.(pending := pending))
  {
    SameLinkKeepsInv(p, p.(pending := pending));
  }

  lemma {:induction false} ParentTakesKeepsInv(p: Pair)
    requires PairInv(p)
    ensures PairInv(Apply(p, ParentTakes))
  {
    var t := Apply(p, ParentTakes);
    forall c | 0 <= c < |t.link.conns|
      ensures DownKnown(t, c)
    {
      assert DownKnown(p, c);
    }
  }

  lemma {:induction false} ParentEndsKeepsInv(p: Pair)
    requires PairInv(p)
    ensures PairInv(Apply(p, ParentEnds))
  {
    var t := Apply(p, ParentEnds);
    forall c | 0 <= c < |t.link.conns|
      ensures DownKnown(t, c)
    {
      assert DownKnown(p, c);
    }
  }

  lemma {:induction false} BreaksKeepsInv(p: Pair, c: nat, up: nat, down: nat)
    requires PairInv(p)
    ensures PairInv(Apply(p, Breaks(c, up, down)))
  {
    if c < |p.link.conns| {
      var t := Apply(p, Breaks(c, up, down));
      forall k | 0 <= k < |t.link.conns|
        ensures DownKnown(t, k)
      {
        assert DownKnown(p, k);
      }
    }
  }

  lemma {:induction false} RunKeepsInv(p: Pair, events: seq<Event>)
    requires PairInv(p)
    ensures PairInv(Run(p, events))
    decreases |events|
  {
    if events != [] {
      ApplyKeepsInv(p, events[0]);
      RunKeepsInv(Apply(p, events[0]), events[1..]);
    }
  }

  // ----- what a reconnect settles

  /** A decision counts as sent only while a connection is live. */
  predicate SentIsLive(p: Pair) {
    p.pending.Some? && p.pending.value.status.Sent? ==> p.link.live.Some?
  }

  lemma {:induction false} StepKeepsSentLive(p: Pair, e: Event)
    requires PairInv(p) && SentIsLive(p)
    ensures SentIsLive(Apply(p, e))
  {
  }

  lemma {:induction false} RunKeepsSentLive(p: Pair, events: seq<Event>)
    requires PairInv(p) && SentIsLive(p)
    ensures SentIsLive(Run(p, events))
    decreases |events|
  {
    if events != [] {
      ApplyKeepsInv(p, events[0]);
      StepKeepsSentLive(p, events[0]);
      RunKeepsSentLive(Apply(p, events[0]), events[1..]);
    }
  }

  /**
   * After any run, a hello that the parent takes with no connection live settles the outstanding request: one
   * still asked stays asked, one whose decision was lost is released exactly when the hello proves it consumed,
   * and is put to the lead again otherwise; none is left as sent.
   */
  lemma {:induction false} ReconnectSettles(events: seq<Event>, c: nat)
    requires var p := Run(Launched(), events);
             p.link.live.None? && p.link.greeted < c < |p.link.conns| && p.pending.Some?
    ensures var p := Run(Launched(), events);
            && !p.pending.value.status.Sent? && LinkOk(p.link)
            && var cmd, after := p.pending.value.cmd, Apply(p, ParentGreets(c)).pending;
            after == if p.pending.value.status.Discarded? && exists i: nat :: ListedAt(p.acked, i, cmd) then None
                        else Some(Request(cmd, Asked))
  {
    RunKeepsInv(Launched(), events);
    RunKeepsSentLive(Launched(), events);
    ReconnectTellsTheTruth(events, c);
  }

  /** A hello without a list, from an older child: a lost decision counts as consumed unless its wait is pending. */
  lemma {:induction false} ReconnectWithoutList(cmd: CmdId, resume: Resume)
    requires resume.consumed.None?
    ensures var after := OnReconnect(Some(Request(cmd, Discarded)), resume);
            && (after.Some? <==> resume.pending == Some(cmd))
            && (after.Some? ==> after.value == Request(cmd, Asked))
    ensures OnReconnect(None, resume).None?
    ensures OnReconnect(Some(Request(cmd, Asked)), resume) == Some(Request(cmd, Asked))
  {
  }

  /** The last thing the parent will have heard is that the run settled. */
  predicate SettlesNext(p: Pair) {
    if p.stream == [] then p.pending.None? else p.stream[|p.stream| - 1].RunSettled?
  }

  lemma {:induction false} StepKeepsSettling(p: Pair, e: Event)
    requires PairInv(p) && SettlesNext(p) && !e.CallBegins?
    ensures SettlesNext(Apply(p, e))
  {
  }

  lemma {:induction false} RunKeepsSettling(p: Pair, events: seq<Event>)
    requires PairInv(p) && SettlesNext(p) && forall k | 0 <= k < |events| :: !events[k].CallBegins?
    ensures SettlesNext(Run(p, events))
    decreases |events|
  {
    if events != [] {
      ApplyKeepsInv(p, events[0]);
      StepKeepsSettling(p, events[0]);
      RunKeepsSettling(Apply(p, events[0]), events[1..]);
    }
  }

  /**
   * Once a run has settled with no call open, and until another call begins, no request outlives the parent's
   * hearing of it, whatever connections come and go.
   */
  lemma {:induction false} SettledLeavesNoRequest(before: seq<Event>, after: seq<Event>)
    requires var p := Run(Launched(), before); p.begun == {} && p.gate.waiting == []
    requires forall k | 0 <= k < |after| :: !after[k].CallBegins?
    ensures PairInv(Run(Launched(), before))
    ensures var p := Run(Launched(), before);
            PairInv(Apply(p, RunSettles))
            && (Run(Apply(p, RunSettles), after).stream == [] ==> Run(Apply(p, RunSettles), after).pending.None?)
  {
    RunKeepsInv(Launched(), before);
    var p := Run(Launched(), before);
    ApplyKeepsInv(p, RunSettles);
    RunKeepsSettling(Apply(p, RunSettles), after);
  }

  // ----- what one step does, and calls that abort

  /** The lead's decision is taken once, for an open request: on its way, or lost at once with no connection. */
  lemma {:induction false} LeadDecidesExactly(p: Pair, d: Decision, throws: bool)
    requires LinkOk(p.link)
    ensures var t, l := Apply(p, LeadDecides(d, throws)), p.link;
            if p.pending.None? || !p.pending.value.status.Asked? then t == p
            else
              var x := Early(p.pending.value.cmd, d);
              && t.decided == p.decided + [x] && t.gate == p.gate && t.acked == p.acked && t.stream == p.stream
              && (if l.live.Some? && !throws
                  then t.pending == Some(Request(x.cmd, Sent))
                       && t.link.conns[l.live.value].down
                          == l.conns[l.live.value].down + if l.conns[l.live.value].broken then [] else [Carry(x)]
                  else t.pending == Some(Request(x.cmd, Discarded)) && t.link == l)
  {
  }

  /** The call is over: it neither waits nor will, and its id is not given again. */
  predicate Over(p: Pair, cmd: CmdId) {
    cmd !in p.begun && cmd !in p.gate.waiting && cmd < p.nextCmd
  }

  lemma {:induction false} AbortEnds(p: Pair, cmd: CmdId)
    requires PairInv(p) && cmd < p.nextCmd
    ensures var t := Apply(p, CallAborts(cmd));
            && Over(t, cmd) && t.taken == p.taken
            && (cmd in p.begun ==>
                  NoneEarly(t.gate.early, cmd) && forall e | e in p.gate.early && e.cmd != cmd :: e in t.gate.early)
  {
    if k :| 0 <= k < |p.gate.waiting| && p.gate.waiting[k] == cmd {
      RemovesTheLatest(p.gate.waiting, cmd, k);
    } else {
      RemovesNothing(p.gate.waiting, cmd);
    }
  }

  /** No step takes a decision for a call that is over. */
  predicate TakesNone(p: Pair, t: Pair, cmd: CmdId) {
    p.taken <= t.taken && forall i | |p.taken| <= i < |t.taken| :: t.taken[i].cmd != cmd
  }

  lemma {:induction false} StepKeepsOver(p: Pair, e: Event, cmd: CmdId)
    requires PairInv(p) && Over(p, cmd)
    ensures Over(Apply(p, e), cmd) && TakesNone(p, Apply(p, e), cmd)
  {
    match e
    case ChildTakes(canSend) =>
      var l := p.link;
      if !l.child.Offline? && l.conns[l.child.c].down != [] && l.conns[l.child.c].down[0].Carry? {
        StaysOut(p.gate.waiting, l.conns[l.child.c].down[0].msg.cmd, cmd);
      }
    case WaitBegins(other, canSend) =>
      if other in p.begun {
        StaysOut(p.gate.waiting + [other], other, cmd);
      }
    case CallAborts(other) => StaysOut(p.gate.waiting, other, cmd);
    case _ =>
  }

  lemma {:induction false} StaysOut(waiting: seq<CmdId>, other: CmdId, cmd: CmdId)
    requires cmd !in waiting
    ensures cmd !in RemoveLast(waiting, other)
  {
    if waiting != [] {
      StaysOut(waiting[..|waiting| - 1], other, cmd);
    }
  }

  lemma {:induction false} RunKeepsOver(p: Pair, events: seq<Event>, cmd: CmdId)
    requires PairInv(p) && Over(p, cmd)
    ensures TakesNone(p, Run(p, events), cmd)
    decreases |events|
  {
    if events != [] {
      ApplyKeepsInv(p, events[0]);
      StepKeepsOver(p, events[0], cmd);
      RunKeepsOver(Apply(p, events[0]), events[1..], cmd);
    }
  }

  /** After any run: a call that aborts takes no decision any more, whatever is decided, sent or already early. */
  lemma {:induction false} AbortedNeverRuns(before: seq<Event>, cmd: CmdId, after: seq<Event>)
    requires cmd < Run(Launched(), before).nextCmd
    ensures PairInv(Run(Launched(), before))
    ensures var p := Run(Launched(), before);
            PairInv(Apply(p, CallAborts(cmd))) && TakesNone(p, Run(Apply(p, CallAborts(cmd)), after), cmd)
  {
    RunKeepsInv(Launched(), before);
    var p := Run(Launched(), before);
    ApplyKeepsInv(p, CallAborts(cmd));
    AbortEnds(p, cmd);
    RunKeepsOver(Apply(p, CallAborts(cmd)), after, cmd);
  }

  // ----- what it means for the lead

  /** The `i`-th acknowledgement is `cmd`'s, and fewer than sixteen follow it. */
  predicate ListedAt(acked: seq<CmdId>, i: nat, cmd: CmdId) {
    i < |acked| && acked[i] == cmd && |acked| - 1 - i < RETAINED_DECISION_CAP
  }

  /**
   * Without repetition the capped list holds an id exactly while fewer than sixteen acknowledgements follow its
   * own.
   */
  lemma {:induction false} ListedExactly(acked: seq<CmdId>, cmd: CmdId)
    requires Distinct(acked)
    ensures cmd in Capped(acked) <==> exists i: nat :: ListedAt(acked, i, cmd)
  {
    if cmd in Capped(acked) {
      var i := WhereListed(acked, cmd);
    }
    if i: nat :| ListedAt(acked, i, cmd) {
      ListedWhileAmongNewest(acked, i);
    }
  }

  lemma {:induction false} WhereListed(acked: seq<CmdId>, cmd: CmdId) returns (i: nat)
    requires cmd in Capped(acked)
    ensures ListedAt(acked, i, cmd)
  {
    var r := Capped(acked);
    var k :| 0 <= k < |r| && r[k] == cmd;
    i := |acked| - |r| + k;
  }

  /**
   * At every reconnect hello the parent handles, after any run with any number of parallel calls: the
   * parent reads its one outstanding command as consumed if and only if the child acknowledged it and
   * fewer than sixteen acknowledgements followed; and acknowledged means its wait took the decision.
   */
  lemma {:induction false} ReconnectTellsTheTruth(events: seq<Event>, c: nat)
    requires var p := Run(Launched(), events); p.link.greeted < c < |p.link.conns| && p.pending.Some?
    ensures var p := Run(Launched(), events);
            var cmd := p.pending.value.cmd;
            && (WasConsumed(p.link.conns[c].hello, cmd) <==> exists i: nat :: ListedAt(p.acked, i, cmd))
            && (cmd in p.acked <==> exists i :: 0 <= i < |p.taken| && p.taken[i].cmd == cmd)
  {
    RunKeepsInv(Launched(), events);
    ReconnectTellsNow(Run(Launched(), events), c);
  }

  lemma {:induction false} ReconnectTellsNow(p: Pair, c: nat)
    requires PairInv(p) && p.link.greeted < c < |p.link.conns| && p.pending.Some?
    ensures var cmd := p.pending.value.cmd;
            && (WasConsumed(p.link.conns[c].hello, cmd) <==> exists i: nat :: ListedAt(p.acked, i, cmd))
            && (cmd in p.acked <==> exists i :: 0 <= i < |p.taken| && p.taken[i].cmd == cmd)
  {
    ListedExactly(p.acked, p.pending.value.cmd);
    AckedIsTaken(p.requested, p.decided, p.taken, p.acked, p.pending.value.cmd);
  }

  lemma {:induction false} AckedIsTaken(requested: CmdId, decided: seq<Early>, taken: seq<Early>, acked: seq<CmdId>,
          cmd: CmdId)
    requires TakenKnown(requested, decided, taken, acked)
    ensures cmd in acked <==> exists i :: 0 <= i < |taken| && taken[i].cmd == cmd
  {
    if cmd in acked {
      var i :| 0 <= i < |acked| && acked[i] == cmd;
      assert taken[i].cmd == acked[i];
    }
  }

  /** The command was acknowledged so long ago that the list no longer shows it. */
  predicate Hidden(acked: seq<CmdId>, cmd: CmdId) {
    exists i :: 0 <= i < |acked| && acked[i] == cmd && |acked| - 1 - i >= RETAINED_DECISION_CAP
  }

  /**
   * After any run: while the lead is asked about a request no earlier answer to it can still be taken, and
   * the request was taken before only if sixteen acknowledgements hid that; every id is taken at most once,
   * asked again or not; and whatever a wait took, the lead had decided.
   */
  lemma {:induction false} AskedOnlyWhileOpen(events: seq<Event>)
    ensures var p := Run(Launched(), events);
            && (p.pending.Some? && p.pending.value.status.Asked? ==>
                  && Unreachable(p, p.pending.value.cmd)
                  && (p.pending.value.cmd in p.acked ==> Hidden(p.acked, p.pending.value.cmd)))
            && (forall i, j | 0 <= i < j < |p.taken| :: p.taken[i].cmd != p.taken[j].cmd)
            && (forall i | 0 <= i < |p.taken| :: p.taken[i] in p.decided)
  {
    RunKeepsInv(Launched(), events);
    var p := Run(Launched(), events);
    TakenOnceNow(p);
    if p.pending.Some? && p.pending.value.status.Asked? {
      AskedNow(p, p.pending.value.cmd);
    }
  }

  lemma {:induction false} AskedNow(p: Pair, cmd: CmdId)
    requires PairInv(p) && p.pending == Some(Request(cmd, Asked))
    ensures Unreachable(p, cmd) && (cmd in p.acked ==> Hidden(p.acked, cmd))
  {
    ListedExactly(p.acked, cmd);
    if cmd in p.acked {
      var i: nat :| i < |p.acked| && p.acked[i] == cmd;
      assert !ListedAt(p.acked, i, cmd);
    }
  }

  lemma {:induction false} TakenOnceNow(p: Pair)
    requires PairInv(p)
    ensures forall i, j | 0 <= i < j < |p.taken| :: p.taken[i].cmd != p.taken[j].cmd
    ensures forall i | 0 <= i < |p.taken| :: p.taken[i] in p.decided
  {
    forall i, j | 0 <= i < j < |p.taken|
      ensures p.taken[i].cmd != p.taken[j].cmd
    {
      assert p.taken[i].cmd == p.acked[i] && p.taken[j].cmd == p.acked[j];
    }
    assert forall i | 0 <= i < |p.taken| :: KnownBy(p.requested, p.decided, p.taken[i]);
  }

  // ----- an acknowledged request is released

  /** On an intact connection up to the parent, the acknowledgement of a sent decision is still in flight. */
  predicate AckUnderway(p: Pair) {
    var l := p.link;
    !l.child.Offline? && l.live == Some(l.child.c) && l.child.c < |l.conns| && !l.conns[l.child.c].broken
        && p.pending.Some? && p.pending.value.status.Sent? && p.pending.value.cmd in p.acked ==>
      p.pending.value.cmd in l.conns[l.child.c].up || Hidden(p.acked, p.pending.value.cmd)
  }

  lemma {:induction false} HiddenStays(acked: seq<CmdId>, cmd: CmdId, last: CmdId)
    requires Hidden(acked, cmd)
    ensures Hidden(acked + [last], cmd)
  {
    var i :| 0 <= i < |acked| && acked[i] == cmd && |acked| - 1 - i >= RETAINED_DECISION_CAP;
    assert (acked + [last])[i] == cmd;
  }

  lemma {:induction false} TookKeepsUnderway(p: Pair, gate: Gate, e: Early)
    requires LinkOk(p.link) && AckUnderway(p) && p.link.child.Online?
    ensures AckUnderway(Took(p, gate, e))
  {
    if p.pending.Some? && Hidden(p.acked, p.pending.value.cmd) {
      HiddenStays(p.acked, p.pending.value.cmd, e.cmd);
    }
  }

  lemma {:induction false} LeadKeepsUnderway(p: Pair, d: Decision, throws: bool)
    requires PairInv(p) && AckUnderway(p)
    ensures AckUnderway(Apply(p, LeadDecides(d, throws)))
  {
    if p.pending.Some? && p.pending.value.status.Asked? {
      AskedNow(p, p.pending.value.cmd);
    }
  }

  lemma {:induction false} WaitKeepsUnderway(p: Pair, cmd: CmdId, canSend: bool)
    requires PairInv(p) && AckUnderway(p)
    ensures AckUnderway(Apply(p, WaitBegins(cmd, canSend)))
  {
    if cmd in p.begun {
      var (gate, d) := Open(p.gate, cmd, canSend && p.link.child.Online?);
      if d.Some? && p.link.child.Online? {
        TookKeepsUnderway(p, gate, Early(cmd, d.value));
      }
    }
  }

  lemma {:induction false} TakeKeepsUnderway(p: Pair, canSend: bool)
    requires PairInv(p) && AckUnderway(p)
    ensures AckUnderway(Apply(p, ChildTakes(canSend)))
  {
    var l := p.link;
    if !l.child.Offline? && l.conns[l.child.c].down != [] {
      var head := l.conns[l.child.c].down[0];
      var rest := p.(link := DropDown(l, l.child.c));
      assert AckUnderway(rest);
      if l.child.Online? && head.Carry? && head.msg.cmd in p.gate.waiting && canSend {
        TookKeepsUnderway(rest, Consume(p.gate, head.msg.cmd), head.msg);
      }
    }
  }

  lemma {:induction false} StepKeepsUnderway(p: Pair, e: Event)
    requires PairInv(p) && SentIsLive(p) && AckUnderway(p)
    ensures AckUnderway(Apply(p, e))
  {
    match e
    case WaitBegins(cmd, canSend) => WaitKeepsUnderway(p, cmd, canSend);
    case ChildTakes(canSend) => TakeKeepsUnderway(p, canSend);
    case LeadDecides(d, throws) => LeadKeepsUnderway(p, d, throws);
    case _ =>
  }

  lemma {:induction false} RunKeepsUnderway(p: Pair, events: seq<Event>)
    requires PairInv(p) && SentIsLive(p) && AckUnderway(p)
    ensures AckUnderway(Run(p, events))
    decreases |events|
  {
    if events != [] {
      ApplyKeepsInv(p, events[0]);
      StepKeepsSentLive(p, events[0]);
      StepKeepsUnderway(p, events[0]);
      RunKeepsUnderway(Apply(p, events[0]), events[1..]);
    }
  }

  /**
   * After any run: on an intact connection with nothing in flight up to the parent, a request whose decision is
   * marked as sent was not acknowledged, unless before its latest decision and hidden by sixteen others.
   */
  lemma {:induction false} DrainedIsReleased(events: seq<Event>)
    requires var l := Run(Launched(), events).link;
             && l.child.Online? && l.live == Some(l.child.c) && l.child.c < |l.conns|
             && !l.conns[l.child.c].broken && l.conns[l.child.c].up == []
    ensures var p := Run(Launched(), events);
            p.pending.Some? && p.pending.value.status.Sent? && p.pending.value.cmd in p.acked ==>
              Hidden(p.acked, p.pending.value.cmd)
  {
    RunKeepsUnderway(Launched(), events);
  }
}
