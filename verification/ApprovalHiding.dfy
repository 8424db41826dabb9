// approval-protocol.ts: a run of parallel gated calls in which the capped list hides the outstanding command.

module ApprovalHiding {
  import opened Options
  import opened Channel
  import G = ApprovalGate
  import opened ApprovalChannel

  // ----- runs as paths from state to state

  predicate Path(p: Pair, events: seq<Event>, t: Pair)
    decreases |events|
  {
    if events == [] then p == t else LinkOk(p.link) && Path(Apply(p, events[0]), events[1..], t)
  }

  lemma {:induction false} PathOne(p: Pair, e: Event, t: Pair)
    requires LinkOk(p.link) && Apply(p, e) == t
    ensures Path(p, [e], t)
  {
    assert [e][1..] == [];
  }

  lemma {:induction false} PathConcat(p: Pair, a: seq<Event>, m: Pair, b: seq<Event>, t: Pair)
    requires Path(p, a, m) && Path(m, b, t)
    ensures Path(p, a + b, t)
    decreases |a|
  {
    if a == [] {
      assert a + b == b;
    } else {
      assert (a + b)[1..] == a[1..] + b;
      PathConcat(Apply(p, a[0]), a[1..], m, b, t);
    }
  }

  lemma {:induction false} PathRuns(p: Pair, events: seq<Event>, t: Pair)
    requires PairInv(p) && Path(p, events, t)
    ensures PairInv(t) && Run(p, events) == t
    decreases |events|
  {
    if events != [] {
      ApplyKeepsInv(p, events[0]);
      PathRuns(Apply(p, events[0]), events[1..], t);
    }
  }

  // ----- single steps over one quiet connection

  function Approval(cmd: G.CmdId): G.Early {
    G.Early(cmd, G.Approve)
  }

  predicate Quiet(l: Wire) {
    && |l.conns| == 1 && l.child == Online(0) && l.live == Some(0) && l.greeted == 0
    && l.conns[0].down == [] && !l.conns[0].broken
  }

  /** A call begins and the parent hears of it. */
  lemma {:induction false} Asks(p: Pair) returns (t: Pair)
    requires Quiet(p.link) && p.stream == []
    ensures Path(p, [CallBegins] + [ParentHears], t)
    ensures t == p.(begun := p.begun + {p.nextCmd}, nextCmd := p.nextCmd + 1,
                    pending := Some(Request(p.nextCmd, Asked)), requested := p.nextCmd + 1)
  {
    var m := Apply(p, CallBegins);
    t := Apply(m, ParentHears);
    PathOne(p, CallBegins, m);
    PathOne(m, ParentHears, t);
    PathConcat(p, [CallBegins], m, [ParentHears], t);
  }

  /** The lead approves; the decision is the one message on its way. */
  lemma {:induction false} Answers(p: Pair, cmd: G.CmdId) returns (t: Pair)
    requires Quiet(p.link) && p.pending == Some(Request(cmd, Asked))
    ensures Path(p, [LeadDecides(G.Approve, false)], t)
    ensures t.link.conns == [p.link.conns[0].(down := [Carry(Approval(cmd))])]
    ensures t == p.(pending := Some(Request(cmd, Sent)), decided := p.decided + [Approval(cmd)], link := t.link)
    ensures t.link == p.link.(conns := t.link.conns)
  {
    t := Apply(p, LeadDecides(G.Approve, false));
    PathOne(p, LeadDecides(G.Approve, false), t);
    assert [] + [Carry(Approval(cmd))] == [Carry(Approval(cmd))];
  }

  /** A decision for a call that does not wait yet is kept. */
  lemma {:induction false} Keeps(p: Pair, cmd: G.CmdId, quiet: Wire) returns (t: Pair)
    requires Quiet(quiet) && p.link == quiet.(conns := [quiet.conns[0].(down := [Carry(Approval(cmd))])])
    requires cmd !in p.gate.waiting
    ensures Path(p, [ChildTakes(true)], t)
    ensures t == p.(gate := G.Keep(p.gate, cmd, G.Approve), link := quiet)
  {
    t := Apply(p, ChildTakes(true));
    PathOne(p, ChildTakes(true), t);
    assert [Carry(Approval(cmd))][1..] == [];
    assert DropDown(p.link, 0).conns == quiet.conns;
  }

  /** A decision for the one call that waits is consumed and acknowledged. */
  lemma {:induction false} Consumes(p: Pair, cmd: G.CmdId, quiet: Wire) returns (t: Pair)
    requires Quiet(quiet) && p.link == quiet.(conns := [quiet.conns[0].(down := [Carry(Approval(cmd))])])
    requires p.gate.waiting == [cmd]
    ensures Path(p, [ChildTakes(true)], t)
    ensures t == Took(p.(link := quiet), G.Consume(p.gate, cmd), Approval(cmd)) && Quiet(t.link)
  {
    t := Apply(p, ChildTakes(true));
    PathOne(p, ChildTakes(true), t);
    assert [Carry(Approval(cmd))][1..] == [];
    assert DropDown(p.link, 0).conns == quiet.conns;
  }

  /** A call starts to wait, for a decision that has come or for one to come. */
  lemma {:induction false} Waits(p: Pair, cmd: G.CmdId) returns (t: Pair)
    requires Quiet(p.link) && cmd in p.begun
    ensures Path(p, [WaitBegins(cmd, true)], t) && Quiet(t.link)
    ensures var (gate, d) := G.Open(p.gate, cmd, true);
            t == if d.Some? then Took(p, gate, G.Early(cmd, d.value)) else p.(gate := gate, begun := p.begun - {cmd})
  {
    t := Apply(p, WaitBegins(cmd, true));
    PathOne(p, WaitBegins(cmd, true), t);
  }

  // ----- what these steps do to the gate

  /** The early decisions are the approvals from `from` on, in order. */
  predicate Approved(early: seq<G.Early>, from: nat) {
    forall i | 0 <= i < |early| :: early[i] == Approval(from + i)
  }

  lemma {:induction false} WithoutAbsent(early: seq<G.Early>, cmd: G.CmdId)
    requires forall k | 0 <= k < |early| :: early[k].cmd != cmd
    ensures G.Without(early, cmd) == early && G.Lookup(early, cmd).None?
  {
    if early != [] {
      WithoutAbsent(early[1..], cmd);
    }
  }

  lemma {:induction false} KeepsOneMore(g: G.Gate)
    requires g.waiting == [] && Approved(g.early, 0) && |g.early| < G.RETAINED_DECISION_CAP
    ensures var t := G.Keep(g, |g.early|, G.Approve);
            t == g.(early := t.early) && |t.early| == |g.early| + 1 && Approved(t.early, 0)
  {
    WithoutAbsent(g.early, |g.early|);
  }

  /** A call with no early decision opens its wait. */
  lemma {:induction false} OpensWait(g: G.Gate, cmd: G.CmdId)
    requires g.waiting == [] && forall k | 0 <= k < |g.early| :: g.early[k].cmd != cmd
    ensures G.Open(g, cmd, true) == (g.(waiting := [cmd]), None)
  {
    WithoutAbsent(g.early, cmd);
    assert [] + [cmd] == [cmd];
  }

  lemma {:induction false} ClosesWait(g: G.Gate, cmd: G.CmdId)
    requires g.waiting == [cmd]
    ensures G.Consume(g, cmd).waiting == [] && G.Consume(g, cmd).early == g.early
  {
    assert g.waiting == [] + [cmd];
    WaitedNot([], cmd);
  }

  /** A call whose decision is the oldest early one takes it. */
  lemma {:induction false} TakesOldest(g: G.Gate, from: nat)
    requires g.waiting == [] && g.early != [] && Approved(g.early, from)
    ensures var (t, d) := G.Open(g, from, true);
            d == Some(G.Approve) && t.waiting == [] && t.early == g.early[1..] && Approved(t.early, from + 1)
  {
    assert g.early[0] == Approval(from);
    forall k | 0 <= k < |g.early[1..]|
      ensures g.early[1..][k] == Approval(from + 1 + k)
    {
      assert g.early[1..][k] == g.early[k + 1];
    }
    WithoutAbsent(g.early[1..], from);
    WaitedNot([], from);
  }

  // ----- the run: all but one call announced, decided and delivered before any of them waits

  predicate Delivered(p: Pair, k: nat) {
    && Quiet(p.link) && p.gate.waiting == [] && |p.gate.early| == k && Approved(p.gate.early, 0)
    && (forall i: nat | i < k :: i in p.begun)
    && p.nextCmd == k && p.stream == [] && p.acked == []
  }

  function DeliverOne(): seq<Event> {
    [CallBegins] + [ParentHears] + ([LeadDecides(G.Approve, false)] + [ChildTakes(true)])
  }

  lemma {:induction false} DeliversOne(p: Pair, k: nat) returns (t: Pair)
    requires Delivered(p, k) && k < G.RETAINED_DECISION_CAP
    ensures Path(p, DeliverOne(), t) && Delivered(t, k + 1)
  {
    var asked := Asks(p);
    var answered := Answers(asked, k);
    t := Keeps(answered, k, p.link);
    KeepsOneMore(p.gate);
    PathConcat(asked, [LeadDecides(G.Approve, false)], answered, [ChildTakes(true)], t);
    PathConcat(p, [CallBegins] + [ParentHears], asked, [LeadDecides(G.Approve, false)] + [ChildTakes(true)], t);
  }

  function DeliverAll(k: nat): seq<Event> {
    if k == 0 then [] else DeliverAll(k - 1) + DeliverOne()
  }

  lemma {:induction false} DeliversAll(p: Pair, k: nat) returns (t: Pair)
    requires Delivered(p, 0) && k <= G.RETAINED_DECISION_CAP
    ensures Path(p, DeliverAll(k), t) && Delivered(t, k)
  {
    if k == 0 {
      return p;
    }
    var i := k - 1;
    var m := DeliversAll(p, i);
    t := DeliversOne(m, i);
    OneMoreDelivered(p, i, m, t);
  }

  lemma {:induction false} OneMoreDelivered(p: Pair, i: nat, m: Pair, t: Pair)
    requires Path(p, DeliverAll(i), m) && Path(m, DeliverOne(), t)
    ensures Path(p, DeliverAll(i + 1), t)
  {
    PathConcat(p, DeliverAll(i), m, DeliverOne(), t);
  }

  // ----- one more, which waits at once; then the others wait, each taking its early decision

  predicate InTurn(acked: seq<G.CmdId>, n: nat, j: nat) {
    |acked| == j + 1 && acked[0] == n && forall i | 1 <= i <= j :: acked[i] == i - 1
  }

  /** The last command was taken first, then those below `j`; the others are still to wait. */
  predicate TakenUpTo(p: Pair, n: nat, j: nat) {
    && j <= n && Quiet(p.link) && p.gate.waiting == [] && |p.gate.early| == n - j && Approved(p.gate.early, j)
    && (forall i: nat | j <= i < n :: i in p.begun)
    && InTurn(p.acked, n, j)
    && p.pending == Some(Request(n, Sent))
  }

  function TakeLast(n: nat): seq<Event> {
    [CallBegins] + [ParentHears] + [WaitBegins(n, true)] + ([LeadDecides(G.Approve, false)] + [ChildTakes(true)])
  }

  lemma {:induction false} WaitsLast(p: Pair, n: nat) returns (t: Pair)
    requires Delivered(p, n)
    ensures Path(p, [CallBegins] + [ParentHears] + [WaitBegins(n, true)], t)
    ensures Quiet(t.link) && t.gate.waiting == [n] && t.gate.early == p.gate.early && t.acked == []
    ensures t.pending == Some(Request(n, Asked)) && forall i: nat | i < n :: i in t.begun
  {
    var asked := Asks(p);
    OpensWait(p.gate, n);
    t := Waits(asked, n);
    PathConcat(p, [CallBegins] + [ParentHears], asked, [WaitBegins(n, true)], t);
  }

  lemma {:induction false} TakesLast(p: Pair, n: nat) returns (t: Pair)
    requires Delivered(p, n)
    ensures Path(p, TakeLast(n), t) && TakenUpTo(t, n, 0)
  {
    var waits := WaitsLast(p, n);
    var answered := Answers(waits, n);
    ClosesWait(waits.gate, n);
    t := Consumes(answered, n, waits.link);
    PathConcat(waits, [LeadDecides(G.Approve, false)], answered, [ChildTakes(true)], t);
    PathConcat(p, [CallBegins] + [ParentHears] + [WaitBegins(n, true)], waits,
               [LeadDecides(G.Approve, false)] + [ChildTakes(true)], t);
  }

  lemma {:induction false} TakesNext(p: Pair, n: nat, j: nat) returns (t: Pair)
    requires TakenUpTo(p, n, j) && j < n
    ensures Path(p, [WaitBegins(j, true)], t) && TakenUpTo(t, n, j + 1)
  {
    TakesOldest(p.gate, j);
    t := Waits(p, j);
  }

  function TakeUpTo(j: nat): seq<Event> {
    if j == 0 then [] else TakeUpTo(j - 1) + [WaitBegins(j - 1, true)]
  }

  lemma {:induction false} OneMoreTaken(p: Pair, i: nat, m: Pair, t: Pair)
    requires Path(p, TakeUpTo(i), m) && Path(m, [WaitBegins(i, true)], t)
    ensures Path(p, TakeUpTo(i + 1), t)
  {
    PathConcat(p, TakeUpTo(i), m, [WaitBegins(i, true)], t);
  }

  lemma {:induction false} TakesUpTo(p: Pair, n: nat, j: nat) returns (t: Pair)
    requires TakenUpTo(p, n, 0) && j <= n
    ensures Path(p, TakeUpTo(j), t) && TakenUpTo(t, n, j)
  {
    if j == 0 {
      return p;
    }
    var i := j - 1;
    var m := TakesUpTo(p, n, i);
    t := TakesNext(m, n, i);
    OneMoreTaken(p, i, m, t);
  }

  // ----- the connection breaks with every acknowledgement lost, and the child dials again

  function Redial(): seq<Event> {
    [Breaks(0, 0, 0)] + [ChildEnds] + ([ParentEnds] + [ChildDials])
  }

  lemma {:induction false} Redials(p: Pair, n: nat) returns (t: Pair)
    requires Quiet(p.link) && p.pending == Some(Request(n, Sent))
    ensures Path(p, Redial(), t)
    ensures t.acked == p.acked && t.gate.consumed == p.gate.consumed && t.pending == Some(Request(n, Discarded))
    ensures t.link.live.None? && t.link.greeted == 0 && |t.link.conns| == 2
    ensures t.link.conns[1].hello.consumed == Some(p.gate.consumed)
  {
    var broken := Apply(p, Breaks(0, 0, 0));
    var ended := Apply(broken, ChildEnds);
    var noticed := Apply(ended, ParentEnds);
    t := Apply(noticed, ChildDials);
    PathOne(p, Breaks(0, 0, 0), broken);
    PathOne(broken, ChildEnds, ended);
    PathConcat(p, [Breaks(0, 0, 0)], broken, [ChildEnds], ended);
    PathOne(ended, ParentEnds, noticed);
    PathOne(noticed, ChildDials, t);
    PathConcat(ended, [ParentEnds], noticed, [ChildDials], t);
    PathConcat(p, [Breaks(0, 0, 0)] + [ChildEnds], ended, [ParentEnds] + [ChildDials], t);
  }

  function WholeRun(n: nat): seq<Event> {
    DeliverAll(n) + (TakeLast(n) + (TakeUpTo(n) + Redial()))
  }

  lemma {:induction false} WholePath(p: Pair, n: nat) returns (t: Pair)
    requires Delivered(p, 0) && n <= G.RETAINED_DECISION_CAP
    ensures Path(p, WholeRun(n), t)
    ensures InTurn(t.acked, n, n)
    ensures t.pending == Some(Request(n, Discarded)) && t.link.live.None? && t.link.greeted == 0 && |t.link.conns| == 2
    ensures t.link.conns[1].hello.consumed == Some(t.gate.consumed)
  {
    var delivered := DeliversAll(p, n);
    var first := TakesLast(delivered, n);
    var taken := TakesUpTo(first, n, n);
    t := Redials(taken, n);
    PathConcat(first, TakeUpTo(n), taken, Redial(), t);
    PathConcat(delivered, TakeLast(n), first, TakeUpTo(n) + Redial(), t);
    PathConcat(p, DeliverAll(n), delivered, TakeLast(n) + (TakeUpTo(n) + Redial()), t);
  }

  lemma {:induction false} NotListed(acked: seq<G.CmdId>, n: nat)
    requires n == G.RETAINED_DECISION_CAP && InTurn(acked, n, n)
    ensures n !in G.Capped(acked)
  {
    assert forall k | 0 <= k < |G.Capped(acked)| :: G.Capped(acked)[k] == acked[k + 1];
  }

  lemma {:induction false} ConsumedIsNewest(p: Pair)
    requires PairInv(p)
    ensures p.gate.consumed == G.Capped(p.acked) && LinkOk(p.link)
  {
  }

  /**
   * As many parallel calls as the list holds and one more, then one lost connection: the outstanding command
   * was acknowledged and taken, sixteen acknowledgements followed, the reconnect hello lists only those, and
   * the lead is asked again.
   */
  lemma {:induction false} CapHidesOutstanding(n: nat)
    requires n == G.RETAINED_DECISION_CAP
    ensures var p := Run(Launched(), WholeRun(n));
            && p.link.greeted < 1 < |p.link.conns|
            && p.pending == Some(Request(n, Discarded)) && n in p.acked
            && !WasConsumed(p.link.conns[1].hello, n)
            && LinkOk(p.link) && Apply(p, ParentGreets(1)).pending == Some(Request(n, Asked))
  {
    var t := WholePath(Launched(), n);
    PathRuns(Launched(), WholeRun(n), t);
    ConsumedIsNewest(t);
    NotListed(t.acked, n);
    AsksAgain(t, n);
  }

  lemma {:induction false} AsksAgain(p: Pair, n: nat)
    requires LinkOk(p.link) && p.pending == Some(Request(n, Discarded))
    requires p.link.live.None? && p.link.greeted == 0 && |p.link.conns| == 2
    requires p.link.conns[1].hello.consumed.Some? && n !in p.link.conns[1].hello.consumed.value
    ensures Apply(p, ParentGreets(1)).pending == Some(Request(n, Asked))
  {
  }
}
