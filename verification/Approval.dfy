// approval-protocol.ts: the child's approval gate, and its runs with any number of parallel waits.

module ApprovalGate {
  import Bounds
  import opened Options

  type CmdId = nat
  datatype Decision = Approve | Deny(reason: string) | RunInstead(command: string)
  datatype Early = Early(cmd: CmdId, decision: Decision)

  const RETAINED_DECISION_CAP: nat := 16

  /**
   * Waiting ids in wait order, decisions that came before their wait (one per id, oldest first), and
   * acknowledged ids.
   */
  datatype Gate = Gate(waiting: seq<CmdId>, early: seq<Early>, consumed: seq<CmdId>)

  /** Both capped lists keep their newest sixteen. */
  function Capped<T>(s: seq<T>): (r: seq<T>)
    ensures |r| <= RETAINED_DECISION_CAP
  {
    Bounds.Newest(s, RETAINED_DECISION_CAP)
  }

  lemma {:induction false} CappedDrop<T>(s: seq<T>)
    requires |s| > RETAINED_DECISION_CAP
    ensures Capped(s[1..]) == Capped(s)
  {
    var n := |s| - RETAINED_DECISION_CAP;
    assert s[1..][n - 1..] == s[n..];
    assert n == 1 ==> s[1..] == s[n..];
  }

  function Without(early: seq<Early>, cmd: CmdId): (r: seq<Early>)
    ensures forall e :: e in r <==> e in early && e.cmd != cmd
  {
    if early == [] then []
    else (if early[0].cmd == cmd then [] else [early[0]]) + Without(early[1..], cmd)
  }

  function Lookup(early: seq<Early>, cmd: CmdId): (r: Option<Decision>)
    ensures r.Some? ==> Early(cmd, r.value) in early
    ensures r.None? ==> forall e | e in early :: e.cmd != cmd
  {
    if early == [] then None
    else if early[0].cmd == cmd then Some(early[0].decision)
    else Lookup(early[1..], cmd)
  }

  /** `splice(lastIndexOf(cmd), 1)`, or nothing when `cmd` is not there. */
  function RemoveLast(waiting: seq<CmdId>, cmd: CmdId): (r: seq<CmdId>)
    ensures |r| == if cmd in waiting then |waiting| - 1 else |waiting|
  {
    if waiting == [] then []
    else
      var init, last := waiting[..|waiting| - 1], waiting[|waiting| - 1];
      if last == cmd then init else RemoveLast(init, cmd) + [last]
  }

  // ----- the gate's transitions

  /** The attach listener: a decision for no open wait is kept, replacing an older one for its id. */
  function Keep(g: Gate, cmd: CmdId, d: Decision): Gate {
    if cmd in g.waiting then g else g.(early := Capped(Without(g.early, cmd) + [Early(cmd, d)]))
  }

  /** An open wait consumes a decision: the acknowledgement went out, so the id is on record and the wait is over. */
  function Consume(g: Gate, cmd: CmdId): Gate {
    g.(consumed := Capped(g.consumed + [cmd]), waiting := RemoveLast(g.waiting, cmd))
  }

  /** A wait opens; an early decision is taken out and consumed at once when the acknowledgement can be sent. */
  function Open(g: Gate, cmd: CmdId, canSend: bool): (Gate, Option<Decision>) {
    var d, begun := Lookup(g.early, cmd), g.(early := Without(g.early, cmd), waiting := g.waiting + [cmd]);
    if d.Some? && canSend then (Consume(begun, cmd), d) else (begun, None)
  }

  /** A wait whose signal has fired already: nothing opens, and an early decision for it is dropped. */
  function Refuse(g: Gate, cmd: CmdId): Gate {
    g.(early := Without(g.early, cmd))
  }

  function Disconnect(g: Gate): Gate {
    g.(early := [])
  }

  /** The id a hello reports as pending. */
  function Pending(g: Gate): Option<CmdId> {
    if g.waiting == [] then None else Some(g.waiting[|g.waiting| - 1])
  }

  /** How a call to wait began. */
  datatype Waited = Opened | AbortedFirst | TookEarly(decision: Decision)

  // ----- the gate object

  class ChildApprovalGate {
    var waiting: seq<CmdId>
    var early: seq<Early>
    var consumed: seq<CmdId>

    constructor ()
      ensures State() == Gate([], [], [])
    {
      waiting, early, consumed := [], [], [];
    }

    function State(): Gate
      reads this
    {
      Gate(waiting, early, consumed)
    }

    /** A decision message, as the listener installed by `attach` sees it. */
    method OnDecision(cmd: CmdId, d: Decision)
      requires |early| <= RETAINED_DECISION_CAP
      modifies this`early
      ensures State() == Keep(old(State()), cmd, d)
    {
      if cmd in waiting {
        return;
      }
      early := Without(early, cmd);
      early := early + [Early(cmd, d)];
      ghost var whole := early;
      while |early| > RETAINED_DECISION_CAP
        invariant Capped(early) == Capped(whole)
      {
        CappedDrop(early);
        early := early[1..];
      }
    }

    method OnDisconnect()
      modifies this`early
      ensures State() == Disconnect(old(State()))
    {
      early := [];
    }

    /** The acknowledgement of `cmd` was sent: it joins the capped list and its wait leaves. */
    method Acknowledged(cmd: CmdId)
      modifies this`consumed, this`waiting
      ensures State() == Consume(old(State()), cmd)
    {
      consumed := consumed + [cmd];
      ghost var whole := consumed;
      while |consumed| > RETAINED_DECISION_CAP
        invariant Capped(consumed) == Capped(whole) && waiting == old(waiting)
      {
        CappedDrop(consumed);
        consumed := consumed[1..];
      }
      waiting := RemoveLast(waiting, cmd);
    }

    /**
     * `waitForDecision` up to its listener: an aborted call waits for nothing, an early decision is taken when
     * it can be consumed, else the wait opens.
     */
    method WaitForDecision(cmd: CmdId, aborted: bool, canSend: bool) returns (waited: Waited)
      modifies this
      ensures waited.AbortedFirst? <==> aborted
      ensures aborted ==> State() == Refuse(old(State()), cmd)
      ensures !aborted ==>
                (State(), if waited.TookEarly? then Some(waited.decision) else None) == Open(old(State()), cmd, canSend)
    {
      if aborted {
        early := Without(early, cmd);
        return AbortedFirst;
      }
      var d := Lookup(early, cmd);
      early := Without(early, cmd);
      waiting := waiting + [cmd];
      if d.Some? && canSend {
        Acknowledged(cmd);
        return TookEarly(d.value);
      }
      return Opened;
    }

    /** An open wait's own listener: a failed acknowledgement leaves the wait as it was. */
    method Decided(cmd: CmdId, canSend: bool) returns (taken: bool)
      modifies this`consumed, this`waiting
      ensures taken == canSend
      ensures State() == if canSend then Consume(old(State()), cmd) else old(State())
    {
      if !canSend {
        return false;
      }
      Acknowledged(cmd);
      return true;
    }

    method Aborted(cmd: CmdId)
      modifies this`waiting
      ensures State() == old(State()).(waiting := RemoveLast(old(waiting), cmd))
    {
      waiting := RemoveLast(waiting, cmd);
    }
  }

  // ----- runs of one child process: any number of waits, connections that come and go

  type WaitId = nat

  datatype Entry =
    | Arrived(cmd: CmdId, decision: Decision)
    | Ended
    | Acked(cmd: CmdId)
    | Taken(wait: WaitId, cmd: CmdId, decision: Decision)
    | Cancelled(wait: WaitId)

  datatype Event =
    | WaitOpens(cmd: CmdId, canSend: bool)
    | WaitRefused(cmd: CmdId)
    | MessageArrives(cmd: CmdId, decision: Decision, sends: seq<bool>)
    | ConnectionEnds
    | WaitAborts(wait: WaitId)

  datatype OpenWait = OpenWait(wait: WaitId, cmd: CmdId)

  /** `open` are the unsettled waits in order; `log` is what happened, `next` numbers the waits. */
  datatype Child = Child(gate: Gate, open: seq<OpenWait>, next: WaitId, log: seq<Entry>)

  const FRESH := Child(Gate([], [], []), [], 0, [])

  function Cmds(open: seq<OpenWait>): (r: seq<CmdId>)
    ensures |r| == |open|
  {
    seq(|open|, k requires 0 <= k < |open| => open[k].cmd)
  }

  function Settle(c: Child, at: nat, d: Decision): Child
    requires at < |c.open|
  {
    var w := c.open[at];
    Child(Consume(c.gate, w.cmd), c.open[..at] + c.open[at + 1..], c.next,
        c.log + [Acked(w.cmd), Taken(w.wait, w.cmd, d)])
  }

  /** The waits' own listeners, from wait `at` on: each open wait for `cmd` consumes when its send succeeds. */
  function Offer(c: Child, at: nat, cmd: CmdId, d: Decision, sends: seq<bool>): Child
    requires at <= |c.open|
    decreases |c.open| - at
  {
    if at == |c.open| then c
    else if c.open[at].cmd != cmd then Offer(c, at + 1, cmd, d, sends)
    else if sends != [] && sends[0] then Offer(Settle(c, at, d), at, cmd, d, sends[1..])
    else Offer(c, at + 1, cmd, d, if sends == [] then [] else sends[1..])
  }

  function Apply(c: Child, e: Event): Child {
    match e
    case WaitOpens(cmd, canSend) =>
      var (gate, taken) := Open(c.gate, cmd, canSend);
      if taken.Some? then
        Child(gate, c.open, c.next + 1, c.log + [Acked(cmd), Taken(c.next, cmd, taken.value)])
      else Child(gate, c.open + [OpenWait(c.next, cmd)], c.next + 1, c.log)
    case WaitRefused(cmd) => c.(gate := Refuse(c.gate, cmd))
    case MessageArrives(cmd, d, sends) =>
      Offer(c.(gate := Keep(c.gate, cmd, d), log := c.log + [Arrived(cmd, d)]), 0, cmd, d, sends)
    case ConnectionEnds => c.(gate := Disconnect(c.gate), log := c.log + [Ended])
    case WaitAborts(wait) =>
      if exists k :: 0 <= k < |c.open| && c.open[k].wait == wait then
        var k := IndexOfWait(c.open, wait);
        c.(gate := c.gate.(waiting := RemoveLast(c.gate.waiting, c.open[k].cmd)),
           open := c.open[..k] + c.open[k + 1..], log := c.log + [Cancelled(wait)])
      else c
  }

  function IndexOfWait(open: seq<OpenWait>, wait: WaitId): (k: nat)
    requires exists k :: 0 <= k < |open| && open[k].wait == wait
    ensures k < |open| && open[k].wait == wait
  {
    if open[0].wait == wait then 0 else IndexOfWait(open[1..], wait) + 1
  }

  function Run(c: Child, events: seq<Event>): Child
    decreases |events|
  {
    if events == [] then c else Run(Apply(c, events[0]), events[1..])
  }

  /** The acknowledged ids, in order. */
  function Acks(log: seq<Entry>): seq<CmdId> {
    if log == [] then []
    else
      var last := log[|log| - 1];
      Acks(log[..|log| - 1]) + if last.Acked? then [last.cmd] else []
  }

  /** A decision for `cmd` arrived at or before `i`, on a connection that has not ended up to `i`. */
  predicate ArrivedLive(log: seq<Entry>, i: nat, cmd: CmdId, d: Decision)
    requires i <= |log|
  {
    exists j :: 0 <= j < i && log[j] == Arrived(cmd, d) && forall k | j <= k < i :: log[k] != Ended
  }

  /**
   * Every start in the log: its own decision, on a connection still up, right after its acknowledgement, once,
   * never after a cancel.
   */
  predicate Justified(log: seq<Entry>, i: nat)
    requires i < |log| && log[i].Taken?
  {
    && i > 0 && log[i - 1] == Acked(log[i].cmd)
    && ArrivedLive(log, i, log[i].cmd, log[i].decision)
    && forall k | 0 <= k < i :: (log[k].Taken? || log[k].Cancelled?) ==> log[k].wait != log[i].wait
  }

  predicate Settles(e: Entry) {
    e.Taken? || e.Cancelled?
  }

  predicate EarlyLive(log: seq<Entry>, early: seq<Early>) {
    forall e | e in early :: ArrivedLive(log, |log|, e.cmd, e.decision)
  }

  predicate DistinctWaits(open: seq<OpenWait>) {
    forall j, k | 0 <= j < k < |open| :: open[j].wait != open[k].wait
  }

  /** Waits are numbered below `next`, and what has settled is no longer open. */
  predicate SettledOnce(log: seq<Entry>, open: seq<OpenWait>, next: WaitId) {
    && (forall k | 0 <= k < |open| :: open[k].wait < next)
    && (forall i | 0 <= i < |log| && Settles(log[i]) ::
          log[i].wait < next && forall k | 0 <= k < |open| :: open[k].wait != log[i].wait)
  }

  predicate AllJustified(log: seq<Entry>) {
    forall i | 0 <= i < |log| && log[i].Taken? :: Justified(log, i)
  }

  predicate ChildInv(c: Child) {
    && c.gate.consumed == Capped(Acks(c.log)) && EarlyLive(c.log, c.gate.early)
    && DistinctWaits(c.open) && SettledOnce(c.log, c.open, c.next) && AllJustified(c.log)
  }

  lemma {:induction false} LiveGrows(log: seq<Entry>, more: seq<Entry>, cmd: CmdId, d: Decision)
    requires ArrivedLive(log, |log|, cmd, d)
    requires forall k | 0 <= k < |more| :: more[k] != Ended
    ensures ArrivedLive(log + more, |log| + |more|, cmd, d)
  {
    var j :| 0 <= j < |log| && log[j] == Arrived(cmd, d) && forall k | j <= k < |log| :: log[k] != Ended;
    assert (log + more)[j] == Arrived(cmd, d);
  }

  lemma {:induction false} LiveStays(log: seq<Entry>, more: seq<Entry>, i: nat, cmd: CmdId, d: Decision)
    requires i <= |log| && ArrivedLive(log, i, cmd, d)
    ensures ArrivedLive(log + more, i, cmd, d)
  {
    var j :| 0 <= j < i && log[j] == Arrived(cmd, d) && forall k | j <= k < i :: log[k] != Ended;
    assert (log + more)[j] == Arrived(cmd, d);
  }

  lemma {:induction false} JustifiedStays(log: seq<Entry>, more: seq<Entry>, i: nat)
    requires i < |log| && log[i].Taken? && Justified(log, i)
    ensures Justified(log + more, i)
  {
    LiveStays(log, more, i, log[i].cmd, log[i].decision);
  }

  lemma {:induction false} AcksOne(log: seq<Entry>, e: Entry)
    ensures Acks(log + [e]) == Acks(log) + if e.Acked? then [e.cmd] else []
  {
    assert (log + [e])[..|log|] == log;
  }

  lemma {:induction false} AcksTaken(log: seq<Entry>, cmd: CmdId, taken: Entry)
    requires taken.Taken?
    ensures Acks(log + [Acked(cmd), taken]) == Acks(log) + [cmd]
  {
    assert log + [Acked(cmd), taken] == log + [Acked(cmd)] + [taken];
    AcksOne(log, Acked(cmd));
    AcksOne(log + [Acked(cmd)], taken);
  }

  lemma {:induction false} CappedStep<T>(s: seq<T>, x: T)
    ensures Capped(Capped(s) + [x]) == Capped(s + [x])
  {
  }

  lemma {:induction false} EarlyStays(log: seq<Entry>, more: seq<Entry>, early: seq<Early>, kept: seq<Early>)
    requires EarlyLive(log, early) && (forall k | 0 <= k < |more| :: more[k] != Ended)
             && forall e | e in kept :: e in early
    ensures EarlyLive(log + more, kept)
  {
    forall e | e in kept
      ensures ArrivedLive(log + more, |log + more|, e.cmd, e.decision)
    {
      LiveGrows(log, more, e.cmd, e.decision);
    }
  }

  /** One more entry, and waits that may have left: settling a wait takes it out of the open ones. */
  lemma {:induction false} SettledStays(log: seq<Entry>, e: Entry, open: seq<OpenWait>, left: seq<OpenWait>,
          next: WaitId, later: WaitId)
    requires SettledOnce(log, open, next) && next <= later
    requires forall k | 0 <= k < |left| :: left[k] in open && (Settles(e) ==> left[k].wait != e.wait)
    requires Settles(e) ==> e.wait < later
    ensures SettledOnce(log + [e], left, later)
  {
  }

  lemma {:induction false} JustifiedGrows(log: seq<Entry>, e: Entry)
    requires AllJustified(log) && !e.Taken?
    ensures AllJustified(log + [e])
  {
    var t := log + [e];
    forall i | 0 <= i < |t| && t[i].Taken?
      ensures Justified(t, i)
    {
      JustifiedStays(log, [e], i);
    }
  }

  lemma {:induction false} JustifiedTakes(log: seq<Entry>, wait: WaitId, cmd: CmdId, d: Decision)
    requires AllJustified(log) && ArrivedLive(log, |log|, cmd, d)
    requires forall i | 0 <= i < |log| && Settles(log[i]) :: log[i].wait != wait
    ensures AllJustified(log + [Acked(cmd)] + [Taken(wait, cmd, d)])
  {
    var acked := log + [Acked(cmd)];
    var t := acked + [Taken(wait, cmd, d)];
    JustifiedGrows(log, Acked(cmd));
    LiveGrows(log, [Acked(cmd)], cmd, d);
    LiveStays(acked, [Taken(wait, cmd, d)], |acked|, cmd, d);
    forall i | 0 <= i < |t| && t[i].Taken?
      ensures Justified(t, i)
    {
      if i < |acked| {
        JustifiedStays(acked, [Taken(wait, cmd, d)], i);
      }
    }
  }

  /** Acknowledging and taking a live decision, for a wait not settled before, keeps the log justified. */
  lemma {:induction false} TakingKeepsInv(c: Child, wait: WaitId, cmd: CmdId, d: Decision, t: Child)
    requires ChildInv(c) && ArrivedLive(c.log, |c.log|, cmd, d)
    requires wait < t.next && c.next <= t.next
    requires forall i | 0 <= i < |c.log| && Settles(c.log[i]) :: c.log[i].wait != wait
    requires t.log == c.log + [Acked(cmd), Taken(wait, cmd, d)]
    requires t.gate.consumed == Capped(c.gate.consumed + [cmd])
    requires forall e | e in t.gate.early :: e in c.gate.early
    requires DistinctWaits(t.open) && forall k | 0 <= k < |t.open| :: t.open[k] in c.open && t.open[k].wait != wait
    ensures ChildInv(t)
  {
    var acked, taken := c.log + [Acked(cmd)], Taken(wait, cmd, d);
    AcksTaken(c.log, cmd, taken);
    CappedStep(Acks(c.log), cmd);
    EarlyStays(c.log, [Acked(cmd), taken], c.gate.early, t.gate.early);
    assert t.log == acked + [taken];
    SettledStays(c.log, Acked(cmd), c.open, t.open, c.next, t.next);
    SettledStays(acked, taken, t.open, t.open, t.next, t.next);
    JustifiedTakes(c.log, wait, cmd, d);
  }

  /** A log entry that is neither an acknowledgement nor a start keeps everything but early decisions justified. */
  lemma {:induction false} NotingKeepsInv(c: Child, e: Entry, t: Child)
    requires ChildInv(c) && !e.Acked? && !e.Taken?
    requires t.log == c.log + [e] && t.next == c.next && t.gate.consumed == c.gate.consumed
    requires DistinctWaits(t.open)
    requires forall k | 0 <= k < |t.open| :: t.open[k] in c.open && (e.Cancelled? ==> t.open[k].wait != e.wait)
    requires e.Cancelled? ==> e.wait < c.next
    requires EarlyLive(t.log, t.gate.early)
    ensures ChildInv(t)
  {
    AcksOne(c.log, e);
    SettledStays(c.log, e, c.open, t.open, c.next, t.next);
    JustifiedGrows(c.log, e);
  }

  lemma {:induction false} DistinctOpen(open: seq<OpenWait>, k: nat)
    requires k < |open| && DistinctWaits(open)
    ensures var r := open[..k] + open[k + 1..];
            DistinctWaits(r) && forall i | 0 <= i < |r| :: r[i] in open && r[i].wait != open[k].wait
  {
  }

  lemma {:induction false} SettleKeepsInv(c: Child, at: nat, d: Decision)
    requires ChildInv(c) && at < |c.open| && ArrivedLive(c.log, |c.log|, c.open[at].cmd, d)
    ensures ChildInv(Settle(c, at, d))
    ensures var t := Settle(c, at, d); ArrivedLive(t.log, |t.log|, c.open[at].cmd, d)
  {
    var w := c.open[at];
    DistinctOpen(c.open, at);
    LiveGrows(c.log, [Acked(w.cmd), Taken(w.wait, w.cmd, d)], w.cmd, d);
    TakingKeepsInv(c, w.wait, w.cmd, d, Settle(c, at, d));
  }

  lemma {:induction false} OfferKeepsInv(c: Child, at: nat, cmd: CmdId, d: Decision, sends: seq<bool>)
    requires ChildInv(c) && ArrivedLive(c.log, |c.log|, cmd, d) && at <= |c.open|
    ensures ChildInv(Offer(c, at, cmd, d, sends))
    decreases |c.open| - at
  {
    if at < |c.open| {
      if c.open[at].cmd == cmd && sends != [] && sends[0] {
        SettleKeepsInv(c, at, d);
        OfferKeepsInv(Settle(c, at, d), at, cmd, d, sends[1..]);
      } else {
        var left := if c.open[at].cmd != cmd then sends else if sends == [] then [] else sends[1..];
        OfferKeepsInv(c, at + 1, cmd, d, left);
      }
    }
  }

  lemma {:induction false} OpenKeepsInv(c: Child, cmd: CmdId, canSend: bool)
    requires ChildInv(c)
    ensures ChildInv(Apply(c, WaitOpens(cmd, canSend)))
  {
    var d, t := Lookup(c.gate.early, cmd), Apply(c, WaitOpens(cmd, canSend));
    if d.Some? && canSend {
      assert Early(cmd, d.value) in c.gate.early;
      TakingKeepsInv(c, c.next, cmd, d.value, t);
    } else {
      assert t.log == c.log + [];
      EarlyStays(c.log, [], c.gate.early, t.gate.early);
    }
  }

  lemma {:induction false} ApplyKeepsInv(c: Child, e: Event)
    requires ChildInv(c)
    ensures ChildInv(Apply(c, e))
  {
    match e
    case WaitOpens(cmd, canSend) => OpenKeepsInv(c, cmd, canSend);
    case WaitRefused(cmd) =>
      assert c.log == c.log + [];
      EarlyStays(c.log, [], c.gate.early, Without(c.gate.early, cmd));
    case MessageArrives(cmd, d, sends) => ArrivalKeepsInv(c, cmd, d, sends);
    case ConnectionEnds => NotingKeepsInv(c, Ended, Apply(c, e));
    case WaitAborts(wait) => AbortKeepsInv(c, wait);
  }

  lemma {:induction false} ArrivalLive(log: seq<Entry>, early: seq<Early>, cmd: CmdId, d: Decision, kept: seq<Early>)
    requires EarlyLive(log, early) && forall e | e in kept :: e in early || e == Early(cmd, d)
    ensures ArrivedLive(log + [Arrived(cmd, d)], |log| + 1, cmd, d) && EarlyLive(log + [Arrived(cmd, d)], kept)
  {
    var t := log + [Arrived(cmd, d)];
    assert t[|log|] == Arrived(cmd, d);
    forall e | e in kept
      ensures ArrivedLive(t, |t|, e.cmd, e.decision)
    {
      if e != Early(cmd, d) {
        LiveGrows(log, [Arrived(cmd, d)], e.cmd, e.decision);
      }
    }
  }

  lemma {:induction false} ArrivalKeepsInv(c: Child, cmd: CmdId, d: Decision, sends: seq<bool>)
    requires ChildInv(c)
    ensures ChildInv(Apply(c, MessageArrives(cmd, d, sends)))
  {
    var noted := c.(gate := Keep(c.gate, cmd, d), log := c.log + [Arrived(cmd, d)]);
    ArrivalLive(c.log, c.gate.early, cmd, d, noted.gate.early);
    NotingKeepsInv(c, Arrived(cmd, d), noted);
    OfferKeepsInv(noted, 0, cmd, d, sends);
  }

  lemma {:induction false} AbortKeepsInv(c: Child, wait: WaitId)
    requires ChildInv(c)
    ensures ChildInv(Apply(c, WaitAborts(wait)))
  {
    if exists k :: 0 <= k < |c.open| && c.open[k].wait == wait {
      var k := IndexOfWait(c.open, wait);
      DistinctOpen(c.open, k);
      EarlyStays(c.log, [Cancelled(wait)], c.gate.early, c.gate.early);
      NotingKeepsInv(c, Cancelled(wait), Apply(c, WaitAborts(wait)));
    }
  }

  // ----- who takes a decision that arrives

  /** How many waits for this command stand from `at` up to before `k`. */
  function WaitsBetween(open: seq<OpenWait>, at: nat, k: nat, cmd: CmdId): nat
    requires at <= k <= |open|
    decreases k - at
  {
    if at == k then 0 else (if open[at].cmd == cmd then 1 else 0) + WaitsBetween(open, at + 1, k, cmd)
  }

  /** Wait `k` is for this command, and the send its turn gets goes out. */
  predicate GetsIt(open: seq<OpenWait>, at: nat, k: nat, cmd: CmdId, sends: seq<bool>)
    requires at <= k < |open|
  {
    open[k].cmd == cmd && WaitsBetween(open, at, k, cmd) < |sends| && sends[WaitsBetween(open, at, k, cmd)]
  }

  lemma {:induction false} WaitsWithout(open: seq<OpenWait>, at: nat, from: nat, k: nat, cmd: CmdId)
    requires at < from <= k <= |open|
    ensures WaitsBetween(open[..at] + open[at + 1..], from - 1, k - 1, cmd) == WaitsBetween(open, from, k, cmd)
    decreases k - from
  {
    if from < k {
      assert (open[..at] + open[at + 1..])[from - 1] == open[from];
      WaitsWithout(open, at, from + 1, k, cmd);
    }
  }

  predicate LoggedSince(log: seq<Entry>, n: nat, e: Entry) {
    exists i :: n <= i < |log| && log[i] == e
  }

  lemma {:induction false} OfferOnlyAdds(c: Child, at: nat, cmd: CmdId, d: Decision, sends: seq<bool>)
    requires at <= |c.open|
    ensures c.log <= Offer(c, at, cmd, d, sends).log
    ensures forall w | w in Offer(c, at, cmd, d, sends).open :: w in c.open
    ensures forall j | 0 <= j < at :: c.open[j] in Offer(c, at, cmd, d, sends).open
    decreases |c.open| - at
  {
    if at < |c.open| {
      if c.open[at].cmd == cmd && sends != [] && sends[0] {
        var t := Settle(c, at, d);
        OfferOnlyAdds(t, at, cmd, d, sends[1..]);
        assert forall j | 0 <= j < at :: t.open[j] == c.open[j];
      } else {
        var left := if c.open[at].cmd != cmd then sends else if sends == [] then [] else sends[1..];
        OfferOnlyAdds(c, at + 1, cmd, d, left);
      }
    }
  }

  /**
   * A decision that arrives is taken by exactly the open waits for its id whose acknowledgement can be sent;
   * every other wait stays open.
   */
  lemma {:induction false} OfferTakesExactly(c: Child, at: nat, cmd: CmdId, d: Decision, sends: seq<bool>, k: nat)
    requires at <= k < |c.open| && DistinctWaits(c.open)
    ensures var t := Offer(c, at, cmd, d, sends);
            if GetsIt(c.open, at, k, cmd, sends)
            then c.open[k] !in t.open && LoggedSince(t.log, |c.log|, Taken(c.open[k].wait, cmd, d))
            else c.open[k] in t.open
    decreases |c.open| - at
  {
    var t := Offer(c, at, cmd, d, sends);
    OfferOnlyAdds(c, at, cmd, d, sends);
    if c.open[at].cmd == cmd && sends != [] && sends[0] {
      OfferSettles(c, at, cmd, d, sends, k);
    } else {
      var left := if c.open[at].cmd != cmd then sends else if sends == [] then [] else sends[1..];
      if k == at {
        OfferOnlyAdds(c, at + 1, cmd, d, left);
      } else {
        OfferTakesExactly(c, at + 1, cmd, d, left, k);
      }
    }
  }

  lemma {:induction false} OfferSettles(c: Child, at: nat, cmd: CmdId, d: Decision, sends: seq<bool>, k: nat)
    requires at <= k < |c.open| && DistinctWaits(c.open) && c.open[at].cmd == cmd && sends != [] && sends[0]
    ensures var t := Offer(c, at, cmd, d, sends);
            if GetsIt(c.open, at, k, cmd, sends)
            then c.open[k] !in t.open && LoggedSince(t.log, |c.log|, Taken(c.open[k].wait, cmd, d))
            else c.open[k] in t.open
    decreases |c.open| - at, 0
  {
    if k == at {
      OfferSettlesFirst(c, at, cmd, d, sends);
    } else {
      var s := Settle(c, at, d);
      assert s.open[k - 1] == c.open[k];
      DistinctOpen(c.open, at);
      OfferTakesExactly(s, at, cmd, d, sends[1..], k - 1);
      WaitsWithout(c.open, at, at + 1, k, cmd);
      OfferOnlyAdds(s, at, cmd, d, sends[1..]);
    }
  }

  lemma {:induction false} OfferSettlesFirst(c: Child, at: nat, cmd: CmdId, d: Decision, sends: seq<bool>)
    requires at < |c.open| && DistinctWaits(c.open) && c.open[at].cmd == cmd && sends != [] && sends[0]
    ensures var t := Offer(c, at, cmd, d, sends);
            c.open[at] !in t.open && LoggedSince(t.log, |c.log|, Taken(c.open[at].wait, cmd, d))
  {
    var s, t := Settle(c, at, d), Offer(c, at, cmd, d, sends);
    OfferOnlyAdds(s, at, cmd, d, sends[1..]);
    DistinctOpen(c.open, at);
    assert t.log[|c.log| + 1] == s.log[|c.log| + 1] == Taken(c.open[at].wait, cmd, d);
  }

  /** The same over one step of a run. */
  lemma {:induction false} ArrivalTakesExactly(c: Child, cmd: CmdId, d: Decision, sends: seq<bool>, k: nat)
    requires ChildInv(c) && k < |c.open|
    ensures var t := Apply(c, MessageArrives(cmd, d, sends));
            if GetsIt(c.open, 0, k, cmd, sends)
            then c.open[k] !in t.open && LoggedSince(t.log, |c.log|, Taken(c.open[k].wait, cmd, d))
            else c.open[k] in t.open
  {
    var noted := c.(gate := Keep(c.gate, cmd, d), log := c.log + [Arrived(cmd, d)]);
    OfferOnlyAdds(noted, 0, cmd, d, sends);
    OfferTakesExactly(noted, 0, cmd, d, sends, k);
  }

  /** What leaves the open waits is the latest of the id, and nothing when there is none. */
  lemma {:induction false} RemovesTheLatest(waiting: seq<CmdId>, cmd: CmdId, k: nat)
    requires k < |waiting| && waiting[k] == cmd && forall i | k < i < |waiting| :: waiting[i] != cmd
    ensures RemoveLast(waiting, cmd) == waiting[..k] + waiting[k + 1..]
  {
    var m := |waiting| - 1;
    if k < m {
      RemovesTheLatest(waiting[..m], cmd, k);
      assert waiting[k + 1..] == waiting[..m][k + 1..] + [waiting[m]];
      assert waiting[..m][..k] == waiting[..k];
    }
  }

  lemma {:induction false} RemovesNothing(waiting: seq<CmdId>, cmd: CmdId)
    requires cmd !in waiting
    ensures RemoveLast(waiting, cmd) == waiting
  {
    if waiting != [] {
      RemovesNothing(waiting[..|waiting| - 1], cmd);
    }
  }

  /** Dropping an id takes or leaves each kept decision by itself and keeps the order. */
  lemma {:induction false} WithoutLast(early: seq<Early>, e: Early, cmd: CmdId)
    ensures Without(early + [e], cmd) == Without(early, cmd) + if e.cmd == cmd then [] else [e]
  {
    if early == [] {
      assert [e][1..] == [];
    } else {
      assert (early + [e])[1..] == early[1..] + [e];
      WithoutLast(early[1..], e, cmd);
    }
  }

  /** A decision for no open wait is kept as the newest, in place of any of its id; past the cap the oldest go. */
  lemma {:induction false} ArrivalIsKept(g: Gate, cmd: CmdId, d: Decision)
    ensures var t, others := Keep(g, cmd, d), Without(g.early, cmd);
            && t.waiting == g.waiting && t.consumed == g.consumed
            && if cmd in g.waiting then t == g
               else
                 var n := if |others| < RETAINED_DECISION_CAP then |others| else RETAINED_DECISION_CAP - 1;
                 t.early == others[|others| - n..] + [Early(cmd, d)]
  {
    var others := Without(g.early, cmd);
    if |others| >= RETAINED_DECISION_CAP {
      var n := |others| + 1 - RETAINED_DECISION_CAP;
      assert (others + [Early(cmd, d)])[n..] == others[n..] + [Early(cmd, d)];
    }
  }

  predicate EarlyFor(c: Child, cmd: CmdId, e: Early) {
    e in c.gate.early && e.cmd == cmd
  }

  /** The new wait has taken this early decision. */
  predicate TookEarlyOne(c: Child, cmd: CmdId, t: Child, e: Early) {
    EarlyFor(c, cmd, e) && t.log == c.log + [Acked(cmd), Taken(c.next, cmd, e.decision)]
  }

  /** A wait takes an early decision for its id if it can acknowledge it, else it opens; either way none is left. */
  lemma {:induction false} WaitTakesEarlyExactly(c: Child, cmd: CmdId, canSend: bool)
    ensures var t := Apply(c, WaitOpens(cmd, canSend));
            && t.next == c.next + 1 && (forall e :: e in t.gate.early <==> e in c.gate.early && e.cmd != cmd)
            && (if canSend && exists e :: EarlyFor(c, cmd, e)
                then t.open == c.open && exists e :: TookEarlyOne(c, cmd, t, e)
                else t.log == c.log && t.open == c.open + [OpenWait(c.next, cmd)])
  {
    var d := Lookup(c.gate.early, cmd);
    if d.Some? {
      assert EarlyFor(c, cmd, Early(cmd, d.value));
      assert canSend ==> TookEarlyOne(c, cmd, Apply(c, WaitOpens(cmd, canSend)), Early(cmd, d.value));
    }
  }

  /** A wait whose call was aborted already drops its early decision, and nothing else. */
  lemma {:induction false} RefusalDropsEarly(c: Child, cmd: CmdId)
    ensures var t := Apply(c, WaitRefused(cmd));
            && t == c.(gate := c.gate.(early := t.gate.early))
            && forall e :: e in t.gate.early <==> e in c.gate.early && e.cmd != cmd
  {
  }

  lemma {:induction false} RunKeepsInv(c: Child, events: seq<Event>)
    requires ChildInv(c)
    ensures ChildInv(Run(c, events))
    decreases |events|
  {
    if events != [] {
      ApplyKeepsInv(c, events[0]);
      RunKeepsInv(Apply(c, events[0]), events[1..]);
    }
  }

  /**
   * Over any run of waits, early decisions, disconnects, aborts and foreign decisions: a command starts
   * only on a decision for its own id that arrived on a connection still up, right after its
   * acknowledgement, at most once per wait and never after the wait was aborted; and the hello lists
   * exactly the newest acknowledged ids, up to the cap.
   */
  lemma {:induction false} StartsAreJustified(events: seq<Event>)
    ensures var c := Run(FRESH, events);
            && (forall i | 0 <= i < |c.log| && c.log[i].Taken? :: Justified(c.log, i))
            && c.gate.consumed == Capped(Acks(c.log))
  {
    RunKeepsInv(FRESH, events);
  }

  /**
   * With no repeated acknowledgement, the hello lists an acknowledged id exactly while fewer than sixteen came
   * after it.
   */
  lemma {:induction false} ListedWhileAmongNewest(acks: seq<CmdId>, at: nat)
    requires at < |acks| && forall j, k | 0 <= j < k < |acks| :: acks[j] != acks[k]
    ensures acks[at] in Capped(acks) <==> |acks| - 1 - at < RETAINED_DECISION_CAP
  {
    var r := Capped(acks);
    if acks[at] in r {
      var k :| 0 <= k < |r| && r[k] == acks[at];
      assert r[k] == acks[|acks| - |r| + k];
    }
    if at >= |acks| - |r| {
      assert r[at - (|acks| - |r|)] == acks[at];
    }
  }

  /** No id is waited for twice at once. */
  predicate OneWaitPerId(c: Child, events: seq<Event>)
    decreases |events|
  {
    events == [] ||
    ((events[0].WaitOpens? ==> events[0].cmd !in c.gate.waiting) && OneWaitPerId(Apply(c, events[0]), events[1..]))
  }

  predicate WaitingIsOpen(c: Child) {
    && c.gate.waiting == Cmds(c.open)
    && forall j, k | 0 <= j < k < |c.gate.waiting| :: c.gate.waiting[j] != c.gate.waiting[k]
  }

  lemma {:induction false} RemoveOnly(waiting: seq<CmdId>, at: nat)
    requires at < |waiting| && forall j, k | 0 <= j < k < |waiting| :: waiting[j] != waiting[k]
    ensures RemoveLast(waiting, waiting[at]) == waiting[..at] + waiting[at + 1..]
  {
    var init := waiting[..|waiting| - 1];
    if at < |init| {
      RemoveOnly(init, at);
      assert waiting[at + 1..] == init[at + 1..] + [waiting[|waiting| - 1]];
    }
  }

  lemma {:induction false} CmdsWithout(open: seq<OpenWait>, at: nat)
    requires at < |open|
    ensures Cmds(open[..at] + open[at + 1..]) == Cmds(open)[..at] + Cmds(open)[at + 1..]
  {
  }

  lemma {:induction false} DistinctWithout(s: seq<CmdId>, at: nat)
    requires at < |s| && forall j, k | 0 <= j < k < |s| :: s[j] != s[k]
    ensures var r := s[..at] + s[at + 1..]; forall j, k | 0 <= j < k < |r| :: r[j] != r[k]
  {
  }

  lemma {:induction false} SettleKeepsWaiting(c: Child, at: nat, d: Decision)
    requires WaitingIsOpen(c) && at < |c.open|
    ensures WaitingIsOpen(Settle(c, at, d))
  {
    var waiting := c.gate.waiting;
    assert waiting[at] == c.open[at].cmd;
    RemoveOnly(waiting, at);
    CmdsWithout(c.open, at);
    DistinctWithout(waiting, at);
    assert Settle(c, at, d).gate.waiting == waiting[..at] + waiting[at + 1..];
  }

  lemma {:induction false} OfferKeepsWaiting(c: Child, at: nat, cmd: CmdId, d: Decision, sends: seq<bool>)
    requires WaitingIsOpen(c) && at <= |c.open|
    ensures WaitingIsOpen(Offer(c, at, cmd, d, sends))
    decreases |c.open| - at
  {
    if at < |c.open| {
      if c.open[at].cmd == cmd && sends != [] && sends[0] {
        SettleKeepsWaiting(c, at, d);
        OfferKeepsWaiting(Settle(c, at, d), at, cmd, d, sends[1..]);
      } else {
        var left := if c.open[at].cmd != cmd then sends else if sends == [] then [] else sends[1..];
        OfferKeepsWaiting(c, at + 1, cmd, d, left);
      }
    }
  }

  lemma {:induction false} OpenKeepsWaiting(c: Child, cmd: CmdId, canSend: bool)
    requires WaitingIsOpen(c) && cmd !in c.gate.waiting
    ensures WaitingIsOpen(Apply(c, WaitOpens(cmd, canSend)))
  {
    var longer := c.gate.waiting + [cmd];
    assert longer[|c.gate.waiting|] == cmd;
    RemoveOnly(longer, |c.gate.waiting|);
    assert longer[..|c.gate.waiting|] + longer[|c.gate.waiting| + 1..] == c.gate.waiting;
    assert Cmds(c.open + [OpenWait(c.next, cmd)]) == Cmds(c.open) + [cmd];
  }

  lemma {:induction false} AbortKeepsWaiting(c: Child, wait: WaitId)
    requires WaitingIsOpen(c)
    ensures WaitingIsOpen(Apply(c, WaitAborts(wait)))
  {
    if exists k :: 0 <= k < |c.open| && c.open[k].wait == wait {
      SettleKeepsWaiting(c, IndexOfWait(c.open, wait), Approve);
    }
  }

  lemma {:induction false} ApplyKeepsWaiting(c: Child, e: Event)
    requires WaitingIsOpen(c) && (e.WaitOpens? ==> e.cmd !in c.gate.waiting)
    ensures WaitingIsOpen(Apply(c, e))
  {
    match e
    case WaitOpens(cmd, canSend) => OpenKeepsWaiting(c, cmd, canSend);
    case WaitRefused(_) =>
    case MessageArrives(cmd, d, sends) =>
      OfferKeepsWaiting(c.(gate := Keep(c.gate, cmd, d), log := c.log + [Arrived(cmd, d)]), 0, cmd, d, sends);
    case ConnectionEnds =>
    case WaitAborts(wait) => AbortKeepsWaiting(c, wait);
  }

  /** The hello reports the latest open wait, and none exactly when no wait is open. */
  lemma {:induction false} PendingIsLatestWait(c: Child, events: seq<Event>)
    requires WaitingIsOpen(c) && OneWaitPerId(c, events)
    ensures var t := Run(c, events);
            Pending(t.gate) == if t.open == [] then None else Some(t.open[|t.open| - 1].cmd)
    decreases |events|
  {
    if events != [] {
      ApplyKeepsWaiting(c, events[0]);
      PendingIsLatestWait(Apply(c, events[0]), events[1..]);
    }
  }
}
