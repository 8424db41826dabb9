// agent-usage-rollup.ts over agent-channel.ts: sequence-numbered usage reports, a resume section in
// every reconnect hello, and a resend once the reconnect completes.

module UsageRollup {
  import opened Options
  import opened Channel
  import opened Costs

  datatype Report = Report(seqNo: nat, usage: Cost)

  /** Launch generation, then sequence number within it. */
  datatype Order = Order(generation: nat, seqNo: nat)

  predicate Before(a: Order, b: Order) {
    a.generation < b.generation || (a.generation == b.generation && a.seqNo < b.seqNo)
  }

  /** What the parent keeps of one child: the order of the accepted report and its value. */
  datatype Kept = Kept(order: Option<Order>, usage: Option<Cost>)

  function OrderOf(generation: nat, report: Report): Order {
    Order(generation, report.seqNo)
  }

  /** A report with no positive sequence number does not parse. */
  function Accepted(k: Kept, generation: nat, report: Report): Kept {
    if report.seqNo == 0 then k
    else if k.order.Some? && !Before(k.order.value, OrderOf(generation, report)) then k
    else Kept(Some(OrderOf(generation, report)), Some(report.usage))
  }

  /** One report as the parent's channel delivered it. */
  datatype Delivery = Delivery(generation: nat, report: Report)

  function AcceptAll(ds: seq<Delivery>): Kept {
    if ds == [] then Kept(None, None)
    else Accepted(AcceptAll(ds[..|ds| - 1]), ds[|ds| - 1].generation, ds[|ds| - 1].report)
  }

  /**
   * Whatever was delivered, in whatever order and however often: the stored value is that of the
   * lexicographically greatest well-formed report, the first to arrive among equals.
   */
  lemma {:induction false} KeepsTheGreatest(ds: seq<Delivery>)
    ensures var k := AcceptAll(ds);
            && (k.order.None? <==> forall i | 0 <= i < |ds| :: ds[i].report.seqNo == 0)
            && k.order.Some? == k.usage.Some?
            && (forall i | 0 <= i < |ds| && ds[i].report.seqNo > 0 ::
                  k.order.Some? && !Before(k.order.value, OrderOf(ds[i].generation, ds[i].report)))
            && (k.order.Some? ==> exists i ::
                  && 0 <= i < |ds| && ds[i].report.seqNo > 0
                  && k == Kept(Some(OrderOf(ds[i].generation, ds[i].report)), Some(ds[i].report.usage))
                  && forall j | 0 <= j < i :: OrderOf(ds[j].generation, ds[j].report) != k.order.value)
  {
    if ds != [] {
      var before, last := ds[..|ds| - 1], ds[|ds| - 1];
      KeepsTheGreatest(before);
      var k, k' := AcceptAll(before), AcceptAll(ds);
      if k' == k && k.order.Some? {
        var i :| && 0 <= i < |before| && before[i].report.seqNo > 0
                 && k == Kept(Some(OrderOf(before[i].generation, before[i].report)), Some(before[i].report.usage))
                 && forall j | 0 <= j < i :: OrderOf(before[j].generation, before[j].report) != k.order.value;
        assert ds[i] == before[i];
        assert forall j | 0 <= j < i :: ds[j] == before[j];
      } else if k' != k {
        var i := |ds| - 1;
        forall j | 0 <= j < i
          ensures OrderOf(ds[j].generation, ds[j].report) != k'.order.value
        {
          assert ds[j] == before[j];
        }
      }
      forall i | 0 <= i < |ds| && ds[i].report.seqNo > 0
        ensures k'.order.Some? && !Before(k'.order.value, OrderOf(ds[i].generation, ds[i].report))
      {
        if i < |before| {
          assert ds[i] == before[i];
        }
      }
      if k'.order.None? {
        assert forall i | 0 <= i < |before| :: ds[i] == before[i];
      }
    }
  }

  /** The usage field, and the legacy copy older records keep inside their telemetry. */
  datatype Copies = Copies(field: Option<Cost>, legacy: Option<Cost>)

  function DurableUsage(c: Copies): Option<Cost> {
    if c.field.Some? then c.field else c.legacy
  }

  /** The child's ownership record after its usage field was to be written, which may fail. */
  function UsageWritten(durable: Copies, usage: Cost, writes: bool): Copies {
    if writes then durable.(field := Some(usage)) else durable
  }

  /** The child's ownership record after its telemetry was replaced: a legacy copy moves to the field first. */
  function TelemetryWritten(durable: Copies, writes: bool): (r: Copies)
    ensures DurableUsage(r) == DurableUsage(durable)
    ensures if writes then r.legacy.None? else r == durable
  {
    if writes && durable.legacy.Some? then Copies(DurableUsage(durable), None) else durable
  }

  /** Parent side: the record one child's reports are applied to. */
  class AgentRecord {
    var order: Option<Order>
    var descendantUsage: Option<Cost>
    /** The copy in the record's telemetry. */
    var legacyUsage: Option<Cost>
    var launchGeneration: nat
    /** The ownership record on disk, of a child that has one. */
    const owned: bool
    var durable: Copies

    constructor (launchGeneration: nat, owned: bool, durable: Copies)
      ensures order.None? && descendantUsage.None? && legacyUsage.None?
      ensures this.launchGeneration == launchGeneration && this.owned == owned && this.durable == durable
    {
      order, descendantUsage, legacyUsage, this.launchGeneration := None, None, None, launchGeneration;
      this.owned, this.durable := owned, durable;
    }

    function State(): Kept
      reads this`order, this`descendantUsage
    {
      Kept(order, descendantUsage)
    }

    /** What the record counts for its descendants. */
    function Usage(): Option<Cost>
      reads this`descendantUsage, this`legacyUsage
    {
      DurableUsage(Copies(descendantUsage, legacyUsage))
    }

    /**
     * Applies one report of launch `generation`; true only when what the record counts changed. An accepted
     * value is written to the child's ownership record, unless that write fails.
     */
    method AcceptDescendantUsage(generation: nat, report: Report, writes: bool) returns (changed: bool)
      modifies this`order, this`descendantUsage, this`durable
      ensures State() == Accepted(old(State()), generation, report)
      ensures changed <==> Usage() != old(Usage())
      ensures durable == if State() == old(State()) || !owned then old(durable)
                         else UsageWritten(old(durable), report.usage, writes)
    {
      if report.seqNo == 0 {
        return false;
      }
      if order.Some? && (generation < order.value.generation
                         || (generation == order.value.generation && report.seqNo <= order.value.seqNo)) {
        return false;
      }
      order := Some(Order(generation, report.seqNo));
      var previous := Usage();
      descendantUsage := Some(report.usage);
      if owned {
        PersistUsage(report.usage, writes);
      }
      return previous != Some(report.usage);
    }

    method PersistUsage(usage: Cost, writes: bool)
      modifies this`durable
      ensures durable == UsageWritten(old(durable), usage, writes)
    {
      if durable.field == Some(usage) {
        return;
      }
      if writes {
        durable := durable.(field := Some(usage));
      }
    }

    /** A channel of another launch has no say. */
    method Deliver(channelGeneration: nat, report: Report, writes: bool) returns (changed: bool)
      modifies this`order, this`descendantUsage, this`durable
      ensures State() == if channelGeneration == launchGeneration then Accepted(old(State()), channelGeneration, report)
                         else old(State())
      ensures durable == if State() == old(State()) || !owned then old(durable)
                         else UsageWritten(old(durable), report.usage, writes)
      ensures changed <==> Usage() != old(Usage())
    {
      if launchGeneration != channelGeneration {
        return false;
      }
      changed := AcceptDescendantUsage(channelGeneration, report, writes);
    }

    /**
     * The end of a telemetry refresh, whatever the refresh made of the telemetry: the reported value survives
     * in the record and, over any write that fails, on disk; a value reported in this process is on disk once
     * its write succeeds.
     */
    method RefreshTelemetry(writesTelemetry: bool, writesUsage: bool)
      modifies this`descendantUsage, this`legacyUsage, this`durable
      ensures Usage() == old(Usage()) && descendantUsage == old(Usage()) && legacyUsage.None?
      ensures !owned ==> durable == old(durable)
      ensures owned && writesUsage && order.Some? && Usage().Some? ==> DurableUsage(durable) == Usage()
      ensures DurableUsage(durable) == old(DurableUsage(durable)) || DurableUsage(durable) == Usage()
    {
      descendantUsage := Usage();
      legacyUsage := None;
      if owned {
        durable := TelemetryWritten(durable, writesTelemetry);
        if order.Some? && descendantUsage.Some? {
          PersistUsage(descendantUsage.value, writesUsage);
        }
      }
    }

    /** Revival: what is on disk wins over a snapshot's copy. */
    method Restore()
      modifies this`descendantUsage
      ensures owned && DurableUsage(durable).Some? ==> Usage() == DurableUsage(durable)
      ensures !owned || DurableUsage(durable).None? ==> Usage() == old(Usage())
    {
      if owned && DurableUsage(durable).Some? {
        descendantUsage := DurableUsage(durable);
      }
    }
  }

  /** The child's reporter: its last sequence number and value, and the sends and resume section they give rise to. */
  class Reporter {
    var seqNo: nat
    var latest: Cost

    constructor ()
      ensures seqNo == 0 && latest == ZERO
    {
      seqNo, latest := 0, ZERO;
    }

    function Resume(): Option<Report>
      reads this
    {
      if seqNo > 0 then Some(Report(seqNo, latest)) else None
    }

    /** A changed value takes the next sequence number; it is sent at once only while connected. */
    method Evaluate(value: Option<Cost>, connected: bool) returns (sent: Option<Report>)
      modifies this
      ensures if value.None? || value.value == old(latest)
              then seqNo == old(seqNo) && latest == old(latest) && sent.None?
              else seqNo == old(seqNo) + 1 && latest == value.value && sent == if connected then Resume() else None
    {
      if value.None? || value.value == latest {
        return None;
      }
      seqNo, latest := seqNo + 1, value.value;
      return if connected then Some(Report(seqNo, latest)) else None;
    }
  }

  // ----- both sides over the channel

  type Wire = Link<Option<Report>, Report, ()>

  /** `delivered` and `reported` are history: what the parent's channel handed over, and what each report said. */
  datatype Hop = Hop(link: Wire, generation: nat, seqNo: nat, latest: Cost, kept: Kept,
                     delivered: seq<Delivery>, reported: map<Order, Cost>)

  datatype Event =
    | Evaluate(value: Cost)
    | ChildDials
    | ChildEnds
    | ChildTakes
    | ParentGreets(c: nat)
    | ParentTakes
    | ParentEnds
    | Breaks(c: nat, up: nat, down: nat)
    | Relaunch

  function Resume(h: Hop): Option<Report> {
    if h.seqNo > 0 then Some(Report(h.seqNo, h.latest)) else None
  }

  function Delivered(h: Hop, report: Report): Hop {
    h.(kept := Accepted(h.kept, h.generation, report), delivered := h.delivered + [Delivery(h.generation, report)])
  }

  function Apply(h: Hop, e: Event): Hop
    requires LinkOk(h.link)
  {
    var l := h.link;
    match e
    case Evaluate(value) =>
      if value == h.latest then h
      else
        var next := h.(seqNo := h.seqNo + 1, latest := value,
                       reported := h.reported[Order(h.generation, h.seqNo + 1) := value]);
        if l.child.Online? then next.(link := SendUp(l, l.child.c, Report(next.seqNo, value))) else next
    case ChildDials => if l.child.Offline? then h.(link := Dial(l, Resume(h))) else h
    case ChildEnds => h.(link := l.(child := Offline))
    case ChildTakes =>
      if l.child.Offline? || l.conns[l.child.c].down == [] then h
      else
        var c, head := l.child.c, l.conns[l.child.c].down[0];
        var rest := DropDown(l, c);
        if l.child.Online? then h.(link := rest)
        else if head.Welcome? then
          var online := rest.(child := Online(c));
          h.(link := if h.seqNo > 0 then SendUp(online, c, Report(h.seqNo, h.latest)) else online)
        else h.(link := rest.(child := Offline))
    case ParentGreets(c) =>
      if !(l.greeted < c < |l.conns|) then h
      else
        var greeted := h.(link := Greet(l, c));
        if l.live.None? && l.conns[c].hello.Some? then Delivered(greeted, l.conns[c].hello.value) else greeted
    case ParentTakes =>
      if l.live.None? || l.conns[l.live.value].up == [] then h
      else Delivered(h.(link := DropUp(l, l.live.value)), l.conns[l.live.value].up[0])
    case ParentEnds => h.(link := l.(live := None))
    case Breaks(c, up, down) => if c < |l.conns| then h.(link := Break(l, c, up, down)) else h
    case Relaunch => h.(link := Established(None), generation := h.generation + 1, seqNo := 0, latest := ZERO)
  }

  function Run(h: Hop, events: seq<Event>): Hop
    requires HopInv(h)
    decreases |events|
  {
    if events == [] then h
    else
      ApplyKeepsInv(h, events[0]);
      Run(Apply(h, events[0]), events[1..])
  }

  /** The first launch, right after its handshake. */
  function Launched(): (h: Hop)
    ensures HopInv(h)
  {
    Hop(Established(None), 1, 0, ZERO, Kept(None, None), [], map[])
  }

  /** A report in flight says what the child reported under that number. */
  predicate Genuine(h: Hop, report: Report) {
    && 0 < report.seqNo <= h.seqNo
    && Order(h.generation, report.seqNo) in h.reported
    && h.reported[Order(h.generation, report.seqNo)] == report.usage
  }

  predicate ConnGenuine(h: Hop, c: nat)
    requires c < |h.link.conns|
  {
    && (h.link.conns[c].hello.Some? ==> Genuine(h, h.link.conns[c].hello.value))
    && forall k | 0 <= k < |h.link.conns[c].up| :: Genuine(h, h.link.conns[c].up[k])
  }

  predicate DeliveryGenuine(h: Hop, d: Delivery) {
    && OrderOf(d.generation, d.report) in h.reported
    && h.reported[OrderOf(d.generation, d.report)] == d.report.usage
    && d.report.seqNo > 0
    && d.generation <= h.generation
    && (d.generation == h.generation ==> d.report.seqNo <= h.seqNo)
  }

  /** On an intact connection up to the parent, the latest report is stored already or last in flight. */
  predicate Underway(h: Hop) {
    var l := h.link;
    l.child.Online? && l.live == Some(l.child.c) && l.child.c < |l.conns| && !l.conns[l.child.c].broken
        && h.seqNo > 0 ==>
      var up := l.conns[l.child.c].up;
      h.kept.order == Some(Order(h.generation, h.seqNo)) || (up != [] && up[|up| - 1] == Report(h.seqNo, h.latest))
  }

  predicate HopInv(h: Hop) {
    && LinkOk(h.link)
    && (h.seqNo > 0 ==> Genuine(h, Report(h.seqNo, h.latest)))
    && (forall c | 0 <= c < |h.link.conns| :: ConnGenuine(h, c))
    && (forall i | 0 <= i < |h.delivered| :: DeliveryGenuine(h, h.delivered[i]))
    && h.kept == AcceptAll(h.delivered)
    && Underway(h)
  }

  lemma {:induction false} AcceptMore(h: Hop, report: Report)
    requires HopInv(h) && Genuine(h, report)
    ensures var t := Delivered(h, report);
            && t.kept == AcceptAll(t.delivered)
            && (forall i | 0 <= i < |t.delivered| :: DeliveryGenuine(t, t.delivered[i]))
            && (report.seqNo == h.seqNo ==> t.kept.order == Some(Order(h.generation, h.seqNo)))
            && (h.kept.order == Some(Order(h.generation, h.seqNo)) ==> t.kept.order == h.kept.order)
  {
    var t := Delivered(h, report);
    assert t.delivered[..|h.delivered|] == h.delivered;
    KeepsTheGreatest(h.delivered);
    if h.kept.order.Some? {
      var i :| 0 <= i < |h.delivered| && h.delivered[i].report.seqNo > 0 &&
               h.kept == Kept(Some(OrderOf(h.delivered[i].generation, h.delivered[i].report)),
                   Some(h.delivered[i].report.usage));
      assert DeliveryGenuine(h, h.delivered[i]);
    }
  }

  lemma {:induction false} ApplyKeepsInv(h: Hop, e: Event)
    requires HopInv(h)
    ensures HopInv(Apply(h, e))
  {
    match e
    case Evaluate(value) => EvaluateKeepsInv(h, value);
    case ChildDials => ChildDialsKeepsInv(h);
    case ChildEnds => LossKeepsInv(h, e);
    case ChildTakes => ChildTakesKeepsInv(h);
    case ParentGreets(c) => ParentGreetsKeepsInv(h, c);
    case ParentTakes => ParentTakesKeepsInv(h);
    case ParentEnds => LossKeepsInv(h, e);
    case Breaks(_, _, _) => LossKeepsInv(h, e);
    case Relaunch => RelaunchKeepsInv(h);
  }

  lemma {:induction false} LossKeepsInv(h: Hop, e: Event)
    requires HopInv(h) && (e.ChildEnds? || e.ParentEnds? || e.Breaks?)
    ensures HopInv(Apply(h, e))
  {
    LinkChangeKeepsInv(h, Apply(h, e));
  }

  lemma {:induction false} RelaunchKeepsInv(h: Hop)
    requires HopInv(h)
    ensures HopInv(Apply(h, Relaunch))
  {
  }

  /** A change of the link alone keeps the invariant when everything still in flight is genuine and underway. */
  lemma {:induction false} LinkChangeKeepsInv(h: Hop, t: Hop)
    requires HopInv(h) && t == h.(link := t.link) && LinkOk(t.link) && Underway(t)
    requires |t.link.conns| == |h.link.conns|
    requires forall c | 0 <= c < |t.link.conns| ::
               t.link.conns[c].hello == h.link.conns[c].hello && t.link.conns[c].up <= h.link.conns[c].up
    ensures HopInv(t)
  {
    forall c | 0 <= c < |t.link.conns|
      ensures ConnGenuine(t, c)
    {
      assert ConnGenuine(h, c);
    }
  }

  lemma {:induction false} ChildDialsKeepsInv(h: Hop)
    requires HopInv(h)
    ensures HopInv(Apply(h, ChildDials))
  {
    var t := Apply(h, ChildDials);
    forall c | 0 <= c < |t.link.conns|
      ensures ConnGenuine(t, c)
    {
      if c < |h.link.conns| {
        assert ConnGenuine(h, c);
      }
    }
  }

  lemma {:induction false} ChildTakesKeepsInv(h: Hop)
    requires HopInv(h)
    ensures HopInv(Apply(h, ChildTakes))
  {
    var l, t := h.link, Apply(h, ChildTakes);
    if l.child.Greeting? && l.conns[l.child.c].down != [] && l.conns[l.child.c].down[0].Welcome? {
      forall c | 0 <= c < |t.link.conns|
        ensures ConnGenuine(t, c)
      {
        assert ConnGenuine(h, c);
      }
    } else {
      LinkChangeKeepsInv(h, t);
    }
  }

  lemma {:induction false} ParentGreetsKeepsInv(h: Hop, c: nat)
    requires HopInv(h)
    ensures HopInv(Apply(h, ParentGreets(c)))
  {
    var l := h.link;
    if l.greeted < c < |l.conns| {
      var greeted := h.(link := Greet(l, c));
      assert ConnGenuine(h, c);
      LinkChangeKeepsInv(h, greeted);
      if l.live.None? && l.conns[c].hello.Some? {
        AcceptMore(greeted, l.conns[c].hello.value);
        DeliveryKeepsRest(greeted, l.conns[c].hello.value);
      }
    }
  }

  lemma {:induction false} ParentTakesKeepsInv(h: Hop)
    requires HopInv(h)
    ensures HopInv(Apply(h, ParentTakes))
  {
    var l := h.link;
    if l.live.Some? && l.conns[l.live.value].up != [] {
      var head := l.conns[l.live.value].up[0];
      assert ConnGenuine(h, l.live.value);
      AcceptMore(h, head);
      var t := Delivered(h.(link := DropUp(l, l.live.value)), head);
      forall c | 0 <= c < |t.link.conns|
        ensures ConnGenuine(t, c)
      {
        assert ConnGenuine(h, c);
      }
    }
  }

  lemma {:induction false} DeliveryKeepsRest(h: Hop, report: Report)
    requires HopInv(h) && Genuine(h, report)
    ensures HopInv(Delivered(h, report))
  {
    AcceptMore(h, report);
    forall c | 0 <= c < |h.link.conns|
      ensures ConnGenuine(Delivered(h, report), c)
    {
      assert ConnGenuine(h, c);
    }
  }

  lemma {:induction false} EvaluateKeepsInv(h: Hop, value: Cost)
    requires HopInv(h)
    ensures HopInv(Apply(h, Evaluate(value)))
  {
    if value != h.latest {
      var t := Apply(h, Evaluate(value));
      forall c | 0 <= c < |t.link.conns|
        ensures ConnGenuine(t, c)
      {
        assert ConnGenuine(h, c);
      }
    }
  }

  lemma {:induction false} RunKeepsInv(h: Hop, events: seq<Event>)
    requires HopInv(h)
    ensures HopInv(Run(h, events))
    decreases |events|
  {
    if events != [] {
      ApplyKeepsInv(h, events[0]);
      RunKeepsInv(Apply(h, events[0]), events[1..]);
    }
  }

  /** Connected both ways over one intact connection, with nothing left in flight. */
  predicate Drained(h: Hop) {
    var l := h.link;
    l.child.Online? && l.live == Some(l.child.c) && l.child.c < |l.conns| && !l.conns[l.child.c].broken
        && l.conns[l.child.c].up == []
  }

  /**
   * Under every interleaving of evaluations, losses, disconnects, duplicate deliveries, reconnects and
   * relaunches: a drained channel means the parent stores the child's latest report, and at all times
   * the stored value is what the child reported under the greatest order ever delivered.
   */
  lemma {:induction false} ParentFollowsChild(events: seq<Event>)
    ensures var h := Run(Launched(), events);
            && (Drained(h) && h.seqNo > 0 ==> h.kept == Kept(Some(Order(h.generation, h.seqNo)), Some(h.latest)))
            && (h.kept.order.Some? ==>
                  h.kept.order.value in h.reported && h.kept.usage == Some(h.reported[h.kept.order.value]))
            && (forall i | 0 <= i < |h.delivered| ::
                  h.kept.order.Some?
                      && !Before(h.kept.order.value, OrderOf(h.delivered[i].generation, h.delivered[i].report)))
  {
    RunKeepsInv(Launched(), events);
    var h := Run(Launched(), events);
    KeepsTheGreatest(h.delivered);
    if h.kept.order.Some? {
      var i :| 0 <= i < |h.delivered| && h.delivered[i].report.seqNo > 0 &&
               h.kept == Kept(Some(OrderOf(h.delivered[i].generation, h.delivered[i].report)),
                   Some(h.delivered[i].report.usage));
      assert DeliveryGenuine(h, h.delivered[i]);
    }
    forall i | 0 <= i < |h.delivered|
      ensures h.kept.order.Some?
              && !Before(h.kept.order.value, OrderOf(h.delivered[i].generation, h.delivered[i].report))
    {
      assert DeliveryGenuine(h, h.delivered[i]);
    }
  }

  /**
   * Whatever is lost after it: a hello taken with no connection live leaves the parent with nothing older than the
   * report it carries, and with that report itself unless a later one was there already.
   */
  lemma {:induction false} HelloIsHeard(events: seq<Event>, c: nat)
    requires var l := Run(Launched(), events).link; l.greeted < c < |l.conns|
    ensures LinkOk(Run(Launched(), events).link)
    ensures var h := Run(Launched(), events);
            var l, t := h.link, Apply(h, ParentGreets(c));
            if l.live.Some? || l.conns[c].hello.None? then t.kept == h.kept
            else
              var report := l.conns[c].hello.value;
              && t.kept.order.Some? && !Before(t.kept.order.value, OrderOf(h.generation, report))
              && (h.kept.order.None? || Before(h.kept.order.value, OrderOf(h.generation, report)) ==>
                    t.kept == Kept(Some(OrderOf(h.generation, report)), Some(report.usage)))
  {
    RunKeepsInv(Launched(), events);
    assert ConnGenuine(Run(Launched(), events), c);
  }

  /** A parent that has lost its connection hears the next hello: it then holds nothing older than that reports. */
  lemma {:induction false} HeardAfterLoss(events: seq<Event>, c: nat)
    requires var l := Run(Launched(), events).link; l.greeted < c < |l.conns| && l.conns[c].hello.Some?
    ensures LinkOk(Run(Launched(), events).link)
    ensures var h := Run(Launched(), events);
            var lost := Apply(h, ParentEnds);
            LinkOk(lost.link)
            && var t := Apply(lost, ParentGreets(c));
               && t.link.live == Some(c) && t.kept.order.Some?
               && !Before(t.kept.order.value, OrderOf(h.generation, h.link.conns[c].hello.value))
  {
    RunKeepsInv(Launched(), events);
    assert ConnGenuine(Run(Launched(), events), c);
  }
}
