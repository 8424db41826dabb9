// agent-cost.ts, agent-storage.ts: what runs of reports, evictions, revivals, rollbacks and syncs do to a hop's
// estimate.

module EvictionRuns {
  import opened Options
  import opened Costs
  import opened RecordSignal
  import opened CostLedger
  import Telemetry

  /**
   * The records on disk, the ledger over them, and (history) the known dollars held by records that were rolled
   * back.
   */
  datatype Hop = Hop(disk: Records, ledger: Ledger, forgone: real)

  /** `gone` lists the homes the sync found gone for good; `removed` is what the revival gate answered. */
  datatype Event =
    | Report(id: Id, child: Child)
    | Revive(id: Id, child: Child, removed: bool)
    | Evict(id: Id, look: Look, gone: set<Id>)
    | Drop(id: Id)
    | RolledBack(id: Id)
    | Sync(look: Look, gone: set<Id>)

  function Record(disk: Records, id: Id, cost: Cost): Records {
    disk[id := Merge(Lookup(disk, id), cost)]
  }

  function Registering(h: Hop, id: Id, child: Child): Hop {
    h.(ledger := h.ledger.(registry := h.ledger.registry[id := child]))
  }

  ghost function Syncing(h: Hop, baseline: Cost, look: Look, gone: set<Id>): Hop {
    h.(ledger := Synced(h.ledger, baseline, look, gone, {}))
  }

  /** What an eviction record of this registered child holds: its tracked floor merged with its subtree cost. */
  function FloorCost(l: Ledger, id: Id): Cost
    requires id in l.registry
  {
    Merge(Lookup(l.agents, id), SubtreeCost(l.registry[id]))
  }

  function Recording(h: Hop, id: Id): Hop {
    if id in h.ledger.registry then h.(disk := Record(h.disk, id, FloorCost(h.ledger, id))) else h
  }

  ghost function After(h: Hop, baseline: Cost, e: Event): Hop {
    match e
    case Report(id, child) => if id in h.ledger.registry then Registering(h, id, child) else h
    case Revive(id, child, removed) => if removed || id in h.ledger.registry then h else Registering(h, id, child)
    case Evict(id, look, gone) => Recording(Syncing(h, baseline, look, gone), id)
    case Drop(id) => if id in h.disk then h.(ledger := h.ledger.(registry := h.ledger.registry - {id})) else h
    case RolledBack(id) =>
      if id in h.disk then h.(disk := h.disk - {id}, forgone := h.forgone + h.disk[id].knownUsd) else h
    case Sync(look, gone) => Syncing(h, baseline, look, gone)
  }

  /** A sync ends up with the records on disk, or, when the read fails, with those it had. */
  predicate Honest(h: Hop, look: Look) {
    var held := CacheAfter(h.ledger.cache, look).held;
    held == h.disk || held == h.ledger.cache.held
  }

  /** Costs have the reduced shape, reads are honest, and a removal that rolls back leaves its child registered. */
  predicate Fair(h: Hop, e: Event) {
    match e
    case Report(_, child) => Founded(SubtreeCost(child))
    case Revive(_, child, _) => Founded(SubtreeCost(child))
    case Evict(_, look, _) => Honest(h, look)
    case Drop(_) => true
    case RolledBack(id) => id in h.ledger.registry
    case Sync(look, _) => Honest(h, look)
  }

  ghost function Run(h: Hop, baseline: Cost, events: seq<Event>): Hop {
    if events == [] then h
    else After(Run(h, baseline, events[..|events| - 1]), baseline, events[|events| - 1])
  }

  ghost predicate FairRun(h: Hop, baseline: Cost, events: seq<Event>) {
    forall k | 0 <= k < |events| :: Fair(Run(h, baseline, events[..k]), events[k])
  }

  // ----- what a run keeps

  /** The identities the total counts. */
  function Counted(l: Ledger): map<Id, Cost> {
    l.cache.held + l.agents
  }

  /** The sums are as the last sync left them, and whatever is tracked live is still registered, or recorded. */
  ghost predicate Inv(h: Hop, baseline: Cost) {
    var l := h.ledger;
    && Apart(l.cache.held, l.agents) && l.total == Plus(baseline, Total(Counted(l)))
    && CostsFounded(h)
    && (forall id | id in l.agents && id !in h.disk :: id in l.registry)
  }

  predicate CostsFounded(h: Hop) {
    && AllFounded(h.ledger.agents) && AllFounded(h.disk) && AllFounded(h.ledger.cache.held)
    && forall id | id in h.ledger.registry :: Founded(SubtreeCost(h.ledger.registry[id]))
  }

  /** What the hop would show with every record read: recorded identities by their records, the others as tracked. */
  function Best(h: Hop): map<Id, Cost> {
    h.ledger.agents + h.disk
  }

  lemma {:induction false} MergedIsNoLess(previous: Option<Cost>, observed: Cost)
    requires Founded(observed) && (previous.Some? ==> Founded(previous.value))
    ensures Founded(Merge(previous, observed)) && Merge(previous, observed).knownUsd >= observed.knownUsd
    ensures previous.Some? ==> Merge(previous, observed).knownUsd >= previous.value.knownUsd
  {
  }

  /** Whether or not its read succeeds, a sync leaves every identity recorded, or tracked at no less than before. */
  lemma {:induction false} IdentityKept(h: Hop, baseline: Cost, look: Look, gone: set<Id>, id: Id)
    requires Inv(h, baseline) && Honest(h, look) && id in Best(h)
    ensures var t := Syncing(h, baseline, look, gone);
            id in Best(t) && Best(t)[id].knownUsd >= Best(h)[id].knownUsd
  {
    var l := h.ledger;
    if id !in h.disk {
      assert id in l.registry && id in l.agents && id !in l.cache.held;
      MergedIsNoLess(Some(l.agents[id]), SubtreeCost(l.registry[id]));
    }
  }

  lemma {:induction false} SyncedFounded(h: Hop, baseline: Cost, look: Look, gone: set<Id>)
    requires CostsFounded(h) && Honest(h, look)
    ensures CostsFounded(Syncing(h, baseline, look, gone))
  {
    var s := Synced(h.ledger, baseline, look, gone, {});
    forall id | id in s.agents
      ensures Founded(s.agents[id])
    {
      MergedIsNoLess(Lookup(h.ledger.agents, id), SubtreeCost(h.ledger.registry[id]));
    }
  }

  lemma {:induction false} SyncKeepsInv(h: Hop, baseline: Cost, look: Look, gone: set<Id>)
    requires Inv(h, baseline) && Honest(h, look)
    ensures Inv(Syncing(h, baseline, look, gone), baseline)
  {
    SyncCountsOnce(h.ledger, baseline, look, gone, {});
    SyncedFounded(h, baseline, look, gone);
  }

  lemma {:induction false} SyncKeeps(h: Hop, baseline: Cost, look: Look, gone: set<Id>)
    requires Inv(h, baseline) && Honest(h, look)
    ensures var t := Syncing(h, baseline, look, gone);
            Inv(t, baseline) && Total(Best(t)).knownUsd >= Total(Best(h)).knownUsd
  {
    var t := Syncing(h, baseline, look, gone);
    SyncKeepsInv(h, baseline, look, gone);
    forall id | id in Best(h)
      ensures id in Best(t) && Best(t)[id].knownUsd >= Best(h)[id].knownUsd
    {
      IdentityKept(h, baseline, look, gone, id);
    }
    TotalGrows(Best(h), Best(t));
  }

  lemma {:induction false} RecordKeepsInv(h: Hop, baseline: Cost, id: Id, cost: Cost)
    requires Inv(h, baseline) && Founded(cost)
    ensures Inv(h.(disk := Record(h.disk, id, cost)), baseline)
  {
    MergedIsNoLess(Lookup(h.disk, id), cost);
  }

  lemma {:induction false} RecordGrows(agents: map<Id, Cost>, disk: Records, id: Id, cost: Cost)
    requires AllFounded(agents) && AllFounded(disk) && Founded(cost)
    requires id in agents ==> cost.knownUsd >= agents[id].knownUsd
    ensures Total(agents + Record(disk, id, cost)).knownUsd >= Total(agents + disk).knownUsd
  {
    MergedIsNoLess(Lookup(disk, id), cost);
    TotalGrows(agents + disk, agents + Record(disk, id, cost));
  }

  /** Writing a record at no less than what is tracked puts nothing out of reach. */
  lemma {:induction false} RecordKeeps(h: Hop, baseline: Cost, id: Id, cost: Cost)
    requires Inv(h, baseline) && Founded(cost)
             && (id in h.ledger.agents ==> cost.knownUsd >= h.ledger.agents[id].knownUsd)
    ensures var t := h.(disk := Record(h.disk, id, cost));
            Inv(t, baseline) && Total(Best(t)).knownUsd >= Total(Best(h)).knownUsd
  {
    RecordKeepsInv(h, baseline, id, cost);
    RecordGrows(h.ledger.agents, h.disk, id, cost);
  }

  /** The record a capacity eviction writes holds at least the tracked floor and the current subtree cost. */
  lemma {:induction false} FloorCostHolds(l: Ledger, id: Id)
    requires id in l.registry && Founded(SubtreeCost(l.registry[id])) && AllFounded(l.agents)
    ensures var cost := FloorCost(l, id);
            && Founded(cost) && cost.knownUsd >= SubtreeCost(l.registry[id]).knownUsd
            && (id in l.agents ==> cost.knownUsd >= l.agents[id].knownUsd)
  {
    MergedIsNoLess(Lookup(l.agents, id), SubtreeCost(l.registry[id]));
  }

  lemma {:induction false} RecordingKeeps(h: Hop, baseline: Cost, id: Id)
    requires Inv(h, baseline)
    ensures var t := Recording(h, id);
            Inv(t, baseline) && Total(Best(t)).knownUsd >= Total(Best(h)).knownUsd && t.forgone == h.forgone
  {
    if id in h.ledger.registry {
      FloorCostHolds(h.ledger, id);
      RecordKeeps(h, baseline, id, FloorCost(h.ledger, id));
    }
  }

  /** A capacity eviction, its sync's read good or failed, puts nothing out of reach. */
  lemma {:induction false} EvictKeeps(h: Hop, baseline: Cost, id: Id, look: Look, gone: set<Id>)
    requires Inv(h, baseline) && Honest(h, look)
    ensures var t := After(h, baseline, Evict(id, look, gone));
            Inv(t, baseline) && Total(Best(t)).knownUsd >= Total(Best(h)).knownUsd && t.forgone == h.forgone
  {
    var synced := Syncing(h, baseline, look, gone);
    assert Inv(synced, baseline) && synced.forgone == h.forgone
        && Total(Best(synced)).knownUsd >= Total(Best(h)).knownUsd by {
      SyncKeeps(h, baseline, look, gone);
    }
    RecordingKeeps(synced, baseline, id);
  }

  lemma {:induction false} SyncTracksNoLess(l: Ledger, baseline: Cost, look: Look, gone: set<Id>, id: Id)
    requires id in Synced(l, baseline, look, gone, {}).agents && AllFounded(l.agents)
    requires id in l.registry ==> Founded(SubtreeCost(l.registry[id]))
    ensures id in l.agents ==> Synced(l, baseline, look, gone, {}).agents[id].knownUsd >= l.agents[id].knownUsd
  {
    MergedIsNoLess(Lookup(l.agents, id), SubtreeCost(l.registry[id]));
  }

  lemma {:induction false} RecordingHolds(h: Hop, id: Id)
    requires CostsFounded(h) && id in h.ledger.registry
    ensures var t := Recording(h, id);
            && id in t.disk && t.disk[id].knownUsd >= SubtreeCost(h.ledger.registry[id]).knownUsd
            && (id in h.disk ==> t.disk[id].knownUsd >= h.disk[id].knownUsd)
            && (id in h.ledger.agents ==> t.disk[id].knownUsd >= h.ledger.agents[id].knownUsd)
  {
    FloorCostHolds(h.ledger, id);
    MergedIsNoLess(Lookup(h.disk, id), FloorCost(h.ledger, id));
  }

  /**
   * What is then on disk: no less than the child's cost, what was recorded, and what was tracked unless a record
   * superseded it.
   */
  lemma {:induction false} EvictionRecords(h: Hop, baseline: Cost, id: Id, look: Look, gone: set<Id>)
    requires Inv(h, baseline) && Honest(h, look) && id in Syncing(h, baseline, look, gone).ledger.registry
    ensures var t := After(h, baseline, Evict(id, look, gone));
            && id in t.disk && t.disk[id].knownUsd >= SubtreeCost(h.ledger.registry[id]).knownUsd
            && (id in h.disk ==> t.disk[id].knownUsd >= h.disk[id].knownUsd)
            && (id in h.ledger.agents && id !in t.ledger.cache.held ==>
                t.disk[id].knownUsd >= h.ledger.agents[id].knownUsd)
  {
    SyncedFounded(h, baseline, look, gone);
    var synced := Syncing(h, baseline, look, gone);
    RecordingHolds(synced, id);
    if id in synced.ledger.agents {
      SyncTracksNoLess(h.ledger, baseline, look, gone, id);
    }
  }

  /** A rollback takes away no more than its record held. */
  lemma {:induction false} RollbackKeeps(h: Hop, baseline: Cost, id: Id)
    requires Inv(h, baseline) && id in h.ledger.registry
    ensures var t := After(h, baseline, RolledBack(id));
            && Inv(t, baseline)
            && Total(Best(t)).knownUsd + t.forgone >= Total(Best(h)).knownUsd + h.forgone
  {
    if id in h.disk {
      TotalWithout(Best(h), id);
      TotalGrows(Best(h) - {id}, Best(After(h, baseline, RolledBack(id))));
    }
  }

  lemma {:induction false} StepKeeps(h: Hop, baseline: Cost, e: Event)
    requires Inv(h, baseline) && Fair(h, e)
    ensures var t := After(h, baseline, e);
            && Inv(t, baseline)
            && Total(Best(t)).knownUsd + t.forgone >= Total(Best(h)).knownUsd + h.forgone
            && (!e.RolledBack? ==> t.forgone == h.forgone)
  {
    match e
    case Report(_, _) =>
    case Revive(_, _, _) =>
    case Evict(id, look, gone) => EvictKeeps(h, baseline, id, look, gone);
    case Drop(_) =>
    case RolledBack(id) => RollbackKeeps(h, baseline, id);
    case Sync(look, gone) => SyncKeeps(h, baseline, look, gone);
  }

  /** The last sync read the records as they are. */
  predicate Fresh(h: Hop) {
    h.ledger.cache.held == h.disk
  }

  /** What a fresh hop shows is the best it could. */
  lemma {:induction false} FreshShowsBest(h: Hop, baseline: Cost)
    requires Inv(h, baseline) && Fresh(h)
    ensures h.ledger.total == Plus(baseline, Total(Best(h)))
  {
    assert Counted(h.ledger) == Best(h);
  }

  lemma {:induction false} RunKeeps(h: Hop, baseline: Cost, events: seq<Event>)
    requires Inv(h, baseline) && FairRun(h, baseline, events)
    ensures var t := Run(h, baseline, events);
            && Inv(t, baseline)
            && Total(Best(t)).knownUsd + t.forgone >= Total(Best(h)).knownUsd + h.forgone
            && ((forall k | 0 <= k < |events| :: !events[k].RolledBack?) ==> t.forgone == h.forgone)
  {
    if events != [] {
      var init := events[..|events| - 1];
      assert forall k | 0 <= k < |init| :: init[..k] == events[..k] && init[k] == events[k];
      RunKeeps(h, baseline, init);
      StepKeeps(Run(h, baseline, init), baseline, events[|events| - 1]);
    }
  }

  /**
   * Over every run of reports, revivals, capacity evictions, registry drops, rollbacks and syncs, failed
   * reads included: whenever the records are read as they are, the known total is at least what any earlier
   * such total was, less what records rolled back in between held; with no rollback it never falls.
   */
  lemma {:induction false} KnownTotalNeverFalls(h: Hop, baseline: Cost, events: seq<Event>)
    requires Inv(h, baseline) && Fresh(h) && FairRun(h, baseline, events) && Fresh(Run(h, baseline, events))
    ensures var t := Run(h, baseline, events);
            && t.ledger.total.knownUsd + t.forgone >= h.ledger.total.knownUsd + h.forgone
            && ((forall k | 0 <= k < |events| :: !events[k].RolledBack?) ==>
                  t.ledger.total.knownUsd >= h.ledger.total.knownUsd)
  {
    RunKeeps(h, baseline, events);
    FreshShowsBest(h, baseline);
    FreshShowsBest(Run(h, baseline, events), baseline);
  }

  /** A fresh hop: nothing tracked, nothing recorded. */
  function Start(registry: Registry, baseline: Cost): Hop {
    Hop(map[], Ledger(registry, map[], Cache(map[], None), baseline), 0.0)
  }

  lemma {:induction false} FreshHop(registry: Registry, baseline: Cost)
    requires forall id | id in registry :: Founded(SubtreeCost(registry[id]))
    ensures Inv(Start(registry, baseline), baseline)
  {
    var nothing: map<Id, Cost> := map[];
    UnionWithNothing(nothing, nothing);
    PlusNothing(baseline);
  }

  // ----- what one sync can lower

  function Known(m: map<Id, Cost>, id: Id): real {
    if id in m then m[id].knownUsd else 0.0
  }

  lemma {:induction false} KnownWithout(m: map<Id, Cost>, id: Id)
    ensures Total(m).knownUsd == Total(m - {id}).knownUsd + Known(m, id)
    ensures forall x :: Known(m - {id}, x) == if x == id then 0.0 else Known(m, x)
  {
    if id in m {
      TotalWithout(m, id);
    } else {
      assert m - {id} == m;
    }
  }

  /** Sums that balance identity by identity balance in all. */
  lemma {:induction false} TotalsBalance(a: map<Id, Cost>, b: map<Id, Cost>, c: map<Id, Cost>, d: map<Id, Cost>)
    requires forall id :: Known(a, id) + Known(b, id) == Known(c, id) + Known(d, id)
    ensures Total(a).knownUsd + Total(b).knownUsd == Total(c).knownUsd + Total(d).knownUsd
    decreases a.Keys + b.Keys + c.Keys + d.Keys
  {
    var keys := a.Keys + b.Keys + c.Keys + d.Keys;
    if keys != {} {
      var id :| id in keys;
      KnownWithout(a, id);
      KnownWithout(b, id);
      KnownWithout(c, id);
      KnownWithout(d, id);
      assert id !in (a - {id}).Keys + (b - {id}).Keys + (c - {id}).Keys + (d - {id}).Keys;
      TotalsBalance(a - {id}, b - {id}, c - {id}, d - {id});
    }
  }

  lemma {:induction false} PositiveTotal(m: map<Id, Cost>)
    requires AllFounded(m)
    ensures Total(m).knownUsd >= 0.0
    ensures Total(m).knownUsd > 0.0 <==> exists id :: id in m && m[id].knownUsd > 0.0
    decreases |m|
  {
    if m != map[] {
      var id :| id in m;
      TotalWithout(m, id);
      PositiveTotal(m - {id});
      assert forall x | x in m - {id} :: x in m && m[x] == (m - {id})[x];
      assert forall x | x in m && x != id :: x in m - {id} && m[x] == (m - {id})[x];
    }
  }

  /** Tracked identities no longer registered: by the run invariant, each has a record on disk that was not read. */
  function OutOfSight(l: Ledger): map<Id, Cost> {
    map id | id in l.agents && id !in l.registry :: l.agents[id]
  }

  /** No registered child without a held record is new or costs more than it was tracked at. */
  predicate NothingGrew(l: Ledger) {
    forall id | id in l.registry && id !in l.cache.held ::
      id in l.agents && SubtreeCost(l.registry[id]).knownUsd <= l.agents[id].knownUsd
  }

  lemma {:induction false} TrackedSame(tracked: Cost, observed: Cost)
    requires Founded(observed) && Founded(tracked) && observed.knownUsd <= tracked.knownUsd
    ensures Merge(Some(tracked), observed).knownUsd == tracked.knownUsd
  {
  }

  lemma {:induction false} ShownIsCounted(h: Hop, baseline: Cost)
    requires Inv(h, baseline)
    ensures h.ledger.total.knownUsd == baseline.knownUsd + Total(Counted(h.ledger)).knownUsd
  {
  }

  lemma {:induction false} SyncedShowsCounted(l: Ledger, baseline: Cost, look: Look, gone: set<Id>)
    ensures var s := Synced(l, baseline, look, gone, {});
            s.total.knownUsd == baseline.knownUsd + Total(Counted(s)).knownUsd
  {
    SyncCountsOnce(l, baseline, look, gone, {});
  }

  lemma {:induction false} SyncedKnown(l: Ledger, baseline: Cost, look: Look, gone: set<Id>, id: Id)
    ensures var held := CacheAfter(l.cache, look).held;
            Known(Counted(Synced(l, baseline, look, gone, {})), id)
            == if id in held then held[id].knownUsd
               else if id in l.registry then Merge(Lookup(l.agents, id), SubtreeCost(l.registry[id])).knownUsd
               else 0.0
  {
  }

  /** What reports, revivals, drops and rollbacks change, and all they change. */
  lemma {:induction false} StepChanges(h: Hop, baseline: Cost, e: Event)
    requires !e.Evict? && !e.Sync?
    ensures var t, was := After(h, baseline, e), h.ledger.registry;
            && t.ledger == h.ledger.(registry := t.ledger.registry)
            && (forall id ::
                  id in t.ledger.registry <==>
                    (id in was || (id == e.id && e.Revive? && !e.removed))
                    && !(id == e.id && e.Drop? && id in h.disk))
            && (forall id | id in t.ledger.registry ::
                  t.ledger.registry[id] ==
                  if id == e.id && (e.Report? || (e.Revive? && id !in was)) then e.child else was[id])
            && (forall id :: id in t.disk <==> id in h.disk && !(id == e.id && e.RolledBack?))
            && (forall id | id in t.disk :: t.disk[id] == h.disk[id])
            && t.forgone == h.forgone + if e.RolledBack? && e.id in h.disk then h.disk[e.id].knownUsd else 0.0
  {
  }

  /** The sync after a revival counts the child by its record, if it has one, else live unless its home is gone. */
  lemma {:induction false} RevivedIsCounted(
      h: Hop, baseline: Cost, id: Id, child: Child, removed: bool, look: Look, gone: set<Id>)
    requires id !in h.ledger.registry
    ensures var t := Syncing(After(h, baseline, Revive(id, child, removed)), baseline, look, gone);
            var held := CacheAfter(h.ledger.cache, look).held;
            Known(Counted(t.ledger), id) ==
            if id in held then held[id].knownUsd
            else if removed then 0.0
            else Merge(Lookup(h.ledger.agents, id), SubtreeCost(child)).knownUsd
  {
    SyncedKnown(After(h, baseline, Revive(id, child, removed)).ledger, baseline, look, gone, id);
  }

  /** Exactly when what one identity counts for falls over a sync, its read good or failed. */
  lemma {:induction false} CountFallsExactly(h: Hop, baseline: Cost, look: Look, gone: set<Id>, id: Id)
    requires Inv(h, baseline) && Honest(h, look)
    ensures var l, held := h.ledger, CacheAfter(h.ledger.cache, look).held;
            var before, after := Known(Counted(l), id), Known(Counted(Synced(l, baseline, look, gone, {})), id);
            after < before <==>
              if id in held then held[id].knownUsd < before
              else if id in l.registry then id in l.cache.held && SubtreeCost(l.registry[id]).knownUsd < before
              else before > 0.0
  {
    SyncedKnown(h.ledger, baseline, look, gone, id);
    if id in h.ledger.registry {
      MergedIsNoLess(Lookup(h.ledger.agents, id), SubtreeCost(h.ledger.registry[id]));
    }
  }

  /** What registered children without a held record cost beyond what they were tracked at. */
  function Gains(l: Ledger): map<Id, Cost> {
    map id | id in l.registry && id !in l.cache.held ::
      Cost(MaxUsd(SubtreeCost(l.registry[id]).knownUsd - Known(l.agents, id), 0.0), 1, 0, 0)
  }

  lemma {:induction false} FailedSyncBalances(h: Hop, baseline: Cost, look: Look, gone: set<Id>, id: Id)
    requires Inv(h, baseline) && CacheAfter(h.ledger.cache, look).held == h.ledger.cache.held
    ensures var l := h.ledger;
            Known(Counted(Synced(l, baseline, look, gone, {})), id) + Known(OutOfSight(l), id)
            == Known(Counted(l), id) + Known(Gains(l), id)
  {
    SyncedKnown(h.ledger, baseline, look, gone, id);
    CountsBalance(h.ledger, id);
  }

  lemma {:induction false} CountsBalance(l: Ledger, id: Id)
    requires Apart(l.cache.held, l.agents) && AllFounded(l.agents)
             && (id in l.registry ==> Founded(SubtreeCost(l.registry[id])))
    ensures (if id in l.cache.held then l.cache.held[id].knownUsd
             else if id in l.registry then Merge(Lookup(l.agents, id), SubtreeCost(l.registry[id])).knownUsd
             else 0.0)
            + Known(OutOfSight(l), id) == Known(Counted(l), id) + Known(Gains(l), id)
  {
    if id in l.registry {
      MergedGain(l.agents, id, SubtreeCost(l.registry[id]));
    }
  }

  lemma {:induction false} MergedGain(agents: map<Id, Cost>, id: Id, observed: Cost)
    requires AllFounded(agents) && Founded(observed)
    ensures Merge(Lookup(agents, id), observed).knownUsd
            == Known(agents, id) + MaxUsd(observed.knownUsd - Known(agents, id), 0.0)
  {
  }

  /**
   * A failed read moves the total by exactly what registered children gained, less what was tracked for
   * identities no longer registered. With no gains it falls if and only if one of those, recorded on disk but
   * unread, held known dollars.
   */
  lemma {:induction false} FailedSyncLowersExactly(h: Hop, baseline: Cost, look: Look, gone: set<Id>)
    requires Inv(h, baseline) && CacheAfter(h.ledger.cache, look).held == h.ledger.cache.held
    ensures var l, after := h.ledger, Synced(h.ledger, baseline, look, gone, {});
            && after.total.knownUsd == l.total.knownUsd + Total(Gains(l)).knownUsd - Total(OutOfSight(l)).knownUsd
            && (NothingGrew(l) ==> Total(Gains(l)).knownUsd == 0.0)
            && (Total(OutOfSight(l)).knownUsd > 0.0 <==>
                  exists id :: id in OutOfSight(l) && id in h.disk && id !in l.cache.held
                      && OutOfSight(l)[id].knownUsd > 0.0)
  {
    var l, after := h.ledger, Synced(h.ledger, baseline, look, gone, {});
    forall id
      ensures Known(Counted(after), id) + Known(OutOfSight(l), id) == Known(Counted(l), id) + Known(Gains(l), id)
    {
      FailedSyncBalances(h, baseline, look, gone, id);
    }
    TotalsBalance(Counted(after), OutOfSight(l), Counted(l), Gains(l));
    ShownIsCounted(h, baseline);
    SyncedShowsCounted(l, baseline, look, gone);
    LossesExactly(h, baseline);
    if NothingGrew(l) {
      NoGains(l);
    }
  }

  lemma {:induction false} NoGain(l: Ledger, id: Id)
    requires NothingGrew(l) && id in Gains(l)
    ensures Gains(l)[id] == Cost(0.0, 1, 0, 0)
  {
  }

  lemma {:induction false} NoGains(l: Ledger)
    requires NothingGrew(l)
    ensures Total(Gains(l)).knownUsd == 0.0
  {
    var gains := Gains(l);
    forall id | id in gains
      ensures gains[id] == Cost(0.0, 1, 0, 0)
    {
      NoGain(l, id);
    }
    NothingInAll(gains);
  }

  lemma {:induction false} NothingInAll(m: map<Id, Cost>)
    requires forall id | id in m :: m[id] == Cost(0.0, 1, 0, 0)
    ensures Total(m).knownUsd == 0.0
  {
    PositiveTotal(m);
  }

  lemma {:induction false} LossesExactly(h: Hop, baseline: Cost)
    requires Inv(h, baseline)
    ensures var lost := OutOfSight(h.ledger);
            Total(lost).knownUsd > 0.0 <==>
              exists id :: id in lost && id in h.disk && id !in h.ledger.cache.held && lost[id].knownUsd > 0.0
  {
    LostAreUnread(h, baseline);
    PositiveTotal(OutOfSight(h.ledger));
  }

  lemma {:induction false} LostAreUnread(h: Hop, baseline: Cost)
    requires Inv(h, baseline)
    ensures AllFounded(OutOfSight(h.ledger)) && AllFounded(Counted(h.ledger))
    ensures forall id | id in OutOfSight(h.ledger) ::
              id in h.disk && id !in h.ledger.cache.held && id in Counted(h.ledger)
              && Counted(h.ledger)[id] == OutOfSight(h.ledger)[id]
  {
  }

  // ----- rolled-back removals

  /** Before and after a rollback: every other record is held, and no other cost grew. */
  predicate OthersQuiet(h: Hop, id: Id) {
    var l := h.ledger;
    && l.cache.held - {id} == h.disk - {id}
    && forall x | x != id && x in l.registry && x !in h.disk ::
         x in l.agents && SubtreeCost(l.registry[x]).knownUsd <= l.agents[x].knownUsd
  }

  ghost function RolledBackAndSynced(h: Hop, baseline: Cost, id: Id, look: Look, gone: set<Id>): Ledger {
    Syncing(After(h, baseline, RolledBack(id)), baseline, look, gone).ledger
  }

  lemma {:induction false} OthersCountTheSame(h: Hop, baseline: Cost, id: Id, look: Look, gone: set<Id>, x: Id)
    requires Inv(h, baseline) && OthersQuiet(h, id) && id in h.disk && x != id
    requires CacheAfter(h.ledger.cache, look).held == h.disk - {id}
    ensures var a, b := Counted(h.ledger), Counted(RolledBackAndSynced(h, baseline, id, look, gone));
            (x in a <==> x in b) && (x in a ==> a[x].knownUsd == b[x].knownUsd)
  {
    var l := h.ledger;
    assert x in l.cache.held <==> x in l.cache.held - {id};
    assert x in h.disk <==> x in h.disk - {id};
    if x in h.disk {
      assert (l.cache.held - {id})[x] == (h.disk - {id})[x];
    } else if x in l.registry {
      TrackedSame(l.agents[x], SubtreeCost(l.registry[x]));
    }
  }

  lemma {:induction false} AllButOne(a: map<Id, Cost>, b: map<Id, Cost>, id: Id)
    requires AllFounded(a) && AllFounded(b) && id in a && id in b
    requires forall x | x != id :: (x in a <==> x in b) && (x in a ==> a[x].knownUsd == b[x].knownUsd)
    ensures Total(b).knownUsd - Total(a).knownUsd == b[id].knownUsd - a[id].knownUsd
  {
    TotalWithout(a, id);
    TotalWithout(b, id);
    var nothing: map<Id, Cost> := map[];
    TotalsBalance(a - {id}, nothing, b - {id}, nothing);
  }

  lemma {:induction false} RolledBackCounts(h: Hop, baseline: Cost, id: Id, look: Look, gone: set<Id>)
    requires Inv(h, baseline) && id in h.disk && id in h.ledger.registry
    requires CacheAfter(h.ledger.cache, look).held == h.disk - {id}
    ensures var b := Counted(RolledBackAndSynced(h, baseline, id, look, gone));
            AllFounded(b) && id in b && b[id] == Merge(Lookup(h.ledger.agents, id), SubtreeCost(h.ledger.registry[id]))
  {
    var t := After(h, baseline, RolledBack(id));
    SyncedFounded(t, baseline, look, gone);
  }

  /**
   * A removal that rolls back takes its record away and its child counts live again. The next sync moves the
   * total by exactly that child's new count less its old one; it falls if and only if the record had been
   * read already and held more than the child's subtree costs now.
   */
  lemma {:induction false} RollbackLosesTheFloor(h: Hop, baseline: Cost, id: Id, look: Look, gone: set<Id>)
    requires Inv(h, baseline) && OthersQuiet(h, id) && id in h.disk && id in h.ledger.registry
             && id in Counted(h.ledger)
    requires CacheAfter(h.ledger.cache, look).held == h.disk - {id}
    ensures var l, child := h.ledger, SubtreeCost(h.ledger.registry[id]);
            var after := RolledBackAndSynced(h, baseline, id, look, gone);
            && after.total.knownUsd - l.total.knownUsd
               == Merge(Lookup(l.agents, id), child).knownUsd - Counted(l)[id].knownUsd
            && (after.total.knownUsd < l.total.knownUsd <==>
                  id in l.cache.held && child.knownUsd < l.cache.held[id].knownUsd)
  {
    RollbackMoves(h, baseline, id, look, gone);
    MergedIsNoLess(Lookup(h.ledger.agents, id), SubtreeCost(h.ledger.registry[id]));
  }

  lemma {:induction false} RollbackMoves(h: Hop, baseline: Cost, id: Id, look: Look, gone: set<Id>)
    requires Inv(h, baseline) && OthersQuiet(h, id) && id in h.disk && id in h.ledger.registry
             && id in Counted(h.ledger)
    requires CacheAfter(h.ledger.cache, look).held == h.disk - {id}
    ensures RolledBackAndSynced(h, baseline, id, look, gone).total.knownUsd - h.ledger.total.knownUsd
            == FloorCost(h.ledger, id).knownUsd - Counted(h.ledger)[id].knownUsd
  {
    RollbackCounts(h, baseline, id, look, gone);
    ShownIsCounted(h, baseline);
    SyncedShowsCounted(After(h, baseline, RolledBack(id)).ledger, baseline, look, gone);
  }

  lemma {:induction false} RollbackCounts(h: Hop, baseline: Cost, id: Id, look: Look, gone: set<Id>)
    requires Inv(h, baseline) && OthersQuiet(h, id) && id in h.disk && id in h.ledger.registry
             && id in Counted(h.ledger)
    requires CacheAfter(h.ledger.cache, look).held == h.disk - {id}
    ensures var after := RolledBackAndSynced(h, baseline, id, look, gone);
            Total(Counted(after)).knownUsd - Total(Counted(h.ledger)).knownUsd
            == FloorCost(h.ledger, id).knownUsd - Counted(h.ledger)[id].knownUsd
  {
    var before, after := Counted(h.ledger), Counted(RolledBackAndSynced(h, baseline, id, look, gone));
    RolledBackCounts(h, baseline, id, look, gone);
    LostAreUnread(h, baseline);
    forall x: Id | x != id
      ensures (x in before <==> x in after) && (x in before ==> before[x].knownUsd == after[x].knownUsd)
    {
      OthersCountTheSame(h, baseline, id, look, gone, x);
    }
    AllButOne(before, after, id);
  }

  // ----- the two losses at work

  lemma {:induction false} TotalOfOne(id: Id, m: map<Id, Cost>)
    requires m.Keys == {id}
    ensures Total(m) == m[id]
  {
    var nothing: map<Id, Cost> := map[];
    TotalWithout(m, id);
    assert m - {id} == nothing;
    UnionWithNothing(nothing, nothing);
    PlusNothing(m[id]);
    PlusSwaps(ZERO, m[id], ZERO);
  }

  /** A sync that reads nothing new and finds nothing grown keeps every count. */
  lemma {:induction false} QuietSync(h: Hop, baseline: Cost, look: Look)
    requires Inv(h, baseline) && Fresh(h) && NothingGrew(h.ledger) && CacheAfter(h.ledger.cache, look).held == h.disk
    ensures var t := Syncing(h, baseline, look, {});
            && Inv(t, baseline) && Fresh(t) && NothingGrew(t.ledger)
            && t.ledger.total.knownUsd == h.ledger.total.knownUsd
    ensures var t := Syncing(h, baseline, look, {}).ledger;
            && (forall id | id in h.ledger.registry && id !in h.disk :: id in t.registry)
            && (forall id :: id in t.agents <==> id in h.ledger.agents)
            && (forall id | id in t.agents :: t.agents[id].knownUsd == h.ledger.agents[id].knownUsd)
  {
    SyncKeepsInv(h, baseline, look, {});
    QuietTotal(h, baseline, look);
    QuietAgents(h, baseline, look);
  }

  lemma {:induction false} QuietTotal(h: Hop, baseline: Cost, look: Look)
    requires Inv(h, baseline) && Fresh(h) && NothingGrew(h.ledger) && CacheAfter(h.ledger.cache, look).held == h.disk
    ensures Syncing(h, baseline, look, {}).ledger.total.knownUsd == h.ledger.total.knownUsd
  {
    FailedSyncLowersExactly(h, baseline, look, {});
    NothingUnread(h, baseline);
  }

  lemma {:induction false} NothingUnread(h: Hop, baseline: Cost)
    requires Inv(h, baseline) && Fresh(h)
    ensures Total(OutOfSight(h.ledger)) == ZERO
  {
    LostAreUnread(h, baseline);
    UnionWithNothing(OutOfSight(h.ledger), OutOfSight(h.ledger));
  }

  lemma {:induction false} QuietAgents(h: Hop, baseline: Cost, look: Look)
    requires Inv(h, baseline) && Fresh(h) && NothingGrew(h.ledger) && CacheAfter(h.ledger.cache, look).held == h.disk
    ensures var t := Syncing(h, baseline, look, {}).ledger;
            && NothingGrew(t)
            && (forall id | id in h.ledger.registry && id !in h.disk :: id in t.registry)
            && (forall id :: id in t.agents <==> id in h.ledger.agents)
            && (forall id | id in t.agents :: t.agents[id].knownUsd == h.ledger.agents[id].knownUsd)
  {
    var l, t := h.ledger, Syncing(h, baseline, look, {}).ledger;
    forall id | id in t.agents
      ensures id in l.agents && t.agents[id].knownUsd == l.agents[id].knownUsd
    {
      TrackedSame(l.agents[id], SubtreeCost(l.registry[id]));
    }
  }

  lemma {:induction false} QuietSyncOf(h: Hop, baseline: Cost, look: Look, id: Id)
    requires Inv(h, baseline) && Fresh(h) && NothingGrew(h.ledger) && CacheAfter(h.ledger.cache, look).held == h.disk
    requires id in h.ledger.registry && id in h.ledger.agents && id !in h.disk
    ensures var t := Syncing(h, baseline, look, {});
            && Inv(t, baseline) && Fresh(t) && NothingGrew(t.ledger) && t.disk == h.disk
            && id in t.ledger.registry && id in t.ledger.agents
            && t.ledger.agents[id].knownUsd == h.ledger.agents[id].knownUsd
            && t.ledger.total.knownUsd == h.ledger.total.knownUsd
            && Total(Best(t)).knownUsd >= Total(Best(h)).knownUsd
  {
    QuietSync(h, baseline, look);
    SyncKeeps(h, baseline, look, {});
  }

  /** The hop after a capacity eviction of one child and the drop that follows it. */
  ghost function Evicted(h: Hop, baseline: Cost, id: Id, look: Look): Hop {
    After(Recording(Syncing(h, baseline, look, {}), id), baseline, Drop(id))
  }

  lemma {:induction false} DropKeeps(h: Hop, baseline: Cost, id: Id)
    requires Inv(h, baseline)
    ensures var t := After(h, baseline, Drop(id)); Inv(t, baseline) && Best(t) == Best(h)
  {
  }

  /** Dropping a tracked child whose record is not held hides exactly that child. */
  lemma {:induction false} DroppedOutOfSight(h: Hop, baseline: Cost, id: Id)
    requires Inv(h, baseline) && NothingGrew(h.ledger) && id in h.ledger.agents && id in h.disk
             && id !in h.ledger.cache.held
    requires forall x | x in h.ledger.agents :: x in h.ledger.registry
    ensures var t := After(h, baseline, Drop(id));
            && NothingGrew(t.ledger) && t.ledger == h.ledger.(registry := t.ledger.registry) && id in t.disk
            && OutOfSight(t.ledger).Keys == {id}
  {
  }

  lemma {:induction false} RecordedAndDropped(h: Hop, baseline: Cost, id: Id)
    requires Inv(h, baseline) && Fresh(h) && NothingGrew(h.ledger)
    requires id in h.ledger.registry && id in h.ledger.agents && id !in h.disk
    ensures var t := After(Recording(h, id), baseline, Drop(id));
            && Inv(t, baseline) && NothingGrew(t.ledger) && t.ledger == h.ledger.(registry := t.ledger.registry)
            && id in t.disk && OutOfSight(t.ledger).Keys == {id} && Total(Best(t)).knownUsd >= Total(Best(h)).knownUsd
  {
    RecordingKeeps(h, baseline, id);
    DropKeeps(Recording(h, id), baseline, id);
    DroppedOutOfSight(Recording(h, id), baseline, id);
  }

  /** An eviction whose sync reads nothing new keeps every count, and its drop puts that one child out of sight. */
  lemma {:induction false} EvictedOutOfSight(h: Hop, baseline: Cost, id: Id, look: Look)
    requires Inv(h, baseline) && Fresh(h) && NothingGrew(h.ledger) && CacheAfter(h.ledger.cache, look).held == h.disk
    requires id in h.ledger.registry && id in h.ledger.agents && id !in h.disk
    ensures var t := Evicted(h, baseline, id, look);
            && Inv(t, baseline) && NothingGrew(t.ledger) && t.ledger.cache.held == h.disk && id in t.disk
            && t.ledger.total.knownUsd == h.ledger.total.knownUsd
            && Total(Best(t)).knownUsd >= Total(Best(h)).knownUsd
            && OutOfSight(t.ledger).Keys == {id} && OutOfSight(t.ledger)[id].knownUsd == h.ledger.agents[id].knownUsd
  {
    QuietSyncOf(h, baseline, look, id);
    EvictedFrom(h, Syncing(h, baseline, look, {}), baseline, id);
  }

  lemma {:induction false} EvictedFrom(h: Hop, synced: Hop, baseline: Cost, id: Id)
    requires Inv(synced, baseline) && Fresh(synced) && NothingGrew(synced.ledger) && synced.disk == h.disk
    requires id in synced.ledger.registry && id in synced.ledger.agents && id !in h.disk && id in h.ledger.agents
    requires synced.ledger.agents[id].knownUsd == h.ledger.agents[id].knownUsd
    requires synced.ledger.total.knownUsd == h.ledger.total.knownUsd
    requires Total(Best(synced)).knownUsd >= Total(Best(h)).knownUsd
    ensures var t := After(Recording(synced, id), baseline, Drop(id));
            && Inv(t, baseline) && NothingGrew(t.ledger) && t.ledger.cache.held == h.disk && id in t.disk
            && t.ledger.total.knownUsd == h.ledger.total.knownUsd
            && Total(Best(t)).knownUsd >= Total(Best(h)).knownUsd
            && OutOfSight(t.ledger).Keys == {id} && OutOfSight(t.ledger)[id].knownUsd == h.ledger.agents[id].knownUsd
  {
    RecordedAndDropped(synced, baseline, id);
    assert OutOfSight(After(Recording(synced, id), baseline, Drop(id)).ledger)[id] == synced.ledger.agents[id];
  }

  /** With one child out of sight and nothing grown, a failed read shows its dollars gone. */
  lemma {:induction false} FailedReadHides(h: Hop, baseline: Cost, id: Id, look: Look)
    requires Inv(h, baseline) && NothingGrew(h.ledger) && CacheAfter(h.ledger.cache, look).held == h.ledger.cache.held
    requires OutOfSight(h.ledger).Keys == {id}
    ensures Syncing(h, baseline, look, {}).ledger.total.knownUsd
            == h.ledger.total.knownUsd - OutOfSight(h.ledger)[id].knownUsd
  {
    FailedSyncLowersExactly(h, baseline, look, {});
    TotalOfOne(id, OutOfSight(h.ledger));
  }

  /** Two fresh hops compare as the best they could show. */
  lemma {:induction false} FreshCompare(earlier: Hop, later: Hop, baseline: Cost)
    requires Inv(earlier, baseline) && Fresh(earlier) && Inv(later, baseline) && Fresh(later)
    requires Total(Best(later)).knownUsd >= Total(Best(earlier)).knownUsd
    ensures later.ledger.total.knownUsd >= earlier.ledger.total.knownUsd
  {
    FreshShowsBest(earlier, baseline);
    FreshShowsBest(later, baseline);
  }

  lemma {:induction false} GoodReadRestores(h: Hop, t: Hop, baseline: Cost, failed: Look, good: Look)
    requires Inv(h, baseline) && Fresh(h) && Inv(t, baseline) && Total(Best(t)).knownUsd >= Total(Best(h)).knownUsd
    requires CacheAfter(t.ledger.cache, failed).held == t.ledger.cache.held
    requires CacheAfter(Syncing(t, baseline, failed, {}).ledger.cache, good).held == t.disk
    ensures Syncing(Syncing(t, baseline, failed, {}), baseline, good, {}).ledger.total.knownUsd
            >= h.ledger.total.knownUsd
  {
    var hidden := Syncing(t, baseline, failed, {});
    SyncKeeps(t, baseline, failed, {});
    SyncKeeps(hidden, baseline, good, {});
    FreshCompare(h, Syncing(hidden, baseline, good, {}), baseline);
  }

  /**
   * A sync that fails right after a capacity eviction shows the evicted child's dollars gone; a good one brings
   * them back.
   */
  lemma {:induction false} FailedReadHidesEviction(h: Hop, baseline: Cost, id: Id, look: Look, failed: Look, good: Look)
    requires Inv(h, baseline) && Fresh(h) && NothingGrew(h.ledger) && CacheAfter(h.ledger.cache, look).held == h.disk
    requires id in h.ledger.registry && id in h.ledger.agents && id !in h.disk
    requires var t := Evicted(h, baseline, id, look);
             && CacheAfter(t.ledger.cache, failed).held == h.disk
             && CacheAfter(Syncing(t, baseline, failed, {}).ledger.cache, good).held == t.disk
    ensures var hidden := Syncing(Evicted(h, baseline, id, look), baseline, failed, {});
            && hidden.ledger.total.knownUsd == h.ledger.total.knownUsd - h.ledger.agents[id].knownUsd
            && Syncing(hidden, baseline, good, {}).ledger.total.knownUsd >= h.ledger.total.knownUsd
  {
    var t := Evicted(h, baseline, id, look);
    EvictedOutOfSight(h, baseline, id, look);
    FailedReadHides(t, baseline, id, failed);
    GoodReadRestores(h, t, baseline, failed, good);
  }

  const AGENT := Id(0)

  function Spent(usd: real): Child {
    Child(Some(Telemetry.Reduced(None, Some(usd), None)), None, true, true)
  }

  /** A read of these records, its stamp too young to be trusted; and a read that fails. */
  function Seen(records: Records): Look {
    Look(AbsentKey, Some(records), 0.0)
  }

  const UNREAD := Look(AbsentKey, None, 0.0)

  /** A hop of these children after a first sync. */
  ghost function OneChild(registry: Registry): Hop {
    Syncing(Start(registry, ZERO), ZERO, Seen(map[]), {})
  }

  lemma {:induction false} FirstSync(l: Ledger, baseline: Cost, look: Look, id: Id)
    requires l.registry.Keys == {id} && l.agents == map[] && CacheAfter(l.cache, look).held == map[]
    ensures var s := Synced(l, baseline, look, {}, {});
            && s.registry == l.registry && s.agents.Keys == {id} && s.agents[id] == SubtreeCost(l.registry[id])
            && s.cache == CacheAfter(l.cache, look) && Counted(s) == s.agents
  {
    assert id in l.registry;
  }

  lemma {:induction false} OneTracked(h: Hop, registry: Registry, id: Id)
    requires Inv(h, ZERO) && h.disk == map[] && h.ledger.cache.held == map[]
    requires registry.Keys == {id} && h.ledger.registry == registry
    requires h.ledger.agents.Keys == {id} && h.ledger.agents[id] == SubtreeCost(registry[id])
    requires Counted(h.ledger) == h.ledger.agents
    ensures Fresh(h) && NothingGrew(h.ledger) && id in h.ledger.agents
    ensures h.ledger.total.knownUsd == SubtreeCost(registry[id]).knownUsd
  {
    assert id in h.ledger.agents.Keys;
    TotalOfOne(id, h.ledger.agents);
    ShownIsCounted(h, ZERO);
  }

  /** A first sync sets up the run invariant. */
  lemma {:induction false} FirstSyncInv(h: Hop, baseline: Cost, look: Look, id: Id)
    requires h.ledger.registry.Keys == {id} && Founded(SubtreeCost(h.ledger.registry[id]))
    requires h.ledger.agents == map[] && h.disk == map[] && CacheAfter(h.ledger.cache, look).held == map[]
    ensures Inv(Syncing(h, baseline, look, {}), baseline)
  {
    FirstSync(h.ledger, baseline, look, id);
    SyncCountsOnce(h.ledger, baseline, look, {}, {});
  }

  lemma {:induction false} OneChildTracked(registry: Registry, id: Id)
    requires registry.Keys == {id} && Founded(SubtreeCost(registry[id]))
    ensures var h, cost := OneChild(registry), SubtreeCost(registry[id]);
            && Inv(h, ZERO) && Fresh(h) && NothingGrew(h.ledger)
            && h.disk == map[] && h.ledger.cache == Cache(map[], None) && h.ledger.registry == registry
            && id in h.ledger.agents && h.ledger.agents[id] == cost && h.ledger.total.knownUsd == cost.knownUsd
  {
    FirstSyncInv(Start(registry, ZERO), ZERO, Seen(map[]), id);
    FirstSync(Start(registry, ZERO).ledger, ZERO, Seen(map[]), id);
    OneTracked(OneChild(registry), registry, id);
  }

  /**
   * The one child, having spent `spent`, is evicted and dropped, the next read fails, and the estimate shows
   * nothing.
   */
  lemma {:induction false} DollarsHidden(registry: Registry, spent: real)
    requires registry.Keys == {AGENT} && registry[AGENT] == Spent(spent) && spent >= 0.0
    ensures OneChild(registry).ledger.total.knownUsd == spent
    ensures var evicted := Evicted(OneChild(registry), ZERO, AGENT, Seen(map[]));
            Syncing(evicted, ZERO, UNREAD, {}).ledger.total.knownUsd == 0.0
  {
    var h := OneChild(registry);
    OneChildTracked(registry, AGENT);
    EvictedOutOfSight(h, ZERO, AGENT, Seen(map[]));
    FailedReadHides(Evicted(h, ZERO, AGENT, Seen(map[])), ZERO, AGENT, UNREAD);
  }

  /**
   * With one registered child and only its record, read: what the hop shows, and shows again once that record
   * rolled back.
   */
  lemma {:induction false} OneRolledBack(h: Hop, baseline: Cost, id: Id, look: Look)
    requires Inv(h, baseline) && Fresh(h) && h.ledger.registry.Keys == {id} && h.disk.Keys == {id}
    requires CacheAfter(h.ledger.cache, look).held == map[]
    ensures h.ledger.total.knownUsd == baseline.knownUsd + h.disk[id].knownUsd
    ensures RolledBackAndSynced(h, baseline, id, look, {}).total.knownUsd
            == baseline.knownUsd + SubtreeCost(h.ledger.registry[id]).knownUsd
  {
    assert id in h.ledger.registry.Keys && id in h.disk.Keys;
    assert id !in h.ledger.agents && h.disk - {id} == map[];
    assert Best(h).Keys == {id} by {
      assert forall x | x in h.ledger.agents :: x in h.disk || x in h.ledger.registry;
    }
    TotalOfOne(id, Best(h));
    FreshShowsBest(h, baseline);
    RollbackMoves(h, baseline, id, look, {});
  }

  lemma {:induction false} OneRecordRead(h: Hop, baseline: Cost, id: Id, look: Look)
    requires Inv(h, baseline) && h.ledger.registry.Keys == {id} && h.disk.Keys == {id}
    requires h.ledger.registry[id].live && CacheAfter(h.ledger.cache, look).held == h.disk
    ensures var t := Syncing(h, baseline, look, {});
            Inv(t, baseline) && Fresh(t) && t.ledger.registry == h.ledger.registry && t.disk == h.disk
  {
    SyncKeepsInv(h, baseline, look, {});
    assert id in h.ledger.registry.Keys;
  }

  lemma {:induction false} OneRecorded(h: Hop, baseline: Cost, id: Id)
    requires Inv(h, baseline) && NothingGrew(h.ledger) && h.disk == map[] && h.ledger.cache.held == map[]
    requires h.ledger.registry.Keys == {id} && id in h.ledger.agents
    ensures var t := Recording(h, id);
            && Inv(t, baseline) && t.ledger == h.ledger && t.disk.Keys == {id}
            && t.disk[id].knownUsd == h.ledger.agents[id].knownUsd
  {
    assert id in h.ledger.registry.Keys;
    RecordingKeeps(h, baseline, id);
    TrackedSame(h.ledger.agents[id], SubtreeCost(h.ledger.registry[id]));
  }

  lemma {:induction false} OneSynced(h: Hop, baseline: Cost, id: Id, look: Look)
    requires Inv(h, baseline) && Fresh(h) && NothingGrew(h.ledger) && CacheAfter(h.ledger.cache, look).held == h.disk
    requires h.disk == map[] && h.ledger.registry.Keys == {id} && id in h.ledger.agents
    ensures var t := Syncing(h, baseline, look, {});
            && Inv(t, baseline) && NothingGrew(t.ledger) && t.disk == map[] && t.ledger.cache.held == map[]
            && t.ledger.registry == h.ledger.registry && id in t.ledger.agents
            && t.ledger.agents[id].knownUsd == h.ledger.agents[id].knownUsd
  {
    assert id in h.ledger.registry.Keys;
    QuietSyncOf(h, baseline, look, id);
  }

  /** A child that is recorded and then reports another cost. */
  ghost function RecordedThenReports(h: Hop, baseline: Cost, id: Id, look: Look, child: Child): Hop {
    After(Recording(Syncing(h, baseline, look, {}), id), baseline, Report(id, child))
  }

  lemma {:induction false} OneReported(h: Hop, baseline: Cost, id: Id, look: Look, child: Child)
    requires Inv(h, baseline) && Fresh(h) && NothingGrew(h.ledger) && CacheAfter(h.ledger.cache, look).held == h.disk
    requires h.disk == map[] && h.ledger.registry.Keys == {id} && id in h.ledger.agents && Founded(SubtreeCost(child))
    ensures var t := RecordedThenReports(h, baseline, id, look, child);
            && Inv(t, baseline) && t.disk.Keys == {id} && t.disk[id].knownUsd == h.ledger.agents[id].knownUsd
            && t.ledger.registry.Keys == {id} && t.ledger.registry[id] == child
            && t.ledger.cache == CacheAfter(h.ledger.cache, look)
  {
    OneSynced(h, baseline, id, look);
    OneRecorded(Syncing(h, baseline, look, {}), baseline, id);
    StepKeeps(Recording(Syncing(h, baseline, look, {}), id), baseline, Report(id, child));
  }

  /** The hop once the records are read after that. */
  ghost function ThenReads(h: Hop, baseline: Cost): Hop {
    Syncing(h, baseline, Seen(h.disk), {})
  }

  lemma {:induction false} OneRollback(reported: Hop, baseline: Cost, id: Id)
    requires Inv(reported, baseline) && reported.disk.Keys == {id}
    requires reported.ledger.registry.Keys == {id} && reported.ledger.registry[id].live
    requires reported.ledger.cache.signal.None?
    ensures var read := ThenReads(reported, baseline);
            && read.ledger.total.knownUsd == baseline.knownUsd + reported.disk[id].knownUsd
            && RolledBackAndSynced(read, baseline, id, Seen(map[]), {}).total.knownUsd
               == baseline.knownUsd + SubtreeCost(reported.ledger.registry[id]).knownUsd
  {
    OneRecordRead(reported, baseline, id, Seen(reported.disk));
    OneRolledBack(ThenReads(reported, baseline), baseline, id, Seen(map[]));
  }

  /**
   * The hop shows `was`, and still does once the child is recorded, reports another cost, and the record is
   * read; it shows `now` after that record rolls back.
   */
  ghost predicate Loses(h: Hop, baseline: Cost, id: Id, child: Child, was: real, now: real) {
    var read := ThenReads(RecordedThenReports(h, baseline, id, Seen(map[]), child), baseline);
    && h.ledger.total.knownUsd == was && read.ledger.total.knownUsd == was
    && RolledBackAndSynced(read, baseline, id, Seen(map[]), {}).total.knownUsd == now
  }

  lemma {:induction false} OneLoss(h: Hop, baseline: Cost, id: Id, child: Child)
    requires Inv(h, baseline) && Fresh(h) && NothingGrew(h.ledger) && h.ledger.cache == Cache(map[], None)
    requires h.ledger.registry.Keys == {id} && id in h.ledger.agents && Founded(SubtreeCost(child)) && child.live
    requires h.ledger.total.knownUsd == baseline.knownUsd + h.ledger.agents[id].knownUsd
    ensures Loses(h, baseline, id, child, h.ledger.total.knownUsd, baseline.knownUsd + SubtreeCost(child).knownUsd)
  {
    OneReported(h, baseline, id, Seen(map[]), child);
    OneRollback(RecordedThenReports(h, baseline, id, Seen(map[]), child), baseline, id);
  }

  /** The one child spends `spent` and is recorded, then reports `less`: after the rollback only that much shows. */
  lemma {:induction false} DollarsLost(registry: Registry, spent: real, less: real)
    requires registry.Keys == {AGENT} && registry[AGENT] == Spent(spent) && 0.0 <= less < spent
    ensures Loses(OneChild(registry), ZERO, AGENT, Spent(less), spent, less)
  {
    OneChildTracked(registry, AGENT);
    OneLoss(OneChild(registry), ZERO, AGENT, Spent(less));
  }
}
