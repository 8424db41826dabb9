// agent-cost.ts: one hop's cost estimate over its live children and the eviction records of its removed ones.

module CostLedger {
  import opened Options
  import opened Costs
  import opened RecordSignal
  import Telemetry

  /**
   * A registered direct child: its reduced usage, its last reported descendant usage, and whether it runs or has
   * a home.
   */
  datatype Child = Child(telemetry: Option<Telemetry.Reduced>, descendants: Option<Cost>, live: bool, owned: bool)

  type Registry = map<Id, Child>

  function OwnCost(t: Option<Telemetry.Reduced>): Cost {
    if t.Some? && t.value.estimatedUsd.Some? then Cost(t.value.estimatedUsd.value, 1, 0, 1)
    else if t.Some? && t.value.partialEstimatedUsd.Some? then Cost(t.value.partialEstimatedUsd.value, 1, 1, 1)
    else Cost(0.0, 0, 1, 1)
  }

  function SubtreeCost(c: Child): Cost {
    if c.descendants.Some? then Plus(OwnCost(c.telemetry), c.descendants.value) else OwnCost(c.telemetry)
  }

  function Lookup(m: map<Id, Cost>, id: Id): Option<Cost> {
    if id in m then Some(m[id]) else None
  }

  // ----- sums over identities

  /** The sum of all costs in a map, each identity once. */
  ghost function Total(m: map<Id, Cost>): Cost
    decreases |m|
  {
    if m == map[] then ZERO
    else
      var id :| id in m;
      Plus(Total(m - {id}), m[id])
  }

  lemma {:induction false} PlusSwaps(a: Cost, b: Cost, c: Cost)
    ensures Plus(Plus(a, b), c) == Plus(Plus(a, c), b) == Plus(a, Plus(b, c))
  {
  }

  lemma {:induction false} TotalWithout(m: map<Id, Cost>, id: Id)
    requires id in m
    ensures Total(m) == Plus(Total(m - {id}), m[id])
    decreases |m|
  {
    assert m != map[];
    var pick :| pick in m && Total(m) == Plus(Total(m - {pick}), m[pick]);
    if pick != id {
      TotalWithout(m - {pick}, id);
      TotalWithout(m - {id}, pick);
      assert m - {pick} - {id} == m - {id} - {pick};
      PlusSwaps(Total(m - {id} - {pick}), m[id], m[pick]);
    }
  }

  lemma {:induction false} UnionWithout(a: map<Id, Cost>, b: map<Id, Cost>, id: Id)
    requires id !in a
    ensures (a + b) - {id} == a + (b - {id})
  {
  }

  predicate Apart(a: map<Id, Cost>, b: map<Id, Cost>) {
    forall id | id in b :: id !in a
  }

  lemma {:induction false} TotalDisjointStep(a: map<Id, Cost>, b: map<Id, Cost>, id: Id)
    requires id in b && id !in a && Total(a + (b - {id})) == Plus(Total(a), Total(b - {id}))
    ensures Total(a + b) == Plus(Total(a), Total(b))
  {
    UnionWithout(a, b, id);
    TotalWithout(a + b, id);
    TotalWithout(b, id);
    PlusSwaps(Total(a), Total(b - {id}), b[id]);
  }

  lemma {:induction false} UnionWithNothing(a: map<Id, Cost>, b: map<Id, Cost>)
    requires b == map[]
    ensures a + b == a && Total(b) == ZERO
  {
  }

  lemma {:induction false} PlusNothing(c: Cost)
    ensures Plus(c, ZERO) == c
  {
  }

  /** Two disjoint maps sum to the sum of their union: nothing is counted twice. */
  lemma {:induction false} TotalDisjoint(a: map<Id, Cost>, b: map<Id, Cost>)
    requires Apart(a, b)
    ensures Total(a + b) == Plus(Total(a), Total(b))
    decreases |b|
  {
    if b == map[] {
      UnionWithNothing(a, b);
      PlusNothing(Total(a));
    } else {
      var id :| id in b;
      TotalDisjoint(a, b - {id});
      TotalDisjointStep(a, b, id);
    }
  }

  predicate AllFounded(m: map<Id, Cost>) {
    forall id | id in m :: Founded(m[id])
  }

  /** Identity by identity no less, so no less in all. */
  lemma {:induction false} TotalGrows(a: map<Id, Cost>, b: map<Id, Cost>)
    requires AllFounded(b) && forall id | id in a :: id in b && b[id].knownUsd >= a[id].knownUsd
    ensures Total(b).knownUsd >= Total(a).knownUsd
    decreases |b|
  {
    if b == map[] {
      assert a == map[];
    } else {
      var id :| id in b;
      TotalGrows(a - {id}, b - {id});
      TotalWithout(b, id);
      if id in a {
        TotalWithout(a, id);
      } else {
        assert a - {id} == a;
      }
    }
  }

  // ----- one sync

  datatype Ledger = Ledger(registry: Registry, agents: map<Id, Cost>, cache: Cache, total: Cost)

  /** A recorded child that neither runs nor may still get its home back. */
  predicate Removable(c: Child, id: Id, gone: set<Id>) {
    !c.live && (!c.owned || id in gone)
  }

  function Pruned(registry: Registry, records: Records, gone: set<Id>): Registry {
    map id | id in registry && !(id in records && Removable(registry[id], id, gone)) :: registry[id]
  }

  /** Every registered child without a record, over what it was tracked at. */
  function Recomputed(agents: map<Id, Cost>, registry: Registry, records: Records, omit: set<Id>): map<Id, Cost> {
    map id | id in registry && id !in records && id !in omit :: Merge(Lookup(agents, id), SubtreeCost(registry[id]))
  }

  /** The identities done are merged over what they were tracked at, the others untouched. */
  ghost predicate MergedOver(agents: map<Id, Cost>, before: map<Id, Cost>, registry: Registry, done: set<Id>)
    requires done <= registry.Keys
  {
    && (forall id | id !in done :: Lookup(agents, id) == Lookup(before, id))
    && (forall id | id in done :: Lookup(agents, id) == Some(Merge(Lookup(before, id), SubtreeCost(registry[id]))))
  }

  lemma {:induction false} MergedIsRecomputed(merged: map<Id, Cost>, before: map<Id, Cost>, registry: Registry,
          records: Records, omit: set<Id>)
    requires MergedOver(merged, before, registry, registry.Keys - records.Keys - omit)
    ensures (map id | id in merged && id !in omit && id !in records && id in registry :: merged[id])
            == Recomputed(before, registry, records, omit)
  {
    var kept := map id | id in merged && id !in omit && id !in records && id in registry :: merged[id];
    forall id
      ensures Lookup(kept, id) == Lookup(Recomputed(before, registry, records, omit), id)
    {
      assert id in registry.Keys - records.Keys - omit <==> id in registry && id !in records && id !in omit;
    }
    assert forall id :: (id in kept <==> Lookup(kept, id).Some?) && (id in kept ==> Lookup(kept, id) == Some(kept[id]));
  }

  /** What a sync saw of the record directory. */
  datatype Look = Look(key: Key, read: Option<Records>, now: real)

  function CacheAfter(c: Cache, look: Look): Cache {
    if Skips(c, look.key) then c else Refreshed(c, look.key, look.read, look.now)
  }

  ghost function Synced(l: Ledger, baseline: Cost, look: Look, gone: set<Id>, omit: set<Id>): Ledger {
    var cache := CacheAfter(l.cache, look);
    var registry := Pruned(l.registry, cache.held, gone);
    var agents := Recomputed(l.agents, registry, cache.held, omit);
    Ledger(registry, agents, cache, Plus(Plus(baseline, Total(cache.held)), Total(agents)))
  }

  /** Each identity counts once, as a record or as a live entry, and the total is the baseline and all of them. */
  ghost predicate CountsOnce(l: Ledger, baseline: Cost) {
    && Apart(l.cache.held, l.agents)
    && (forall id | id in l.agents :: id in l.registry)
    && l.total == Plus(baseline, Total(l.cache.held + l.agents))
  }

  lemma {:induction false} SyncCountsOnce(l: Ledger, baseline: Cost, look: Look, gone: set<Id>, omit: set<Id>)
    ensures CountsOnce(Synced(l, baseline, look, gone, omit), baseline)
    ensures var s := Synced(l, baseline, look, gone, omit);
            forall id :: id in s.agents <==> id in s.registry && id !in s.cache.held && id !in omit
  {
    var s := Synced(l, baseline, look, gone, omit);
    var held, agents := s.cache.held, s.agents;
    assert Apart(held, agents);
    TotalDisjoint(held, agents);
    PlusSwaps(baseline, Total(held), Total(agents));
  }

  // ----- what a sync adds up, in the raw figures of each child

  datatype Figure = KnownUsd | KnownContributors | UnknownContributors | Descendants

  function Of(c: Cost, f: Figure): real {
    match f
    case KnownUsd => c.knownUsd
    case KnownContributors => c.knownContributors as real
    case UnknownContributors => c.unknownContributors as real
    case Descendants => c.descendants as real
  }

  predicate HasEstimate(c: Child) {
    c.telemetry.Some? && c.telemetry.value.estimatedUsd.Some?
  }

  predicate HasPartial(c: Child) {
    c.telemetry.Some? && c.telemetry.value.partialEstimatedUsd.Some?
  }

  /**
   * A child by itself: its estimate, or else its partial one, or else nothing; known with either, unknown without
   * a full one; one agent.
   */
  function ItselfOf(c: Child, f: Figure): real {
    match f
    case KnownUsd =>
      if HasEstimate(c) then c.telemetry.value.estimatedUsd.value
      else if HasPartial(c) then c.telemetry.value.partialEstimatedUsd.value
      else 0.0
    case KnownContributors => if HasEstimate(c) || HasPartial(c) then 1.0 else 0.0
    case UnknownContributors => if HasEstimate(c) then 0.0 else 1.0
    case Descendants => 1.0
  }

  /** With everything it last reported from below. */
  function WithBelow(c: Child, f: Figure): real {
    ItselfOf(c, f) + if c.descendants.Some? then Of(c.descendants.value, f) else 0.0
  }

  lemma {:induction false} SubtreeIs(c: Child, f: Figure)
    ensures Of(SubtreeCost(c), f) == WithBelow(c, f)
  {
  }

  ghost function SumUp(m: map<Id, real>): real
    decreases |m|
  {
    if m == map[] then 0.0
    else
      var id :| id in m;
      SumUp(m - {id}) + m[id]
  }

  lemma {:induction false} SumWithout(m: map<Id, real>, id: Id)
    requires id in m
    ensures SumUp(m) == SumUp(m - {id}) + m[id]
    decreases |m|
  {
    assert m != map[];
    var pick :| pick in m && SumUp(m) == SumUp(m - {pick}) + m[pick];
    if pick != id {
      SumWithout(m - {pick}, id);
      SumWithout(m - {id}, pick);
      assert m - {pick} - {id} == m - {id} - {pick};
    }
  }

  function Figures(m: map<Id, Cost>, f: Figure): map<Id, real> {
    map id | id in m :: Of(m[id], f)
  }

  function ChildFigures(m: map<Id, Child>, f: Figure): map<Id, real> {
    map id | id in m :: WithBelow(m[id], f)
  }

  /** A total adds up each figure of its costs. */
  lemma {:induction false} TotalAddsUp(m: map<Id, Cost>, f: Figure)
    ensures Of(Total(m), f) == SumUp(Figures(m, f))
    decreases |m|
  {
    if m == map[] {
      assert Figures(m, f) == map[];
    } else {
      var id :| id in m;
      TotalWithout(m, id);
      TotalAddsUp(m - {id}, f);
      PlusAddsUp(Total(m - {id}), m[id], f);
      FiguresWithout(m, id, f);
    }
  }

  lemma {:induction false} PlusAddsUp(a: Cost, b: Cost, f: Figure)
    ensures Of(Plus(a, b), f) == Of(a, f) + Of(b, f)
  {
  }

  lemma {:induction false} FiguresWithout(m: map<Id, Cost>, id: Id, f: Figure)
    requires id in m
    ensures SumUp(Figures(m, f)) == SumUp(Figures(m - {id}, f)) + Of(m[id], f)
  {
    SumWithout(Figures(m, f), id);
    assert Figures(m, f) - {id} == Figures(m - {id}, f);
  }

  /** The children a sync left registered and found no record of. */
  function Unrecorded(l: Ledger): map<Id, Child> {
    map id | id in l.registry && id !in l.cache.held :: l.registry[id]
  }

  /** Every figure of the total is the baseline's, the records' and the unrecorded children's, added up. */
  ghost predicate AddsUp(l: Ledger, baseline: Cost) {
    forall f ::
      Of(l.total, f) == Of(baseline, f) + SumUp(Figures(l.cache.held, f)) + SumUp(ChildFigures(Unrecorded(l), f))
  }

  /** A sync of a hop that tracked nothing yet adds up what its children and its records say. */
  lemma {:induction false} UntrackedSyncAddsUp(l: Ledger, baseline: Cost, look: Look, gone: set<Id>)
    requires l.agents == map[]
    ensures AddsUp(Synced(l, baseline, look, gone, {}), baseline)
  {
    var s := Synced(l, baseline, look, gone, {});
    forall f
      ensures Of(s.total, f)
              == Of(baseline, f) + SumUp(Figures(s.cache.held, f)) + SumUp(ChildFigures(Unrecorded(s), f))
    {
      TotalAddsUp(s.cache.held, f);
      TotalAddsUp(s.agents, f);
      PlusAddsUp(Plus(baseline, Total(s.cache.held)), Total(s.agents), f);
      PlusAddsUp(baseline, Total(s.cache.held), f);
      UntrackedFigures(l, baseline, look, gone, f);
    }
  }

  lemma {:induction false} UntrackedFigures(l: Ledger, baseline: Cost, look: Look, gone: set<Id>, f: Figure)
    requires l.agents == map[]
    ensures var s := Synced(l, baseline, look, gone, {}); Figures(s.agents, f) == ChildFigures(Unrecorded(s), f)
  {
    var s := Synced(l, baseline, look, gone, {});
    var a, b := Figures(s.agents, f), ChildFigures(Unrecorded(s), f);
    assert a.Keys == b.Keys;
    forall id | id in a
      ensures a[id] == b[id]
    {
      SubtreeIs(s.registry[id], f);
    }
  }

  /** Nothing known is no dollars, of a child with everything below it. */
  predicate FoundedChild(c: Child) {
    WithBelow(c, KnownUsd) >= 0.0 && (WithBelow(c, KnownContributors) == 0.0 ==> WithBelow(c, KnownUsd) == 0.0)
  }

  /** A child not tracked before counts as it stands; of a tracked one the greater of both sums is known. */
  ghost predicate TracksAs(before: map<Id, Cost>, id: Id, child: Child, now: Cost) {
    && (id !in before ==> forall f :: Of(now, f) == WithBelow(child, f))
    && (id in before && FoundedChild(child) && before[id].knownUsd >= 0.0 ==>
          now.knownUsd == MaxUsd(before[id].knownUsd, WithBelow(child, KnownUsd)))
  }

  lemma {:induction false} MergeTracksAs(before: map<Id, Cost>, id: Id, child: Child)
    ensures TracksAs(before, id, child, Merge(Lookup(before, id), SubtreeCost(child)))
  {
    forall f
      ensures Of(SubtreeCost(child), f) == WithBelow(child, f)
    {
      SubtreeIs(child, f);
    }
    assert Of(SubtreeCost(child), KnownUsd) == WithBelow(child, KnownUsd);
    assert Of(SubtreeCost(child), KnownContributors) == WithBelow(child, KnownContributors);
    if id in before && FoundedChild(child) && before[id].knownUsd >= 0.0 {
      MergeIsMax(before[id], SubtreeCost(child));
    }
  }

  lemma {:induction false} RecomputedTracksAs(agents: map<Id, Cost>, registry: Registry, records: Records,
        omit: set<Id>)
    ensures forall id | id in Recomputed(agents, registry, records, omit) ::
              TracksAs(agents, id, registry[id], Recomputed(agents, registry, records, omit)[id])
  {
    forall id | id in Recomputed(agents, registry, records, omit)
      ensures TracksAs(agents, id, registry[id], Recomputed(agents, registry, records, omit)[id])
    {
      MergeTracksAs(agents, id, registry[id]);
    }
  }

  class CostEstimateState {
    const evictedBaseline: Cost
    var registry: Registry
    var agents: map<Id, Cost>
    var evictionRecords: Records
    var evictionSignal: Option<Key>
    var directTotal: Cost

    function State(): Ledger
      reads this
    {
      Ledger(registry, agents, Cache(evictionRecords, evictionSignal), directTotal)
    }

    /** The identities a checkpoint tracked, then a first sync. */
    constructor (registered: Registry, baseline: Cost, tracked: map<Id, Cost>, look: Look, gone: set<Id>)
      ensures evictedBaseline == baseline
      ensures State() == Synced(Ledger(registered, tracked, Cache(map[], None), ZERO), baseline, look, gone, {})
      ensures tracked == map[] ==> AddsUp(State(), baseline)
    {
      evictedBaseline, registry, agents := baseline, registered, tracked;
      evictionRecords, evictionSignal, directTotal := map[], None, ZERO;
      new;
      PruneAndRecompute(look, gone, {});
    }

    method RefreshEvictionRecords(look: Look)
      modifies this`evictionRecords, this`evictionSignal
      ensures Cache(evictionRecords, evictionSignal) == CacheAfter(old(Cache(evictionRecords, evictionSignal)), look)
    {
      if evictionSignal.Some? && look.key == evictionSignal.value {
        return;
      }
      if look.read.Some? {
        evictionRecords := look.read.value;
      }
      evictionSignal :=
        if look.read.Some? && look.now - ChangedAt(look.key) > EVICTED_SIGNAL_SETTLE_MS then Some(look.key) else None;
    }

    method PruneRemovedAgents(gone: set<Id>)
      modifies this`registry
      ensures registry == Pruned(old(registry), evictionRecords, gone)
    {
      var removed: set<Id> := {};
      var todo := registry.Keys;
      while todo != {}
        invariant todo <= registry.Keys && registry == old(registry)
        invariant removed == set id | id in registry && id !in todo && id in evictionRecords
                  && Removable(registry[id], id, gone)
      {
        var id :| id in todo;
        if id in evictionRecords && !registry[id].live && (!registry[id].owned || id in gone) {
          removed := removed + {id};
        }
        todo := todo - {id};
      }
      registry := registry - removed;
    }

    method RecomputeAgents(omit: set<Id>)
      modifies this`agents, this`directTotal
      ensures agents == Recomputed(old(agents), registry, evictionRecords, omit)
      ensures forall id | id in agents :: TracksAs(old(agents), id, registry[id], agents[id])
      ensures directTotal == Plus(Plus(evictedBaseline, Total(evictionRecords)), Total(agents))
    {
      var todo := registry.Keys;
      while todo != {}
        invariant todo <= registry.Keys
        invariant MergedOver(agents, old(agents), registry, registry.Keys - todo - evictionRecords.Keys - omit)
      {
        var id :| id in todo;
        if id !in evictionRecords && id !in omit {
          agents := agents[id := Merge(Lookup(agents, id), SubtreeCost(registry[id]))];
        }
        todo := todo - {id};
      }
      MergedIsRecomputed(agents, old(agents), registry, evictionRecords, omit);
      agents := map id | id in agents && id !in omit && id !in evictionRecords && id in registry :: agents[id];
      RecomputedTracksAs(old(agents), registry, evictionRecords, omit);
      RecomputeDirectTotal();
    }

    method RecomputeDirectTotal()
      modifies this`directTotal
      ensures directTotal == Plus(Plus(evictedBaseline, Total(evictionRecords)), Total(agents))
    {
      var total := AddAll(evictedBaseline, evictionRecords);
      total := AddAll(total, agents);
      directTotal := total;
    }

    static method AddAll(start: Cost, costs: map<Id, Cost>) returns (total: Cost)
      ensures total == Plus(start, Total(costs))
    {
      total := start;
      var rest := costs;
      assert Total(map[]) == ZERO;
      while rest != map[]
        invariant rest.Keys <= costs.Keys && forall id | id in rest :: rest[id] == costs[id]
        invariant Plus(total, Total(rest)) == Plus(start, Total(costs))
        decreases |rest|
      {
        var id :| id in rest;
        TotalWithout(rest, id);
        total := Plus(total, rest[id]);
        rest := rest - {id};
      }
    }

    /** The one ordered sync every cost entry point runs. */
    method PruneAndRecompute(look: Look, gone: set<Id>, omit: set<Id>)
      modifies this
      ensures State() == Synced(old(State()), evictedBaseline, look, gone, omit)
      ensures CountsOnce(State(), evictedBaseline)
      ensures old(agents) == map[] && omit == {} ==> AddsUp(State(), evictedBaseline)
    {
      if agents == map[] && omit == {} {
        UntrackedSyncAddsUp(State(), evictedBaseline, look, gone);
      }
      SyncCountsOnce(State(), evictedBaseline, look, gone, omit);
      RefreshEvictionRecords(look);
      PruneRemovedAgents(gone);
      RecomputeAgents(omit);
    }

    /** What an eviction record of this child holds: its tracked floor merged with its current subtree cost. */
    method EvictionCost(id: Id, child: Child, look: Look, gone: set<Id>) returns (cost: Cost)
      modifies this
      ensures State() == Synced(old(State()), evictedBaseline, look, gone, {})
      ensures cost == Merge(Lookup(agents, id), SubtreeCost(child))
      ensures TracksAs(agents, id, child, cost)
    {
      PruneAndRecompute(look, gone, {});
      MergeTracksAs(agents, id, child);
      cost := Merge(if id in agents then Some(agents[id]) else None, SubtreeCost(child));
    }
  }
}
