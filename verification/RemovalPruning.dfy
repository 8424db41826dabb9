// agent-cost.ts, agent-storage.ts: the homes a sync finds gone are read while removers run; what is pruned stays gone.

module RemovalPruning {
  import opened Options
  import opened Costs
  import opened RecordSignal
  import opened CostLedger
  import H = HomeRemoval

  /** A child's home: the processes around it at the sync's first look, and what ran until its third. */
  datatype Watched = Watched(world: H.World, before: seq<H.Event>)

  /** At most one removal attempt, any number of writers and crashes; or the home was away from the start. */
  predicate Sound(w: H.World) {
    H.Initial(w.sys) && w.reader.GoneStart? && (!w.sys.disk.home.AtPath? || H.OneAttempt(w.sys))
  }

  predicate FoundGone(h: Watched) {
    H.Run(h.world, h.before).reader == H.GoneAnswer(true)
  }

  function Gone(homes: map<Id, Watched>): set<Id> {
    set id | id in homes && FoundGone(homes[id])
  }

  lemma {:induction false} FoundGoneIsFinal(h: Watched, after: seq<H.Event>)
    requires Sound(h.world) && FoundGone(h)
    ensures !H.Run(h.world, h.before + after).sys.disk.home.AtPath?
  {
    if h.world.sys.disk.home.AtPath? {
      H.RemovedIsFinal(h.world, h.before, after);
    } else {
      H.AwayStaysAway(h.world, h.before + after);
    }
  }

  /**
   * Whatever the removers did while the sync read the homes: a child that the sync drops from the registry
   * is not running, counts by its record, and has no home that ever comes back.
   */
  lemma {:induction false} PrunedNeverReturns(l: Ledger, baseline: Cost, look: Look, homes: map<Id, Watched>,
        id: Id, after: seq<H.Event>)
    requires forall x | x in homes :: Sound(homes[x].world)
    requires id in l.registry
    ensures var s, child := Synced(l, baseline, look, Gone(homes), {}), l.registry[id];
            id !in s.registry <==> id in s.cache.held && !child.live && (child.owned ==> id in Gone(homes))
    ensures var s := Synced(l, baseline, look, Gone(homes), {});
            id !in s.registry && l.registry[id].owned ==>
              id in homes && !H.Run(homes[id].world, homes[id].before + after).sys.disk.home.AtPath?
  {
    if id in Gone(homes) {
      FoundGoneIsFinal(homes[id], after);
    }
  }
}
