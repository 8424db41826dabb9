// agent-cost.ts, agent-storage.ts: when an unchanged directory stamp may stand in for reading the eviction records.

module RecordSignal {
  import opened Options
  import opened Costs

  /** Agent ids are only compared. */
  datatype Id = Id(n: int)
  type Records = map<Id, Cost>

  const EVICTED_SIGNAL_SETTLE_MS := 2000.0

  /** The record directory as `stat` and a listing show it; its stamp is its last change, rounded down. */
  datatype Dir = NoDir | Dir(ino: int, mtime: real, contents: Records)

  datatype Key = AbsentKey | Stamp(ino: int, mtime: real)

  function KeyOf(d: Dir): Key {
    if d.NoDir? then AbsentKey else Stamp(d.ino, d.mtime)
  }

  function ChangedAt(k: Key): real {
    if k.AbsentKey? then 0.0 else k.mtime
  }

  function ContentsOf(d: Dir): Records {
    if d.NoDir? then map[] else d.contents
  }

  /** The records held, and the stamp they may be trusted under. */
  datatype Cache = Cache(held: Records, signal: Option<Key>)

  predicate Skips(c: Cache, key: Key) {
    c.signal == Some(key)
  }

  /**
   * After a stamp that does not match: a failed read keeps the last good records and trusts nothing; a young
   * stamp is not trusted.
   */
  function Refreshed(c: Cache, key: Key, read: Option<Records>, now: real): (r: Cache)
    ensures read.None? ==> r.held == c.held && forall k :: !Skips(r, k)
    ensures read.Some? ==> r.held == read.value
    ensures forall k :: Skips(r, k) <==> k == key && read.Some? && now - ChangedAt(key) > EVICTED_SIGNAL_SETTLE_MS
  {
    if read.None? then Cache(c.held, None)
    else Cache(read.value, if now - ChangedAt(key) > EVICTED_SIGNAL_SETTLE_MS then Some(key) else None)
  }

  // ----- one process syncing while others change the directory

  /** A sync stamps, then reads, then asks the clock; the directory may change in between. */
  datatype Phase = Idle | Stamped(key: Key, at: real) | HasRead(key: Key, at: real, read: Option<Records>)

  /** `since` is when the sync that trusted the current stamp took it. */
  datatype World = World(now: real, dir: Dir, cache: Cache, phase: Phase, since: real)

  datatype Event =
    | Tick(dt: real)
    | Change(ino: int, lag: real, contents: Records)
    | TakeStamp
    | Read(ok: bool)
    | Finish

  function Apply(w: World, e: Event): World {
    match e
    case Tick(dt) => w.(now := w.now + dt)
    case Change(ino, lag, contents) => w.(dir := Dir(ino, w.now - lag, contents))
    case TakeStamp =>
      if !w.phase.Idle? || Skips(w.cache, KeyOf(w.dir)) then w else w.(phase := Stamped(KeyOf(w.dir), w.now))
    case Read(ok) =>
      if !w.phase.Stamped? then w
      else w.(phase := HasRead(w.phase.key, w.phase.at, if ok then Some(ContentsOf(w.dir)) else None))
    case Finish =>
      if !w.phase.HasRead? then w
      else w.(cache := Refreshed(w.cache, w.phase.key, w.phase.read, w.now), phase := Idle, since := w.phase.at)
  }

  /** Time goes forward, stamps lag by at most `rounding`, and a sync takes at most `duration`. */
  predicate Legal(w: World, e: Event, rounding: real, duration: real) {
    match e
    case Tick(dt) => dt >= 0.0 && (w.phase.Idle? || w.now + dt - w.phase.at <= duration)
    case Change(_, lag, _) => 0.0 <= lag <= rounding
    case _ => true
  }

  function Run(w: World, events: seq<Event>): World {
    if events == [] then w else Apply(Run(w, events[..|events| - 1]), events[|events| - 1])
  }

  predicate LegalRun(w: World, events: seq<Event>, rounding: real, duration: real) {
    forall k | 0 <= k < |events| :: Legal(Run(w, events[..k]), events[k], rounding, duration)
  }

  const START := World(0.0, NoDir, Cache(map[], None), Idle, 0.0)

  // ----- what the cache is after any run

  /** A sync that ran to its end: the stamp it took, what it read, and when it ended. */
  datatype Ended = Ended(key: Key, read: Option<Records>, at: real)

  function Syncs(events: seq<Event>): seq<Ended> {
    if events == [] then []
    else
      var init := events[..|events| - 1];
      var w := Run(START, init);
      if events[|events| - 1].Finish? && w.phase.HasRead?
      then Syncs(init) + [Ended(w.phase.key, w.phase.read, w.now)]
      else Syncs(init)
  }

  /** What the last read that succeeded found, nothing before the first. */
  function LastRead(syncs: seq<Ended>): Records {
    if syncs == [] then map[]
    else if syncs[|syncs| - 1].read.Some? then syncs[|syncs| - 1].read.value
    else LastRead(syncs[..|syncs| - 1])
  }

  /**
   * Over every run: the records held are those of the last read that succeeded, and the next sync skips
   * its read exactly when the last sync read, ended long enough after the stamp it took, and finds that stamp
   * again. In particular, after a failed read the next sync always reads.
   */
  lemma {:induction false} CacheIsOfLastSync(events: seq<Event>)
    ensures var w, syncs := Run(START, events), Syncs(events);
            && w.cache.held == LastRead(syncs)
            && forall key :: Skips(w.cache, key) <==>
                 syncs != [] && var last := syncs[|syncs| - 1];
                 last.key == key && last.read.Some? && last.at - ChangedAt(key) > EVICTED_SIGNAL_SETTLE_MS
    ensures var w, syncs := Run(START, events), Syncs(events);
            w.phase.Idle? && syncs != [] && syncs[|syncs| - 1].read.None? ==>
              Apply(w, TakeStamp).phase == Stamped(KeyOf(w.dir), w.now)
  {
    if events != [] {
      var init := events[..|events| - 1];
      CacheIsOfLastSync(init);
      var ended := Syncs(events);
      assert ended != Syncs(init) ==> ended[..|ended| - 1] == Syncs(init);
    }
  }

  // ----- why a trusted stamp never hides a change

  /** No change from `at` on can leave this stamp. */
  predicate Settled(key: Key, at: real, rounding: real) {
    key.AbsentKey? || key.mtime < at - rounding
  }

  predicate Holds(w: World, key: Key, records: Records) {
    KeyOf(w.dir) == key ==> ContentsOf(w.dir) == records
  }

  predicate CacheInv(w: World, rounding: real) {
    w.since <= w.now
    && (w.cache.signal.Some? ==>
          Settled(w.cache.signal.value, w.since, rounding) && Holds(w, w.cache.signal.value, w.cache.held))
  }

  predicate PhaseInv(w: World, rounding: real, duration: real) {
    && (!w.phase.Idle? ==> w.phase.at <= w.now <= w.phase.at + duration)
    && (w.phase.HasRead? && w.phase.read.Some? && Settled(w.phase.key, w.phase.at, rounding) ==>
          Holds(w, w.phase.key, w.phase.read.value))
  }

  lemma {:induction false} StepKeeps(w: World, e: Event, rounding: real, duration: real)
    requires rounding >= 0.0 && duration >= 0.0 && rounding + duration <= EVICTED_SIGNAL_SETTLE_MS
    requires CacheInv(w, rounding) && PhaseInv(w, rounding, duration) && Legal(w, e, rounding, duration)
    ensures CacheInv(Apply(w, e), rounding) && PhaseInv(Apply(w, e), rounding, duration)
  {
    match e
    case Tick(_) =>
    case Change(ino, lag, contents) =>
      assert forall key, at | at <= w.now && Settled(key, at, rounding) :: KeyOf(Apply(w, e).dir) != key;
    case TakeStamp =>
    case Read(_) =>
    case Finish =>
      if w.phase.HasRead? && Apply(w, e).cache.signal.Some? {
        assert Settled(w.phase.key, w.phase.at, rounding);
      }
  }

  lemma {:induction false} RunKeeps(events: seq<Event>, rounding: real, duration: real)
    requires rounding >= 0.0 && duration >= 0.0 && rounding + duration <= EVICTED_SIGNAL_SETTLE_MS
    requires LegalRun(START, events, rounding, duration)
    ensures CacheInv(Run(START, events), rounding) && PhaseInv(Run(START, events), rounding, duration)
  {
    if events != [] {
      var init := events[..|events| - 1];
      assert forall k | 0 <= k < |init| :: init[..k] == events[..k];
      RunKeeps(init, rounding, duration);
      StepKeeps(Run(START, init), events[|events| - 1], rounding, duration);
    }
  }

  /** Every sync that skips the read holds what the directory holds. */
  ghost predicate NeverStale(rounding: real, duration: real) {
    forall events: seq<Event> | LegalRun(START, events, rounding, duration) ::
      var w := Run(START, events);
      Skips(w.cache, KeyOf(w.dir)) ==> w.cache.held == ContentsOf(w.dir)
  }

  /**
   * A stamp whose rounding and whose sync together outlast the settle window: it is trusted, and a change hides
   * behind it.
   */
  function Misled(rounding: real, duration: real, before: Records, after: Records): seq<Event> {
    [Tick(rounding), Change(1, rounding, before), TakeStamp, Read(true),
     Change(1, rounding, after), Tick(duration), Finish]
  }

  lemma {:induction false} MisledIsStale(rounding: real, duration: real, before: Records, after: Records)
    requires rounding >= 0.0 && duration >= 0.0 && rounding + duration > EVICTED_SIGNAL_SETTLE_MS && before != after
    ensures LegalRun(START, Misled(rounding, duration, before, after), rounding, duration)
    ensures var w := Run(START, Misled(rounding, duration, before, after));
            Skips(w.cache, KeyOf(w.dir)) && w.cache.held != ContentsOf(w.dir)
  {
    var es := Misled(rounding, duration, before, after);
    forall k: nat | k < |es|
      ensures Run(START, es[..k + 1]) == Apply(Run(START, es[..k]), es[k])
    {
      assert es[..k + 1][..k] == es[..k];
    }
    assert es[..0] == [] && es[..7] == es;
    var w1 := Run(START, es[..1]);
    assert w1 == START.(now := rounding);
    var w2 := Run(START, es[..2]);
    assert w2 == w1.(dir := Dir(1, 0.0, before));
    var w3 := Run(START, es[..3]);
    assert w3 == w2.(phase := Stamped(Stamp(1, 0.0), rounding));
    var w4 := Run(START, es[..4]);
    assert w4 == w3.(phase := HasRead(Stamp(1, 0.0), rounding, Some(before)));
    var w5 := Run(START, es[..5]);
    assert w5 == w4.(dir := Dir(1, 0.0, after));
    var w6 := Run(START, es[..6]);
    assert w6 == w5.(now := rounding + duration);
  }

  /**
   * Exactly when stamp rounding and sync duration fit the settle window together, no skipped read ever hides a
   * change.
   */
  lemma {:induction false} SkipsAreSoundExactly(rounding: real, duration: real)
    requires rounding >= 0.0 && duration >= 0.0
    ensures NeverStale(rounding, duration) <==> rounding + duration <= EVICTED_SIGNAL_SETTLE_MS
  {
    if rounding + duration <= EVICTED_SIGNAL_SETTLE_MS {
      forall events: seq<Event> | LegalRun(START, events, rounding, duration)
        ensures var w := Run(START, events);
                Skips(w.cache, KeyOf(w.dir)) ==> w.cache.held == ContentsOf(w.dir)
      {
        RunKeeps(events, rounding, duration);
      }
    } else {
      var before: Records, after: Records := map[], map[Id(0) := ZERO];
      assert Id(0) in after && Id(0) !in before;
      MisledIsStale(rounding, duration, before, after);
    }
  }
}
