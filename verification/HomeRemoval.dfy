// agent-storage.ts: the cross-process protocol that removes an owned agent home. Removers and
// metadata writers serialize on a claim directory; an opt-in remover leaves an eviction record;
// readers take no claim at all.

module HomeRemoval {
  import opened Options

  type Pid = nat

  /** Where the home directory is: at its path, renamed aside by a remover, or deleted. */
  datatype Place = AtPath | Staged | Gone

  datatype Disk = Disk(home: Place, claim: Option<Pid>, record: bool)

  /** One call under the claim: a metadata write, or a removal that does or does not leave a record. */
  datatype Job = Write | Remove(optIn: bool)

  datatype Pc =
    | Start
    | AtHome                 // the home was there; the claim comes next
    | Claimed
    | Inspected              // eligible for removal
    | Recorded               // the record, when asked for, is written
    | Detached               // renamed aside
    | Deleted
    | Failed(moved: bool)    // in the catch block
    | Repair                 // in the finally block
    | RepairDelete           // the home is at its path: the record goes
    | Releasing
    | Finished

  datatype Proc = Proc(job: Job, pc: Pc, crashed: bool)

  /**
   * `lastOptIn` and `rescued` are history: the kind of the last detach, and whether a mere writer took a
   * dead remover's claim over with the record and the home both in place, no remover having finished since.
   */
  datatype System = System(disk: Disk, procs: map<Pid, Proc>, lastOptIn: bool, rescued: bool)

  /** Between taking the claim and giving it back. */
  predicate InSection(pc: Pc) {
    !pc.Start? && !pc.AtHome? && !pc.Finished?
  }

  predicate HolderCrashed(s: System) {
    s.disk.claim.Some? && s.disk.claim.value in s.procs && s.procs[s.disk.claim.value].crashed
  }

  /** The claim of a process that died in the middle of a removal. */
  predicate HolderDiedRemoving(s: System) {
    HolderCrashed(s) && var dead := s.procs[s.disk.claim.value]; dead.job.Remove? && InSection(dead.pc)
  }

  /**
   * One step of a live process `p`. `takeable` says whether the claim is free or its holder dead;
   * `choice` 0 is success, other values pick the failures the code handles.
   */
  function Act(d: Disk, p: Pid, job: Job, pc: Pc, takeable: bool, choice: nat): (Disk, Pc) {
    match pc
    case Start => (d, if d.home.AtPath? then AtHome else Finished)
    case AtHome => if takeable then (d.(claim := Some(p)), Claimed) else (d, Finished)
    case Claimed =>
      if job.Write? then (d, Releasing)
      else (d, if d.home.AtPath? && choice == 0 then Inspected else Repair)
    case Inspected =>
      if job.Remove? && job.optIn then
        if choice == 0 then (d.(record := true), Recorded) else (d, Failed(false))
      else (d, Recorded)
    case Recorded =>
      if d.home.AtPath? && choice == 0 then (d.(home := Staged), Detached) else (d, Failed(false))
    case Detached =>
      if choice == 0 then (d.(home := Gone), Deleted)
      else if choice == 1 then (d, Failed(true))
      else (d.(home := Gone), Failed(true))
    case Deleted => (d, Releasing)
    case Failed(moved) =>
      if moved && d.home.Staged? && choice == 0 then (d.(home := AtPath), Repair) else (d, Repair)
    case Repair => (d, if d.home.AtPath? then RepairDelete else Releasing)
    case RepairDelete => (d.(record := false), Releasing)
    case Releasing => (if choice == 0 then d.(claim := None) else d, Finished)
    case Finished => (d, Finished)
  }

  function Rescued(s: System, proc: Proc): bool {
    if proc.pc.AtHome? && proc.job.Write? && HolderDiedRemoving(s) then s.disk.record && s.disk.home.AtPath?
    else if proc.pc.Releasing? then s.rescued && proc.job.Write?
    else s.rescued
  }

  function Step(s: System, p: Pid, choice: nat): System
    requires p in s.procs
  {
    var proc := s.procs[p];
    if proc.crashed then s
    else
      var (disk, pc) := Act(s.disk, p, proc.job, proc.pc, s.disk.claim.None? || HolderCrashed(s), choice);
      System(disk, s.procs[p := proc.(pc := pc)],
             if proc.pc.Recorded? && pc.Detached? then proc.job.Remove? && proc.job.optIn else s.lastOptIn,
             Rescued(s, proc))
  }

  // ----- lock-free readers

  datatype RemovalState = Removed | Claimed' | Present

  /** `ownedHomeRemovalState` reads home, record, claim, record, home; `isOwnedHomeGone` reads home, claim, home. */
  datatype Reader =
    | StateStart
    | StateHome(home: bool)
    | StateRecord(home: bool, recorded: bool)
    | StateUnclaimed(home: bool)
    | StateLast(home: bool)
    | StateAnswer(state: RemovalState)
    | GoneStart
    | GoneAbsent
    | GoneUnclaimed
    | GoneAnswer(gone: bool)

  function ReadStep(d: Disk, r: Reader): Reader {
    match r
    case StateStart => StateHome(d.home.AtPath?)
    case StateHome(home) => StateRecord(home, d.record)
    case StateRecord(home, recorded) =>
      if d.claim.Some? then StateAnswer(Claimed')
      else if recorded then StateUnclaimed(home)
      else StateLast(home)
    case StateUnclaimed(home) => if d.record then StateAnswer(Removed) else StateLast(home)
    case StateLast(home) => StateAnswer(if !home && !d.home.AtPath? then Removed else Present)
    case GoneStart => if d.home.AtPath? then GoneAnswer(false) else GoneAbsent
    case GoneAbsent => if d.claim.Some? then GoneAnswer(false) else GoneUnclaimed
    case GoneUnclaimed => GoneAnswer(!d.home.AtPath?)
    case StateAnswer(_) => r
    case GoneAnswer(_) => r
  }

  // ----- runs

  datatype Event = Advance(p: Pid, choice: nat) | Crash(p: Pid) | Read

  datatype World = World(sys: System, reader: Reader)

  function Apply(w: World, e: Event): World {
    match e
    case Advance(p, choice) => if p in w.sys.procs then w.(sys := Step(w.sys, p, choice)) else w
    case Crash(p) =>
      if p in w.sys.procs then w.(sys := w.sys.(procs := w.sys.procs[p := w.sys.procs[p].(crashed := true)])) else w
    case Read => w.(reader := ReadStep(w.sys.disk, w.reader))
  }

  function Run(w: World, events: seq<Event>): World
    decreases |events|
  {
    if events == [] then w else Run(Apply(w, events[0]), events[1..])
  }

  lemma {:induction false} RunConcat(w: World, a: seq<Event>, b: seq<Event>)
    ensures Run(w, a + b) == Run(Run(w, a), b)
    decreases |a|
  {
    if a == [] {
      assert a + b == b;
    } else {
      assert (a + b)[0] == a[0] && (a + b)[1..] == a[1..] + b;
      RunConcat(Apply(w, a[0]), a[1..], b);
    }
  }

  /** Nobody has begun and no claim is held; the home may be anywhere, with a record only when it is off its path. */
  predicate Initial(s: System) {
    && s.disk.claim.None? && (s.disk.record ==> !s.disk.home.AtPath?)
    && !s.lastOptIn && !s.rescued
    && forall p | p in s.procs :: s.procs[p].pc.Start? && !s.procs[p].crashed
  }

  // ----- the protocol invariant

  /** A record stands beside a home at its path exactly when a writer stepped over a dead remover and left both. */
  predicate RecordSound(d: Disk, rescued: bool) {
    d.record && d.home.AtPath? <==> rescued
  }

  /** What the claim's holder, dead or alive, knows at each point of its call. */
  predicate HolderKnows(d: Disk, rescued: bool, job: Job, pc: Pc) {
    match pc
    case Claimed => job.Write? ==> RecordSound(d, rescued)
    case Inspected => job.Remove? && d.home.AtPath?
    case Recorded => job.Remove? && d.home.AtPath? && (job.optIn ==> d.record)
    case Detached => job.Remove? && d.home.Staged? && (job.optIn ==> d.record)
    case Deleted => job.Remove? && d.home.Gone?
    case Failed(moved) => job.Remove?
    case Repair => job.Remove?
    case RepairDelete => job.Remove? && d.home.AtPath?
    case Releasing => if job.Remove? then d.record ==> !d.home.AtPath? else RecordSound(d, rescued)
    case Finished => RecordSound(d, rescued)
    case Start => false
    case AtHome => false
  }

  predicate Inv(s: System) {
    && (forall p | p in s.procs && InSection(s.procs[p].pc) && !s.procs[p].crashed :: s.disk.claim == Some(p))
    && (s.disk.claim.None? ==> RecordSound(s.disk, s.rescued))
    && (s.disk.claim.Some? ==>
          s.disk.claim.value in s.procs &&
          var holder := s.procs[s.disk.claim.value]; HolderKnows(s.disk, s.rescued, holder.job, holder.pc))
    && (s.lastOptIn && !s.disk.home.AtPath? ==> s.disk.record)
  }

  /** A step under the claim carries the holder's knowledge along, and gives the claim back on a sound disk. */
  lemma {:induction false} ActKeepsKnowledge(d: Disk, p: Pid, job: Job, pc: Pc, rescued: bool, choice: nat)
    requires InSection(pc) && d.claim == Some(p) && HolderKnows(d, rescued, job, pc)
    ensures var (d', pc') := Act(d, p, job, pc, false, choice);
            var rescued' := if pc.Releasing? then rescued && job.Write? else rescued;
            && (d'.claim == Some(p) ==> HolderKnows(d', rescued', job, pc'))
            && (d'.claim != Some(p) ==> d'.claim.None? && RecordSound(d', rescued'))
            && (InSection(pc') ==> d'.claim == Some(p))
  {
  }

  /** Outside the claim a step changes nothing but the claim itself. */
  lemma {:induction false} ActOutside(d: Disk, p: Pid, job: Job, pc: Pc, takeable: bool, choice: nat)
    requires !InSection(pc)
    ensures var (d', pc') := Act(d, p, job, pc, takeable, choice);
            && d'.home == d.home && d'.record == d.record
            && (if pc.AtHome? && takeable then d'.claim == Some(p) && pc'.Claimed?
                else d'.claim == d.claim && !InSection(pc'))
  {
  }

  lemma {:induction false} ActKeepsOptIn(d: Disk, p: Pid, job: Job, pc: Pc, rescued: bool, choice: nat)
    requires InSection(pc) && HolderKnows(d, rescued, job, pc)
    ensures var (d', pc') := Act(d, p, job, pc, false, choice);
            && (pc.Recorded? && pc'.Detached? && job.optIn ==> d'.record)
            && (d.record && !d'.home.AtPath? && !(pc.Recorded? && pc'.Detached?) ==> d'.record)
            && (!d'.home.AtPath? && !(pc.Recorded? && pc'.Detached?) ==> !d.home.AtPath?)
  {
  }

  lemma {:induction false} ClaimUnused(d: Disk, p: Pid, job: Job, pc: Pc, choice: nat, takeable: bool)
    requires InSection(pc)
    ensures Act(d, p, job, pc, takeable, choice) == Act(d, p, job, pc, false, choice)
  {
  }

  lemma {:induction false} StepKeepsInv(s: System, p: Pid, choice: nat)
    requires Inv(s) && p in s.procs
    ensures Inv(Step(s, p, choice))
  {
    var proc, t := s.procs[p], Step(s, p, choice);
    if !proc.crashed {
      var takeable := s.disk.claim.None? || HolderCrashed(s);
      var (d, pc) := Act(s.disk, p, proc.job, proc.pc, takeable, choice);
      assert t.procs[p] == proc.(pc := pc);
      if InSection(proc.pc) {
        ClaimUnused(s.disk, p, proc.job, proc.pc, choice, takeable);
        ActKeepsKnowledge(s.disk, p, proc.job, proc.pc, s.rescued, choice);
        ActKeepsOptIn(s.disk, p, proc.job, proc.pc, s.rescued, choice);
      } else {
        ActOutside(s.disk, p, proc.job, proc.pc, takeable, choice);
      }
    }
  }

  lemma {:induction false} RunKeepsInv(w: World, events: seq<Event>)
    requires Inv(w.sys)
    ensures Inv(Run(w, events).sys)
    decreases |events|
  {
    if events != [] {
      var e := events[0];
      if e.Advance? && e.p in w.sys.procs {
        StepKeepsInv(w.sys, e.p, e.choice);
      }
      RunKeepsInv(Apply(w, e), events[1..]);
    }
  }

  /**
   * In every run, crashes included: at most one live process is inside the claim; under a free claim a
   * record stands beside a home at its path exactly after such a rescue; and a home taken off its path by
   * an opt-in removal has its record.
   */
  lemma {:induction false} ProtocolSafe(w: World, events: seq<Event>, p: Pid, q: Pid)
    requires Initial(w.sys)
    ensures var s := Run(w, events).sys;
            && ((p in s.procs && q in s.procs && !s.procs[p].crashed && !s.procs[q].crashed
                 && InSection(s.procs[p].pc) && InSection(s.procs[q].pc)) ==> p == q)
            && (s.disk.claim.None? ==> (s.disk.record && s.disk.home.AtPath? <==> s.rescued))
            && (s.lastOptIn && !s.disk.home.AtPath? ==> s.disk.record)
  {
    RunKeepsInv(w, events);
  }

  predicate CrashFree(events: seq<Event>) {
    forall k | 0 <= k < |events| :: !events[k].Crash?
  }

  predicate AllAlive(s: System) {
    forall p | p in s.procs :: !s.procs[p].crashed
  }

  lemma {:induction false} CrashFreeNeverRescues(w: World, events: seq<Event>)
    requires Inv(w.sys) && AllAlive(w.sys) && !w.sys.rescued && CrashFree(events)
    ensures var s := Run(w, events).sys; Inv(s) && AllAlive(s) && !s.rescued
    decreases |events|
  {
    if events != [] {
      var e := events[0];
      if e.Advance? && e.p in w.sys.procs {
        StepKeepsInv(w.sys, e.p, e.choice);
      }
      CrashFreeNeverRescues(Apply(w, e), events[1..]);
    }
  }

  /** Without crashes, a record under a free claim always means the home is off its path. */
  lemma {:induction false} CrashFreeRecordMeansGone(w: World, events: seq<Event>)
    requires Initial(w.sys) && CrashFree(events)
    ensures var d := Run(w, events).sys.disk; d.claim.None? && d.record ==> !d.home.AtPath?
  {
    CrashFreeNeverRescues(w, events);
  }

  // ----- two concrete runs, built from the opening and the rollback of one opt-in removal

  lemma {:induction false} RunCons(w: World, e: Event, rest: seq<Event>)
    ensures Run(w, [e] + rest) == Run(Apply(w, e), rest)
  {
    assert ([e] + rest)[1..] == rest;
  }

  lemma {:induction false} RunOne(w: World, e: Event)
    ensures Run(w, [e]) == Apply(w, e)
  {
    assert [e] + [] == [e];
    RunCons(w, e, []);
  }

  /** Claim, inspect and record: the home is still at its path and the record is written. */
  lemma {:induction false} OpensRemoval(w: World, p: Pid)
    requires p in w.sys.procs && w.sys.procs[p] == Proc(Remove(true), Start, false)
    requires w.sys.disk.home.AtPath? && w.sys.disk.claim.None?
    ensures Run(w, [Advance(p, 0)] + ([Advance(p, 0)] + ([Advance(p, 0)] + [Advance(p, 0)]))) ==
            w.(sys := w.sys.(disk := Disk(AtPath, Some(p), true),
                             procs := w.sys.procs[p := Proc(Remove(true), Recorded, false)]))
  {
    var e := Advance(p, 0);
    var w1 := Apply(w, e);
    var w2 := Apply(w1, e);
    var w3 := Apply(w2, e);
    RunCons(w, e, [e] + ([e] + [e]));
    RunCons(w1, e, [e] + [e]);
    RunCons(w2, e, [e]);
    RunOne(w3, e);
    assert Apply(w3, e).sys.procs == w.sys.procs[p := Proc(Remove(true), Recorded, false)];
  }

  /**
   * With a crash the record can outlive its removal: a remover dies after writing it, a metadata
   * writer takes the stale claim over and releases it, and the home is still at its path.
   */
  lemma {:induction false} WriterAfterCrashLeavesRecord() returns (w: World, events: seq<Event>)
    ensures Initial(w.sys)
    ensures var d := Run(w, events).sys.disk; d.claim.None? && d.record && d.home.AtPath?
  {
    var procs := map[1 := Proc(Remove(true), Start, false), 2 := Proc(Write, Start, false)];
    w := World(System(Disk(AtPath, None, false), procs, false, false), StateStart);
    var opening := [Advance(1, 0)] + ([Advance(1, 0)] + ([Advance(1, 0)] + [Advance(1, 0)]));
    OpensRemoval(w, 1);
    var w1 := Run(w, opening);
    var e := Advance(2, 0);
    var rest := [e] + ([e] + ([e] + [e]));
    WritesOver(Apply(w1, Crash(1)), 1, 2);
    RunCons(w1, Crash(1), rest);
    RunConcat(w, opening, [Crash(1)] + rest);
    events := opening + ([Crash(1)] + rest);
  }

  /** A metadata writer takes over the claim of a crashed remover, and gives it back with everything else as it was. */
  lemma {:induction false} WritesOver(w: World, holder: Pid, p: Pid)
    requires p in w.sys.procs && w.sys.procs[p] == Proc(Write, Start, false)
    requires holder in w.sys.procs && w.sys.procs[holder].crashed && w.sys.disk.claim == Some(holder)
    requires w.sys.disk.home.AtPath?
    ensures var e := Advance(p, 0);
            Run(w, [e] + ([e] + ([e] + [e]))).sys.disk == w.sys.disk.(claim := None)
  {
    var e := Advance(p, 0);
    var w1 := Apply(w, e);
    var w2 := Apply(w1, e);
    var w3 := Apply(w2, e);
    RunCons(w, e, [e] + ([e] + [e]));
    RunCons(w1, e, [e] + [e]);
    RunCons(w2, e, [e]);
    RunOne(w3, e);
  }

  /** A remover's steps until the home is renamed aside. */
  function Detaching(p: Pid): seq<Event> {
    [Advance(p, 0)] + ([Advance(p, 0)] + ([Advance(p, 0)] + ([Advance(p, 0)] + [Advance(p, 0)])))
  }

  /** The recursive removal fails untouched: rename back, drop the record, give the claim back. */
  function RollingBack(p: Pid): seq<Event> {
    [Advance(p, 1)] + ([Advance(p, 0)] + ([Advance(p, 0)] + ([Advance(p, 0)] + [Advance(p, 0)])))
  }

  lemma {:induction false} Detaches(w: World, p: Pid)
    requires p in w.sys.procs && w.sys.procs[p].job.Remove? && w.sys.procs[p].pc.Start? && !w.sys.procs[p].crashed
    requires w.sys.disk == Disk(AtPath, None, false)
    ensures var optIn := w.sys.procs[p].job.optIn;
            Run(w, Detaching(p)) ==
            w.(sys := w.sys.(disk := Disk(Staged, Some(p), optIn), lastOptIn := optIn,
                             procs := w.sys.procs[p := w.sys.procs[p].(pc := Detached)]))
  {
    var e := Advance(p, 0);
    var w1 := Apply(w, e);
    var w2 := Apply(w1, e);
    var w3 := Apply(w2, e);
    var w4 := Apply(w3, e);
    RunCons(w, e, [e] + ([e] + ([e] + [e])));
    RunCons(w1, e, [e] + ([e] + [e]));
    RunCons(w2, e, [e] + [e]);
    RunCons(w3, e, [e]);
    RunOne(w4, e);
    assert Apply(w4, e).sys.procs == w.sys.procs[p := w.sys.procs[p].(pc := Detached)];
  }

  lemma {:induction false} RollsBack(w: World, p: Pid)
    requires p in w.sys.procs && w.sys.procs[p].job.Remove? && w.sys.procs[p].pc.Detached? && !w.sys.procs[p].crashed
    requires w.sys.disk.home.Staged? && w.sys.disk.claim == Some(p)
    ensures Run(w, RollingBack(p)) ==
            w.(sys := w.sys.(disk := Disk(AtPath, None, false), rescued := false,
                             procs := w.sys.procs[p := w.sys.procs[p].(pc := Finished)]))
  {
    var e := Advance(p, 0);
    var w1 := Apply(w, Advance(p, 1));
    var w2 := Apply(w1, e);
    var w3 := Apply(w2, e);
    var w4 := Apply(w3, e);
    RunCons(w, Advance(p, 1), [e] + ([e] + ([e] + [e])));
    RunCons(w1, e, [e] + ([e] + [e]));
    RunCons(w2, e, [e] + [e]);
    RunCons(w3, e, [e]);
    RunOne(w4, e);
    assert Apply(w4, e).sys.procs == w.sys.procs[p := w.sys.procs[p].(pc := Finished)];
  }

  /** One attempt that detaches, is read once there, and rolls back. */
  function Glimpse(p: Pid): seq<Event> {
    Detaching(p) + ([Read] + RollingBack(p))
  }

  lemma {:induction false} Glimpsed(w: World, p: Pid)
    requires p in w.sys.procs && w.sys.procs[p].job.Remove? && w.sys.procs[p].pc.Start? && !w.sys.procs[p].crashed
    requires w.sys.disk == Disk(AtPath, None, false)
    ensures var optIn, v := w.sys.procs[p].job.optIn, Run(w, Glimpse(p));
            && v.reader == ReadStep(Disk(Staged, Some(p), optIn), w.reader)
            && v.sys.disk == Disk(AtPath, None, false)
            && v.sys.procs == w.sys.procs[p := w.sys.procs[p].(pc := Finished)]
            && Run(w, Detaching(p) + [Read]).reader == v.reader
  {
    Detaches(w, p);
    var w1 := Run(w, Detaching(p));
    RunOne(w1, Read);
    RunConcat(w, Detaching(p), [Read]);
    RunCons(w1, Read, RollingBack(p));
    RunConcat(w, Detaching(p), [Read] + RollingBack(p));
    RollsBack(Apply(w1, Read), p);
    assert w1.sys.procs[p := w1.sys.procs[p].(pc := Finished)] == w.sys.procs[p := w.sys.procs[p].(pc := Finished)];
  }

  /** The reads that remain while nothing is claimed: two of the five, one of the three. */
  function Between(r: Reader): seq<Event> {
    if r.StateStart? then [Read] + [Read] else [Read]
  }

  lemma {:induction false} ReadsBetween(w: World, r: Reader)
    requires (r.StateStart? && w.reader == StateHome(false)) || (r.GoneStart? && w.reader.GoneAbsent?)
    requires w.sys.disk == Disk(AtPath, None, false)
    ensures Run(w, Between(r)) == w.(reader := if r.StateStart? then StateLast(false) else GoneUnclaimed)
  {
    RunOne(w, Read);
    if r.StateStart? {
      RunCons(w, Read, [Read]);
      RunOne(Apply(w, Read), Read);
    }
  }

  /**
   * Any two attempts, opt-in or not, defeat either reader: it reads the first one's detached home, the gap
   * between the claims, then the second one's detached home, and answers "removed"; both roll back.
   */
  lemma {:induction false} TwoAttemptsFoolTheReader(w: World, p: Pid, q: Pid)
        returns (before: seq<Event>, after: seq<Event>)
    requires Initial(w.sys) && w.sys.disk.home.AtPath? && (w.reader.StateStart? || w.reader.GoneStart?)
    requires p != q && p in w.sys.procs && q in w.sys.procs && w.sys.procs[p].job.Remove? && w.sys.procs[q].job.Remove?
    ensures CrashFree(before) && CrashFree(after)
    ensures AnsweredRemoved(Run(w, before).reader)
    ensures Run(w, before + after).sys.disk == Disk(AtPath, None, false)
  {
    var opening := Glimpse(p) + Between(w.reader);
    before, after := opening + (Detaching(q) + [Read]), RollingBack(q);
    FirstGlimpse(w, p);
    SecondGlimpse(Run(w, opening), q);
    RunConcat(w, opening, Detaching(q) + [Read]);
    RunConcat(w, opening, Glimpse(q));
    assert before + after == opening + Glimpse(q);
    NoneCrash(w.reader, p);
    NoneCrash(w.reader, q);
    CrashFreeConcat(Glimpse(p), Between(w.reader));
    CrashFreeConcat(opening, Detaching(q) + [Read]);
  }

  lemma {:induction false} CrashFreeConcat(a: seq<Event>, b: seq<Event>)
    requires CrashFree(a) && CrashFree(b)
    ensures CrashFree(a + b)
  {
  }

  lemma {:induction false} NoneCrash(r: Reader, p: Pid)
    ensures CrashFree(Detaching(p) + [Read]) && CrashFree(RollingBack(p)) && CrashFree(Glimpse(p))
            && CrashFree(Between(r))
  {
    assert CrashFree(Detaching(p));
    CrashFreeConcat(Detaching(p), [Read]);
    CrashFreeConcat([Read], RollingBack(p));
    CrashFreeConcat(Detaching(p), [Read] + RollingBack(p));
  }

  lemma {:induction false} SecondGlimpse(w: World, q: Pid)
    requires w.reader == StateLast(false) || w.reader.GoneUnclaimed?
    requires q in w.sys.procs && w.sys.procs[q].job.Remove? && w.sys.procs[q].pc.Start? && !w.sys.procs[q].crashed
    requires w.sys.disk == Disk(AtPath, None, false)
    ensures AnsweredRemoved(Run(w, Detaching(q) + [Read]).reader)
    ensures Run(w, Glimpse(q)).sys.disk == Disk(AtPath, None, false)
  {
    Glimpsed(w, q);
  }

  lemma {:induction false} FirstGlimpse(w: World, p: Pid)
    requires w.reader.StateStart? || w.reader.GoneStart?
    requires p in w.sys.procs && w.sys.procs[p].job.Remove? && w.sys.procs[p].pc.Start? && !w.sys.procs[p].crashed
    requires w.sys.disk == Disk(AtPath, None, false)
    ensures var v := Run(w, Glimpse(p) + Between(w.reader));
            && v.reader == (if w.reader.StateStart? then StateLast(false) else GoneUnclaimed)
            && v.sys.disk == Disk(AtPath, None, false)
            && v.sys.procs == w.sys.procs[p := w.sys.procs[p].(pc := Finished)]
  {
    Glimpsed(w, p);
    ReadsBetween(Run(w, Glimpse(p)), w.reader);
    RunConcat(w, Glimpse(p), Between(w.reader));
  }

  // ----- what a reader's answer means

  /** At most one of the processes is a removal attempt. */
  predicate OneAttempt(s: System) {
    forall p, q | p in s.procs && q in s.procs && s.procs[p].job.Remove? && s.procs[q].job.Remove? :: p == q
  }

  predicate BeforeRecord(pc: Pc) {
    pc.Start? || pc.AtHome? || pc.Claimed? || pc.Inspected?
  }

  /**
   * With one attempt: before its rename the home has not moved, and only an attempt past its record write
   * explains a record.
   */
  predicate AttemptInv(s: System) {
    && Inv(s) && OneAttempt(s)
    && (forall p | p in s.procs && s.procs[p].job.Remove? && NotDetached(s.procs[p].pc) :: s.disk.home.AtPath?)
    && (s.disk.record ==> PastRecord(s))
  }

  predicate NotDetached(pc: Pc) {
    pc.AtHome? || pc.Claimed? || pc.Inspected? || pc.Recorded?
  }

  /** The attempt, if any, is past the point where it could still take the home away. */
  predicate PastDetach(s: System) {
    forall p | p in s.procs && s.procs[p].job.Remove? ::
      Stopped(s.procs[p], s.disk) || (InSection(s.procs[p].pc) && !NotDetached(s.procs[p].pc))
  }

  predicate PastRecord(s: System) {
    exists p :: p in s.procs && s.procs[p].job.Remove? && !BeforeRecord(s.procs[p].pc)
  }

  /** A remover that takes no step under the claim any more. */
  predicate Stopped(proc: Proc, d: Disk) {
    proc.crashed || proc.pc.Finished? || (proc.pc.Start? && !d.home.AtPath?)
  }

  /**
   * No attempt can move the home or touch the record any more, and no claim is one's: what the record says of
   * the home is settled.
   */
  predicate Over(s: System) {
    && (forall p | p in s.procs && s.procs[p].job.Remove? :: Stopped(s.procs[p], s.disk) && s.disk.claim != Some(p))
    && RecordSound(s.disk, s.rescued)
  }

  /** What the reads so far have established about the attempt. */
  predicate ReaderKnows(s: System, r: Reader) {
    match r
    case StateStart => true
    case StateHome(home) => !home ==> PastDetach(s)
    case StateRecord(home, recorded) => (!home ==> PastDetach(s)) && (recorded ==> PastRecord(s))
    case StateUnclaimed(_) => Over(s)
    case StateLast(home) => !home ==> Over(s)
    case StateAnswer(state) => state.Removed? ==> Over(s) && (s.disk.home.AtPath? <==> s.rescued)
    case GoneStart => true
    case GoneAbsent => PastDetach(s)
    case GoneUnclaimed => Over(s)
    case GoneAnswer(gone) => gone ==> Over(s) && !s.disk.home.AtPath?
  }

  lemma {:induction false} PastRecordStays(s: System, p: Pid, choice: nat)
    requires p in s.procs && PastRecord(s)
    ensures PastRecord(Step(s, p, choice))
  {
    var t := Step(s, p, choice);
    var q :| q in s.procs && s.procs[q].job.Remove? && !BeforeRecord(s.procs[q].pc);
    assert t.procs[q].job.Remove? && !BeforeRecord(t.procs[q].pc);
  }

  /** Only the attempt itself, still live and past its check, moves the home. */
  lemma {:induction false} OthersLeaveHome(s: System, p: Pid, choice: nat)
    requires Inv(s) && p in s.procs
    ensures var t := Step(s, p, choice);
            && (s.procs[p].job.Write? || !InSection(s.procs[p].pc) ==>
                  t.disk.home == s.disk.home && t.disk.record == s.disk.record)
            && (NotDetached(t.procs[p].pc) && s.disk.home.AtPath? ==> t.disk.home.AtPath?)
            && (NotDetached(t.procs[p].pc) && s.procs[p].pc.Start? ==> t.disk.home.AtPath?)
            && (!s.disk.record && t.disk.record ==> s.procs[p].job.Remove? && !BeforeRecord(t.procs[p].pc))
  {
  }

  lemma {:induction false} StepKeepsAttempt(s: System, p: Pid, choice: nat)
    requires AttemptInv(s) && p in s.procs
    ensures AttemptInv(Step(s, p, choice))
  {
    var t := Step(s, p, choice);
    StepKeepsInv(s, p, choice);
    OthersLeaveHome(s, p, choice);
    assert forall q | q in s.procs :: t.procs[q].job == s.procs[q].job;
    if t.disk.record {
      if s.disk.record {
        PastRecordStays(s, p, choice);
      } else {
        assert t.procs[p].job.Remove? && !BeforeRecord(t.procs[p].pc);
      }
    }
  }

  lemma {:induction false} PastDetachStays(s: System, p: Pid, choice: nat)
    requires AttemptInv(s) && p in s.procs && PastDetach(s)
    ensures PastDetach(Step(s, p, choice))
  {
  }

  lemma {:induction false} OverStays(s: System, p: Pid, choice: nat)
    requires AttemptInv(s) && p in s.procs && Over(s)
    ensures var t := Step(s, p, choice);
            Over(t) && t.disk.home == s.disk.home && t.disk.record == s.disk.record && t.rescued == s.rescued
  {
    OthersLeaveHome(s, p, choice);
  }

  lemma {:induction false} StepKeepsReader(s: System, r: Reader, p: Pid, choice: nat)
    requires AttemptInv(s) && ReaderKnows(s, r) && p in s.procs
    ensures ReaderKnows(Step(s, p, choice), r)
  {
    if PastDetach(s) {
      PastDetachStays(s, p, choice);
    }
    if Over(s) {
      OverStays(s, p, choice);
    }
    if PastRecord(s) {
      PastRecordStays(s, p, choice);
    }
  }

  function Crashed(s: System, p: Pid): System
    requires p in s.procs
  {
    s.(procs := s.procs[p := s.procs[p].(crashed := true)])
  }

  lemma {:induction false} CrashKeepsReader(s: System, r: Reader, p: Pid)
    requires AttemptInv(s) && ReaderKnows(s, r) && p in s.procs
    ensures AttemptInv(Crashed(s, p)) && ReaderKnows(Crashed(s, p), r)
    ensures Over(s) ==> Over(Crashed(s, p))
  {
    if PastRecord(s) {
      var q :| q in s.procs && s.procs[q].job.Remove? && !BeforeRecord(s.procs[q].pc);
      assert Crashed(s, p).procs[q].job.Remove? && !BeforeRecord(Crashed(s, p).procs[q].pc);
    }
  }

  /** A free claim means a live attempt is outside its section. */
  lemma {:induction false} UnclaimedIsOver(s: System)
    requires AttemptInv(s) && s.disk.claim.None? && (PastDetach(s) || PastRecord(s))
    ensures Over(s)
  {
    if PastRecord(s) {
      var q :| q in s.procs && s.procs[q].job.Remove? && !BeforeRecord(s.procs[q].pc);
      assert Stopped(s.procs[q], s.disk);
    }
  }

  lemma {:induction false} ReadKeepsReader(s: System, r: Reader)
    requires AttemptInv(s) && ReaderKnows(s, r)
    ensures ReaderKnows(s, ReadStep(s.disk, r))
  {
    if s.disk.claim.None? && (PastDetach(s) || PastRecord(s)) {
      UnclaimedIsOver(s);
    }
  }

  lemma {:induction false} ApplyKeepsReader(w: World, e: Event)
    requires AttemptInv(w.sys) && ReaderKnows(w.sys, w.reader)
    ensures var v := Apply(w, e);
            && AttemptInv(v.sys) && ReaderKnows(v.sys, v.reader)
            && (Answered(w.reader) ==> v.reader == w.reader)
            && (Over(w.sys) ==> Over(v.sys) && v.sys.disk.home == w.sys.disk.home && v.sys.rescued == w.sys.rescued)
  {
    match e
    case Advance(p, choice) =>
      if p in w.sys.procs {
        StepKeepsAttempt(w.sys, p, choice);
        StepKeepsReader(w.sys, w.reader, p, choice);
        if Over(w.sys) {
          OverStays(w.sys, p, choice);
        }
      }
    case Crash(p) =>
      if p in w.sys.procs {
        CrashKeepsReader(w.sys, w.reader, p);
      }
    case Read => ReadKeepsReader(w.sys, w.reader);
  }

  lemma {:induction false} RunKeepsReader(w: World, events: seq<Event>)
    requires AttemptInv(w.sys) && ReaderKnows(w.sys, w.reader)
    ensures var v := Run(w, events); AttemptInv(v.sys) && ReaderKnows(v.sys, v.reader)
    ensures Answered(w.reader) ==> Run(w, events).reader == w.reader
    ensures Over(w.sys) ==>
              Run(w, events).sys.disk.home == w.sys.disk.home && Run(w, events).sys.rescued == w.sys.rescued
    decreases |events|
  {
    if events != [] {
      ApplyKeepsReader(w, events[0]);
      RunKeepsReader(Apply(w, events[0]), events[1..]);
    }
  }

  predicate Answered(r: Reader) {
    r.StateAnswer? || r.GoneAnswer?
  }

  predicate AnsweredRemoved(r: Reader) {
    r == StateAnswer(Removed) || r == GoneAnswer(true)
  }

  /**
   * From a state with no record, against at most one removal attempt, any number of writers and any
   * crashes: once either reader answers "removed", the home never moves again, and it is at its path
   * exactly when a writer stepped over the attempt's crash and left its record behind. The three reads
   * are not fooled even then: the home is off its path for good.
   */
  lemma {:induction false} RemovedIsFinal(w: World, before: seq<Event>, after: seq<Event>)
    requires Initial(w.sys) && !w.sys.disk.record && OneAttempt(w.sys)
    requires w.reader.StateStart? || w.reader.GoneStart?
    requires AnsweredRemoved(Run(w, before).reader)
    ensures var s, t := Run(w, before).sys, Run(w, before + after).sys;
            && t.disk.home == s.disk.home && t.rescued == s.rescued
            && (t.disk.home.AtPath? <==> t.rescued)
            && (Run(w, before).reader.GoneAnswer? ==> !t.disk.home.AtPath?)
            && (CrashFree(before) ==> !t.disk.home.AtPath?)
  {
    RunKeepsReader(w, before);
    RunConcat(w, before, after);
    RunKeepsReader(Run(w, before), after);
    if CrashFree(before) {
      CrashFreeNeverRescues(w, before);
    }
  }

  /** With the home off its path from the start, every call ends at its first look. */
  predicate AllAway(s: System) {
    && !s.disk.home.AtPath? && s.disk.claim.None? && !s.rescued
    && forall p | p in s.procs :: s.procs[p].pc.Start? || s.procs[p].pc.Finished?
  }

  lemma {:induction false} AwayStaysAway(w: World, events: seq<Event>)
    requires AllAway(w.sys)
    ensures AllAway(Run(w, events).sys)
    decreases |events|
  {
    if events != [] {
      AwayStaysAway(Apply(w, events[0]), events[1..]);
    }
  }

  /**
   * An answer of "removed" given after `before` means the home is off its path, then and after `after`, rescues
   * aside.
   */
  predicate AnswerHolds(w: World, before: seq<Event>, after: seq<Event>) {
    AnsweredRemoved(Run(w, before).reader) ==>
      var s, t := Run(w, before).sys, Run(w, before + after).sys;
      (s.disk.home.AtPath? <==> s.rescued) && (t.disk.home.AtPath? <==> t.rescued)
  }

  /** The same without rescues. */
  predicate AnswerIsTrue(w: World, before: seq<Event>, after: seq<Event>) {
    AnsweredRemoved(Run(w, before).reader) ==>
      !Run(w, before).sys.disk.home.AtPath? && !Run(w, before + after).sys.disk.home.AtPath?
  }

  ghost predicate AnswersHold(w: World) {
    forall before, after :: AnswerHolds(w, before, after)
  }

  ghost predicate AnswersTrueCrashFree(w: World) {
    forall before, after | CrashFree(before) && CrashFree(after) :: AnswerIsTrue(w, before, after)
  }

  lemma {:induction false} OneAttemptSuffices(w: World, before: seq<Event>, after: seq<Event>)
    requires Initial(w.sys) && (!w.sys.disk.home.AtPath? || OneAttempt(w.sys))
    requires w.reader.StateStart? || w.reader.GoneStart?
    ensures AnswerHolds(w, before, after)
    ensures CrashFree(before) && CrashFree(after) ==> AnswerIsTrue(w, before, after)
  {
    if !w.sys.disk.home.AtPath? {
      AwayStaysAway(w, before);
      AwayStaysAway(w, before + after);
    } else if AnsweredRemoved(Run(w, before).reader) {
      RemovedIsFinal(w, before, after);
    }
  }

  /**
   * Exactly when a reader may be believed: over all runs of a system, crashes included or not, "removed"
   * is right if and only if at most one of its processes is a removal attempt (or the home was away already).
   */
  lemma {:induction false} ReadersSoundExactly(w: World)
    requires Initial(w.sys) && (w.reader.StateStart? || w.reader.GoneStart?)
    ensures AnswersHold(w) <==> !w.sys.disk.home.AtPath? || OneAttempt(w.sys)
    ensures AnswersTrueCrashFree(w) <==> !w.sys.disk.home.AtPath? || OneAttempt(w.sys)
  {
    if !w.sys.disk.home.AtPath? || OneAttempt(w.sys) {
      forall before, after
        ensures AnswerHolds(w, before, after)
        ensures CrashFree(before) && CrashFree(after) ==> AnswerIsTrue(w, before, after)
      {
        OneAttemptSuffices(w, before, after);
      }
    } else {
      var p, q :| p in w.sys.procs && q in w.sys.procs && w.sys.procs[p].job.Remove? && w.sys.procs[q].job.Remove?
          && p != q;
      var before, after := TwoAttemptsFoolTheReader(w, p, q);
      assert CrashFree(before + after);
      CrashFreeNeverRescues(w, before + after);
      assert !AnswerHolds(w, before, after) && !AnswerIsTrue(w, before, after);
    }
  }

  /** On a disk nobody changes, the five reads settle exactly what the two facts and the claim say. */
  lemma {:induction false} StillDiskAnswer(d: Disk)
    ensures var r3 := ReadStep(d, ReadStep(d, ReadStep(d, StateStart)));
            ReadStep(d, ReadStep(d, r3)) ==
            StateAnswer(if d.claim.Some? then Claimed' else if d.record || !d.home.AtPath? then Removed else Present)
    ensures ReadStep(d, ReadStep(d, ReadStep(d, GoneStart))) == GoneAnswer(!d.home.AtPath? && d.claim.None?)
  {
  }

  // ----- one removal as the code runs it

  /** What the system answers during one call; `holderDead` is the probe of a claim's present holder. */
  datatype Faults = Faults(holderDead: bool, eligible: bool, writes: bool, detaches: bool, removes: nat,
      renamesBack: bool, releases: bool)

  function ChoiceAt(f: Faults, pc: Pc): nat {
    match pc
    case Claimed => if f.eligible then 0 else 1
    case Inspected => if f.writes then 0 else 1
    case Recorded => if f.detaches then 0 else 1
    case Detached => f.removes
    case Failed(_) => if f.renamesBack then 0 else 1
    case Releasing => if f.releases then 0 else 1
    case _ => 0
  }

  function StepsLeft(pc: Pc): nat {
    match pc
    case Start => 11
    case AtHome => 10
    case Claimed => 9
    case Inspected => 8
    case Recorded => 7
    case Detached => 6
    case Failed(_) => 5
    case Repair => 4
    case RepairDelete => 3
    case Deleted => 2
    case Releasing => 1
    case Finished => 0
  }

  /** The disk after process `p` has run from `pc` to its end with nobody else stepping. */
  function Alone(d: Disk, p: Pid, job: Job, pc: Pc, f: Faults): Disk
    decreases StepsLeft(pc)
  {
    if pc.Finished? then d
    else
      var (d', pc') := Act(d, p, job, pc, d.claim.None? || f.holderDead, ChoiceAt(f, pc));
      Alone(d', p, job, pc', f)
  }

  /** Nothing fails up to and including the rename aside. */
  predicate GetsAside(optIn: bool, f: Faults) {
    f.eligible && (optIn ==> f.writes) && f.detaches
  }

  predicate Deletes(optIn: bool, f: Faults) {
    GetsAside(optIn, f) && f.removes == 0
  }

  /**
   * What a caller may rely on after an uninterrupted removal that got the claim, free or a dead holder's: a
   * deleted home has its record when one was asked for, a home still at its path has none, and the claim is
   * given back unless its release fails.
   */
  lemma {:induction false} RemovalOutcome(d: Disk, p: Pid, optIn: bool, f: Faults)
    requires d.home.AtPath? && (d.claim.None? || f.holderDead)
    ensures var t := Alone(d, p, Remove(optIn), Start, f);
            && (t.home.AtPath? ==> !t.record)
            && (!t.home.AtPath? && optIn ==> t.record)
            && (Deletes(optIn, f) ==> t.home.Gone?)
            && (t.home.Staged? ==> f.removes == 1 && !f.renamesBack)
            && t.claim == if f.releases then None else Some(p)
  {
    RemovalRuns(d.(claim := Some(p)), p, optIn, f);
  }

  lemma {:induction false} RemovalRuns(d: Disk, p: Pid, optIn: bool, f: Faults)
    requires d.home.AtPath? && d.claim == Some(p)
    ensures Alone(d, p, Remove(optIn), Claimed, f) ==
            if !f.eligible || (optIn && !f.writes) || !f.detaches then Ending(d, p, f)
            else
              var recorded := if optIn then d.(record := true) else d;
              if f.removes == 0 then Released(recorded.(home := Gone), f)
              else if f.removes == 1 && f.renamesBack then Ending(recorded, p, f)
              else Released(recorded.(home := if f.removes == 1 then Staged else Gone), f)
  {
    var job := Remove(optIn);
    assert Alone(d, p, job, Repair, f) == Ending(d, p, f) by { RepairRuns(d, p, job, f); }
    if f.eligible && (optIn ==> f.writes) && f.detaches {
      var recorded := if optIn then d.(record := true) else d;
      assert Alone(d, p, job, Claimed, f) == Alone(d, p, job, Inspected, f);
      assert Alone(d, p, job, Inspected, f) == Alone(recorded, p, job, Recorded, f);
      assert Alone(recorded, p, job, Recorded, f) == Alone(recorded.(home := Staged), p, job, Detached, f);
      DetachedRuns(recorded.(home := Staged), p, job, f);
    } else if f.eligible {
      assert Alone(d, p, job, Failed(false), f) == Alone(d, p, job, Repair, f);
      if optIn && f.writes {
        var recorded := d.(record := true);
        assert Alone(d, p, job, Inspected, f) == Alone(recorded, p, job, Recorded, f);
        assert Alone(recorded, p, job, Recorded, f) == Alone(recorded, p, job, Failed(false), f);
        assert Alone(recorded, p, job, Failed(false), f) == Alone(recorded, p, job, Repair, f);
        RepairRuns(recorded, p, job, f);
      }
    }
  }

  function Released(d: Disk, f: Faults): Disk {
    if f.releases then d.(claim := None) else d
  }

  /** The finally block with the home at its path: the record goes, then the claim. */
  function Ending(d: Disk, p: Pid, f: Faults): Disk {
    Released(d.(record := false), f)
  }

  lemma {:induction false} RepairRuns(d: Disk, p: Pid, job: Job, f: Faults)
    ensures Alone(d, p, job, Repair, f) == if d.home.AtPath? then Ending(d, p, f) else Released(d, f)
  {
    var gone := d.(record := false);
    assert Alone(d, p, job, Releasing, f) == Released(d, f);
    assert Alone(gone, p, job, Releasing, f) == Released(gone, f);
    assert d.home.AtPath? ==> Alone(d, p, job, RepairDelete, f) == Alone(gone, p, job, Releasing, f);
  }

  lemma {:induction false} DetachedRuns(d: Disk, p: Pid, job: Job, f: Faults)
    requires d.home.Staged?
    ensures Alone(d, p, job, Detached, f) ==
            if f.removes == 0 then Released(d.(home := Gone), f)
            else if f.removes == 1 && f.renamesBack then Ending(d.(home := AtPath), p, f)
            else Released(d.(home := if f.removes == 1 then Staged else Gone), f)
  {
    var gone := d.(home := Gone);
    if f.removes == 0 {
      assert Alone(d, p, job, Detached, f) == Alone(gone, p, job, Deleted, f);
      assert Alone(gone, p, job, Deleted, f) == Alone(gone, p, job, Releasing, f);
      assert Alone(gone, p, job, Releasing, f) == Released(gone, f);
    } else {
      var left := if f.removes == 1 then d else gone;
      var back := if f.removes == 1 && f.renamesBack then d.(home := AtPath) else left;
      assert Alone(d, p, job, Detached, f) == Alone(left, p, job, Failed(true), f);
      assert Alone(left, p, job, Failed(true), f) == Alone(back, p, job, Repair, f);
      RepairRuns(back, p, job, f);
    }
  }

  datatype Status = DeletedHome | Retained | FailedRemoval

  class OwnedHome {
    var home: Place
    var claim: Option<Pid>
    var record: bool

    function OnDisk(): Disk
      reads this
    {
      Disk(home, claim, record)
    }

    predicate Claimable(f: Faults)
      reads this
    {
      home.AtPath? && (claim.None? || f.holderDead)
    }

    /**
     * `removeOwnedAgentHome`, uninterrupted, with its own flags: it takes the protocol's steps and
     * nothing else, and reports a deletion exactly when it deleted the home. A dead holder's claim is taken
     * over, a live one's retains the home.
     */
    method RemoveOwnedAgentHome(p: Pid, optIn: bool, f: Faults) returns (status: Status)
      modifies this
      ensures OnDisk() == Alone(old(OnDisk()), p, Remove(optIn), Start, f)
      ensures status.DeletedHome? <==> old(Claimable(f)) && Deletes(optIn, f)
      ensures status.FailedRemoval? <==> old(Claimable(f)) && f.eligible && !Deletes(optIn, f)
    {
      if !home.AtPath? || (claim.Some? && !f.holderDead) {
        return Retained;
      }
      claim := Some(p);
      RemovalRuns(OnDisk(), p, optIn, f);
      var moved, deleted, threw := Try(optIn, f);
      status := if deleted then DeletedHome else if threw then FailedRemoval else Retained;
      if threw && moved && home.Staged? && f.renamesBack {
        home, moved := AtPath, false;
      }
      if !deleted && home.AtPath? {
        record := false;
      }
      if f.releases {
        claim := None;
      }
    }

    /** The `try` block under the claim: eligibility, record, detach, recursive removal. */
    method Try(optIn: bool, f: Faults) returns (moved: bool, deleted: bool, threw: bool)
      requires home.AtPath?
      modifies this`home, this`record
      ensures deleted <==> Deletes(optIn, f)
      ensures threw <==> f.eligible && !Deletes(optIn, f)
      ensures moved <==> GetsAside(optIn, f) && f.removes != 0
      ensures record == ((f.eligible && optIn && f.writes) || old(record))
      ensures home == if !GetsAside(optIn, f) then AtPath else if f.removes == 1 then Staged else Gone
    {
      moved, deleted, threw := false, false, false;
      if !f.eligible {
        return;
      }
      if optIn {
        if !f.writes {
          return false, false, true;
        }
        record := true;
      }
      if !f.detaches {
        return false, false, true;
      }
      home, moved := Staged, true;
      if f.removes == 0 {
        home := Gone;
        return false, true, false;
      }
      if f.removes > 1 {
        home := Gone;
      }
      return true, false, true;
    }
  }
}
