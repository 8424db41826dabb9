// agent-telemetry.ts, agent-cost.ts: cumulative cost estimates and their monotone merge.

module Costs {
  import opened Options

  /** A bounded cumulative estimate; `unknownContributors` marks an incomplete sum. */
  datatype Cost = Cost(knownUsd: real, knownContributors: nat, unknownContributors: nat, descendants: nat)

  const ZERO := Cost(0.0, 0, 0, 0)

  /** Nothing known is no dollars: the shape every reduced cost has. */
  predicate Founded(c: Cost) {
    c.knownUsd >= 0.0 && (c.knownContributors == 0 ==> c.knownUsd == 0.0)
  }

  function Merge(previous: Option<Cost>, observed: Cost): Cost {
    if previous.None? then observed
    else if !(observed.knownUsd < previous.value.knownUsd) && observed.knownContributors > 0 then observed
    else Cost(previous.value.knownUsd, previous.value.knownContributors, 1, 1)
  }

  function Plus(a: Cost, b: Cost): Cost {
    Cost(a.knownUsd + b.knownUsd, a.knownContributors + b.knownContributors,
         a.unknownContributors + b.unknownContributors, a.descendants + b.descendants)
  }

  function MaxUsd(x: real, y: real): real {
    if x >= y then x else y
  }

  /** The merge keeps the larger known sum, and keeps costs founded. */
  lemma {:induction false} MergeIsMax(previous: Cost, observed: Cost)
    requires Founded(observed) && previous.knownUsd >= 0.0
    ensures Merge(Some(previous), observed).knownUsd == MaxUsd(previous.knownUsd, observed.knownUsd)
    ensures Founded(previous) ==> Founded(Merge(Some(previous), observed))
  {
  }

  /** Without that shape the merge loses exactly an observation that has dollars but no known contributor. */
  lemma {:induction false} MergeLosesExactly(previous: Option<Cost>, observed: Cost)
    ensures Merge(previous, observed).knownUsd < observed.knownUsd <==>
            previous.Some? && observed.knownContributors == 0 && observed.knownUsd > previous.value.knownUsd
    ensures previous.Some? ==> Merge(previous, observed).knownUsd >= previous.value.knownUsd
  {
  }

  /** A fall or an observation without contributors keeps what was known and marks it incomplete, one agent's. */
  lemma {:induction false} MergeMarksIncomplete(previous: Cost, observed: Cost)
    ensures var merged := Merge(Some(previous), observed);
            if observed.knownUsd < previous.knownUsd || observed.knownContributors == 0
            then
              && merged.knownUsd == previous.knownUsd && merged.knownContributors == previous.knownContributors
              && merged.unknownContributors == 1 && merged.descendants == 1
            else merged == observed
    ensures Merge(None, observed) == observed
  {
  }

  /** Rewrites of one record, each merged over what the last one left. */
  function Rewrites(record: Option<Cost>, writes: seq<Cost>): Option<Cost>
    decreases |writes|
  {
    if writes == [] then record else Rewrites(Some(Merge(record, writes[0])), writes[1..])
  }

  /** Whatever order concurrent rewrites land in, the record ends at the largest sum any of them carried. */
  lemma {:induction false} RewritesReachMax(record: Option<Cost>, writes: seq<Cost>)
    requires record.Some? ==> Founded(record.value)
    requires forall k | 0 <= k < |writes| :: Founded(writes[k])
    ensures var end := Rewrites(record, writes);
            && (record.Some? || writes != [] ==> end.Some? && Founded(end.value))
            && (record.Some? ==> end.value.knownUsd >= record.value.knownUsd)
            && (forall k | 0 <= k < |writes| :: end.value.knownUsd >= writes[k].knownUsd)
            && (end.Some? ==> (record.Some? && end.value.knownUsd == record.value.knownUsd)
                              || exists k :: 0 <= k < |writes| && end.value.knownUsd == writes[k].knownUsd)
    decreases |writes|
  {
    if writes != [] {
      if record.Some? {
        MergeIsMax(record.value, writes[0]);
      }
      var next := Merge(record, writes[0]);
      RewritesReachMax(Some(next), writes[1..]);
      var end := Rewrites(Some(next), writes[1..]).value;
      forall k | 0 <= k < |writes|
        ensures end.knownUsd >= writes[k].knownUsd
      {
        if k > 0 {
          assert writes[1..][k - 1] == writes[k];
        }
      }
      if end.knownUsd == next.knownUsd {
        assert next.knownUsd == writes[0].knownUsd || (record.Some? && next.knownUsd == record.value.knownUsd);
      } else {
        var k :| 0 <= k < |writes[1..]| && end.knownUsd == writes[1..][k].knownUsd;
        assert end.knownUsd == writes[k + 1].knownUsd;
      }
    }
  }
}
