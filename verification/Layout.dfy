// agent-widget.ts: which agents the expanded widget shows within its row budget.

module Layout {
  import opened AgentTree
  import opened Bounds

  /** What the planner reads of one row. */
  datatype Entry = Entry(running: bool, batchSource: bool, depth: nat)

  /** Every row's parent comes before it. */
  predicate ParentsOk(parents: seq<int>) {
    forall i | 0 <= i < |parents| :: -1 <= parents[i] < i
  }

  function Sources(entries: seq<Entry>): nat {
    if entries == [] then 0 else Sources(entries[..|entries| - 1]) + if entries[|entries| - 1].batchSource then 1 else 0
  }

  /** The largest allotment up to `rowsPerAgent` at which everything fits, down to one. */
  method ChooseBatchAllotment(entries: seq<Entry>, rowsPerAgent: int, budget: int) returns (n: int)
    ensures 1 <= n <= Max(1, rowsPerAgent)
    ensures n > 1 ==> |entries| + Sources(entries) * n <= budget
    ensures forall m | n < m <= rowsPerAgent :: |entries| + Sources(entries) * m > budget
  {
    n := Max(1, rowsPerAgent);
    var sources := CountSources(entries);
    while n > 1
      invariant 1 <= n <= Max(1, rowsPerAgent)
      invariant forall m | n < m <= rowsPerAgent :: |entries| + sources * m > budget
    {
      if |entries| + sources * n <= budget {
        return;
      }
      n := n - 1;
    }
  }

  method CountSources(entries: seq<Entry>) returns (n: nat)
    ensures n == Sources(entries)
  {
    n := 0;
    for i := 0 to |entries|
      invariant n == Sources(entries[..i])
    {
      assert entries[..i + 1][..i] == entries[..i];
      n := n + if entries[i].batchSource then 1 else 0;
    }
    assert entries[..|entries|] == entries;
  }

  // ----- showing a row with its ancestors

  function Count(shown: seq<bool>): nat {
    if shown == [] then 0 else Count(shown[..|shown| - 1]) + if shown[|shown| - 1] then 1 else 0
  }

  function Sum(rows: seq<nat>): nat {
    if rows == [] then 0 else Sum(rows[..|rows| - 1]) + rows[|rows| - 1]
  }

  lemma {:induction false} CountSet(shown: seq<bool>, k: nat)
    requires k < |shown| && !shown[k]
    ensures Count(shown[k := true]) == Count(shown) + 1
  {
    var n := |shown| - 1;
    if k < n {
      CountSet(shown[..n], k);
      assert shown[k := true][..n] == shown[..n][k := true];
    } else {
      assert shown[k := true][..n] == shown[..n];
    }
  }

  lemma {:induction false} SumSet(rows: seq<nat>, k: nat, r: nat)
    requires k < |rows| && rows[k] == 0
    ensures Sum(rows[k := r]) == Sum(rows) + r
  {
    var n := |rows| - 1;
    if k < n {
      SumSet(rows[..n], k, r);
      assert rows[k := r][..n] == rows[..n][k := r];
    } else {
      assert rows[k := r][..n] == rows[..n];
    }
  }

  /** Row `i` is row `j` or one of its ancestors. */
  predicate Above(parents: seq<int>, i: nat, j: nat)
    requires ParentsOk(parents) && i < |parents| && j < |parents|
    decreases j
  {
    i == j || (parents[j] >= 0 && Above(parents, i, parents[j]))
  }

  /** A shown row's ancestors are shown. */
  predicate Closed(parents: seq<int>, shown: seq<bool>)
    requires ParentsOk(parents) && |shown| == |parents|
  {
    forall i | 0 <= i < |shown| && shown[i] && parents[i] >= 0 :: shown[parents[i]]
  }

  function ShowUp(parents: seq<int>, shown: seq<bool>, at: int): (r: seq<bool>)
    requires ParentsOk(parents) && |shown| == |parents| && -1 <= at < |parents|
    ensures |r| == |shown|
    decreases at + 1
  {
    if at < 0 || shown[at] then shown else ShowUp(parents, shown[at := true], parents[at])
  }

  /** Rows a climb from `at` would newly show. */
  function Climb(parents: seq<int>, shown: seq<bool>, at: int): nat
    requires ParentsOk(parents) && |shown| == |parents| && -1 <= at < |parents|
    decreases at + 1
  {
    if at < 0 || shown[at] then 0 else 1 + Climb(parents, shown, parents[at])
  }

  lemma {:induction false} ClimbIgnoresLater(parents: seq<int>, shown: seq<bool>, at: int, k: nat)
    requires ParentsOk(parents) && |shown| == |parents| && -1 <= at < k < |parents|
    ensures Climb(parents, shown[k := true], at) == Climb(parents, shown, at)
    decreases at + 1
  {
    if at >= 0 && !shown[at] {
      ClimbIgnoresLater(parents, shown, parents[at], k);
    }
  }

  lemma {:induction false} ShowUpCounts(parents: seq<int>, shown: seq<bool>, at: int)
    requires ParentsOk(parents) && |shown| == |parents| && -1 <= at < |parents|
    ensures Count(ShowUp(parents, shown, at)) == Count(shown) + Climb(parents, shown, at)
    decreases at + 1
  {
    if at >= 0 && !shown[at] {
      CountSet(shown, at);
      ClimbIgnoresLater(parents, shown, parents[at], at);
      ShowUpCounts(parents, shown[at := true], parents[at]);
    }
  }

  /** Closed, but for rows whose parent is `pending`. */
  predicate ClosedBut(parents: seq<int>, shown: seq<bool>, pending: int)
    requires ParentsOk(parents) && |shown| == |parents|
  {
    forall i | 0 <= i < |shown| && shown[i] && parents[i] >= 0 :: shown[parents[i]] || parents[i] == pending
  }

  /** Showing a row shows exactly it and its ancestors besides what was shown, and leaves the set closed. */
  lemma {:induction false} ShowUpExact(parents: seq<int>, shown: seq<bool>, at: int)
    requires ParentsOk(parents) && |shown| == |parents| && -1 <= at < |parents|
    requires ClosedBut(parents, shown, at)
    ensures Closed(parents, ShowUp(parents, shown, at))
    ensures forall i | 0 <= i < |shown| ::
              ShowUp(parents, shown, at)[i] <==> shown[i] || (at >= 0 && Above(parents, i, at))
    decreases at + 1
  {
    if at >= 0 {
      if shown[at] {
        forall i | 0 <= i < |shown| && Above(parents, i, at)
          ensures shown[i]
        {
          AboveShown(parents, shown, i, at);
        }
      } else {
        ShowUpExact(parents, shown[at := true], parents[at]);
      }
    }
  }

  lemma {:induction false} AboveShown(parents: seq<int>, shown: seq<bool>, i: nat, j: nat)
    requires ParentsOk(parents) && |shown| == |parents| && i < |parents| && j < |parents|
    requires Closed(parents, shown) && shown[j] && Above(parents, i, j)
    ensures shown[i]
    decreases j
  {
    if i != j {
      AboveShown(parents, shown, i, parents[j]);
    }
  }

  method ShowWithAncestors(parents: seq<int>, shown: seq<bool>, index: nat) returns (r: seq<bool>)
    requires ParentsOk(parents) && |shown| == |parents| && index < |parents|
    ensures r == ShowUp(parents, shown, index)
  {
    r := shown;
    var at: int := index;
    while at >= 0 && !r[at]
      invariant -1 <= at < |parents| && |r| == |shown|
      invariant ShowUp(parents, shown, index) == ShowUp(parents, r, at)
      decreases at
    {
      r := r[at := true];
      at := parents[at];
    }
  }

  // ----- the kept rows, then the greedy fill

  /** Every row in a non-running state among the first `n`, with its ancestors. */
  function Kept(entries: seq<Entry>, parents: seq<int>, n: nat): (r: seq<bool>)
    requires ParentsOk(parents) && |entries| == |parents| && n <= |entries|
    ensures |r| == |entries|
  {
    if n == 0 then seq(|entries|, _ => false)
    else
      var before := Kept(entries, parents, n - 1);
      if entries[n - 1].running then before else ShowUp(parents, before, n - 1)
  }

  /** Row `i` or some row below it, among the first `n`, is not running. */
  predicate Needed(entries: seq<Entry>, parents: seq<int>, n: nat, i: nat)
    requires ParentsOk(parents) && |entries| == |parents| && n <= |entries| && i < |entries|
  {
    exists j :: 0 <= j < n && !entries[j].running && Above(parents, i, j)
  }

  lemma {:induction false} NeededStep(entries: seq<Entry>, parents: seq<int>, n: nat, i: nat)
    requires ParentsOk(parents) && |entries| == |parents| && 0 < n <= |entries| && i < |entries|
    ensures Needed(entries, parents, n, i) <==>
            Needed(entries, parents, n - 1, i) || (!entries[n - 1].running && Above(parents, i, n - 1))
  {
    if Needed(entries, parents, n, i) {
      var j :| 0 <= j < n && !entries[j].running && Above(parents, i, j);
      assert j < n - 1 ==> Needed(entries, parents, n - 1, i);
    }
  }

  lemma {:induction false} KeepsOne(entries: seq<Entry>, parents: seq<int>, n: nat, before: seq<bool>)
    requires ParentsOk(parents) && |entries| == |parents| == |before| && 0 < n <= |entries| && Closed(parents, before)
    requires forall i | 0 <= i < |entries| :: before[i] <==> Needed(entries, parents, n - 1, i)
    ensures var after := if entries[n - 1].running then before else ShowUp(parents, before, n - 1);
            Closed(parents, after) && forall i | 0 <= i < |entries| :: after[i] <==> Needed(entries, parents, n, i)
  {
    var after := if entries[n - 1].running then before else ShowUp(parents, before, n - 1);
    if !entries[n - 1].running {
      ShowUpExact(parents, before, n - 1);
    }
    forall i | 0 <= i < |entries|
      ensures after[i] <==> Needed(entries, parents, n, i)
    {
      NeededStep(entries, parents, n, i);
    }
  }

  /** A row is kept exactly when it, or some row below it, is not running; the kept rows are closed under ancestors. */
  lemma {:induction false} KeptExactly(entries: seq<Entry>, parents: seq<int>, n: nat)
    requires ParentsOk(parents) && |entries| == |parents| && n <= |entries|
    ensures Closed(parents, Kept(entries, parents, n))
    ensures forall i | 0 <= i < |entries| :: Kept(entries, parents, n)[i] <==> Needed(entries, parents, n, i)
  {
    if n > 0 {
      var before := Kept(entries, parents, n - 1);
      assert Kept(entries, parents, n) == if entries[n - 1].running then before else ShowUp(parents, before, n - 1);
      KeptExactly(entries, parents, n - 1);
      KeepsOne(entries, parents, n, before);
    }
  }

  datatype Fill = Fill(shown: seq<bool>, rows: seq<nat>, remaining: int)

  function RowsOf(e: Entry, allotment: nat): nat {
    if e.batchSource then allotment else 0
  }

  /**
   * One row's turn: its batch rows when already shown, else its header, hidden ancestors and batch rows, if they
   * fit.
   */
  function FillStep(e: Entry, parents: seq<int>, allotment: nat, f: Fill, i: nat): (r: Fill)
    requires ParentsOk(parents) && |f.shown| == |f.rows| == |parents| && i < |parents|
    ensures |r.shown| == |r.rows| == |parents|
  {
    var rows := RowsOf(e, allotment);
    if f.shown[i] then
      if rows > 0 && f.remaining >= rows then Fill(f.shown, f.rows[i := rows], f.remaining - rows) else f
    else
      var cost := 1 + Climb(parents, f.shown, parents[i]) + rows;
      if cost > f.remaining then f
      else Fill(ShowUp(parents, f.shown, i), f.rows[i := rows], f.remaining - cost)
  }

  function Filled(entries: seq<Entry>, parents: seq<int>, allotment: nat, start: Fill, n: nat): (r: Fill)
    requires ParentsOk(parents) && |entries| == |start.shown| == |start.rows| == |parents| && n <= |entries|
    ensures |r.shown| == |r.rows| == |parents|
  {
    if n == 0 then start
    else FillStep(entries[n - 1], parents, allotment, Filled(entries, parents, allotment, start, n - 1), n - 1)
  }

  /** The fill spends exactly what it takes from the remaining budget, and keeps the shown set closed. */
  predicate FillOk(entries: seq<Entry>, parents: seq<int>, allotment: nat, budget: int, f: Fill, n: nat)
    requires ParentsOk(parents) && |entries| == |f.shown| == |f.rows| == |parents|
  {
    && Closed(parents, f.shown)
    && Count(f.shown) + Sum(f.rows) + f.remaining == budget - 1
    && (forall i | 0 <= i < |entries| && f.rows[i] > 0 ::
          i < n && f.shown[i] && f.rows[i] == RowsOf(entries[i], allotment))
  }

  /** The fill takes nothing back, never overdraws, and does nothing once overdrawn. */
  predicate Onward(f: Fill, t: Fill) {
    && (f.remaining < 0 ==> t == f)
    && (f.remaining >= 0 ==> t.remaining >= 0)
    && |f.shown| == |t.shown|
    && forall k | 0 <= k < |f.shown| && f.shown[k] :: t.shown[k]
  }

  lemma {:induction false} OnwardThrough(a: Fill, b: Fill, c: Fill)
    requires Onward(a, b) && Onward(b, c)
    ensures Onward(a, c)
  {
  }

  lemma {:induction false} FillStepCosts(parents: seq<int>, shown: seq<bool>, i: nat)
    requires ParentsOk(parents) && |shown| == |parents| && i < |parents| && Closed(parents, shown)
    ensures Closed(parents, ShowUp(parents, shown, i))
    ensures Count(ShowUp(parents, shown, i)) == Count(shown) + Climb(parents, shown, i)
    ensures forall k | 0 <= k < |shown| && shown[k] :: ShowUp(parents, shown, i)[k]
    ensures ShowUp(parents, shown, i)[i]
  {
    ShowUpCounts(parents, shown, i);
    ShowUpExact(parents, shown, i);
  }

  lemma {:induction false} FillStepOk(entries: seq<Entry>, parents: seq<int>, allotment: nat, budget: int, f: Fill,
          i: nat, t: Fill)
    requires ParentsOk(parents) && |entries| == |f.shown| == |f.rows| == |parents| && i < |parents|
    requires FillOk(entries, parents, allotment, budget, f, i) && t == FillStep(entries[i], parents, allotment, f, i)
    ensures FillOk(entries, parents, allotment, budget, t, i + 1)
  {
    assert f.rows[i] == 0;
    SumSet(f.rows, i, RowsOf(entries[i], allotment));
    FillStepCosts(parents, f.shown, i);
  }

  lemma {:induction false} FillStepOnward(e: Entry, parents: seq<int>, allotment: nat, f: Fill, i: nat, t: Fill)
    requires ParentsOk(parents) && |f.shown| == |f.rows| == |parents| && i < |parents| && Closed(parents, f.shown)
    requires t == FillStep(e, parents, allotment, f, i)
    ensures Onward(f, t)
  {
    FillStepCosts(parents, f.shown, i);
  }

  lemma {:induction false} FilledKeepsOk(entries: seq<Entry>, parents: seq<int>, allotment: nat, budget: int,
          start: Fill, n: nat)
    requires ParentsOk(parents) && |entries| == |start.shown| == |start.rows| == |parents| && n <= |entries|
    requires FillOk(entries, parents, allotment, budget, start, 0)
    ensures FillOk(entries, parents, allotment, budget, Filled(entries, parents, allotment, start, n), n)
  {
    if n > 0 {
      var f, t := Filled(entries, parents, allotment, start, n - 1), Filled(entries, parents, allotment, start, n);
      FilledKeepsOk(entries, parents, allotment, budget, start, n - 1);
      FillStepOk(entries, parents, allotment, budget, f, n - 1, t);
    }
  }

  lemma {:induction false} FilledOnward(entries: seq<Entry>, parents: seq<int>, allotment: nat, budget: int,
          start: Fill, n: nat)
    requires ParentsOk(parents) && |entries| == |start.shown| == |start.rows| == |parents| && n <= |entries|
    requires FillOk(entries, parents, allotment, budget, start, 0)
    ensures Onward(start, Filled(entries, parents, allotment, start, n))
  {
    if n > 0 {
      var f, t := Filled(entries, parents, allotment, start, n - 1), Filled(entries, parents, allotment, start, n);
      FilledOnward(entries, parents, allotment, budget, start, n - 1);
      assert Closed(parents, f.shown) by {
        FilledKeepsOk(entries, parents, allotment, budget, start, n - 1);
      }
      FillStepOnward(entries[n - 1], parents, allotment, f, n - 1, t);
      OnwardThrough(start, f, t);
    }
  }

  /** The greedy fill stays closed, accounts for every line, and takes nothing back. */
  lemma {:induction false} FilledOk(entries: seq<Entry>, parents: seq<int>, allotment: nat, budget: int, start: Fill,
          n: nat)
    requires ParentsOk(parents) && |entries| == |start.shown| == |start.rows| == |parents| && n <= |entries|
    requires FillOk(entries, parents, allotment, budget, start, 0)
    ensures var t := Filled(entries, parents, allotment, start, n);
            FillOk(entries, parents, allotment, budget, t, n) && Onward(start, t)
  {
    FilledKeepsOk(entries, parents, allotment, budget, start, n);
    FilledOnward(entries, parents, allotment, budget, start, n);
  }

  // ----- the plan

  /** Which rows are shown, with how many batch rows each, the size of the folded tail, and blank padding. */
  datatype Plan = Plan(shown: seq<bool>, rows: seq<nat>, hidden: nat, padding: nat)

  function Tail(hidden: nat): nat {
    if hidden > 0 then 1 else 0
  }

  function LineCount(p: Plan): nat {
    Count(p.shown) + Sum(p.rows) + Tail(p.hidden) + p.padding
  }

  predicate Fits(entries: seq<Entry>, allotment: nat, budget: int) {
    |entries| + Sources(entries) * allotment <= budget
  }

  /** Nothing to fold: every row, with its full allotment. */
  function FullPlan(entries: seq<Entry>, allotment: nat): (p: Plan)
    ensures |p.shown| == |p.rows| == |entries| && p.hidden == p.padding == 0
    ensures forall i | 0 <= i < |entries| :: p.shown[i] && p.rows[i] == RowsOf(entries[i], allotment)
  {
    Plan(seq(|entries|, _ => true),
         seq(|entries|, i requires 0 <= i < |entries| => RowsOf(entries[i], allotment)), 0, 0)
  }

  /** The start of the greedy fill: the kept rows, and one line set aside for the tail. */
  function Opening(entries: seq<Entry>, parents: seq<int>, budget: int): (f: Fill)
    requires ParentsOk(parents) && |entries| == |parents|
    ensures |f.shown| == |f.rows| == |entries|
  {
    var kept := Kept(entries, parents, |entries|);
    Fill(kept, seq(|entries|, _ => 0), budget - Count(kept) - 1)
  }

  function Padded(f: Fill, budget: int): Plan
    requires |f.shown| == |f.rows| && Count(f.shown) <= |f.shown|
  {
    var hidden := |f.shown| - Count(f.shown);
    Plan(f.shown, f.rows, hidden, Max(0, budget - (Count(f.shown) + Sum(f.rows) + Tail(hidden))))
  }

  lemma {:induction false} CountAtMost(shown: seq<bool>)
    ensures Count(shown) <= |shown|
    ensures (forall i | 0 <= i < |shown| :: shown[i]) ==> Count(shown) == |shown|
  {
    if shown != [] {
      CountAtMost(shown[..|shown| - 1]);
    }
  }

  lemma {:induction false} SumZero(n: nat)
    ensures Sum(seq(n, _ => 0)) == 0
  {
    if n > 0 {
      SumZero(n - 1);
      assert seq(n, _ => 0)[..n - 1] == seq(n - 1, _ => 0);
    }
  }

  /** Everything when it fits, else the padded greedy fill; `turns[i]` is what is shown at the turn of row `i`. */
  method PlanExpandedRows(entries: seq<Entry>, allotment: nat, budget: int)
      returns (p: Plan, ghost parents: seq<int>, ghost turns: seq<seq<bool>>)
    ensures |parents| == |entries| && ParentsOk(parents)
    ensures forall k | 0 <= k < |entries| :: Nearest(EntryDepths(entries), k, parents[k])
    ensures |p.shown| == |p.rows| == |entries|
    ensures Fits(entries, allotment, budget) ==>
              p.hidden == p.padding == 0
              && forall i | 0 <= i < |entries| :: p.shown[i] && p.rows[i] == RowsOf(entries[i], allotment)
    ensures !Fits(entries, allotment, budget) ==>
              var f := Filled(entries, parents, allotment, Opening(entries, parents, budget), |entries|);
              Count(f.shown) <= |f.shown| && p == Padded(f, budget)
    ensures !Fits(entries, allotment, budget) ==> Greedy(entries, parents, allotment, budget, p, turns)
  {
    var up := ParentIndexes(EntryDepths(entries));
    parents, turns := up, [];
    var sources := CountSources(entries);
    if |entries| + sources * allotment <= budget {
      return FullPlan(entries, allotment), up, [];
    }
    p := FoldRows(entries, up, allotment, budget);
    turns := FillIsGreedy(entries, up, allotment, budget);
  }

  /** The second pass and the padding, when not everything fits. */
  method FoldRows(entries: seq<Entry>, up: seq<int>, allotment: nat, budget: int) returns (p: Plan)
    requires ParentsOk(up) && |entries| == |up|
    ensures |p.shown| == |p.rows| == |entries|
    ensures var f := Filled(entries, up, allotment, Opening(entries, up, budget), |entries|);
            Count(f.shown) <= |f.shown| && p == Padded(f, budget)
  {
    var shown := KeepRows(entries, up);
    var kept := Counted(shown);
    var f := Fill(shown, seq(|entries|, _ => 0), budget - kept - 1);
    ghost var opening := f;
    var index := 0;
    while index < |entries|
      invariant 0 <= index <= |entries|
      invariant |f.shown| == |f.rows| == |entries|
      invariant f == Filled(entries, up, allotment, opening, index)
    {
      f := TakeTurn(entries[index], up, allotment, f, index);
      index := index + 1;
    }
    CountAtMost(f.shown);
    var items := Counted(f.shown);
    var rows := Summed(f.rows);
    var hidden := |entries| - items;
    p := Plan(f.shown, f.rows, hidden, Max(0, budget - (items + rows + if hidden > 0 then 1 else 0)));
  }

  function EntryDepths(entries: seq<Entry>): (r: seq<nat>)
    ensures |r| == |entries|
  {
    seq<nat>(|entries|, i requires 0 <= i < |entries| => entries[i].depth)
  }

  /** The first pass: every row in a non-running state, with its ancestors. */
  method KeepRows(entries: seq<Entry>, parents: seq<int>) returns (shown: seq<bool>)
    requires ParentsOk(parents) && |entries| == |parents|
    ensures shown == Kept(entries, parents, |entries|)
  {
    shown := seq(|entries|, _ => false);
    for i := 0 to |entries|
      invariant |shown| == |entries| && shown == Kept(entries, parents, i)
    {
      if !entries[i].running {
        shown := ShowWithAncestors(parents, shown, i);
      }
    }
  }

  /** The second pass's body, with its climb over hidden ancestors. */
  method TakeTurn(e: Entry, parents: seq<int>, allotment: nat, f: Fill, i: nat) returns (r: Fill)
    requires ParentsOk(parents) && |f.shown| == |f.rows| == |parents| && i < |parents|
    ensures r == FillStep(e, parents, allotment, f, i)
  {
    var rows := if e.batchSource then allotment else 0;
    if f.shown[i] {
      if rows > 0 && f.remaining >= rows {
        return Fill(f.shown, f.rows[i := rows], f.remaining - rows);
      }
      return f;
    }
    var hiddenAncestors := 0;
    var at := parents[i];
    while at >= 0 && !f.shown[at]
      invariant -1 <= at < |parents|
      invariant Climb(parents, f.shown, parents[i]) == hiddenAncestors + Climb(parents, f.shown, at)
      decreases at
    {
      hiddenAncestors := hiddenAncestors + 1;
      at := parents[at];
    }
    var cost := 1 + hiddenAncestors + rows;
    if cost > f.remaining {
      return f;
    }
    var shown := ShowWithAncestors(parents, f.shown, i);
    return Fill(shown, f.rows[i := rows], f.remaining - cost);
  }

  method Counted(shown: seq<bool>) returns (n: nat)
    ensures n == Count(shown)
  {
    n := 0;
    for i := 0 to |shown|
      invariant n == Count(shown[..i])
    {
      assert shown[..i + 1][..i] == shown[..i];
      n := n + if shown[i] then 1 else 0;
    }
    assert shown[..|shown|] == shown;
  }

  method Summed(rows: seq<nat>) returns (n: nat)
    ensures n == Sum(rows)
  {
    n := 0;
    for i := 0 to |rows|
      invariant n == Sum(rows[..i])
    {
      assert rows[..i + 1][..i] == rows[..i];
      n := n + rows[i];
    }
    assert rows[..|rows|] == rows;
  }

  /** The kept rows are a sound start for the fill. */
  lemma {:induction false} OpeningOk(entries: seq<Entry>, parents: seq<int>, allotment: nat, budget: int)
    requires ParentsOk(parents) && |entries| == |parents|
    ensures FillOk(entries, parents, allotment, budget, Opening(entries, parents, budget), 0)
    ensures Sum(Opening(entries, parents, budget).rows) == 0
    ensures forall i | 0 <= i < |entries| && !entries[i].running :: Opening(entries, parents, budget).shown[i]
  {
    KeptExactly(entries, parents, |entries|);
    SumZero(|entries|);
    forall i | 0 <= i < |entries| && !entries[i].running
      ensures Kept(entries, parents, |entries|)[i]
    {
      assert Above(parents, i, i);
    }
  }

  lemma {:induction false} PaddedLines(f: Fill, budget: int)
    requires |f.shown| == |f.rows| && Count(f.shown) <= |f.shown|
    requires Count(f.shown) + Sum(f.rows) + f.remaining == budget - 1
    ensures LineCount(Padded(f, budget)) == Max(budget, Count(f.shown) + Sum(f.rows) + Tail(Padded(f, budget).hidden))
    ensures f.remaining >= 0 ==> LineCount(Padded(f, budget)) == budget
  {
  }

  /**
   * A folded plan shows every non-running row, keeps the shown set closed under ancestors, gives batch
   * rows only to shown sources, and has exactly `budget` lines if the kept headers and the tail fit,
   * else the kept headers and the tail alone.
   */
  lemma {:induction false} FoldedPlan(entries: seq<Entry>, parents: seq<int>, allotment: nat, budget: int)
    requires ParentsOk(parents) && |entries| == |parents|
    ensures var f := Filled(entries, parents, allotment, Opening(entries, parents, budget), |entries|);
            var kept := Kept(entries, parents, |entries|);
            Count(f.shown) <= |f.shown| &&
            var p := Padded(f, budget);
            && Closed(parents, p.shown)
            && (forall i | 0 <= i < |entries| && !entries[i].running :: p.shown[i])
            && (forall i | 0 <= i < |entries| && p.rows[i] > 0 ::
                  p.shown[i] && p.rows[i] == RowsOf(entries[i], allotment))
            && LineCount(p) == Max(budget, Count(kept) + Tail(p.hidden))
            && (Count(kept) >= budget ==> p.shown == kept && Sum(p.rows) == 0)
  {
    var opening := Opening(entries, parents, budget);
    var f := Filled(entries, parents, allotment, opening, |entries|);
    OpeningOk(entries, parents, allotment, budget);
    FilledOk(entries, parents, allotment, budget, opening, |entries|);
    CountAtMost(f.shown);
    PaddedLines(f, budget);
  }

  // ----- the fill is greedy, said of the plan alone

  function ShownRows(shown: seq<bool>): set<nat> {
    set k: nat | k < |shown| && shown[k]
  }

  /** The row itself and its ancestors, as far as they are not shown. */
  function HiddenAbove(parents: seq<int>, shown: seq<bool>, i: nat): set<nat>
    requires ParentsOk(parents) && |shown| == |parents| && i < |parents|
  {
    set x: nat | x < |shown| && !shown[x] && Above(parents, x, i)
  }

  /** The lines left at the turn of row `i`: one is set aside, shown headers and earlier batch rows are taken. */
  function LinesLeft(budget: int, shown: seq<bool>, rows: seq<nat>, i: nat): int
    requires i <= |rows|
  {
    budget - 1 - |ShownRows(shown)| - Sum(rows[..i])
  }

  function Due(e: Entry, allotment: nat): nat {
    if e.batchSource then allotment else 0
  }

  /**
   * One turn: a shown row gets its batch rows if they fit; a hidden one is shown, with its ancestors and its
   * batch rows, if all of that fits together; else nothing happens.
   */
  ghost predicate GreedyTurn(entries: seq<Entry>, parents: seq<int>, allotment: nat, budget: int, rows: seq<nat>,
        before: seq<bool>, after: seq<bool>, i: nat)
    requires ParentsOk(parents) && |entries| == |parents| == |rows| == |before| == |after| && i < |entries|
  {
    var due, left := Due(entries[i], allotment), LinesLeft(budget, before, rows, i);
    if before[i] then after == before && rows[i] == if due <= left then due else 0
    else if |HiddenAbove(parents, before, i)| + due <= left
    then rows[i] == due && forall x | 0 <= x < |after| :: after[x] <==> before[x] || Above(parents, x, i)
    else after == before && rows[i] == 0
  }

  ghost predicate AllTurns(entries: seq<Entry>, parents: seq<int>, allotment: nat, budget: int, rows: seq<nat>,
        turns: seq<seq<bool>>)
    requires ParentsOk(parents) && |entries| == |parents| == |rows|
  {
    && |turns| == |entries| + 1 && (forall i | 0 <= i < |turns| :: |turns[i]| == |entries|)
    && forall i | 0 <= i < |entries| ::
         GreedyTurn(entries, parents, allotment, budget, rows, turns[i], turns[i + 1], i)
  }

  /** `turns[i]` is what is shown when row `i` has its turn: first the rows not running and their ancestors. */
  ghost predicate Greedy(entries: seq<Entry>, parents: seq<int>, allotment: nat, budget: int, p: Plan,
        turns: seq<seq<bool>>)
    requires ParentsOk(parents) && |entries| == |parents| == |p.shown| == |p.rows|
  {
    && AllTurns(entries, parents, allotment, budget, p.rows, turns) && turns[|entries|] == p.shown
    && (forall x | 0 <= x < |entries| :: turns[0][x] <==> Needed(entries, parents, |entries|, x))
    && p.hidden == |entries| - |ShownRows(p.shown)|
    && p.padding == Max(0, budget - (|ShownRows(p.shown)| + Sum(p.rows) + Tail(p.hidden)))
  }

  lemma {:induction false} CountIs(shown: seq<bool>)
    ensures Count(shown) == |ShownRows(shown)|
  {
    if shown != [] {
      var m := |shown| - 1;
      CountIs(shown[..m]);
      assert ShownRows(shown) == ShownRows(shown[..m]) + if shown[m] then {m} else {};
    }
  }

  lemma {:induction false} AboveIsEarlier(parents: seq<int>, x: nat, i: nat)
    requires ParentsOk(parents) && x < |parents| && i < |parents| && Above(parents, x, i)
    ensures x <= i
    decreases i
  {
    if x != i {
      AboveIsEarlier(parents, x, parents[i]);
    }
  }

  lemma {:induction false} ClimbIs(parents: seq<int>, shown: seq<bool>, at: nat)
    requires ParentsOk(parents) && |shown| == |parents| && at < |parents| && Closed(parents, shown)
    ensures Climb(parents, shown, at) == |HiddenAbove(parents, shown, at)|
    decreases at
  {
    var hidden := HiddenAbove(parents, shown, at);
    if shown[at] {
      forall x: nat | x < |shown| && Above(parents, x, at)
        ensures shown[x]
      {
        AboveShown(parents, shown, x, at);
      }
      assert hidden == {};
    } else if parents[at] >= 0 {
      var rest := HiddenAbove(parents, shown, parents[at]);
      ClimbIs(parents, shown, parents[at]);
      assert hidden == rest + {at};
      if at in rest {
        AboveIsEarlier(parents, at, parents[at]);
      }
    } else {
      assert hidden == {at};
    }
  }

  lemma {:induction false} SumBehind(rows: seq<nat>, i: nat)
    requires i <= |rows| && forall k | i <= k < |rows| :: rows[k] == 0
    ensures Sum(rows) == Sum(rows[..i])
  {
    if i < |rows| {
      var init := rows[..|rows| - 1];
      SumBehind(init, i);
      assert init[..i] == rows[..i];
    } else {
      assert rows[..i] == rows;
    }
  }

  /** The fill before row `i` has set no batch rows from `i` on, and later turns leave those before it alone. */
  lemma {:induction false} FilledRows(entries: seq<Entry>, parents: seq<int>, allotment: nat, start: Fill,
        i: nat, n: nat)
    requires ParentsOk(parents) && |entries| == |start.shown| == |start.rows| == |parents| && i <= n <= |entries|
    ensures var f, t := Filled(entries, parents, allotment, start, i), Filled(entries, parents, allotment, start, n);
            t.rows[..i] == f.rows[..i]
    ensures var f := Filled(entries, parents, allotment, start, i);
            forall k | i <= k < |entries| :: f.rows[k] == start.rows[k]
    decreases n
  {
    if i < n {
      FilledRows(entries, parents, allotment, start, i, n - 1);
    } else if n > 0 {
      FilledRows(entries, parents, allotment, start, n - 1, n - 1);
    }
  }

  /** One step of the fill is one greedy turn, over any rows that agree with it up to there. */
  lemma {:induction false} StepIsGreedy(entries: seq<Entry>, parents: seq<int>, allotment: nat, budget: int,
        f: Fill, i: nat, rows: seq<nat>)
    requires ParentsOk(parents) && |entries| == |f.shown| == |f.rows| == |parents| == |rows| && i < |parents|
    requires FillOk(entries, parents, allotment, budget, f, i)
    requires rows[..i] == f.rows[..i] && rows[i] == FillStep(entries[i], parents, allotment, f, i).rows[i]
    ensures var t := FillStep(entries[i], parents, allotment, f, i);
            GreedyTurn(entries, parents, allotment, budget, rows, f.shown, t.shown, i)
  {
    assert f.rows[i] == 0;
    CountIs(f.shown);
    SumBehind(f.rows, i);
    assert f.remaining == LinesLeft(budget, f.shown, rows, i);
    ClimbIs(parents, f.shown, i);
    ShowUpExact(parents, f.shown, i);
  }

  lemma {:induction false} TurnIsGreedy(entries: seq<Entry>, parents: seq<int>, allotment: nat, budget: int, i: nat)
    requires ParentsOk(parents) && |entries| == |parents| && i < |parents|
    ensures var opening := Opening(entries, parents, budget);
            var rows := Filled(entries, parents, allotment, opening, |entries|).rows;
            GreedyTurn(entries, parents, allotment, budget, rows,
                       Filled(entries, parents, allotment, opening, i).shown,
                       Filled(entries, parents, allotment, opening, i + 1).shown, i)
  {
    var opening := Opening(entries, parents, budget);
    var rows := Filled(entries, parents, allotment, opening, |entries|).rows;
    OpeningOk(entries, parents, allotment, budget);
    FilledKeepsOk(entries, parents, allotment, budget, opening, i);
    FilledRows(entries, parents, allotment, opening, i, |entries|);
    FilledRows(entries, parents, allotment, opening, i + 1, |entries|);
    assert rows[..i + 1][i] == rows[i];
    StepIsGreedy(entries, parents, allotment, budget, Filled(entries, parents, allotment, opening, i), i, rows);
  }

  lemma {:induction false} FillTurns(entries: seq<Entry>, parents: seq<int>, allotment: nat, budget: int, opening: Fill)
      returns (turns: seq<seq<bool>>)
    requires ParentsOk(parents) && |entries| == |parents| && opening == Opening(entries, parents, budget)
    ensures var f := Filled(entries, parents, allotment, opening, |entries|);
            AllTurns(entries, parents, allotment, budget, f.rows, turns) && turns[|entries|] == f.shown
    ensures |turns| > 0 && turns[0] == opening.shown
  {
    var rows := Filled(entries, parents, allotment, opening, |entries|).rows;
    turns := seq(|entries| + 1,
                 i requires 0 <= i <= |entries| => Filled(entries, parents, allotment, opening, i).shown);
    forall i | 0 <= i < |entries|
      ensures GreedyTurn(entries, parents, allotment, budget, rows, turns[i], turns[i + 1], i)
    {
      TurnIsGreedy(entries, parents, allotment, budget, i);
    }
  }

  lemma {:induction false} PaddedIs(f: Fill, budget: int, p: Plan)
    requires |f.shown| == |f.rows| && Count(f.shown) <= |f.shown| && p == Padded(f, budget)
    ensures p.hidden == |f.shown| - |ShownRows(p.shown)|
    ensures p.padding == Max(0, budget - (|ShownRows(p.shown)| + Sum(p.rows) + Tail(p.hidden)))
  {
    CountIs(f.shown);
  }

  lemma {:induction false} FillIsGreedy(entries: seq<Entry>, parents: seq<int>, allotment: nat, budget: int)
      returns (turns: seq<seq<bool>>)
    requires ParentsOk(parents) && |entries| == |parents|
    ensures var f := Filled(entries, parents, allotment, Opening(entries, parents, budget), |entries|);
            Count(f.shown) <= |f.shown| && Greedy(entries, parents, allotment, budget, Padded(f, budget), turns)
  {
    var opening := Opening(entries, parents, budget);
    var f := Filled(entries, parents, allotment, opening, |entries|);
    turns := FillTurns(entries, parents, allotment, budget, opening);
    KeptExactly(entries, parents, |entries|);
    CountAtMost(f.shown);
    PaddedIs(f, budget, Padded(f, budget));
  }

  /** Once shown, a row stays shown. */
  lemma {:induction false} TurnsOnlyShow(entries: seq<Entry>, parents: seq<int>, allotment: nat, budget: int, p: Plan,
        turns: seq<seq<bool>>, i: nat, j: nat, x: nat)
    requires ParentsOk(parents) && |entries| == |parents| == |p.shown| == |p.rows| && i <= j <= |entries|
    requires Greedy(entries, parents, allotment, budget, p, turns) && x < |entries| && turns[i][x]
    ensures turns[j][x]
    decreases j
  {
    if i < j {
      TurnsOnlyShow(entries, parents, allotment, budget, p, turns, i, j - 1, x);
      assert GreedyTurn(entries, parents, allotment, budget, p.rows, turns[j - 1], turns[j], j - 1);
    }
  }

  /**
   * Why a row is still hidden: its header, its hidden ancestors and its batch rows were more than the lines left
   * at its turn. And why a shown source has no batch rows: they were more than that by themselves, or it was
   * hidden then for that same reason and a later row below it brought its header along.
   */
  lemma {:induction false} OnlyWhatDidNotFit(entries: seq<Entry>, parents: seq<int>, allotment: nat, budget: int,
        p: Plan, turns: seq<seq<bool>>, i: nat)
    requires ParentsOk(parents) && |entries| == |parents| == |p.shown| == |p.rows| && i < |entries|
    requires Greedy(entries, parents, allotment, budget, p, turns)
    ensures var due, left := Due(entries[i], allotment), LinesLeft(budget, turns[i], p.rows, i);
            && (!p.shown[i] ==> |HiddenAbove(parents, turns[i], i)| + due > left)
            && (p.shown[i] && due > 0 && p.rows[i] == 0 ==>
                  if turns[i][i] then due > left else |HiddenAbove(parents, turns[i], i)| + due > left)
            && (p.rows[i] == 0 || p.rows[i] == due)
  {
    assert GreedyTurn(entries, parents, allotment, budget, p.rows, turns[i], turns[i + 1], i);
    if turns[i + 1][i] {
      TurnsOnlyShow(entries, parents, allotment, budget, p, turns, i + 1, |entries|, i);
    }
  }

  /**
   * A shown source may go without batch rows that would have fitted: at its turn they did not fit together with
   * its header, and then a row below it took the header alone.
   */
  lemma {:induction false} LateHeader(entries: seq<Entry>, parents: seq<int>, p: Plan, turns: seq<seq<bool>>)
    requires entries == [Entry(true, true, 0), Entry(true, false, 1)] && parents == [-1, 0]
    requires |p.shown| == |p.rows| == 2 && Greedy(entries, parents, 2, 3, p, turns)
    ensures p.shown[0] && p.rows[0] == 0 && Due(entries[0], 2) <= LinesLeft(3, turns[0], p.rows, 0)
  {
    assert p.rows[..0] == [] && p.rows[..1] == [p.rows[0]];
    assert Sum(p.rows[..1]) == p.rows[0] by {
      assert [p.rows[0]][..0] == [];
    }
    assert forall x | 0 <= x < 2 :: !turns[0][x];
    assert ShownRows(turns[0]) == {};
    assert HiddenAbove(parents, turns[0], 0) == {0};
    assert GreedyTurn(entries, parents, 2, 3, p.rows, turns[0], turns[1], 0);
    assert Above(parents, 0, 1) && Above(parents, 1, 1);
    assert HiddenAbove(parents, turns[1], 1) == {0, 1};
    assert GreedyTurn(entries, parents, 2, 3, p.rows, turns[1], turns[2], 1);
  }

  // ----- the lines

  datatype Line =
    | Header(entry: nat)
    | Batch(entry: nat, view: nat)
    | Placeholder(entry: nat)
    | More(hidden: nat)
    | Blank

  /** A row's header, its latest views oldest first, and placeholders up to its batch rows. */
  function RowLines(i: nat, views: nat, rows: nat): seq<Line> {
    [Header(i)] + BatchLines(i, if views <= rows then 0 else views - rows, views)
    + Repeated(Placeholder(i), if views <= rows then rows - views else 0)
  }

  function BatchLines(i: nat, first: nat, end: nat): (r: seq<Line>)
    requires first <= end
    ensures |r| == end - first && forall k | 0 <= k < |r| :: r[k] == Batch(i, first + k)
  {
    seq(end - first, k requires 0 <= k => Batch(i, first + k))
  }

  function Repeated(line: Line, n: nat): (r: seq<Line>)
    ensures |r| == n && forall k | 0 <= k < n :: r[k] == line
  {
    seq(n, _ => line)
  }

  /** The shown rows among the first `n`, in order. */
  function BodyLines(p: Plan, views: seq<nat>, n: nat): seq<Line>
    requires |p.shown| == |p.rows| == |views| && n <= |p.shown|
  {
    if n == 0 then []
    else BodyLines(p, views, n - 1) + if p.shown[n - 1] then RowLines(n - 1, views[n - 1], p.rows[n - 1]) else []
  }

  /**
   * `buildExpandedWidgetLines`: headers, the latest batch views, placeholders up to the allotment, the tail and
   * the padding.
   */
  method BuildExpandedWidgetLines(p: Plan, views: seq<nat>) returns (lines: seq<Line>)
    requires |p.shown| == |p.rows| == |views|
    requires forall i | 0 <= i < |p.rows| && p.rows[i] > 0 :: p.shown[i]
    ensures |lines| == LineCount(p)
    ensures lines == BodyLines(p, views, |views|) + (if p.hidden > 0 then [More(p.hidden)] else [])
                     + Repeated(Blank, p.padding)
  {
    lines := [];
    for i := 0 to |p.shown|
      invariant lines == BodyLines(p, views, i)
    {
      if p.shown[i] {
        var row := BuildRow(i, views[i], p.rows[i]);
        lines := lines + row;
      }
    }
    BodyIsWhole(p, views);
    if p.hidden > 0 {
      lines := lines + [More(p.hidden)];
    }
    lines := Pad(lines, p.padding);
  }

  method Pad(lines: seq<Line>, padding: nat) returns (padded: seq<Line>)
    ensures padded == lines + Repeated(Blank, padding)
  {
    padded := lines;
    for pad := 0 to padding
      invariant padded == lines + Repeated(Blank, pad)
    {
      RepeatedMore(Blank, pad);
      padded := padded + [Blank];
    }
  }

  lemma {:induction false} BodyCounts(p: Plan, views: seq<nat>, n: nat)
    requires |p.shown| == |p.rows| == |views| && n <= |views|
    requires forall i | 0 <= i < |p.rows| && p.rows[i] > 0 :: p.shown[i]
    ensures |BodyLines(p, views, n)| == Count(p.shown[..n]) + Sum(p.rows[..n])
  {
    if n > 0 {
      BodyCounts(p, views, n - 1);
      assert p.shown[..n][..n - 1] == p.shown[..n - 1] && p.rows[..n][..n - 1] == p.rows[..n - 1];
    }
  }

  lemma {:induction false} BodyIsWhole(p: Plan, views: seq<nat>)
    requires |p.shown| == |p.rows| == |views|
    requires forall i | 0 <= i < |p.rows| && p.rows[i] > 0 :: p.shown[i]
    ensures |BodyLines(p, views, |views|)| == Count(p.shown) + Sum(p.rows)
  {
    BodyCounts(p, views, |views|);
    assert p.shown[..|p.shown|] == p.shown && p.rows[..|p.rows|] == p.rows;
  }

  lemma {:induction false} RepeatedMore(line: Line, n: nat)
    ensures Repeated(line, n + 1) == Repeated(line, n) + [line]
  {
  }

  /** One shown row's lines; without batch rows its header only. */
  method BuildRow(i: nat, views: nat, rows: nat) returns (lines: seq<Line>)
    ensures lines == RowLines(i, views, rows)
  {
    lines := [Header(i)];
    if rows == 0 {
      return;
    }
    var first := if views <= rows then 0 else views - rows;
    for v := first to views
      invariant lines == [Header(i)] + BatchLines(i, first, v)
    {
      lines := lines + [Batch(i, v)];
    }
    for slot := views - first to rows
      invariant lines == [Header(i)] + BatchLines(i, first, views) + Repeated(Placeholder(i), slot - (views - first))
    {
      lines := lines + [Placeholder(i)];
    }
  }
}
