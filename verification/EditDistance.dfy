// model-catalog.ts: the banded edit-distance test behind "did you mean".

module EditDistance {
  import opened Bounds

  /** One single-unit edit of a string. */
  datatype Edit =
    | Insert(at: nat, c: char)
    | Delete(at: nat)
    | Substitute(at: nat, c: char)

  predicate Applicable(e: Edit, s: string) {
    match e
    case Insert(at, _) => at <= |s|
    case Delete(at) => at < |s|
    case Substitute(at, _) => at < |s|
  }

  function Edited(e: Edit, s: string): string
    requires Applicable(e, s)
  {
    match e
    case Insert(at, c) => s[..at] + [c] + s[at..]
    case Delete(at) => s[..at] + s[at + 1..]
    case Substitute(at, c) => s[..at] + [c] + s[at + 1..]
  }

  /** The edits of `script`, applied one after another, turn `a` into `b`. */
  predicate Turns(script: seq<Edit>, a: string, b: string) {
    if script == [] then a == b
    else Applicable(script[0], a) && Turns(script[1..], Edited(script[0], a), b)
  }

  ghost predicate WithinEdits(a: string, b: string, k: nat) {
    exists script :: |script| <= k && Turns(script, a, b)
  }

  function Min(x: int, y: int): int {
    if x <= y then x else y
  }

  /** The Levenshtein recurrence, on last units. */
  function Distance(a: string, b: string): nat
    decreases |a| + |b|
  {
    if a == [] then |b|
    else if b == [] then |a|
    else
      var a', b' := a[..|a| - 1], b[..|b| - 1];
      Min(Min(Distance(a, b') + 1, Distance(a', b) + 1),
          Distance(a', b') + if a[|a| - 1] == b[|b| - 1] then 0 else 1)
  }

  lemma {:induction false} DistanceAtLeastLengthGap(a: string, b: string)
    ensures Distance(a, b) >= |a| - |b|
    ensures Distance(a, b) >= |b| - |a|
    decreases |a| + |b|
  {
    if a != [] && b != [] {
      var a', b' := a[..|a| - 1], b[..|b| - 1];
      DistanceAtLeastLengthGap(a, b');
      DistanceAtLeastLengthGap(a', b);
      DistanceAtLeastLengthGap(a', b');
    }
  }

  // ----- every script is at least as long as the distance

  lemma {:induction false} DistanceSelf(a: string)
    ensures Distance(a, a) == 0
  {
    if a != [] {
      DistanceSelf(a[..|a| - 1]);
    }
  }

  /** One unfolding of the recurrence, with the shorter strings named. */
  lemma {:induction false} Recurrence(a: string, a': string, b: string, b': string)
    requires |a| == |a'| + 1 && a' == a[..|a'|]
    requires |b| == |b'| + 1 && b' == b[..|b'|]
    ensures Distance(a, b) <= Distance(a, b') + 1
    ensures Distance(a, b) <= Distance(a', b) + 1
    ensures Distance(a, b) <= Distance(a', b') + if a[|a'|] == b[|b'|] then 0 else 1
    ensures || Distance(a, b) == Distance(a, b') + 1
            || Distance(a, b) == Distance(a', b) + 1
            || Distance(a, b) == Distance(a', b') + if a[|a'|] == b[|b'|] then 0 else 1
  {
  }

  /** Replacing at most one unit by at most one unit, anywhere, moves the distance to any `b` by at most one. */
  lemma {:induction false} SpliceMovesDistanceByOne(u: string, m: string, m': string, v: string, b: string)
    requires |m| <= 1 && |m'| <= 1
    ensures Distance(u + m + v, b) <= Distance(u + m' + v, b) + 1
    decreases |v| + |b|
  {
    var x, y := u + m + v, u + m' + v;
    if b == [] {
    } else if v == [] {
      assert x == u + m && y == u + m';
      SpliceAtEnd(u, m, m', b);
    } else {
      var v', b' := v[..|v| - 1], b[..|b| - 1];
      var x', y' := u + m + v', u + m' + v';
      assert x == x' + v[|v'|..] && y == y' + v[|v'|..];
      Recurrence(x, x', b, b');
      Recurrence(y, y', b, b');
      if Distance(y, b) == Distance(y, b') + 1 {
        SpliceMovesDistanceByOne(u, m, m', v, b');
      } else if Distance(y, b) == Distance(y', b) + 1 {
        SpliceMovesDistanceByOne(u, m, m', v', b);
      } else {
        SpliceMovesDistanceByOne(u, m, m', v', b');
      }
    }
  }

  lemma {:induction false} SpliceAtEnd(u: string, m: string, m': string, b: string)
    requires |m| <= 1 && |m'| <= 1
    ensures Distance(u + m, b) <= Distance(u + m', b) + 1
  {
    assert (u + m)[..|u|] == u && (u + m')[..|u|] == u;
    EndsDiffer(u, u + m, u + m', b);
  }

  predicate AtMostOneMore(u: string, x: string) {
    |u| <= |x| <= |u| + 1 && x[..|u|] == u
  }

  lemma {:induction false} OneMoreUnit(u: string, x: string, b: string)
    requires AtMostOneMore(u, x) && b != []
    ensures Distance(x, b) <= Distance(x, b[..|b| - 1]) + 1
    ensures Distance(x, b) <= Distance(u, b) + 1
    ensures Distance(x, b) <= Distance(u, b[..|b| - 1]) + 1
  {
    if |x| == |u| {
      assert x == u;
    } else {
      Recurrence(x, u, b, b[..|b| - 1]);
    }
  }

  /** Two strings that share all but at most a last unit. */
  lemma {:induction false} EndsDiffer(u: string, x: string, y: string, b: string)
    requires AtMostOneMore(u, x) && AtMostOneMore(u, y)
    ensures Distance(x, b) <= Distance(y, b) + 1
    decreases |b|
  {
    if b != [] {
      var b' := b[..|b| - 1];
      OneMoreUnit(u, x, b);
      if |y| == |u| {
        assert y == u;
      } else {
        Recurrence(y, u, b, b');
        EndsDiffer(u, x, y, b');
      }
    }
  }

  lemma {:induction false} EditMovesDistanceByOne(e: Edit, a: string, b: string)
    requires Applicable(e, a)
    ensures Distance(a, b) <= Distance(Edited(e, a), b) + 1
  {
    var u := a[..e.at];
    match e
    case Insert(at, c) =>
      assert a == u + [] + a[at..];
      SpliceMovesDistanceByOne(u, [], [c], a[at..], b);
    case Delete(at) =>
      assert a == u + [a[at]] + a[at + 1..];
      assert Edited(e, a) == u + [] + a[at + 1..];
      SpliceMovesDistanceByOne(u, [a[at]], [], a[at + 1..], b);
    case Substitute(at, c) =>
      assert a == u + [a[at]] + a[at + 1..];
      SpliceMovesDistanceByOne(u, [a[at]], [c], a[at + 1..], b);
  }

  lemma {:induction false} ScriptAtLeastDistance(script: seq<Edit>, a: string, b: string)
    requires Turns(script, a, b)
    ensures Distance(a, b) <= |script|
  {
    if script == [] {
      DistanceSelf(a);
    } else {
      ScriptAtLeastDistance(script[1..], Edited(script[0], a), b);
      EditMovesDistanceByOne(script[0], a, b);
    }
  }

  // ----- and some script is exactly that long

  lemma {:induction false} TurnsThen(script: seq<Edit>, e: Edit, a: string, b: string)
    requires Turns(script, a, b) && Applicable(e, b)
    ensures Turns(script + [e], a, Edited(e, b))
  {
    var longer := script + [e];
    if script == [] {
      assert longer[0] == e && longer[1..] == [];
    } else {
      assert longer[0] == script[0] && longer[1..] == script[1..] + [e];
      TurnsThen(script[1..], e, Edited(script[0], a), b);
    }
  }

  lemma {:induction false} EditUnderSuffix(e: Edit, a: string, c: char)
    requires Applicable(e, a)
    ensures Applicable(e, a + [c]) && Edited(e, a + [c]) == Edited(e, a) + [c]
  {
  }

  lemma {:induction false} TurnsUnderSuffix(script: seq<Edit>, a: string, b: string, c: char)
    requires Turns(script, a, b)
    ensures Turns(script, a + [c], b + [c])
  {
    if script != [] {
      EditUnderSuffix(script[0], a, c);
      TurnsUnderSuffix(script[1..], Edited(script[0], a), b, c);
    }
  }

  lemma {:induction false} ThenSubstitute(prior: seq<Edit>, a: string, prefix: string, x: char, y: char)
    requires Turns(prior, a, prefix + [x])
    ensures Turns(prior + [Substitute(|prefix|, y)], a, prefix + [y])
  {
    var e := Substitute(|prefix|, y);
    assert Edited(e, prefix + [x]) == prefix + [y];
    TurnsThen(prior, e, a, prefix + [x]);
  }

  /** The last step of a shortest script: append the last unit of `b`, drop the last unit of `a`, or match the two. */
  lemma {:induction false} LastStep(a: string, b: string)
    requires a != [] || b != []
    ensures || (b != [] && Distance(a, b) == Distance(a, b[..|b| - 1]) + 1)
            || (a != [] && Distance(a, b) == Distance(a[..|a| - 1], b) + 1)
            || (a != [] && b != [] &&
                Distance(a, b) == Distance(a[..|a| - 1], b[..|b| - 1]) + if a[|a| - 1] == b[|b| - 1] then 0 else 1)
  {
  }

  lemma {:induction false} ShortestScript(a: string, b: string) returns (script: seq<Edit>)
    ensures Turns(script, a, b)
    ensures |script| == Distance(a, b)
    decreases |a| + |b|
  {
    if a == [] && b == [] {
      return [];
    }
    LastStep(a, b);
    if b != [] && Distance(a, b) == Distance(a, b[..|b| - 1]) + 1 {
      var prior := ShortestScript(a, b[..|b| - 1]);
      script := ThenAppend(prior, a, b);
    } else if a != [] && Distance(a, b) == Distance(a[..|a| - 1], b) + 1 {
      var rest := ShortestScript(a[..|a| - 1], b);
      script := DropThen(rest, a, b);
    } else {
      var prior := ShortestScript(a[..|a| - 1], b[..|b| - 1]);
      script := ThenMatch(prior, a, b);
    }
  }

  lemma {:induction false} ThenAppend(prior: seq<Edit>, a: string, b: string) returns (script: seq<Edit>)
    requires b != [] && Turns(prior, a, b[..|b| - 1])
    ensures Turns(script, a, b) && |script| == |prior| + 1
  {
    var b' := b[..|b| - 1];
    var e := Insert(|b'|, b[|b'|]);
    assert Edited(e, b') == b;
    TurnsThen(prior, e, a, b');
    script := prior + [e];
  }

  lemma {:induction false} DropThen(rest: seq<Edit>, a: string, b: string) returns (script: seq<Edit>)
    requires a != [] && Turns(rest, a[..|a| - 1], b)
    ensures Turns(script, a, b) && |script| == |rest| + 1
  {
    var e := Delete(|a| - 1);
    assert Edited(e, a) == a[..|a| - 1];
    script := [e] + rest;
    assert script[1..] == rest;
  }

  lemma {:induction false} ThenMatch(prior: seq<Edit>, a: string, b: string) returns (script: seq<Edit>)
    requires a != [] && b != [] && Turns(prior, a[..|a| - 1], b[..|b| - 1])
    ensures Turns(script, a, b)
    ensures |script| == |prior| + if a[|a| - 1] == b[|b| - 1] then 0 else 1
  {
    var a', b', x, y := a[..|a| - 1], b[..|b| - 1], a[|a| - 1], b[|b| - 1];
    assert a' + [x] == a && b' + [y] == b;
    script := if x == y then prior else prior + [Substitute(|b'|, y)];
    MatchLast(prior, a', b', x, y);
  }

  lemma {:induction false} MatchLast(prior: seq<Edit>, a: string, b: string, x: char, y: char)
    requires Turns(prior, a, b)
    ensures Turns(if x == y then prior else prior + [Substitute(|b|, y)], a + [x], b + [y])
  {
    TurnsUnderSuffix(prior, a, b, x);
    if x != y {
      ThenSubstitute(prior, a + [x], b, x, y);
    }
  }

  /** The recurrence computes the length of the shortest edit script. */
  lemma {:induction false} DistanceIsShortestScript(a: string, b: string, k: nat)
    ensures WithinEdits(a, b, k) <==> Distance(a, b) <= k
  {
    if WithinEdits(a, b, k) {
      var script :| |script| <= k && Turns(script, a, b);
      ScriptAtLeastDistance(script, a, b);
    }
    if Distance(a, b) <= k {
      var script := ShortestScript(a, b);
      assert |script| <= k && Turns(script, a, b);
    }
  }

  // ----- the banded table

  /** A table cell is only ever read through its cap at three. */
  predicate AgreesCapped(cell: int, a: string, b: string) {
    Min(cell, 3) == Min(Distance(a, b), 3)
  }

  lemma {:induction false} CellStep(a: string, b: string, i: nat, j: nat, left: int, up: int, diagonal: int)
    requires 1 <= i <= |a| && 1 <= j <= |b|
    requires AgreesCapped(left, a[..i], b[..j - 1])
    requires AgreesCapped(up, a[..i - 1], b[..j])
    requires AgreesCapped(diagonal, a[..i - 1], b[..j - 1])
    ensures AgreesCapped(Min(Min(left + 1, up + 1), diagonal + if a[i - 1] == b[j - 1] then 0 else 1), a[..i], b[..j])
  {
    var p, q := a[..i], b[..j];
    assert p[..|p| - 1] == a[..i - 1] && q[..|q| - 1] == b[..j - 1];
    assert p[|p| - 1] == a[i - 1] && q[|q| - 1] == b[j - 1];
  }

  /** Off the band of width two the true distance is three or more, and column zero holds the row number. */
  lemma {:induction false} OffTheBand(a: string, b: string, i: nat)
    requires i <= |a|
    ensures AgreesCapped(i, a[..i], b[..0])
    ensures forall k | 0 <= k <= |b| && (k < i - 2 || k > i + 2) :: AgreesCapped(3, a[..i], b[..k])
  {
    forall k | 0 <= k <= |b| && (k < i - 2 || k > i + 2)
      ensures AgreesCapped(3, a[..i], b[..k])
    {
      DistanceAtLeastLengthGap(a[..i], b[..k]);
    }
  }

  /** Every cell of one table row agrees with the true distance, after capping. */
  ghost predicate RowAgrees(row: seq<int>, a: string, b: string) {
    |row| == |b| + 1 && forall k | 0 <= k <= |b| :: AgreesCapped(row[k], a, b[..k])
  }

  /** One pass of the outer loop: the band of row `i` from row `i - 1`. */
  method FillRow(a: string, b: string, i: nat, previous: array<int>) returns (row: array<int>)
    requires 1 <= i <= |a|
    requires RowAgrees(previous[..], a[..i - 1], b)
    ensures fresh(row) && RowAgrees(row[..], a[..i], b)
  {
    OffTheBand(a, b, i);
    row := new int[|b| + 1](_ => 3);
    row[0] := i;
    var start, stop := Max(1, i - 2), Min(|b|, i + 2);
    var j := start;
    while j <= stop
      invariant start <= j
      invariant forall k | 0 <= k < j && k <= |b| :: AgreesCapped(row[k], a[..i], b[..k])
      invariant forall k | j <= k <= |b| :: row[k] == 3
    {
      assert AgreesCapped(previous[..][j], a[..i - 1], b[..j]);
      assert AgreesCapped(previous[..][j - 1], a[..i - 1], b[..j - 1]);
      CellStep(a, b, i, j, row[j - 1], previous[j], previous[j - 1]);
      row[j] := Min(Min(row[j - 1] + 1, previous[j] + 1), previous[j - 1] + if a[i - 1] == b[j - 1] then 0 else 1);
      j := j + 1;
    }
  }

  /** True exactly when some script of at most two single-unit edits turns `a` into `b`. */
  method WithinTwoEdits(a: string, b: string) returns (r: bool)
    ensures r <==> WithinEdits(a, b, 2)
  {
    if |a| - |b| > 2 || |b| - |a| > 2 {
      FarApart(a, b);
      return false;
    }
    var previous := new int[|b| + 1](j => j);
    var i := 1;
    while i <= |a|
      invariant 1 <= i <= |a| + 1
      invariant RowAgrees(previous[..], a[..i - 1], b)
    {
      previous := FillRow(a, b, i, previous);
      i := i + 1;
    }
    LastCell(previous[..], a, b);
    return previous[|b|] <= 2;
  }

  lemma {:induction false} FarApart(a: string, b: string)
    requires |a| - |b| > 2 || |b| - |a| > 2
    ensures !WithinEdits(a, b, 2)
  {
    DistanceIsShortestScript(a, b, 2);
    DistanceAtLeastLengthGap(a, b);
  }

  lemma {:induction false} LastCell(row: seq<int>, a: string, b: string)
    requires RowAgrees(row, a[..|a|], b)
    ensures |row| == |b| + 1 && (row[|b|] <= 2 <==> WithinEdits(a, b, 2))
  {
    assert a[..|a|] == a && b[..|b|] == b;
    assert AgreesCapped(row[|b|], a, b);
    DistanceIsShortestScript(a, b, 2);
  }
}
