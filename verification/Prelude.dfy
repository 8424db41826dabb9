// Small shared vocabulary: an optional value, JavaScript's newline split, and JSON values.

module Options {
  datatype Option<+T> = None | Some(value: T)
}

module Bounds {
  function Max(x: int, y: int): int {
    if x >= y then x else y
  }

  /** A list with only its newest `cap` members kept. */
  function Newest<T>(s: seq<T>, cap: nat): (r: seq<T>)
    ensures |r| == if |s| <= cap then |s| else cap
  {
    if |s| <= cap then s else s[|s| - cap..]
  }
}

module Lines {
  /** `s.split(nl)` for a one-unit separator: always at least one piece, none holding the separator. */
  function Split<T(==)>(s: seq<T>, nl: T): (r: seq<seq<T>>)
    ensures |r| >= 1
    ensures forall k | 0 <= k < |r| :: nl !in r[k]
  {
    if s == [] then [[]]
    else if s[0] == nl then [[]] + Split(s[1..], nl)
    else
      var rest := Split(s[1..], nl);
      [[s[0]] + rest[0]] + rest[1..]
  }

  lemma {:induction false} SplitAt<T>(a: seq<T>, b: seq<T>, nl: T)
    ensures Split(a + [nl] + b, nl) == Split(a, nl) + Split(b, nl)
  {
    var whole := a + [nl] + b;
    if a == [] {
      assert whole[1..] == b;
    } else {
      assert whole[1..] == a[1..] + [nl] + b;
      SplitAt(a[1..], b, nl);
    }
  }

  lemma {:induction false} SplitWhole<T>(a: seq<T>, nl: T)
    requires nl !in a
    ensures Split(a, nl) == [a]
  {
    if a != [] {
      SplitWhole(a[1..], nl);
      assert [a[0]] + a[1..] == a;
      assert Split(a[1..], nl)[1..] == [];
    }
  }

  /** The split with the empty piece after a final newline dropped: what a line reader keeps. */
  function LinesOf<T(==)>(s: seq<T>, nl: T): (r: seq<seq<T>>)
    ensures forall k | 0 <= k < |r| :: nl !in r[k]
  {
    var pieces := Split(s, nl);
    if pieces[|pieces| - 1] == [] then pieces[..|pieces| - 1] else pieces
  }

  /** A prefix a line reader may stop at: nothing, or whole terminated lines. */
  predicate Whole<T(==)>(s: seq<T>, nl: T) {
    s == [] || s[|s| - 1] == nl
  }

  lemma {:induction false} LinesOfConcat<T>(head: seq<T>, tail: seq<T>, nl: T)
    requires Whole(head, nl)
    ensures LinesOf(head + tail, nl) == LinesOf(head, nl) + LinesOf(tail, nl)
    ensures Split(head + tail, nl) == LinesOf(head, nl) + Split(tail, nl)
  {
    if head == [] {
      assert head + tail == tail;
    } else {
      var body := head[..|head| - 1];
      assert head == body + [nl] + [];
      assert head + tail == body + [nl] + tail;
      SplitAt(body, [], nl);
      SplitAt(body, tail, nl);
      assert LinesOf(head, nl) == Split(body, nl);
    }
  }

  /** One line, terminated or (when it holds something) not, reads back as itself. */
  lemma {:induction false} LinesOfOne<T>(line: seq<T>, nl: T)
    requires nl !in line
    ensures LinesOf(line + [nl], nl) == [line]
    ensures line != [] ==> LinesOf(line, nl) == [line]
  {
    SplitWhole(line, nl);
    assert line + [nl] == line + [nl] + [];
    SplitAt(line, [], nl);
  }
}

module Json {
  import opened Options

  /** A parsed JSON value. A literal too large for a double parses to an infinity, which no finiteness test admits. */
  datatype Json =
    | Null
    | Bool(b: bool)
    | Number(value: real)
    | Infinite(negative: bool)
    | Text(text: string)
    | List(items: seq<Json>)
    | Object(fields: map<string, Json>)

  /** `v?.[key]`: absent for every value but an object holding the key. */
  function Field(v: Option<Json>, key: string): Option<Json> {
    if v.Some? && v.value.Object? && key in v.value.fields then Some(v.value.fields[key]) else None
  }

  function Keep(fields: map<string, Json>, key: string): map<string, Json> {
    if key in fields then map[key := fields[key]] else map[]
  }
}
