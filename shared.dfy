/**
 * Vocabulary shared by every module of the model: optional values, the
 * truthiness rules PHP applies to strings and ids, trim() and strtolower(),
 * rounding to cents, and the order-preserving filter that stands for a
 * `where(...)` query or a bulk `delete()` over a table.
 */
module Shared {

  datatype Option<T> = None | Some(value: T)

  /** An amount of money in whole cents. */
  type Money = int

  /** An instant in whole seconds. */
  type Time = int

  const SecondsPerHour: int := 3600
  const SecondsPerDay: int := 86400

  /** PHP truthiness of a string: "" and "0" are falsy, everything else is truthy. */
  predicate Truthy(s: string)
  {
    s != "" && s != "0"
  }

  /** PHP truthiness of a nullable string (`!empty($x)`). */
  predicate Filled(s: Option<string>)
  {
    s.Some? && Truthy(s.value)
  }

  /** PHP truthiness of a nullable integer id: null and 0 are falsy. */
  predicate Present(x: Option<int>)
  {
    x.Some? && x.value != 0
  }

  /** The characters PHP's trim() strips by default. */
  predicate Whitespace(c: char)
  {
    c == ' ' || c == '\t' || c == '\n' || c == '\r' || c == '\0' || c == '\U{B}'
  }

  function TrimLeft(s: string): (r: string)
    ensures |r| <= |s| && r == s[|s| - |r|..]
    ensures r != [] ==> !Whitespace(r[0])
    ensures forall i :: 0 <= i < |s| - |r| ==> Whitespace(s[i])
  {
    if s != [] && Whitespace(s[0]) then TrimLeft(s[1..]) else s
  }

  function TrimRight(s: string): (r: string)
    ensures |r| <= |s| && r == s[..|r|]
    ensures r != [] ==> !Whitespace(r[|r| - 1])
    ensures forall i :: |r| <= i < |s| ==> Whitespace(s[i])
  {
    if s != [] && Whitespace(s[|s| - 1]) then TrimRight(s[..|s| - 1]) else s
  }

  /** PHP's trim(): the longest infix with no leading or trailing whitespace. */
  function Trim(s: string): (r: string)
    ensures |r| <= |s|
    ensures r != [] ==> !Whitespace(r[0]) && !Whitespace(r[|r| - 1])
  {
    TrimRight(TrimLeft(s))
  }

  /**
   * Laravel's `blank()` for strings, used by `filled()` and the `required`
   * rule: nothing but whitespace.
   */
  predicate Blank(s: string)
  {
    forall i :: 0 <= i < |s| ==> Whitespace(s[i])
  }

  /** `blank()` is defined by `trim($value) === ''`. */
  lemma {:induction false} BlankIffTrimsToEmpty(s: string)
    ensures Blank(s) <==> Trim(s) == ""
  {
    var l := TrimLeft(s);
    if forall i :: 0 <= i < |s| ==> Whitespace(s[i]) {
      TrimLeftOfWhitespace(s);
    } else {
      var i :| 0 <= i < |s| && !Whitespace(s[i]);
      assert |l| > 0;
      assert !Whitespace(l[0]);
      assert TrimRight(l) != [];
    }
  }

  lemma {:induction false} TrimLeftOfWhitespace(s: string)
    requires forall i :: 0 <= i < |s| ==> Whitespace(s[i])
    ensures TrimLeft(s) == []
  {
    if s != [] {
      TrimLeftOfWhitespace(s[1..]);
    }
  }

  function LowerChar(c: char): (d: char)
  {
    if 'A' <= c <= 'Z' then (c as int + 32) as char else c
  }

  /** PHP 8's strtolower(): ASCII letters only, every other character is kept. */
  function Lower(s: string): (r: string)
    ensures |r| == |s|
    ensures forall i :: 0 <= i < |s| ==> r[i] == LowerChar(s[i])
  {
    seq(|s|, i requires 0 <= i < |s| => LowerChar(s[i]))
  }

  /**
   * Rounding half away from zero to a whole number, which is what PHP's
   * round($x, 2) does once amounts are counted in cents.
   */
  function RoundHalfAway(x: real): (n: int)
    ensures x - 0.5 <= n as real <= x + 0.5
    ensures n as real - x == 0.5 ==> x > 0.0
    ensures x - n as real == 0.5 ==> x < 0.0
  {
    if x >= 0.0 then (x + 0.5).Floor else -((-x + 0.5).Floor)
  }

  /** No two integers meet RoundHalfAway's contract: it determines the result. */
  lemma RoundingIsUnique(x: real, n: int, m: int)
    requires x - 0.5 <= n as real <= x + 0.5 && x - 0.5 <= m as real <= x + 0.5
    requires (n as real - x == 0.5 ==> x > 0.0) && (x - n as real == 0.5 ==> x < 0.0)
    requires (m as real - x == 0.5 ==> x > 0.0) && (x - m as real == 0.5 ==> x < 0.0)
    ensures n == m
  {
  }

  function Max0(x: int): (r: int)
    ensures r >= 0 && r >= x
    ensures r == 0 || r == x
  {
    if x < 0 then 0 else x
  }

  /** The rows of `s` that satisfy `keep`, in their original order. */
  function Filter<T(!new)>(s: seq<T>, keep: T -> bool): (r: seq<T>)
    ensures |r| <= |s|
    ensures forall x :: x in r <==> x in s && keep(x)
    ensures forall i :: 0 <= i < |r| ==> keep(r[i])
  {
    if s == [] then [] else (if keep(s[0]) then [s[0]] else []) + Filter(s[1..], keep)
  }

  /** The position of the first row satisfying `p` (what `->first()` finds). */
  function FindIndex<T>(s: seq<T>, p: T -> bool): (r: Option<nat>)
    ensures r.Some? ==> r.value < |s| && p(s[r.value])
    ensures r.Some? ==> forall j :: 0 <= j < r.value ==> !p(s[j])
    ensures r.None? ==> forall j :: 0 <= j < |s| ==> !p(s[j])
  {
    if s == [] then None
    else if p(s[0]) then Some(0)
    else match FindIndex(s[1..], p)
      case None => None
      case Some(k) => Some(k + 1)
  }

  function Not<T(!new)>(p: T -> bool): (q: T -> bool)
    ensures forall x :: q(x) == !p(x)
  {
    x => !p(x)
  }

  lemma {:induction false} FilterAppend<T(!new)>(s: seq<T>, t: seq<T>, keep: T -> bool)
    ensures Filter(s + t, keep) == Filter(s, keep) + Filter(t, keep)
  {
    if s == [] {
      assert s + t == t;
    } else {
      assert (s + t)[1..] == s[1..] + t;
      FilterAppend(s[1..], t, keep);
    }
  }

  /** Deleting the rows that satisfy `p` and keeping the others splits the table. */
  lemma {:induction false} FilterPartition<T(!new)>(s: seq<T>, p: T -> bool)
    ensures |Filter(s, p)| + |Filter(s, Not(p))| == |s|
  {
    if s != [] {
      FilterPartition(s[1..], p);
    }
  }

  /** `where(p)->delete()`: the rows kept, and the number of rows deleted. */
  function DeleteWhere<T(!new)>(s: seq<T>, p: T -> bool): (r: (seq<T>, nat))
    ensures r.0 == Filter(s, Not(p)) && r.1 == |Filter(s, p)|
    ensures |r.0| + r.1 == |s|
  {
    FilterPartition(s, p);
    (Filter(s, Not(p)), |Filter(s, p)|)
  }

  /**
   * Filtering by a stricter condition after a filter is the same as filtering
   * by it directly: a delete by `p` leaves every selection inside `p` intact.
   */
  lemma {:induction false} FilterInside<T(!new)>(s: seq<T>, p: T -> bool, q: T -> bool)
    requires forall x :: q(x) ==> p(x)
    ensures Filter(Filter(s, p), q) == Filter(s, q)
  {
    if s != [] {
      var head := if p(s[0]) then [s[0]] else [];
      FilterInside(s[1..], p, q);
      assert Filter(s, p) == head + Filter(s[1..], p);
      FilterAppend(head, Filter(s[1..], p), q);
      assert Filter(head, q) == if q(s[0]) then [s[0]] else [];
    }
  }

  /** Two deletes in a row keep exactly the rows both keep. */
  lemma {:induction false} FilterTwice<T(!new)>(s: seq<T>, p: T -> bool, q: T -> bool, both: T -> bool)
    requires forall x :: both(x) == (p(x) && q(x))
    ensures Filter(Filter(s, p), q) == Filter(s, both)
  {
    if s != [] {
      var head := if p(s[0]) then [s[0]] else [];
      FilterTwice(s[1..], p, q, both);
      assert Filter(s, p) == head + Filter(s[1..], p);
      FilterAppend(head, Filter(s[1..], p), q);
      assert Filter(head, q) == if both(s[0]) then [s[0]] else [];
    }
  }

  /** Filtering with a condition no row meets yields nothing. */
  lemma {:induction false} FilterNone<T(!new)>(s: seq<T>, p: T -> bool, q: T -> bool)
    requires forall x :: p(x) ==> !q(x)
    ensures Filter(Filter(s, p), q) == []
  {
    if s != [] {
      var head := if p(s[0]) then [s[0]] else [];
      FilterNone(s[1..], p, q);
      assert Filter(s, p) == head + Filter(s[1..], p);
      FilterAppend(head, Filter(s[1..], p), q);
      assert Filter(head, q) == [];
    }
  }

  /** A filter that keeps no row yields nothing. */
  lemma {:induction false} FilterNothing<T(!new)>(s: seq<T>, keep: T -> bool)
    requires forall i :: 0 <= i < |s| ==> !keep(s[i])
    ensures Filter(s, keep) == []
  {
    if s != [] {
      FilterNothing(s[1..], keep);
    }
  }

  /** A filter that keeps every row changes nothing. */
  lemma {:induction false} FilterAll<T(!new)>(s: seq<T>, keep: T -> bool)
    requires forall i :: 0 <= i < |s| ==> keep(s[i])
    ensures Filter(s, keep) == s
  {
    if s != [] {
      FilterAll(s[1..], keep);
    }
  }

  /** Rows in strictly ascending order of `key` (ids handed out in order). */
  ghost predicate Ascending<T>(s: seq<T>, key: T -> int)
  {
    forall i, j :: 0 <= i < j < |s| ==> key(s[i]) < key(s[j])
  }

  /** A query's filter keeps the table's order. */
  lemma {:induction false} FilterKeepsAscending<T(!new)>(s: seq<T>, key: T -> int, keep: T -> bool)
    requires Ascending(s, key)
    ensures Ascending(Filter(s, keep), key)
  {
    if s != [] {
      var tail := s[1..];
      assert Ascending(tail, key) by {
        assert forall i :: 0 <= i < |tail| ==> tail[i] == s[i + 1];
      }
      FilterKeepsAscending(tail, key, keep);
      var rest := Filter(tail, keep);
      if keep(s[0]) {
        HeadBelowRest(s, key, rest);
        PrependAscending(s[0], rest, key);
        assert Filter(s, keep) == [s[0]] + rest;
      }
    }
  }

  lemma HeadBelowRest<T>(s: seq<T>, key: T -> int, rest: seq<T>)
    requires s != [] && Ascending(s, key)
    requires forall x :: x in rest ==> x in s[1..]
    ensures forall i :: 0 <= i < |rest| ==> key(s[0]) < key(rest[i])
  {
    forall i | 0 <= i < |rest| ensures key(s[0]) < key(rest[i]) {
      assert rest[i] in s[1..];
      var j :| 0 <= j < |s| - 1 && s[1..][j] == rest[i];
      assert s[j + 1] == rest[i];
    }
  }

  lemma PrependAscending<T>(x: T, rest: seq<T>, key: T -> int)
    requires Ascending(rest, key)
    requires forall i :: 0 <= i < |rest| ==> key(x) < key(rest[i])
    ensures Ascending([x] + rest, key)
  {
    var r := [x] + rest;
    assert forall i :: 1 <= i < |r| ==> r[i] == rest[i - 1];
  }
}
