/**
 * The array operations every per-tab store is built from, as the components write them
 * with `filter`, `map`, `find` and `reduce`: keep the records that pass a test, replace
 * the records a test picks, find the first record a test picks, and add up a field.
 */
module Records {

  /** `s.filter(keep)`: the records that pass `keep`, in their original order. */
  function Filter<T>(s: seq<T>, keep: T -> bool): (r: seq<T>)
    ensures |r| <= |s|
    ensures forall i :: 0 <= i < |r| ==> r[i] in s && keep(r[i])
    ensures forall i :: 0 <= i < |s| && keep(s[i]) ==> s[i] in r
  {
    if s == [] then [] else (if keep(s[0]) then [s[0]] else []) + Filter(s[1..], keep)
  }

  /** Filtering works piece by piece, so it never reorders what it keeps. */
  lemma {:induction false} FilterAppend<T>(a: seq<T>, b: seq<T>, keep: T -> bool)
    ensures Filter(a + b, keep) == Filter(a, keep) + Filter(b, keep)
  {
    if a == [] {
      assert a + b == b;
    } else {
      var head := if keep(a[0]) then [a[0]] else [];
      FilterAppend(a[1..], b, keep);
      assert (a + b)[0] == a[0] && (a + b)[1..] == a[1..] + b;
      calc {
        Filter(a + b, keep);
        head + Filter(a[1..] + b, keep);
        head + (Filter(a[1..], keep) + Filter(b, keep));
        (head + Filter(a[1..], keep)) + Filter(b, keep);
        Filter(a, keep) + Filter(b, keep);
      }
    }
  }

  /** Records listed in strictly increasing `rank`: in that order, and no rank twice. */
  predicate Ascending<T>(s: seq<T>, rank: T -> int)
  {
    forall i, j :: 0 <= i < j < |s| ==> rank(s[i]) < rank(s[j])
  }

  /** A record ranked below everything after it keeps a list in increasing order. */
  lemma AscendingCons<T>(x: T, rest: seq<T>, rank: T -> int)
    requires Ascending(rest, rank)
    requires forall j :: 0 <= j < |rest| ==> rank(x) < rank(rest[j])
    ensures Ascending([x] + rest, rank)
  {
    var r := [x] + rest;
    forall i, j | 0 <= i < j < |r| ensures rank(r[i]) < rank(r[j]) {
      assert r[j] == rest[j - 1];
      if i > 0 {
        assert r[i] == rest[i - 1];
      }
    }
  }

  /** Filtering keeps the relative order: records ranked in increasing order stay so. */
  lemma {:induction false} FilterKeepsOrder<T>(s: seq<T>, keep: T -> bool, rank: T -> int)
    requires Ascending(s, rank)
    ensures Ascending(Filter(s, keep), rank)
  {
    if s != [] {
      var tail := s[1..];
      assert Ascending(tail, rank) by {
        forall i, j | 0 <= i < j < |tail| ensures rank(tail[i]) < rank(tail[j]) {
          assert tail[i] == s[i + 1] && tail[j] == s[j + 1];
        }
      }
      var rest := Filter(tail, keep);
      FilterKeepsOrder(tail, keep, rank);
      if keep(s[0]) {
        forall j | 0 <= j < |rest| ensures rank(s[0]) < rank(rest[j]) {
          var k :| 0 <= k < |tail| && tail[k] == rest[j];
          assert tail[k] == s[k + 1];
        }
        AscendingCons(s[0], rest, rank);
        assert Filter(s, keep) == [s[0]] + rest;
      } else {
        assert Filter(s, keep) == rest;
      }
    }
  }

  /** A filter that every record passes changes nothing. */
  lemma {:induction false} FilterKeepsAll<T>(s: seq<T>, keep: T -> bool)
    requires forall x :: x in s ==> keep(x)
    ensures Filter(s, keep) == s
  {
    if s != [] {
      FilterKeepsAll(s[1..], keep);
      assert s == [s[0]] + s[1..];
    }
  }

  /** A filter keeps the whole list exactly when every record passes it. */
  lemma {:induction false} FilterKeepsAllIff<T>(s: seq<T>, keep: T -> bool)
    ensures |Filter(s, keep)| == |s| <==> forall i :: 0 <= i < |s| ==> keep(s[i])
  {
    if s != [] {
      FilterKeepsAllIff(s[1..], keep);
      if forall i :: 0 <= i < |s| ==> keep(s[i]) {
        assert forall i :: 0 <= i < |s| - 1 ==> keep(s[1..][i]) by {
          forall i | 0 <= i < |s| - 1 ensures keep(s[1..][i]) {
            assert s[1..][i] == s[i + 1];
          }
        }
      }
    }
  }

  /** A record passes `keep` or fails it: the two filters split the list between them. */
  lemma {:induction false} FilterComplement<T>(s: seq<T>, keep: T -> bool, drop: T -> bool)
    requires forall x :: drop(x) == !keep(x)
    ensures |Filter(s, keep)| + |Filter(s, drop)| == |s|
  {
    if s != [] {
      FilterComplement(s[1..], keep, drop);
    }
  }

  /** No record occurs twice. */
  predicate Distinct<T(==)>(s: seq<T>)
  {
    forall i, j :: 0 <= i < j < |s| ==> s[i] != s[j]
  }

  /** Filtering a list without repeats cannot introduce one. */
  lemma {:induction false} FilterDistinct<T>(s: seq<T>, keep: T -> bool)
    ensures Distinct(s) ==> Distinct(Filter(s, keep))
  {
    if s != [] && Distinct(s) {
      assert Distinct(s[1..]);
      FilterDistinct(s[1..], keep);
      var rest := Filter(s[1..], keep);
      assert forall i :: 0 <= i < |rest| ==> rest[i] in s[1..];
      assert s[0] !in s[1..];
    }
  }

  /** `s.map(x => hit(x) ? f(x) : x)`: the records `hit` picks are replaced, the others kept. */
  function Update<T>(s: seq<T>, hit: T -> bool, f: T -> T): (r: seq<T>)
    ensures |r| == |s|
    ensures forall i :: 0 <= i < |s| ==> r[i] == if hit(s[i]) then f(s[i]) else s[i]
  {
    if s == [] then [] else [if hit(s[0]) then f(s[0]) else s[0]] + Update(s[1..], hit, f)
  }

  /**
   * Applying an update twice is the identity when the update undoes itself and keeps the
   * record picked (a toggle of a flag by id, say).
   */
  lemma UpdateTwice<T>(s: seq<T>, hit: T -> bool, f: T -> T)
    requires forall x :: hit(x) ==> hit(f(x)) && f(f(x)) == x
    ensures Update(Update(s, hit, f), hit, f) == s
  {
    var once := Update(s, hit, f);
    var twice := Update(once, hit, f);
    forall i | 0 <= i < |s|
      ensures twice[i] == s[i]
    {
      if hit(s[i]) {
        assert once[i] == f(s[i]);
      }
    }
  }

  /** An update that picks nothing changes nothing. */
  lemma UpdateMissing<T>(s: seq<T>, hit: T -> bool, f: T -> T)
    requires forall x :: x in s ==> !hit(x)
    ensures Update(s, hit, f) == s
  {
    var r := Update(s, hit, f);
    forall i | 0 <= i < |s|
      ensures r[i] == s[i]
    {
      assert s[i] in s;
    }
  }

  /** `s.findIndex(hit)`, with `|s|` for "not found": the first record `hit` picks. */
  function IndexWhere<T>(s: seq<T>, hit: T -> bool): (k: nat)
    ensures k <= |s|
    ensures k < |s| ==> hit(s[k])
    ensures forall j :: 0 <= j < k ==> !hit(s[j])
  {
    if s == [] then 0 else if hit(s[0]) then 0 else 1 + IndexWhere(s[1..], hit)
  }

  /** `s.reduce((sum, x) => sum + val(x), 0)`. */
  function Sum<T>(s: seq<T>, val: T -> int): int
  {
    if s == [] then 0 else val(s[0]) + Sum(s[1..], val)
  }

  /** The sum over a list made of two pieces is the sum of the pieces' sums. */
  lemma {:induction false} SumAppend<T>(a: seq<T>, b: seq<T>, val: T -> int)
    ensures Sum(a + b, val) == Sum(a, val) + Sum(b, val)
  {
    if a == [] {
      assert a + b == b;
    } else {
      SumAppend(a[1..], b, val);
      assert (a + b)[1..] == a[1..] + b;
    }
  }

  /** Adding up what a filter keeps, one record at a time. */
  lemma SumFilterStep<T>(s: seq<T>, keep: T -> bool, val: T -> int)
    requires s != []
    ensures Sum(Filter(s, keep), val) == (if keep(s[0]) then val(s[0]) else 0) + Sum(Filter(s[1..], keep), val)
  {
    SumAppend(if keep(s[0]) then [s[0]] else [], Filter(s[1..], keep), val);
  }

  /** A sum of non-negative terms is non-negative. */
  lemma {:induction false} SumNonNegative<T>(s: seq<T>, val: T -> int)
    ensures (forall i :: 0 <= i < |s| ==> val(s[i]) >= 0) ==> Sum(s, val) >= 0
  {
    if s != [] {
      SumNonNegative(s[1..], val);
      assert forall i :: 0 <= i < |s| - 1 ==> s[1..][i] == s[i + 1];
    }
  }
}
