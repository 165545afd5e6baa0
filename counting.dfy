/** `Series.value_counts()` over a column of optional strings, as
    `getAnalysisNames` (carto_report/report.py) applies it to the resolved
    analysis types: one row per distinct present value with its count,
    largest count first. */
module Counting {
  import opened Wrappers
  import opened Sorting

  /** A row of `analysis_types_df`: a type and its 'Analysis Count'. */
  datatype TypeCount = TypeCount(analysisType: string, count: nat)

  function Count(c: TypeCount): int { c.count }

  /** The values a tally has entries for, in its order. */
  function Types(tally: seq<TypeCount>): (types: seq<string>)
    ensures |types| == |tally|
    ensures forall k :: 0 <= k < |tally| ==> types[k] == tally[k].analysisType
  {
    if tally == [] then [] else [tally[0].analysisType] + Types(tally[1..])
  }

  predicate Distinct(s: seq<string>) {
    forall i, j :: 0 <= i < j < |s| ==> s[i] != s[j]
  }

  /** How many entries of `s` are `Some(t)`. */
  function Occurrences(s: seq<Option<string>>, t: string): nat {
    if s == [] then 0
    else Occurrences(s[..|s| - 1], t) + (if s[|s| - 1] == Some(t) then 1 else 0)
  }

  /** How many entries of `s` are present (`value_counts` drops `NaN`). */
  function Known(s: seq<Option<string>>): nat {
    if s == [] then 0
    else Known(s[..|s| - 1]) + (if s[|s| - 1].Some? then 1 else 0)
  }

  /** Adds one to the count of `t`, opening an entry when it has none. */
  function Bump(tally: seq<TypeCount>, t: string): seq<TypeCount> {
    if tally == [] then [TypeCount(t, 1)]
    else if tally[0].analysisType == t then [tally[0].(count := tally[0].count + 1)] + tally[1..]
    else [tally[0]] + Bump(tally[1..], t)
  }

  /** The counts of the present values, in order of first appearance. */
  function Tally(s: seq<Option<string>>): seq<TypeCount> {
    if s == [] then []
    else
      var rest := Tally(s[..|s| - 1]);
      match s[|s| - 1]
      case None => rest
      case Some(t) => Bump(rest, t)
  }

  /** The count the tally records for `t` (its first entry), or 0. */
  function CountOf(tally: seq<TypeCount>, t: string): nat {
    if tally == [] then 0
    else if tally[0].analysisType == t then tally[0].count
    else CountOf(tally[1..], t)
  }

  /** `analysis_df['type'].value_counts()`: one row per type, largest count
      first. */
  function ValueCounts(s: seq<Option<string>>): seq<TypeCount> {
    SortDesc(Tally(s), Count)
  }

  /** Bumping opens an entry for a new value at the end and otherwise
      leaves the order of the values alone. */
  lemma {:induction false} BumpTypes(tally: seq<TypeCount>, t: string)
    ensures Types(Bump(tally, t)) == if t in Types(tally) then Types(tally) else Types(tally) + [t]
  {
    var r := Bump(tally, t);
    if tally == [] {
    } else if tally[0].analysisType == t {
      assert Types(tally)[0] == t;
      assert r[1..] == tally[1..];
    } else {
      BumpTypes(tally[1..], t);
      assert r[1..] == Bump(tally[1..], t);
    }
  }

  /** Bumping adds one to the count of `t` and to no other, and keeps the
      counts positive. */
  lemma {:induction false} BumpCounts(tally: seq<TypeCount>, t: string)
    requires forall k :: 0 <= k < |tally| ==> tally[k].count > 0
    ensures forall k :: 0 <= k < |Bump(tally, t)| ==> Bump(tally, t)[k].count > 0
    ensures forall u :: CountOf(Bump(tally, t), u) == CountOf(tally, u) + (if u == t then 1 else 0)
  {
    if tally != [] && tally[0].analysisType != t {
      var rest := tally[1..];
      assert forall k :: 0 <= k < |rest| ==> rest[k].count > 0 by {
        forall k | 0 <= k < |rest| ensures rest[k].count > 0 { assert rest[k] == tally[k + 1]; }
      }
      BumpCounts(rest, t);
      var r := Bump(tally, t);
      assert r[1..] == Bump(rest, t);
    }
  }

  lemma {:induction false} BumpSum(tally: seq<TypeCount>, t: string)
    ensures SumBy(Bump(tally, t), Count) == SumBy(tally, Count) + 1
  {
    var r := Bump(tally, t);
    if tally != [] {
      if tally[0].analysisType == t {
        assert r[1..] == tally[1..];
      } else {
        BumpSum(tally[1..], t);
        assert r[1..] == Bump(tally[1..], t);
      }
    }
  }

  lemma {:induction false} DistinctAppend(s: seq<string>, t: string)
    requires Distinct(s) && t !in s
    ensures Distinct(s + [t])
  {
    forall i, j | 0 <= i < j < |s + [t]| ensures (s + [t])[i] != (s + [t])[j] {
      if j == |s| {
        assert (s + [t])[i] == s[i];
      } else {
        assert (s + [t])[i] == s[i] && (s + [t])[j] == s[j];
      }
    }
  }

  lemma {:induction false} CountOfAbsent(tally: seq<TypeCount>, t: string)
    requires t !in Types(tally)
    ensures CountOf(tally, t) == 0
  {
    if tally != [] {
      assert Types(tally) == [tally[0].analysisType] + Types(tally[1..]);
      CountOfAbsent(tally[1..], t);
    }
  }

  lemma {:induction false} CountOfEntry(tally: seq<TypeCount>, k: nat)
    requires k < |tally| && Distinct(Types(tally))
    ensures CountOf(tally, tally[k].analysisType) == tally[k].count
  {
    assert Types(tally) == [tally[0].analysisType] + Types(tally[1..]);
    if k > 0 {
      assert Types(tally)[0] != Types(tally)[k];
      assert Distinct(Types(tally[1..])) by {
        forall i, j | 0 <= i < j < |tally[1..]| ensures Types(tally[1..])[i] != Types(tally[1..])[j] {
          assert Types(tally)[i + 1] != Types(tally)[j + 1];
        }
      }
      CountOfEntry(tally[1..], k - 1);
    }
  }

  lemma {:induction false} TallySpec(s: seq<Option<string>>)
    ensures Distinct(Types(Tally(s)))
    ensures forall k :: 0 <= k < |Tally(s)| ==> Tally(s)[k].count > 0
    ensures forall u :: CountOf(Tally(s), u) == Occurrences(s, u)
    ensures forall u :: u in Types(Tally(s)) <==> Occurrences(s, u) > 0
    ensures SumBy(Tally(s), Count) == Known(s)
  {
    if s != [] {
      var init := s[..|s| - 1];
      TallySpec(init);
      var rest := Tally(init);
      if s[|s| - 1].Some? {
        var t := s[|s| - 1].value;
        BumpTypes(rest, t);
        BumpCounts(rest, t);
        BumpSum(rest, t);
        if t !in Types(rest) {
          DistinctAppend(Types(rest), t);
        }
      }
      var tally := Tally(s);
      forall u ensures u in Types(tally) <==> Occurrences(s, u) > 0 {
        if u in Types(tally) {
          var k :| 0 <= k < |tally| && Types(tally)[k] == u;
          CountOfEntry(tally, k);
        } else {
          CountOfAbsent(tally, u);
        }
      }
    }
  }

  lemma {:induction false} OnceInDistinct(tally: seq<TypeCount>, x: TypeCount)
    requires Distinct(Types(tally))
    ensures multiset(tally)[x] <= 1
  {
    if tally != [] {
      assert tally == [tally[0]] + tally[1..];
      assert Distinct(Types(tally[1..])) by {
        forall i, j | 0 <= i < j < |tally[1..]| ensures Types(tally[1..])[i] != Types(tally[1..])[j] {
          assert Types(tally)[i + 1] != Types(tally)[j + 1];
        }
      }
      OnceInDistinct(tally[1..], x);
      if x == tally[0] {
        forall k | 0 <= k < |tally[1..]| ensures tally[1..][k] != x {
          assert Types(tally)[0] != Types(tally)[k + 1];
        }
      }
    }
  }

  lemma TwiceInRepeat(s: seq<TypeCount>, i: nat, j: nat)
    requires i < j < |s| && s[i] == s[j]
    ensures multiset(s)[s[i]] >= 2
  {
    assert s == s[..j] + s[j..];
    assert s[i] in s[..j] && s[j] in s[j..];
  }

  lemma {:induction false} ValueCountsCounts(s: seq<Option<string>>)
    ensures forall k :: 0 <= k < |ValueCounts(s)| ==>
      ValueCounts(s)[k].count == Occurrences(s, ValueCounts(s)[k].analysisType) > 0
  {
    var tally := Tally(s);
    var r := ValueCounts(s);
    TallySpec(s);
    forall k | 0 <= k < |r| ensures r[k].count == Occurrences(s, r[k].analysisType) > 0 {
      assert r[k] in multiset(tally);
      var j :| 0 <= j < |tally| && tally[j] == r[k];
      CountOfEntry(tally, j);
    }
  }

  lemma {:induction false} ValueCountsCover(s: seq<Option<string>>)
    ensures forall t :: Occurrences(s, t) > 0 ==> exists k :: 0 <= k < |ValueCounts(s)| && ValueCounts(s)[k].analysisType == t
  {
    var tally := Tally(s);
    var r := ValueCounts(s);
    TallySpec(s);
    forall t | Occurrences(s, t) > 0 ensures exists k :: 0 <= k < |r| && r[k].analysisType == t {
      var j :| 0 <= j < |tally| && Types(tally)[j] == t;
      assert tally[j] in multiset(r);
      var k :| 0 <= k < |r| && r[k] == tally[j];
      assert r[k].analysisType == t;
    }
  }

  lemma {:induction false} ValueCountsDistinct(s: seq<Option<string>>)
    ensures forall i, j :: 0 <= i < j < |ValueCounts(s)| ==> ValueCounts(s)[i].analysisType != ValueCounts(s)[j].analysisType
  {
    var tally := Tally(s);
    var r := ValueCounts(s);
    TallySpec(s);
    forall i, j | 0 <= i < j < |r| ensures r[i].analysisType != r[j].analysisType {
      if r[i].analysisType == r[j].analysisType {
        assert r[i] in multiset(tally) && r[j] in multiset(tally);
        var a :| 0 <= a < |tally| && tally[a] == r[i];
        var b :| 0 <= b < |tally| && tally[b] == r[j];
        assert Types(tally)[a] == Types(tally)[b];
        TwiceInRepeat(r, i, j);
        OnceInDistinct(tally, r[i]);
      }
    }
  }

  /** `value_counts()` gives each type present among the rows exactly one
      row, with the number of rows of that type, largest count first; the
      counts add up to the number of rows whose type is known. */
  lemma {:induction false} ValueCountsSpec(s: seq<Option<string>>)
    ensures forall i, j :: 0 <= i < j < |ValueCounts(s)| ==> ValueCounts(s)[i].analysisType != ValueCounts(s)[j].analysisType
    ensures forall k :: 0 <= k < |ValueCounts(s)| ==>
      ValueCounts(s)[k].count == Occurrences(s, ValueCounts(s)[k].analysisType) > 0
    ensures forall t :: Occurrences(s, t) > 0 ==> exists k :: 0 <= k < |ValueCounts(s)| && ValueCounts(s)[k].analysisType == t
    ensures SortedDesc(ValueCounts(s), Count)
    ensures SumBy(ValueCounts(s), Count) == Known(s)
  {
    ValueCountsDistinct(s);
    ValueCountsCounts(s);
    ValueCountsCover(s);
    TallySpec(s);
    SumBySortDesc(Tally(s), Count, Count);
  }

  lemma {:induction false} KnownAtMost(s: seq<Option<string>>)
    ensures Known(s) <= |s|
  {
    if s != [] {
      KnownAtMost(s[..|s| - 1]);
    }
  }
}
