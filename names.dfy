/** Splitting an analysis table's name into its underscore-delimited
    parts, as `str.split` does, and the short id that `getAnalysisNames`
    (carto_report/report.py) takes from it. */
module Names {
  import opened Wrappers

  /** Python's `s.split(sep, maxsplit)` for a one-character separator: at
      most `maxsplit` splits, made at the leftmost separators. */
  function Split(s: string, sep: char, maxsplit: nat): (parts: seq<string>)
    ensures 1 <= |parts| <= maxsplit + 1
  {
    if s == [] then [""]
    else if s[0] == sep && maxsplit > 0 then [""] + Split(s[1..], sep, maxsplit - 1)
    else
      var r := Split(s[1..], sep, maxsplit);
      [[s[0]] + r[0]] + r[1..]
  }

  /** `sep.join(parts)` */
  function Join(parts: seq<string>, sep: char): string
    requires |parts| >= 1
  {
    if |parts| == 1 then parts[0] else parts[0] + [sep] + Join(parts[1..], sep)
  }

  lemma JoinPrepend(c: char, r: seq<string>, sep: char)
    requires |r| >= 1
    ensures Join([[c] + r[0]] + r[1..], sep) == [c] + Join(r, sep)
  {
    var parts := [[c] + r[0]] + r[1..];
    if |r| > 1 {
      assert parts[1..] == r[1..];
    }
  }

  /** Splitting loses nothing: joining the parts gives the string back. */
  lemma {:induction false} SplitJoin(s: string, sep: char, maxsplit: nat)
    ensures Join(Split(s, sep, maxsplit), sep) == s
  {
    if s != [] {
      SplitJoin(s[1..], sep, if s[0] == sep && maxsplit > 0 then maxsplit - 1 else maxsplit);
      if s[0] == sep && maxsplit > 0 {
        var rest := Split(s[1..], sep, maxsplit - 1);
        assert ([""] + rest)[1..] == rest;
        assert s == [s[0]] + s[1..];
      } else {
        JoinPrepend(s[0], Split(s[1..], sep, maxsplit), sep);
        assert s == [s[0]] + s[1..];
      }
    }
  }

  /** Every part but the last is free of the separator, and the last one
      is too unless all `maxsplit` splits were used. */
  lemma {:induction false} SplitPartsFree(s: string, sep: char, maxsplit: nat)
    ensures var parts := Split(s, sep, maxsplit);
      forall k :: 0 <= k < |parts| - 1 ==> sep !in parts[k]
    ensures var parts := Split(s, sep, maxsplit);
      |parts| <= maxsplit ==> sep !in parts[|parts| - 1]
  {
    if s != [] {
      var parts := Split(s, sep, maxsplit);
      if s[0] == sep && maxsplit > 0 {
        SplitPartsFree(s[1..], sep, maxsplit - 1);
        var rest := Split(s[1..], sep, maxsplit - 1);
        forall k | 0 < k < |parts| ensures parts[k] == rest[k - 1] { }
      } else {
        SplitPartsFree(s[1..], sep, maxsplit);
        var r := Split(s[1..], sep, maxsplit);
        forall k | 0 < k < |parts| ensures parts[k] == r[k] { }
        if |r| == 1 && |parts| <= maxsplit {
          assert sep !in r[0];
        }
      }
    }
  }

  /** The text before the first `c` of `s`, or all of it. */
  function Before(s: string, c: char): string
  {
    if s == [] || s[0] == c then [] else [s[0]] + Before(s[1..], c)
  }

  /** The text after the first `c` of `s`, or nothing. */
  function After(s: string, c: char): string
  {
    if s == [] then [] else if s[0] == c then s[1..] else After(s[1..], c)
  }

  /** With a split to spare, the first part is the text before the first
      separator, and the remaining parts split what follows it. */
  lemma {:induction false} SplitHead(s: string, sep: char, maxsplit: nat)
    requires maxsplit >= 1
    ensures Split(s, sep, maxsplit)[0] == Before(s, sep)
    ensures |Split(s, sep, maxsplit)| >= 2 <==> sep in s
    ensures sep in s ==> Split(s, sep, maxsplit)[1..] == Split(After(s, sep), sep, maxsplit - 1)
  {
    if s != [] {
      assert s == [s[0]] + s[1..];
      if s[0] != sep {
        SplitHead(s[1..], sep, maxsplit);
        var r := Split(s[1..], sep, maxsplit);
        assert Split(s, sep, maxsplit)[1..] == r[1..];
      }
    }
  }

  /** `analysis_df['name'].str.split("_", n = 3, expand = True)[1]` for one
      row: the second part, or nothing (`NaN`) when the name has no '_'. */
  function AnalysisId(name: string): Option<string> {
    var parts := Split(name, '_', 3);
    if |parts| >= 2 then Some(parts[1]) else None
  }

  /** The id is the text between the first '_' of the name and the next '_'
      (or the end), and a name without '_' has none. */
  lemma AnalysisIdIsSecondField(name: string)
    ensures AnalysisId(name) == if '_' in name then Some(Before(After(name, '_'), '_')) else None
  {
    SplitHead(name, '_', 3);
    if '_' in name {
      SplitHead(After(name, '_'), '_', 2);
    }
  }

  lemma {:induction false} BeforeAfterAt(p: string, c: char, q: string)
    requires c !in p
    ensures Before(p + [c] + q, c) == p
    ensures After(p + [c] + q, c) == q
  {
    if p != [] {
      assert (p + [c] + q)[1..] == p[1..] + [c] + q;
      BeforeAfterAt(p[1..], c, q);
    } else {
      assert p + [c] + q == [c] + q;
    }
  }

  /** A table named 'analysis_b194a8f896_x' has the id 'b194a8f896'. */
  lemma ExampleId()
    ensures AnalysisId("analysis_b194a8f896_x") == Some("b194a8f896")
  {
    BeforeAfterAt("analysis", '_', "b194a8f896_x");
    BeforeAfterAt("b194a8f896", '_', "x");
    assert "analysis" + "_" + "b194a8f896_x" == "analysis_b194a8f896_x";
    assert "b194a8f896" + "_" + "x" == "b194a8f896_x";
    AnalysisIdIsSecondField("analysis_b194a8f896_x");
  }
}
