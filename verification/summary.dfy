/** The one-line damage summary that drives the claims-guide request: every
    damage of every analysed photograph, flattened in order, one clause per
    damage, clauses separated by "; ". */
module Summary {
  import opened Types
  import opened Text

  /** All damages of all results: result by result, and within one result in
      the order the analysis listed them (`flatMap`). */
  function AllDamages(results: seq<AnalysisResult>): seq<DamageDetail>
  {
    if results == [] then [] else results[0].analysis.damages + AllDamages(results[1..])
  }

  /** Where the damages of `results[i]` start in `AllDamages(results)`. */
  function Offset(results: seq<AnalysisResult>, i: nat): nat
    requires i <= |results|
  {
    |AllDamages(results[..i])|
  }

  /** "<severity> <damage type> on <location>". */
  function SummaryClause(d: DamageDetail): string
  {
    SeverityName(d.severity) + " " + DamageTypeName(d.damageType) + " on " + d.location
  }

  /** The clause of each damage, in order. */
  function SummaryClauses(ds: seq<DamageDetail>): (r: seq<string>)
    ensures |r| == |ds|
    ensures forall i :: 0 <= i < |ds| ==> r[i] == SummaryClause(ds[i])
  {
    if ds == [] then [] else [SummaryClause(ds[0])] + SummaryClauses(ds[1..])
  }

  /** The summary text sent to the claims-guide service. */
  function DamageSummary(results: seq<AnalysisResult>): string
  {
    Join("; ", SummaryClauses(AllDamages(results)))
  }

  /** Flattening distributes over concatenation of result lists. */
  lemma {:induction false} AllDamagesAppend(a: seq<AnalysisResult>, b: seq<AnalysisResult>)
    ensures AllDamages(a + b) == AllDamages(a) + AllDamages(b)
  {
    if a != [] {
      assert (a + b)[1..] == a[1..] + b;
      AllDamagesAppend(a[1..], b);
    } else {
      assert a + b == b;
    }
  }

  /** Damage `j` of result `i` sits at position `Offset(results, i) + j` of
      the flattened list: result order first, then within-result order. */
  lemma AllDamagesIndex(results: seq<AnalysisResult>, i: nat, j: nat)
    requires i < |results| && j < |results[i].analysis.damages|
    ensures Offset(results, i) + j < |AllDamages(results)|
    ensures AllDamages(results)[Offset(results, i) + j] == results[i].analysis.damages[j]
  {
    assert results == results[..i] + [results[i]] + results[i + 1..];
    AllDamagesAppend(results[..i] + [results[i]], results[i + 1..]);
    AllDamagesAppend(results[..i], [results[i]]);
    assert AllDamages([results[i]]) == results[i].analysis.damages + AllDamages([]);
  }

  /** The flattened list is empty exactly when no result has a damage. */
  lemma {:induction false} AllDamagesEmptyIff(results: seq<AnalysisResult>)
    ensures AllDamages(results) == [] <==>
      forall i :: 0 <= i < |results| ==> results[i].analysis.damages == []
  {
    if results != [] {
      AllDamagesEmptyIff(results[1..]);
      if AllDamages(results) == [] {
        forall i | 0 <= i < |results|
          ensures results[i].analysis.damages == []
        {
          if i > 0 {
            assert results[i] == results[1..][i - 1];
          }
        }
      }
      if forall i :: 0 <= i < |results| ==> results[i].analysis.damages == [] {
        forall i | 0 <= i < |results| - 1
          ensures results[1..][i].analysis.damages == []
        {
          assert results[1..][i] == results[i + 1];
        }
      }
    }
  }

  /** Every clause carries " on " right after "<severity> <type>", so no
      clause is empty. */
  lemma SummaryClauseShape(d: DamageDetail)
    ensures var c := SummaryClause(d);
      var k := |SeverityName(d.severity)| + 1 + |DamageTypeName(d.damageType)|;
      k + 4 <= |c| && c[k..k + 4] == " on "
  {
  }

  /** The summary is empty exactly when no photograph has any damage. */
  lemma DamageSummaryEmptyIff(results: seq<AnalysisResult>)
    ensures DamageSummary(results) == [] <==>
      forall i :: 0 <= i < |results| ==> results[i].analysis.damages == []
  {
    var clauses := SummaryClauses(AllDamages(results));
    forall i | 0 <= i < |clauses|
      ensures clauses[i] != []
    {
      SummaryClauseShape(AllDamages(results)[i]);
    }
    JoinEmptyIff("; ", clauses);
    AllDamagesEmptyIff(results);
  }

  /** The clause list of a concatenation is the concatenation of the lists. */
  lemma {:induction false} SummaryClausesAppend(a: seq<DamageDetail>, b: seq<DamageDetail>)
    ensures SummaryClauses(a + b) == SummaryClauses(a) + SummaryClauses(b)
  {
    var l, r := SummaryClauses(a + b), SummaryClauses(a) + SummaryClauses(b);
    assert |l| == |r|;
    forall i | 0 <= i < |l|
      ensures l[i] == r[i]
    {
      if i < |a| {
        assert (a + b)[i] == a[i];
      } else {
        assert (a + b)[i] == b[i - |a|];
      }
    }
  }

  /** Summaries of two batches with damages combine with a single "; "
      between them; a batch without damages adds nothing. */
  lemma DamageSummaryAppend(a: seq<AnalysisResult>, b: seq<AnalysisResult>)
    ensures AllDamages(a) == [] ==> DamageSummary(a + b) == DamageSummary(b)
    ensures AllDamages(b) == [] ==> DamageSummary(a + b) == DamageSummary(a)
    ensures AllDamages(a) != [] && AllDamages(b) != [] ==>
      DamageSummary(a + b) == DamageSummary(a) + "; " + DamageSummary(b)
  {
    AllDamagesAppend(a, b);
    SummaryClausesAppend(AllDamages(a), AllDamages(b));
    var ca, cb := SummaryClauses(AllDamages(a)), SummaryClauses(AllDamages(b));
    if ca == [] {
      assert ca + cb == cb;
    } else if cb == [] {
      assert ca + cb == ca;
    } else {
      JoinAppend("; ", ca, cb);
    }
  }

  /** A single damage "High Dent on front bumper" in one photograph and none
      in another gives exactly that clause, with no separator around it. */
  lemma DamageSummaryExample(img1: string, img2: string, d: DamageDetail, rest: DamageAnalysis)
    requires d.severity == High && d.damageType == Dent && d.location == "front bumper"
    requires rest.damages == []
    ensures DamageSummary([AnalysisResult(img1, DamageAnalysis([d], 0, [])),
                           AnalysisResult(img2, rest)]) == "High Dent on front bumper"
  {
    var results := [AnalysisResult(img1, DamageAnalysis([d], 0, [])), AnalysisResult(img2, rest)];
    assert results[1..][1..] == [];
    assert AllDamages(results[1..]) == [] + AllDamages([]);
    assert AllDamages(results) == [d] + [];
    assert [d][1..] == [];
    assert SummaryClause(d) == "High" + " " + "Dent" + " on " + "front bumper";
    assert SummaryClauses([d]) == [SummaryClause(d)] + SummaryClauses([]);
  }
}
