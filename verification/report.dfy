/** The arithmetic and the list shapes of the damage report: the grand total
    across photographs, the "Based on N analyzed image(s)." label, the rows of
    each photograph's damage table, and the report's tab selection.

    Amounts are whole numbers and the sums are exact; the application adds
    JavaScript numbers. */
module DamageReport {
  import opened Types
  import opened Text

  // ---------------------------------------------------------------------------
  // grand total
  // ---------------------------------------------------------------------------

  /** A left fold adding each result's reported total to `acc`. */
  function FoldTotals(acc: int, results: seq<AnalysisResult>): int
    decreases |results|
  {
    if results == [] then acc
    else FoldTotals(acc + results[0].analysis.totalEstimatedCostINR, results[1..])
  }

  /** The grand total: the per-photograph totals folded from the seed 0. */
  function GrandTotal(results: seq<AnalysisResult>): int
  {
    FoldTotals(0, results)
  }

  /** Reference definition: the sum of the per-photograph totals, taken from
      the last photograph backwards. */
  function SumOfTotals(results: seq<AnalysisResult>): int
  {
    if results == [] then 0
    else SumOfTotals(results[..|results| - 1]) + results[|results| - 1].analysis.totalEstimatedCostINR
  }

  /** The fold's seed can be taken out of the fold. */
  lemma {:induction false} FoldTotalsSeed(acc: int, results: seq<AnalysisResult>)
    ensures FoldTotals(acc, results) == acc + FoldTotals(0, results)
    decreases |results|
  {
    if results != [] {
      var t := results[0].analysis.totalEstimatedCostINR;
      FoldTotalsSeed(acc + t, results[1..]);
      FoldTotalsSeed(t, results[1..]);
    }
  }

  /** The grand total over two lists is the sum of their grand totals. */
  lemma {:induction false} GrandTotalAppend(a: seq<AnalysisResult>, b: seq<AnalysisResult>)
    ensures GrandTotal(a + b) == GrandTotal(a) + GrandTotal(b)
    decreases |a|
  {
    if a == [] {
      assert a + b == b;
    } else {
      var t := a[0].analysis.totalEstimatedCostINR;
      assert (a + b)[1..] == a[1..] + b;
      FoldTotalsSeed(t, a[1..] + b);
      FoldTotalsSeed(t, a[1..]);
      GrandTotalAppend(a[1..], b);
    }
  }

  /** The fold computes the sum of the reported per-photograph totals; over
      no photographs it is 0. */
  lemma {:induction false} GrandTotalIsSum(results: seq<AnalysisResult>)
    ensures GrandTotal(results) == SumOfTotals(results)
    decreases |results|
  {
    if results != [] {
      var n := |results|;
      assert results == results[..n - 1] + [results[n - 1]];
      GrandTotalAppend(results[..n - 1], [results[n - 1]]);
      GrandTotalIsSum(results[..n - 1]);
      var last := results[n - 1];
      assert [last][1..] == [];
      assert GrandTotal([last]) == FoldTotals(0 + last.analysis.totalEstimatedCostINR, []);
    }
  }

  /** Only the reported totals matter: the itemised costs (and everything
      else in an analysis) do not enter the grand total. */
  lemma {:induction false} GrandTotalUsesReportedTotals(a: seq<AnalysisResult>, b: seq<AnalysisResult>)
    requires |a| == |b|
    requires forall i :: 0 <= i < |a| ==>
      a[i].analysis.totalEstimatedCostINR == b[i].analysis.totalEstimatedCostINR
    ensures GrandTotal(a) == GrandTotal(b)
    decreases |a|
  {
    if a != [] {
      var n := |a|;
      GrandTotalIsSum(a);
      GrandTotalIsSum(b);
      GrandTotalUsesReportedTotals(a[..n - 1], b[..n - 1]);
      GrandTotalIsSum(a[..n - 1]);
      GrandTotalIsSum(b[..n - 1]);
    }
  }

  /** Two photographs reported at 1500 and 2300 give 3800, whatever their
      itemised damages say; no photographs give the seed 0. */
  lemma GrandTotalExample(a: AnalysisResult, b: AnalysisResult)
    requires a.analysis.totalEstimatedCostINR == 1500 && b.analysis.totalEstimatedCostINR == 2300
    ensures GrandTotal([a, b]) == 3800
    ensures GrandTotal([]) == 0
  {
    assert [a, b][1..] == [b];
    assert [b][1..] == [];
    assert GrandTotal([a, b]) == FoldTotals(1500, [b]);
    assert FoldTotals(1500, [b]) == FoldTotals(3800, []);
  }

  // ---------------------------------------------------------------------------
  // the image-count label
  // ---------------------------------------------------------------------------

  const LabelPrefix := "Based on "

  /** "Based on N analyzed image." with an "s" after "image" when N > 1. */
  function ImageCountLabel(n: nat): string
  {
    LabelPrefix + NatToString(n) + " analyzed image" + (if n > 1 then "s" else "") + "."
  }

  /** The label is plural exactly when there is more than one photograph
      (so 0 and 1 both read "image"), and its number reads back as `n`. */
  lemma ImageCountLabelShape(n: nat)
    ensures var r := ImageCountLabel(n);
      var digits := NatToString(n);
      && |LabelPrefix| + |digits| + 2 <= |r|
      && (r[|r| - 2] == 's' <==> n > 1)
      && r[|r| - 1] == '.'
      && r[|LabelPrefix|..|LabelPrefix| + |digits|] == digits
      && DigitsValue(r[|LabelPrefix|..|LabelPrefix| + |digits|]) == n
  {
    var digits := NatToString(n);
    var word := " analyzed image";
    var plural := if n > 1 then "s" else "";
    var r := ImageCountLabel(n);
    assert r == LabelPrefix + digits + (word + plural + ".");
    assert r[|LabelPrefix|..|LabelPrefix| + |digits|] == digits;
    assert word[|word| - 1] == 'e';
    NatToStringRoundTrip(n);
  }

  // ---------------------------------------------------------------------------
  // the damage table
  // ---------------------------------------------------------------------------

  const NoDamagesText := "No damages detected in this image."

  /** One body row of a photograph's damage table: a damage's cells, or the
      single placeholder row spanning all columns. */
  datatype TableRow =
    | DamageRow(damageType: string, location: string, severity: Severity, costINR: int, confidence: real)
    | PlaceholderRow(text: string)

  /** The cells shown for one damage. */
  function RowOf(d: DamageDetail): TableRow
  {
    DamageRow(DamageTypeName(d.damageType), d.location, d.severity, d.estimatedCostINR, d.confidenceScore)
  }

  function RowsOf(ds: seq<DamageDetail>): (r: seq<TableRow>)
    ensures |r| == |ds|
    ensures forall i :: 0 <= i < |ds| ==> r[i] == RowOf(ds[i])
  {
    if ds == [] then [] else [RowOf(ds[0])] + RowsOf(ds[1..])
  }

  /** The table body: one row per damage in order, or the placeholder alone
      when there is none. */
  function DamageRows(ds: seq<DamageDetail>): (r: seq<TableRow>)
    ensures |r| == if ds == [] then 1 else |ds|
    ensures (exists k :: 0 <= k < |r| && r[k].PlaceholderRow?) <==> ds == []
    ensures ds == [] ==> r[0] == PlaceholderRow(NoDamagesText)
    ensures forall i :: 0 <= i < |ds| ==>
      && r[i].DamageRow?
      && r[i].damageType == DamageTypeName(ds[i].damageType)
      && r[i].location == ds[i].location
      && r[i].severity == ds[i].severity
      && r[i].costINR == ds[i].estimatedCostINR
  {
    if ds == [] then
      var r := [PlaceholderRow(NoDamagesText)];
      assert r[0].PlaceholderRow?;
      r
    else RowsOf(ds)
  }

  // ---------------------------------------------------------------------------
  // tabs
  // ---------------------------------------------------------------------------

  datatype Tab = Details | Claims | Chat

  /** The report opens on the damage details. */
  const InitialTab: Tab := Details

  /** The tab active after the user clicked `clicks` in order, starting from
      `active`. */
  function AfterClicks(active: Tab, clicks: seq<Tab>): Tab
    decreases |clicks|
  {
    if clicks == [] then active else AfterClicks(clicks[0], clicks[1..])
  }

  /** The active tab is the last one clicked, or the details tab before any
      click. */
  lemma {:induction false} ActiveTabIsLastClicked(active: Tab, clicks: seq<Tab>)
    ensures AfterClicks(active, clicks) == if clicks == [] then active else clicks[|clicks| - 1]
    decreases |clicks|
  {
    if clicks != [] {
      ActiveTabIsLastClicked(clicks[0], clicks[1..]);
      if |clicks| > 1 {
        assert clicks[1..][|clicks| - 2] == clicks[|clicks| - 1];
      }
    }
  }

  /** From a freshly opened report, the details tab stays active until some
      other tab is clicked. */
  lemma DetailsUntilClicked(clicks: seq<Tab>)
    requires forall i :: 0 <= i < |clicks| ==> clicks[i] == Details
    ensures AfterClicks(InitialTab, clicks) == Details
  {
    ActiveTabIsLastClicked(InitialTab, clicks);
  }
}
