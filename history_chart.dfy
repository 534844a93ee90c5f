/** The history chart: the records sorted oldest first, the leading months
    without any movement cut off, and three stacked bar series (opening
    stock, inbound, sales drawn downwards). */
module HistoryChart {
  import opened Wrappers
  import opened Records

  /** The `findIndex` test: some movement or opening stock that is present
      and non-zero. The closing stock plays no part. */
  predicate HasActivity(r: Record) {
    Truthy(r.openingStock) || Truthy(r.inboundQuantity) || Truthy(r.soldQuantity)
  }

  /** `s.findIndex(HasActivity)`: the first index that qualifies, or -1. */
  function FirstActiveIndex(s: seq<Record>): (i: int)
    ensures -1 <= i < |s|
    ensures i == -1 <==> forall k :: 0 <= k < |s| ==> !HasActivity(s[k])
    ensures i >= 0 ==> HasActivity(s[i]) && forall k :: 0 <= k < i ==> !HasActivity(s[k])
  {
    if s == [] then -1
    else if HasActivity(s[0]) then 0
    else
      var j := FirstActiveIndex(s[1..]);
      if j == -1 then -1 else j + 1
  }

  /** The records the chart shows: the oldest-first order from the first
      record with activity on, or nothing when no record has any. */
  function FilteredHistory(history: seq<Record>): (f: seq<Record>)
    ensures var sorted := SortByDateAscending(history);
      && |f| <= |sorted|
      && f == sorted[|sorted| - |f|..]
      && (forall k :: 0 <= k < |sorted| - |f| ==> !HasActivity(sorted[k]))
      && (f != [] ==> HasActivity(f[0]))
      && (f == [] <==> forall k :: 0 <= k < |history| ==> !HasActivity(history[k]))
  {
    var sorted := SortByDateAscending(history);
    var i := FirstActiveIndex(sorted);
    NoActivityInSortedIffNone(history);
    if i == -1 then [] else sorted[i..]
  }

  /** Sorting does not change whether some record has activity. */
  lemma NoActivityInSortedIffNone(history: seq<Record>)
    ensures (forall k :: 0 <= k < |SortByDateAscending(history)| ==> !HasActivity(SortByDateAscending(history)[k]))
            <==> (forall k :: 0 <= k < |history| ==> !HasActivity(history[k]))
  {
    var sorted := SortByDateAscending(history);
    forall k | 0 <= k < |history| && HasActivity(history[k])
      ensures exists j :: 0 <= j < |sorted| && HasActivity(sorted[j])
    {
      assert history[k] in multiset(sorted);
      var j :| 0 <= j < |sorted| && sorted[j] == history[k];
    }
    forall j | 0 <= j < |sorted| && HasActivity(sorted[j])
      ensures exists k :: 0 <= k < |history| && HasActivity(history[k])
    {
      assert sorted[j] in multiset(history);
      var k :| 0 <= k < |history| && history[k] == sorted[j];
    }
  }

  /** `-record.sold_quantity`: a missing quantity stays missing. */
  function Negate(v: Option<int>): (r: Option<int>)
    ensures r.Some? <==> v.Some?
    ensures v.Some? ==> r.value + v.value == 0
  {
    match v
    case None => None
    case Some(n) => Some(-n)
  }

  /** The data-label and tooltip formatter: negative values are shown by magnitude. */
  function DisplayValue(v: int): (d: int)
    ensures d >= 0 && (d == v || d == -v)
  {
    if v < 0 then -v else v
  }

  /** A sales bar, drawn at `-sold`, is labelled with the same number a bar
      at `sold` would carry, which is the sold quantity itself when it is
      not negative. */
  lemma SalesBarShowsSoldMagnitude(sold: int)
    ensures DisplayValue(-sold) == DisplayValue(sold)
    ensures sold >= 0 ==> DisplayValue(-sold) == sold
  {
  }

  datatype Dataset = Dataset(seriesLabel: string, data: seq<Option<int>>, backgroundColor: string, stack: string, hidden: bool)

  /** The chart's input. The labels stand for the record dates (their locale
      formatting is presentation and is not modelled). */
  datatype ChartData = ChartData(labels: seq<int>, datasets: seq<Dataset>)

  const Stack := "stack1"

  /** One bar series: a value per shown record, in the records' order. */
  function Series(f: seq<Record>, value: Record -> Option<int>): (d: seq<Option<int>>)
    ensures |d| == |f|
    ensures forall i :: 0 <= i < |f| ==> d[i] == value(f[i])
  {
    seq(|f|, i requires 0 <= i < |f| => value(f[i]))
  }

  function Opening(r: Record): Option<int> { r.openingStock }
  function Inbound(r: Record): Option<int> { r.inboundQuantity }
  function NegatedSold(r: Record): Option<int> { Negate(r.soldQuantity) }

  function ChartDataOf(history: seq<Record>): (c: ChartData)
    ensures var f := FilteredHistory(history);
      && |c.labels| == |f| && |c.datasets| == 3
      && |c.datasets[0].data| == |f| && |c.datasets[1].data| == |f| && |c.datasets[2].data| == |f|
      && c.datasets[0].stack == Stack && c.datasets[1].stack == Stack && c.datasets[2].stack == Stack
      && c.datasets[0].seriesLabel == "Estoque Inicial" && !c.datasets[0].hidden
      && c.datasets[1].seriesLabel == "Entradas" && c.datasets[1].hidden
      && c.datasets[2].seriesLabel == "Vendas" && !c.datasets[2].hidden
      && (forall i :: 0 <= i < |f| ==>
            && c.labels[i] == f[i].date
            && c.datasets[0].data[i] == f[i].openingStock
            && c.datasets[1].data[i] == f[i].inboundQuantity
            && c.datasets[2].data[i] == Negate(f[i].soldQuantity))
  {
    var f := FilteredHistory(history);
    ChartData(
      seq(|f|, i requires 0 <= i < |f| => f[i].date),
      [ Dataset("Estoque Inicial", Series(f, Opening), "#4E9AE1", Stack, false),
        Dataset("Entradas", Series(f, Inbound), "#366B9D", Stack, true),
        Dataset("Vendas", Series(f, NegatedSold), "#E57575", Stack, false) ])
  }
}
