/** The summary page (src/pages/SummaryPage.tsx): two figures computed from
    the cached summary, and the choice between skeleton, empty state and
    content for the figures and for the per-product grid. */
module SummaryView {
  import opened Types
  import opened Panels

  /** The total, defined by recursion from the front. */
  function Total(summary: seq<InventorySummaryItem>): int {
    if summary == [] then 0 else summary[0].count + Total(summary[1..])
  }

  /** `summary.reduce((acc, item) => acc + item.count, acc)`: a left fold,
      consuming the items from the first to the last. */
  function Reduce(acc: int, summary: seq<InventorySummaryItem>): int
    decreases |summary|
  {
    if summary == [] then acc
    else Reduce(acc, summary[..|summary| - 1]) + summary[|summary| - 1].count
  }

  /** The total over a concatenation is the sum of the parts' totals. */
  lemma {:induction false} TotalConcat(a: seq<InventorySummaryItem>, b: seq<InventorySummaryItem>)
    ensures Total(a + b) == Total(a) + Total(b)
  {
    if a != [] {
      assert (a + b)[1..] == a[1..] + b;
      TotalConcat(a[1..], b);
    } else {
      assert a + b == b;
    }
  }

  /** The fold adds the total of the items to its starting value. */
  lemma {:induction false} ReduceIsTotal(acc: int, summary: seq<InventorySummaryItem>)
    ensures Reduce(acc, summary) == acc + Total(summary)
    decreases |summary|
  {
    if summary != [] {
      var init, last := summary[..|summary| - 1], summary[|summary| - 1];
      ReduceIsTotal(acc, init);
      assert summary == init + [last];
      TotalConcat(init, [last]);
    }
  }

  datatype Kpis = Kpis(totalItems: int, uniqueProducts: nat)

  /** `totalItems` and `uniqueProducts`. */
  function KpisOf(summary: seq<InventorySummaryItem>): (k: Kpis)
    ensures k.totalItems == Total(summary)
    ensures k.uniqueProducts == |summary|
    ensures summary == [] ==> k == Kpis(0, 0)
  {
    ReduceIsTotal(0, summary);
    Kpis(Reduce(0, summary), |summary|)
  }

  /** The figures of a summary made of two parts add up. */
  lemma KpisConcat(a: seq<InventorySummaryItem>, b: seq<InventorySummaryItem>)
    ensures KpisOf(a + b).totalItems == KpisOf(a).totalItems + KpisOf(b).totalItems
    ensures KpisOf(a + b).uniqueProducts == KpisOf(a).uniqueProducts + KpisOf(b).uniqueProducts
  {
    TotalConcat(a, b);
  }

  /** `renderKPIs`: skeletons while loading an empty summary, otherwise the
      two figures (also when the summary is empty and not loading). */
  function RenderKpis(summary: seq<InventorySummaryItem>, loading: bool): (r: Option<Kpis>)
    ensures r.None? <==> loading && summary == []
    ensures r.Some? ==> r.value.totalItems == Total(summary) && r.value.uniqueProducts == |summary|
  {
    if loading && |summary| == 0 then None else Some(KpisOf(summary))
  }

  /** `renderSummaryGrid`: one card per summary item, in order. */
  function RenderGrid(summary: seq<InventorySummaryItem>, loading: bool): (r: Panel<seq<InventorySummaryItem>>)
    ensures r.Skeleton? <==> loading && summary == []
    ensures r.EmptyState? <==> !loading && summary == []
    ensures r.Filled? <==> summary != []
    ensures r.Filled? ==> r.content == summary
  {
    Choose(loading, |summary| == 0, summary)
  }
}
