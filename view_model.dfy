/** The spending view model that the dashboard renders, as `populateDashboard` shapes it. */
module ViewModel {
  import opened Wrappers
  import opened Strings
  import opened Shapes
  import opened Backend

  datatype SpendingData = SpendingData(monthlySpend: int, topCategories: seq<CategoryTotal>, frequentApps: seq<AppUsage>)

  /** The monthly spend shown when a payload has apps but no `totalSpend`. */
  const DefaultMonthlySpend := 45000

  function SpendingShape(p: Payload): SpendingData {
    if p.apps.Some? then SpendingData(p.totalSpend.GetOr(DefaultMonthlySpend), p.categories.GetOr([]), p.apps.value)
    else SpendingData(0, [], [])
  }

  /** The three shapes: a payload's own total, the fixed default, or the empty view. */
  lemma SpendingShapeCases(p: Payload)
    ensures p.apps.Some? && p.totalSpend.Some? ==> SpendingShape(p).monthlySpend == p.totalSpend.value
    ensures p.apps.Some? && p.totalSpend.None? ==> SpendingShape(p).monthlySpend == DefaultMonthlySpend
    ensures p.apps.Some? ==>
      && SpendingShape(p).frequentApps == p.apps.value
      && SpendingShape(p).topCategories == (if p.categories.Some? then p.categories.value else [])
    ensures p.apps.None? ==> SpendingShape(p) == SpendingData(0, [], [])
  {
  }

  /**
   * The dashboard built from a normalised backend payload: the monthly spend is the sum of
   * the item totals and equals the sum of the category cards, which are in non-increasing order.
   */
  lemma NormalisedSpending(body: RawBody)
    requires body.data.Some?
    ensures var v := SpendingShape(Normalised(body));
      && v.frequentApps == Apps(body.data.value)
      && v.monthlySpend == TotalSpend(Apps(body.data.value))
      && v.monthlySpend == SumAmounts(v.topCategories)
      && SortedByAmount(v.topCategories)
  {
    NormalisedCategories(body);
  }

  /** The dashboard built from a fallback payload shows zero spend and only the failure row. */
  lemma FallbackSpending(userId: string, message: string)
    ensures var v := SpendingShape(FallbackPayload(userId, message));
      && v.monthlySpend == 0 && v.topCategories == []
      && |v.frequentApps| == 1 && v.frequentApps[0].name == ConnectionFailed
  {
  }
}
