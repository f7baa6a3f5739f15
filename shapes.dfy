/**
 * The payload shapes that travel between the backend client, the local cache and the
 * dashboard. JavaScript objects are untyped; every field the code reads with a
 * truthiness or `undefined` test is an `Option` here.
 */
module Shapes {
  import opened Wrappers

  datatype UserInfo = UserInfo(id: Option<string>, name: Option<string>, email: Option<string>, avatar: Option<string>)

  /** One spending source (merchant or app). */
  datatype AppUsage = AppUsage(
    name: string,
    category: string,
    icon: Option<string>,
    count: Option<int>,
    amount: Option<string>,
    total: Option<int>,
    currency: Option<string>)

  /** A category bucket: the summed totals of the apps in one category. */
  datatype CategoryTotal = CategoryTotal(name: string, amount: int, icon: string)

  /**
   * What `getUserApps` returns and what is cached as `cached_data_{userId}`.
   * `isFallback` and `hasError` are the truthiness of the `isFallback` and `error` fields.
   */
  datatype Payload = Payload(
    user: Option<UserInfo>,
    apps: Option<seq<AppUsage>>,
    totalSpend: Option<int>,
    categories: Option<seq<CategoryTotal>>,
    isFallback: bool,
    hasError: bool)

  /** The sum of the amounts of a list of category buckets. */
  function SumAmounts(s: seq<CategoryTotal>): int {
    if s == [] then 0 else s[0].amount + SumAmounts(s[1..])
  }

  lemma {:induction false} SumAmountsAppend(s: seq<CategoryTotal>, g: CategoryTotal)
    ensures SumAmounts(s + [g]) == SumAmounts(s) + g.amount
  {
    if s != [] {
      assert (s + [g])[1..] == s[1..] + [g];
      SumAmountsAppend(s[1..], g);
    }
  }
}
