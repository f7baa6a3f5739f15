/**
 * The backend client's `getUserApps`: it turns the HTTP outcome of
 * `GET /auth/getUserApps/{userId}` into a payload. A successful body
 * `{success, data: [...], user}` is normalised into app records, a total and
 * category buckets; any failure becomes a fixed-shape fallback payload.
 * The request itself is not modelled: its outcome is an input.
 */
module Backend {
  import opened Wrappers
  import opened Strings
  import opened Shapes

  /** One element of the backend's `data` array. */
  datatype RawItem = RawItem(app: string, count: Option<int>, total: Option<int>, totalFormatted: Option<string>, currency: Option<string>)

  datatype RawUser = RawUser(name: Option<string>, email: Option<string>, picture: Option<string>)

  /**
   * A 2xx body that `response.json()` parsed. `success` is the truthiness of `json.success`,
   * `data` is `Some` exactly when `json.data` is an array, and `asPayload` is the same JSON
   * value read as a payload (`None` for a falsy value such as `false` or `0`).
   */
  datatype RawBody = RawBody(success: bool, data: Option<seq<RawItem>>, user: Option<RawUser>, asPayload: Option<Payload>)

  /**
   * The body of a non-2xx response after `JSON.parse`: `Unparseable` when parsing
   * (or reading `.error` of the parsed value, as for `null`) throws, else the `error` field.
   */
  datatype ErrorBody = Unparseable | Parsed(error: Option<string>)

  /** How the request ended. */
  datatype HttpOutcome =
    | Rejected(message: string)                         // fetch itself threw
    | NonOk(status: nat, text: string, errorBody: ErrorBody)  // response.ok was false
    | Malformed(message: string)                        // a 2xx body whose handling threw
    | Ok(json: RawBody)

  /** The static category table, matched exactly and case-sensitively. */
  const CategoryMap: map<string, string> := map[
    "Swiggy" := "Dining", "Zomato" := "Dining",
    "Amazon" := "Shopping", "Flipkart" := "Shopping",
    "Myntra" := "Fashion", "Ajio" := "Fashion", "Snitch" := "Fashion", "Beyoung" := "Fashion",
    "Nykaa" := "Beauty", "Bellavitaorganic" := "Beauty", "Aqualogica" := "Beauty",
    "Bombayshavingcompany" := "Personal Care",
    "Linkedin" := "Professional",
    "Lenovo" := "Electronics",
    "Net" := "Utilities",
    "Pickrr" := "Logistics", "Ithinklogistics" := "Logistics"
  ]

  const DefaultCategory := "General"
  const DefaultUserName := "User"
  const UnknownNetworkError := "Unknown Network Error"

  function CategoryOf(app: string): string {
    if app in CategoryMap then CategoryMap[app] else DefaultCategory
  }

  const RandomBackground := "background=random"

  /** The generated placeholder icon of an app. */
  function AvatarIcon(app: string): string {
    "https://" + AvatarHost + "/api/?name=" + EncodeUriComponent(app) + "&" + RandomBackground + "&color=fff&size=128"
  }

  function ToApp(item: RawItem): AppUsage {
    AppUsage(
      name := item.app,
      category := CategoryOf(item.app),
      icon := Some(AvatarIcon(item.app)),
      count := item.count,
      amount := item.totalFormatted,
      total := item.total,
      currency := item.currency)
  }

  /** `json.data.map(...)`. */
  function Apps(items: seq<RawItem>): seq<AppUsage> {
    seq(|items|, i requires 0 <= i < |items| => ToApp(items[i]))
  }

  /** `curr.total || 0`. */
  function TotalOf(a: AppUsage): int {
    a.total.GetOr(0)
  }

  /** The left fold `apps.reduce((acc, curr) => acc + (curr.total || 0), 0)`. */
  function TotalSpend(apps: seq<AppUsage>): int {
    if apps == [] then 0 else TotalSpend(apps[..|apps| - 1]) + TotalOf(apps[|apps| - 1])
  }

  /** The summed totals of the apps in category `c`. */
  function CategoryAmount(apps: seq<AppUsage>, c: string): int {
    if apps == [] then 0
    else CategoryAmount(apps[..|apps| - 1], c) + (if apps[|apps| - 1].category == c then TotalOf(apps[|apps| - 1]) else 0)
  }

  /** The categories of `apps`, each once, in order of first occurrence (the key order of the accumulator object). */
  function DistinctCategories(apps: seq<AppUsage>): seq<string> {
    if apps == [] then []
    else
      var d := DistinctCategories(apps[..|apps| - 1]);
      if apps[|apps| - 1].category in d then d else d + [apps[|apps| - 1].category]
  }

  /** A category that no app carries has amount zero. */
  lemma {:induction false} AbsentCategoryAmount(apps: seq<AppUsage>, c: string)
    requires c !in DistinctCategories(apps)
    ensures CategoryAmount(apps, c) == 0
  {
    if apps != [] {
      AbsentCategoryAmount(apps[..|apps| - 1], c);
    }
  }

  /** One bucket per key, in key order. */
  function GroupsFor(keys: seq<string>, apps: seq<AppUsage>): seq<CategoryTotal> {
    if keys == [] then []
    else GroupsFor(keys[..|keys| - 1], apps) + [CategoryTotal(keys[|keys| - 1], CategoryAmount(apps, keys[|keys| - 1]), "Hash")]
  }

  /** The buckets before sorting. */
  function CategoryGroups(apps: seq<AppUsage>): seq<CategoryTotal> {
    GroupsFor(DistinctCategories(apps), apps)
  }

  predicate SortedByAmount(s: seq<CategoryTotal>) {
    forall i, j :: 0 <= i < j < |s| ==> s[i].amount >= s[j].amount
  }

  /** Places `g` before the first bucket whose amount does not exceed its own. */
  function InsertByAmount(g: CategoryTotal, s: seq<CategoryTotal>): seq<CategoryTotal> {
    if s == [] || s[0].amount <= g.amount then [g] + s else [s[0]] + InsertByAmount(g, s[1..])
  }

  /** `sort((a, b) => b.amount - a.amount)`: a stable sort, largest amount first. */
  function SortByAmount(s: seq<CategoryTotal>): seq<CategoryTotal> {
    if s == [] then [] else InsertByAmount(s[0], SortByAmount(s[1..]))
  }

  function NormalisedUser(u: Option<RawUser>): UserInfo {
    UserInfo(
      id := None,
      name := Some(OrElse(if u.Some? then u.value.name else None, DefaultUserName)),
      email := Some(OrElse(if u.Some? then u.value.email else None, "user@example.com")),
      avatar := Some(OrElse(if u.Some? then u.value.picture else None, "https://i.pravatar.cc/150")))
  }

  /** The payload built from a body with `success` and an array `data`. */
  function Normalised(body: RawBody): Payload
    requires body.data.Some?
  {
    var apps := Apps(body.data.value);
    Payload(
      user := Some(NormalisedUser(body.user)),
      apps := Some(apps),
      totalSpend := Some(TotalSpend(apps)),
      categories := Some(SortByAmount(CategoryGroups(apps))),
      isFallback := false,
      hasError := false)
  }

  /** The message of the error thrown for a non-2xx response. */
  function NonOkMessage(status: nat, text: string, body: ErrorBody): string {
    match body
    case Unparseable => "API Error " + NatToString(status) + ": " + text
    case Parsed(e) => if Truthy(e) then e.value else "API Error " + NatToString(status)
  }

  /** The payload returned from the `catch` block. */
  function FallbackPayload(userId: string, message: string): Payload {
    Payload(
      user := Some(UserInfo(Some(userId), Some("Offline User"), Some("check@backend.com"), Some("https://i.pravatar.cc/150?u=error"))),
      apps := Some([AppUsage(ConnectionFailed, if message != "" then message else UnknownNetworkError, Some("/assets/error.svg"), None, None, None, None)]),
      totalSpend := Some(0),
      categories := Some([]),
      isFallback := true,
      hasError := false)
  }

  /** What `getUserApps(userId, token)` resolves to for a given outcome of the request. */
  function UserAppsResult(userId: string, outcome: HttpOutcome): Option<Payload> {
    match outcome
    case Rejected(m) => Some(FallbackPayload(userId, m))
    case NonOk(status, text, body) => Some(FallbackPayload(userId, NonOkMessage(status, text, body)))
    case Malformed(m) => Some(FallbackPayload(userId, m))
    case Ok(body) => if body.success && body.data.Some? then Some(Normalised(body)) else body.asPayload
  }

  /** The accumulator `reduce` over the apps, then `Object.keys(...).map(...)`. */
  method GroupByCategory(apps: seq<AppUsage>) returns (groups: seq<CategoryTotal>)
    ensures groups == CategoryGroups(apps)
  {
    var keys: seq<string> := [];
    var acc: map<string, int> := map[];
    for i := 0 to |apps|
      invariant keys == DistinctCategories(apps[..i])
      invariant forall k :: k in acc <==> k in keys
      invariant forall k :: k in acc ==> acc[k] == CategoryAmount(apps[..i], k)
    {
      assert apps[..i + 1][..i] == apps[..i];
      var c := apps[i].category;
      var prev := if c in acc then acc[c] else 0;
      if c !in acc {
        AbsentCategoryAmount(apps[..i], c);
      }
      acc := acc[c := prev + TotalOf(apps[i])];
      if c !in keys {
        keys := keys + [c];
      }
    }
    assert apps[..|apps|] == apps;
    groups := [];
    for j := 0 to |keys|
      invariant groups == GroupsFor(keys[..j], apps)
    {
      assert keys[..j + 1][..j] == keys[..j];
      groups := groups + [CategoryTotal(keys[j], acc[keys[j]], "Hash")];
    }
    assert keys[..|keys|] == keys;
  }

  /** `authAPI.getUserApps`; the token is accepted and, as in the source, not sent. */
  method GetUserApps(userId: string, token: Option<string>, outcome: HttpOutcome) returns (r: Option<Payload>)
    ensures r == UserAppsResult(userId, outcome)
  {
    match outcome {
      case Rejected(m) =>
        r := Some(FallbackPayload(userId, m));
      case NonOk(status, text, body) =>
        var message := "API Error " + NatToString(status);
        if body.Unparseable? {
          message := message + ": " + text;
        } else if Truthy(body.error) {
          message := body.error.value;
        }
        r := Some(FallbackPayload(userId, message));
      case Malformed(m) =>
        r := Some(FallbackPayload(userId, m));
      case Ok(body) =>
        if body.success && body.data.Some? {
          var apps := Apps(body.data.value);
          var groups := GroupByCategory(apps);
          r := Some(Payload(Some(NormalisedUser(body.user)), Some(apps), Some(TotalSpend(apps)), Some(SortByAmount(groups)), false, false));
        } else {
          r := body.asPayload;
        }
    }
  }

  // ---------------------------------------------------------------------------
  // Properties of the normalisation
  // ---------------------------------------------------------------------------

  predicate NoDuplicates(s: seq<string>) {
    forall i, j :: 0 <= i < j < |s| ==> s[i] != s[j]
  }

  /** The bucket keys are the categories of the apps, each exactly once. */
  lemma {:induction false} DistinctCategoriesSpec(apps: seq<AppUsage>)
    ensures NoDuplicates(DistinctCategories(apps))
    ensures forall c :: c in DistinctCategories(apps) <==> exists i :: 0 <= i < |apps| && apps[i].category == c
  {
    if apps != [] {
      var init := apps[..|apps| - 1];
      DistinctCategoriesSpec(init);
      forall c | (exists i :: 0 <= i < |apps| && apps[i].category == c)
        ensures c in DistinctCategories(apps)
      {
        var i :| 0 <= i < |apps| && apps[i].category == c;
        if i < |apps| - 1 {
          assert init[i].category == c;
        }
      }
      forall c | c in DistinctCategories(apps)
        ensures exists i :: 0 <= i < |apps| && apps[i].category == c
      {
        if c in DistinctCategories(init) {
          var i :| 0 <= i < |init| && init[i].category == c;
          assert apps[i].category == c;
        } else {
          assert apps[|apps| - 1].category == c;
        }
      }
    }
  }

  /** Each bucket is named by its key and carries the summed totals of its category. */
  lemma {:induction false} GroupsForSpec(keys: seq<string>, apps: seq<AppUsage>)
    ensures |GroupsFor(keys, apps)| == |keys|
    ensures forall i :: 0 <= i < |keys| ==>
      && GroupsFor(keys, apps)[i].name == keys[i]
      && GroupsFor(keys, apps)[i].amount == CategoryAmount(apps, keys[i])
      && GroupsFor(keys, apps)[i].icon == "Hash"
  {
    if keys != [] {
      GroupsForSpec(keys[..|keys| - 1], apps);
    }
  }

  /** Adding one app to the fold adds its total to the bucket of its category, if that bucket exists. */
  lemma {:induction false} GroupsForSnoc(keys: seq<string>, apps: seq<AppUsage>, a: AppUsage)
    requires NoDuplicates(keys)
    ensures SumAmounts(GroupsFor(keys, apps + [a]))
         == SumAmounts(GroupsFor(keys, apps)) + (if a.category in keys then TotalOf(a) else 0)
  {
    if keys != [] {
      var init, k := keys[..|keys| - 1], keys[|keys| - 1];
      assert keys == init + [k];
      assert (apps + [a])[..|apps|] == apps;
      GroupsForSnoc(init, apps, a);
      SumAmountsAppend(GroupsFor(init, apps + [a]), CategoryTotal(k, CategoryAmount(apps + [a], k), "Hash"));
      SumAmountsAppend(GroupsFor(init, apps), CategoryTotal(k, CategoryAmount(apps, k), "Hash"));
      assert a.category in keys <==> a.category in init || a.category == k;
      assert !(a.category in init && a.category == k);
    }
  }

  /** The bucket amounts together sum to `totalSpend`. */
  lemma {:induction false} CategoryGroupsSum(apps: seq<AppUsage>)
    ensures SumAmounts(CategoryGroups(apps)) == TotalSpend(apps)
  {
    if apps != [] {
      var init, a := apps[..|apps| - 1], apps[|apps| - 1];
      assert apps == init + [a];
      var d := DistinctCategories(init);
      CategoryGroupsSum(init);
      DistinctCategoriesSpec(init);
      GroupsForSnoc(d, init, a);
      if a.category !in d {
        var d' := d + [a.category];
        assert d'[..|d|] == d;
        AbsentCategoryAmount(init, a.category);
        assert CategoryAmount(apps, a.category) == TotalOf(a);
        SumAmountsAppend(GroupsFor(d, apps), CategoryTotal(a.category, TotalOf(a), "Hash"));
      }
    }
  }

  lemma {:induction false} InsertByAmountMultiset(g: CategoryTotal, s: seq<CategoryTotal>)
    ensures multiset(InsertByAmount(g, s)) == multiset(s) + multiset{g}
    ensures SumAmounts(InsertByAmount(g, s)) == SumAmounts(s) + g.amount
  {
    if s != [] && s[0].amount > g.amount {
      InsertByAmountMultiset(g, s[1..]);
      assert s == [s[0]] + s[1..];
    }
  }

  /** Inserting keeps every amount under a common bound. */
  lemma {:induction false} InsertByAmountBounded(g: CategoryTotal, s: seq<CategoryTotal>, bound: int)
    requires g.amount <= bound
    requires forall k :: 0 <= k < |s| ==> s[k].amount <= bound
    ensures forall k :: 0 <= k < |InsertByAmount(g, s)| ==> InsertByAmount(g, s)[k].amount <= bound
  {
    if s != [] && s[0].amount > g.amount {
      InsertByAmountBounded(g, s[1..], bound);
    }
  }

  lemma {:induction false} InsertByAmountSorted(g: CategoryTotal, s: seq<CategoryTotal>)
    requires SortedByAmount(s)
    ensures SortedByAmount(InsertByAmount(g, s))
  {
    if s != [] && s[0].amount > g.amount {
      var r := InsertByAmount(g, s[1..]);
      InsertByAmountSorted(g, s[1..]);
      InsertByAmountBounded(g, s[1..], s[0].amount);
      var t := [s[0]] + r;
      assert InsertByAmount(g, s) == t;
      forall i, j | 0 <= i < j < |t| ensures t[i].amount >= t[j].amount {
        assert t[j] == r[j - 1];
        if i > 0 {
          assert t[i] == r[i - 1];
        }
      }
    }
  }

  /** Sorting yields the same buckets (a permutation) in non-increasing order of amount. */
  lemma {:induction false} SortByAmountSpec(s: seq<CategoryTotal>)
    ensures SortedByAmount(SortByAmount(s))
    ensures multiset(SortByAmount(s)) == multiset(s)
    ensures SumAmounts(SortByAmount(s)) == SumAmounts(s)
  {
    if s != [] {
      SortByAmountSpec(s[1..]);
      InsertByAmountSorted(s[0], SortByAmount(s[1..]));
      InsertByAmountMultiset(s[0], SortByAmount(s[1..]));
      assert s == [s[0]] + s[1..];
    }
  }

  /** Every generated icon carries the placeholder-avatar host and the random-background parameter. */
  lemma AvatarIconMarkers(app: string)
    ensures Contains(AvatarIcon(app), AvatarHost)
    ensures Contains(AvatarIcon(app), RandomBackground)
  {
    var tail := "/api/?name=" + EncodeUriComponent(app) + "&" + RandomBackground + "&color=fff&size=128";
    assert AvatarIcon(app) == "https://" + AvatarHost + tail;
    ContainsInfix("https://", AvatarHost, tail);
    var head := "https://" + AvatarHost + "/api/?name=" + EncodeUriComponent(app) + "&";
    assert AvatarIcon(app) == head + RandomBackground + "&color=fff&size=128";
    ContainsInfix(head, RandomBackground, "&color=fff&size=128");
  }

  /** The app records mirror the backend items one for one. */
  lemma AppsMirrorItems(items: seq<RawItem>)
    ensures |Apps(items)| == |items|
    ensures forall i :: 0 <= i < |items| ==>
      && Apps(items)[i].name == items[i].app
      && Apps(items)[i].count == items[i].count
      && Apps(items)[i].amount == items[i].totalFormatted
      && Apps(items)[i].total == items[i].total
      && Apps(items)[i].currency == items[i].currency
      && Apps(items)[i].category == (if items[i].app in CategoryMap then CategoryMap[items[i].app] else DefaultCategory)
      && Contains(Apps(items)[i].icon.value, AvatarHost)
      && Contains(Apps(items)[i].icon.value, RandomBackground)
  {
    forall i | 0 <= i < |items|
      ensures Contains(Apps(items)[i].icon.value, AvatarHost) && Contains(Apps(items)[i].icon.value, RandomBackground)
    {
      AvatarIconMarkers(items[i].app);
    }
  }

  /** Some app carries category `c`. */
  predicate HasCategory(apps: seq<AppUsage>, c: string) {
    exists i :: 0 <= i < |apps| && apps[i].category == c
  }

  /** Some bucket is named `c`. */
  predicate HasBucket(cats: seq<CategoryTotal>, c: string) {
    exists i :: 0 <= i < |cats| && cats[i].name == c
  }

  /** Each bucket occurs at most once among the unsorted buckets. */
  lemma {:induction false} GroupsOccurOnce(keys: seq<string>, apps: seq<AppUsage>, g: CategoryTotal)
    requires NoDuplicates(keys)
    ensures multiset(GroupsFor(keys, apps))[g] <= 1
    decreases |keys|
  {
    if keys != [] {
      var init := keys[..|keys| - 1];
      var last := CategoryTotal(keys[|keys| - 1], CategoryAmount(apps, keys[|keys| - 1]), "Hash");
      GroupsOccurOnce(init, apps, g);
      GroupsForSpec(init, apps);
      forall a | 0 <= a < |init| ensures GroupsFor(init, apps)[a] != last {
        assert GroupsFor(init, apps)[a].name == keys[a];
      }
      assert last !in GroupsFor(init, apps);
    }
  }

  /** Two equal elements at two positions give multiplicity at least two. */
  lemma RepeatedElement(s: seq<CategoryTotal>, i: nat, j: nat)
    requires i < j < |s|
    ensures s[i] == s[j] ==> multiset(s)[s[i]] >= 2
  {
    assert s == s[..i] + [s[i]] + s[i + 1..j] + [s[j]] + s[j + 1..];
  }

  /** A sequence in which nothing occurs twice has pairwise distinct elements. */
  lemma OnceMeansDistinct(s: seq<CategoryTotal>)
    requires forall g :: multiset(s)[g] <= 1
    ensures forall i, j :: 0 <= i < j < |s| ==> s[i] != s[j]
  {
    forall i, j | 0 <= i < j < |s| ensures s[i] != s[j] {
      RepeatedElement(s, i, j);
    }
  }

  /** A bucket exists for a category exactly when some app has that category. */
  lemma CategoryGroupsCover(apps: seq<AppUsage>, c: string)
    ensures HasBucket(CategoryGroups(apps), c) <==> HasCategory(apps, c)
  {
    var keys := DistinctCategories(apps);
    var groups := CategoryGroups(apps);
    DistinctCategoriesSpec(apps);
    GroupsForSpec(keys, apps);
    if HasCategory(apps, c) {
      assert c in keys;
      var k :| 0 <= k < |keys| && keys[k] == c;
      assert groups[k].name == c;
    }
    if HasBucket(groups, c) {
      var k :| 0 <= k < |groups| && groups[k].name == c;
      assert keys[k] in keys;
    }
  }

  /** The buckets before sorting: one per category present, each with its category's sum. */
  lemma CategoryGroupsSpec(apps: seq<AppUsage>)
    ensures var groups := CategoryGroups(apps);
      && (forall i :: 0 <= i < |groups| ==> groups[i].amount == CategoryAmount(apps, groups[i].name))
      && (forall c :: HasBucket(groups, c) <==> HasCategory(apps, c))
  {
    GroupsForSpec(DistinctCategories(apps), apps);
    forall c ensures HasBucket(CategoryGroups(apps), c) <==> HasCategory(apps, c) {
      CategoryGroupsCover(apps, c);
    }
  }

  /** The category buckets of a normalised payload: one per distinct category, summing to `totalSpend`, sorted. */
  lemma NormalisedCategories(body: RawBody)
    requires body.data.Some?
    ensures var p := Normalised(body);
      var apps, cats := p.apps.value, p.categories.value;
      && SortedByAmount(cats)
      && multiset(cats) == multiset(CategoryGroups(apps))
      && SumAmounts(cats) == p.totalSpend.value
      && (forall i :: 0 <= i < |cats| ==> cats[i].amount == CategoryAmount(apps, cats[i].name))
      && (forall c :: HasBucket(cats, c) <==> HasCategory(apps, c))
      && (forall i, j :: 0 <= i < j < |cats| ==> cats[i] != cats[j])
  {
    var p := Normalised(body);
    var apps, cats := p.apps.value, p.categories.value;
    var groups := CategoryGroups(apps);
    SortByAmountSpec(groups);
    CategoryGroupsSum(apps);
    CategoryGroupsSpec(apps);
    DistinctCategoriesSpec(apps);
    forall g ensures multiset(cats)[g] <= 1 {
      GroupsOccurOnce(DistinctCategories(apps), apps, g);
    }
    forall i | 0 <= i < |cats| ensures cats[i] in groups {
      assert cats[i] in multiset(cats);
    }
    forall c | HasCategory(apps, c) ensures HasBucket(cats, c) {
      var k :| 0 <= k < |groups| && groups[k].name == c;
      assert groups[k] in multiset(cats);
    }
    OnceMeansDistinct(cats);
  }

  /** The user of a normalised payload; `"User"` stands in for a missing or empty backend name. */
  lemma NormalisedUserName(body: RawBody)
    requires body.data.Some?
    ensures Normalised(body).user.value.name.value == DefaultUserName
        <==> body.user.None? || !Truthy(body.user.value.name) || body.user.value.name.value == DefaultUserName
  {
  }

  /** The shape of the fallback payload; its one app names the error, or a default when the message is empty. */
  lemma FallbackShape(userId: string, message: string)
    ensures var p := FallbackPayload(userId, message);
      && p.isFallback && p.totalSpend == Some(0) && p.categories == Some([])
      && p.apps.Some? && |p.apps.value| == 1 && p.apps.value[0].name == ConnectionFailed
      && p.apps.value[0].category == (if message == "" then UnknownNetworkError else message)
  {
  }

  /** The three forms of the error message for a non-2xx response. */
  lemma NonOkMessageCases(status: nat, text: string, body: ErrorBody)
    ensures body.Parsed? && Truthy(body.error) ==> NonOkMessage(status, text, body) == body.error.value
    ensures body.Parsed? && !Truthy(body.error) ==> NonOkMessage(status, text, body) == "API Error " + NatToString(status)
    ensures body.Unparseable? ==> NonOkMessage(status, text, body) == "API Error " + NatToString(status) + ": " + text
    ensures NonOkMessage(status, text, body) != ""
  {
  }

  /** Unless the body names an error, the message carries the status, which reads back exactly. */
  lemma {:induction false} NonOkMessageNamesStatus(status: nat, text: string, body: ErrorBody)
    requires !(body.Parsed? && Truthy(body.error))
    ensures var m := NonOkMessage(status, text, body); var n := |NatToString(status)|;
      && |m| >= 10 + n && m[..10] == "API Error "
      && (forall i :: 10 <= i < 10 + n ==> '0' <= m[i] <= '9')
      && DigitsValue(m[10..10 + n]) == status
  {
    var m := NonOkMessage(status, text, body);
    var d := NatToString(status);
    assert m[10..10 + |d|] == d;
    NatToStringRoundTrip(status);
  }

  /** A failed request always yields the fallback, whose single app shows the failure's message. */
  lemma FailureYieldsFallback(userId: string, outcome: HttpOutcome)
    requires !outcome.Ok?
    ensures var r := UserAppsResult(userId, outcome);
      && r.Some? && r.value.isFallback && !r.value.hasError
      && r.value.apps.value[0].category ==
           match outcome
           case NonOk(status, text, body) => NonOkMessage(status, text, body)
           case Rejected(m) => if m == "" then UnknownNetworkError else m
           case Malformed(m) => if m == "" then UnknownNetworkError else m
  {
  }

  /** A successful body is normalised only when `success` holds and `data` is an array; otherwise it passes through. */
  lemma OkBodyResult(userId: string, body: RawBody)
    ensures body.success && body.data.Some? ==>
      UserAppsResult(userId, Ok(body)) == Some(Normalised(body)) && !Normalised(body).isFallback
    ensures !(body.success && body.data.Some?) ==> UserAppsResult(userId, Ok(body)) == body.asPayload
  {
  }
}
