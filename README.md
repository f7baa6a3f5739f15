# Credit-card spending dashboard: session, data normaliser, brand logos, linked accounts

This project models the client-side core of a single-page dashboard. The dashboard signs a
user in with Google, fetches the apps the user spends on from a backend, groups the spend by
category, and shows logos for the brands. The model covers four parts.

- **Session controller** (`Session`, a class over the browser's `localStorage`):
  - Bootstrap on mount. A `linked_account_login` error is reported and the URL is stripped.
    The user id and token are taken from the URL or from storage. URL parameters are
    persisted. A trusted cache entry is restored, and an untrusted one is dropped before
    fetching again.
  - Logging in. The analyzing view is shown while `getUserApps` runs. A fresh result is
    cached and shown, a fallback result is shown but not cached, and anything else goes back
    to the landing view.
  - `populateDashboard` and logout.

  The store is a `map<string, string>`. Every storage call, notice, URL strip, fetch and view
  change is recorded in a ghost effect log. The class invariant says the store is the replay
  of the log's storage calls over the store the page loaded with.
- **Backend response normaliser** (`Backend`, `CachePolicy`, `ViewModel`):
  - The app records: category lookup, a generated avatar icon, and the total spend.
  - The category buckets, built with an accumulator loop and sorted by amount, descending.
  - The user defaults and the error message for a non-OK response.
  - The fallback payload returned on any failure.
  - The cache-validity rule and the shape of the spending view.
- **Brand logos** (`Logo`): the brand table, lookup that ignores case and whitespace, the
  favicon URL for a matched or guessed domain, the neutral avatar for placeholder names, and
  the lettered avatar an image falls back to.
- **Linked accounts** (`LinkedAccounts`):
  - The message and URL clean-up after the account-linking callback.
  - The rule that primary accounts offer no unlink button.
  - The load and unlink flows of the panel.

The network, `JSON.parse`/`JSON.stringify`, `confirm` and the backend's answers are inputs:
- an `HttpOutcome` for `getUserApps`;
- the class constants `parse` and `stringify`;
- plain parameters for confirmation, unlink success and reloaded lists.

Two places where the code does less than its own comments suggest:
- The comments at src/App.jsx:64 and src/App.jsx:141 cache a fresh result so that a later
  load avoids an API hit. But `getUserApps` gives every app of a normalised result an avatar
  icon with `background=random`, and the cache check at src/App.jsx:71-73 rejects exactly
  those icons.
  So, provided `JSON.parse` reads back what `JSON.stringify` wrote, a cached normalised payload
  with at least one app is never restored (`Session.CachedNormalisedNeverRestored`). Only a
  normalised payload with no apps and a real user name is ever trusted
  (`CachePolicy.NormalisedValidity`). A 2xx body that is passed through unchanged
  (src/services/api.js:98) is cached the same way and can be trusted with apps, when its icons
  and user name carry none of the markers the check rejects.
- The comment at src/services/logoService.js:112-115 says matching ignores spaces and case.
  But the placeholder test at src/services/logoService.js:108 runs on the raw name, so this
  holds only for names that are not placeholders. `""` gets the neutral avatar, while `" "`
  normalises to the same empty string and gets a favicon URL (`Logo.PlaceholderTestIsExact`).

## Model

| member | source | states |
|---|---|---|
| Strings.StripWhitespace | src/services/logoService.js:113 | `replace(/\s+/g, '')` leaves no ECMAScript whitespace character and never lengthens the string |
| Strings.StripWhitespaceAppend | src/services/logoService.js:113 | stripping a concatenation strips each part in place, so every non-whitespace character survives, in order |
| Strings.StripWhitespaceChar | src/services/logoService.js:113 | a single character is removed exactly when `\s` matches it |
| Strings.ToLower | src/services/logoService.js:113 | lower-casing keeps the length and maps every character through the ASCII case map |
| Strings.StripLowerCommute | src/services/logoService.js:113-129 | stripping then lower-casing equals lower-casing then stripping, so the lookup key and the guessed domain see the same normalised name |
| Strings.NatToStringRoundTrip | src/services/api.js:32 | the decimal rendering of a status code reads back as that code |
| Backend.AppsMirrorItems | src/services/api.js:61-70 | one app per response item, in order, with the item's name, count, amounts and currency, the mapped category, and an icon on the avatar host with `background=random` |
| Backend.AvatarIconMarkers | src/services/api.js:69 | every generated icon contains `ui-avatars.com` and `background=random` |
| Backend.DistinctCategoriesSpec | src/services/api.js:75-80 | the accumulator's keys have no duplicates and are exactly the categories of the apps |
| Backend.GroupsForSpec | src/services/api.js:80-83 | one bucket per key, named by it, holding that category's sum, with icon `Hash` |
| Backend.GroupByCategory | src/services/api.js:75-83 | the accumulator loop builds exactly the buckets of the specification, in first-seen key order |
| Backend.CategoryGroupsSum | src/services/api.js:72-78 | the bucket amounts add up to `totalSpend` |
| Backend.CategoryGroupsSpec | src/services/api.js:75-83 | each bucket holds its category's sum, and a bucket exists for a category iff some app has it |
| Backend.SortByAmountSpec | src/services/api.js:84 | the sort's output is ordered by amount descending, is a permutation of its input, and keeps the total |
| Backend.NormalisedCategories | src/services/api.js:72-95 | the normalised categories are sorted, a permutation of the buckets, sum to `totalSpend`, are pairwise distinct and cover exactly the apps' categories |
| Backend.NormalisedUserName | src/services/api.js:87-91 | the normalised user is named `User` iff the backend gave no user, an empty name, or the name `User` |
| Backend.OkBodyResult | src/services/api.js:48-98 | a 2xx body is normalised iff `success` holds and `data` is an array (the result is then not a fallback); otherwise it passes through unchanged |
| Backend.NonOkMessageCases | src/services/api.js:30-40 | a non-OK response's message is the body's `error` when it is a non-empty string, otherwise `API Error <status>`, followed by `: <text>` when the body is not JSON; it is never empty |
| Backend.NonOkMessageNamesStatus | src/services/api.js:32-37 | unless the body names an error, the message starts with `API Error ` and the digits after it read back as the status |
| Backend.FallbackShape | src/services/api.js:100-121 | the fallback is flagged, has zero spend and no categories, and has a single `Connection Failed` app whose category is the error message, or `Unknown Network Error` when that message is empty |
| Backend.FailureYieldsFallback | src/services/api.js:100-121 | a rejected request, a non-OK response and an unreadable body all yield the fallback, carrying the matching message |
| Backend.GetUserApps | src/services/api.js:17-122 | the request procedure returns exactly the specified result for every outcome of the request |
| CachePolicy.FallbackNeverValid | src/App.jsx:75 | a fallback payload is never a trusted cache entry |
| CachePolicy.NormalisedWithAppsNeverValid | src/App.jsx:71-76 | a normalised payload with at least one app is never trusted, because its icons carry the old-avatar markers |
| CachePolicy.NormalisedWithoutNameNeverValid | src/App.jsx:78 | a normalised payload whose user got the default name is never trusted |
| CachePolicy.NormalisedValidity | src/App.jsx:71-78 | a normalised payload is trusted iff it has no apps and the backend supplied a real name other than `User` |
| ViewModel.SpendingShapeCases | src/App.jsx:109-120 | with apps, spending is `totalSpend` (45000 when absent), the categories (empty when absent) and the apps; without apps, it is all zero and empty |
| ViewModel.NormalisedSpending | src/App.jsx:111-116 | for a normalised payload, the monthly spend equals the sum of the apps' totals and of the shown categories, which are sorted |
| ViewModel.FallbackSpending | src/App.jsx:111-116 | the fallback shows zero spend, no categories and its single error app |
| Session.ReplayUrlWrites | src/App.jsx:55-62 | persisting the URL's parameters leaves the store as the explicit sequence of map updates |
| Session.UrlWritesEffect | src/App.jsx:55-59 | with a URL user id, `auth_userId` takes it and the token, name and picture are updated only when the URL carries them; every other key is unchanged; without a URL user id nothing changes |
| Session.EffectiveUserIdPersisted | src/App.jsx:49-56 | the user id bootstrap goes on with is the one `auth_userId` holds after the writes |
| Session.EffectiveSessionChoice | src/App.jsx:49-50 | the URL's user id and token win over the stored ones, each chosen on its own: a URL user id without a URL token pairs with the stored token, and a URL token without a URL user id pairs with the stored user id |
| Session.EffectiveTokenPersisted | src/App.jsx:50-57 | the token bootstrap fetches with is what `auth_token` holds afterwards, except that a URL token without a URL user id is used but never stored |
| Session.CachedNormalisedNeverRestored | src/App.jsx:71-76 | when JSON round-trips, the entry a fresh login caches for a normalised payload with an app is not restored by the cache check |
| Session.LogoutClearsSession | src/App.jsx:176-183 | logout removes the four session keys and the current user's cache entry, and keeps every other key |
| Session.LoginFetchesOnce | src/App.jsx:135-164 | a login adds exactly one fetch to the log, whatever follows it |
| Session.App.constructor | src/App.jsx:17-24 | the initial state: landing view, no user, no spending, not loading, guard unset, empty log |
| Session.App.PopulateDashboard | src/App.jsx:101-133 | the user is `data.user` or is rebuilt from the stored name and picture; spending is the spending shape; the view becomes the dashboard |
| Session.App.ReceiveApps | src/App.jsx:141-160 | a fresh result is cached under `cached_data_<id>` and shown; a fallback is shown but not cached; anything else shows the landing view and leaves the user and spending |
| Session.App.LoginWithUserId | src/App.jsx:135-164 | the whole login, from the analyzing view and fetch to the final loading flag, ends in the state the three branches above describe |
| Session.App.LoggedInFetches | src/App.jsx:135-164 | every login outcome logs exactly one more fetch |
| Session.App.ApplyUrlParams | src/App.jsx:55-62 | the store after step 0 is the replay of the URL writes, and the log grows by exactly those writes and the URL strip |
| Session.App.RestoreOrLogin | src/App.jsx:64-95 | a trusted cache entry is restored with no fetch; an unparseable or untrusted entry is removed and a login follows; a missing entry leads straight to a login |
| Session.App.ResumedFetches | src/App.jsx:64-95 | restoring from cache makes no fetch, and every other path makes exactly one |
| Session.App.CheckSession | src/App.jsx:32-96 | `linked_account_login` alerts (with the URL message or the default notice) and strips the URL without touching storage; with no effective user id nothing happens; otherwise the URL writes are followed by the restore-or-login step for the effective id and token |
| Session.App.Mount | src/App.jsx:27-99 | bootstrap runs only the first time: once the guard is set, a later mount changes nothing |
| Session.App.HandleLogout | src/App.jsx:174-194 | logout removes the session keys in order, clears the user and spending, strips the URL and shows the landing view |
| Logo.FindDomain | src/services/logoService.js:116-118 | a domain is found iff some key lower-cases to the normalised name; the domain is that of the first such key |
| Logo.GetBrandLogoCases | src/services/logoService.js:105-133 | placeholder names get the neutral avatar; a listed name gets the favicon URL of a matching key's domain; any other name gets the favicon URL of its normalised form plus `.com` |
| Logo.NormalisedNamesShareLogo | src/services/logoService.js:112-132 | two non-placeholder names that agree after stripping whitespace and lower-casing get the same logo |
| Logo.NormaliseIdempotent | src/services/logoService.js:113 | normalising an already normalised name changes nothing |
| Logo.NormalisedNameKeepsLogo | src/services/logoService.js:112-132 | a name and its normalised form get the same logo when neither is a placeholder |
| Logo.LogoPrefix | src/services/logoService.js:109-130 | every logo URL starts with the avatar-service prefix (placeholders) or the favicon-service prefix (all other names) |
| Logo.FaviconIsNotNeutral | src/services/logoService.js:109-123 | no favicon URL equals the neutral avatar |
| Logo.PlaceholderTestIsExact | src/services/logoService.js:108-113 | the placeholder test sees the raw name: `""` gets the neutral avatar, while `" "` normalises to the same string and gets the favicon URL of the domain `.com` |
| Logo.SharedDomain | src/services/logoService.js:9-85 | two different keys of the table (Swiggy, Instamart) share a domain, so the lookup is not injective |
| Logo.GetBrandLogoWithFallback | src/services/logoService.js:141-151 | the image source is the brand logo, and the fallback is the lettered avatar of the encoded name |
| LinkedAccounts.LinkErrorMessageCases | src/components/LinkedAccounts.jsx:26-36 | each of the four reasons gets its own message and every other reason gets the default; the five messages are distinct, so each is shown iff its reason is given |
| LinkedAccounts.CallbackCleansUrl | src/components/LinkedAccounts.jsx:18-41 | the URL is cleaned iff the status is `success` or `error`, a message is shown iff the URL is cleaned, and only success schedules a reload |
| LinkedAccounts.CallbackSuccessMessage | src/components/LinkedAccounts.jsx:18-23 | success shows `Successfully linked account: ` followed by the e-mail, or `Unknown` when none is given |
| LinkedAccounts.CallbackErrorMessage | src/components/LinkedAccounts.jsx:24-38 | an error shows the reason's message, whatever the e-mail |
| LinkedAccounts.CallbackEffectsCases | src/components/LinkedAccounts.jsx:18-41 | success schedules a reload, alerts and cleans the URL, in that order; error alerts and cleans; any other status has no effect |
| LinkedAccounts.UnlinkTargets | src/components/LinkedAccounts.jsx:112-120 | an id has an unlink button iff some non-primary account carries it; there are no more buttons than accounts |
| LinkedAccounts.PrimaryNeverUnlinkable | src/components/LinkedAccounts.jsx:112 | when ids are unique, a primary account's id never has an unlink button |
| LinkedAccounts.UnlinkTargetsCount | src/components/LinkedAccounts.jsx:87-120 | with no primary account every card has a button; with only primary accounts none does |
| LinkedAccounts.LinkedAccountsPanel.constructor | src/components/LinkedAccounts.jsx:6-7 | the panel starts loading, with no accounts |
| LinkedAccounts.LinkedAccountsPanel.LoadLinkedAccounts | src/components/LinkedAccounts.jsx:44-49 | after a load the list is the fetched accounts and the panel is no longer loading |
| LinkedAccounts.LinkedAccountsPanel.OnMount | src/components/LinkedAccounts.jsx:9-42 | the mount loads the list, then logs exactly the effects of the callback outcome |
| LinkedAccounts.LinkedAccountsPanel.HandleUnlinkAccount | src/components/LinkedAccounts.jsx:55-64 | unconfirmed does nothing after the prompt; a confirmed success reloads the list; a confirmed failure alerts and keeps the list |

## Left out

- The `fetch` call, CORS and response streaming. How the request ends is the input `HttpOutcome`.
- `getUserApps` ignores its `token` argument. The model fetches by user id alone and records the token only in the logged fetch.
- `JSON.parse` and `JSON.stringify` are the class constants `parse` and `stringify`. Which values parse, and whether a parsed object really has the payload's fields, is not modelled.
- A 2xx body that is not normalised passes through as `asPayload`, an abstract reading of the JSON as a payload.
- `encodeURIComponent` and `decodeURIComponent` are the identity. The model does not capture that `decodeURIComponent` throws on a malformed `%` escape, which in the source would abort bootstrap.
- `toLowerCase` maps ASCII letters only. Non-ASCII case mappings are not modelled, and none of the table keys needs them.
- `categoryMap[item.app]` is modelled as a lookup in the seventeen listed entries. Keys inherited from `Object.prototype` (such as `constructor`) are not modelled.
- Amounts are mathematical integers. JavaScript's floating-point sums and `undefined`/`NaN` arithmetic are not modelled.
- `Backend.SortByAmountSpec`: the stability of `Array.prototype.sort` is built into the insertion-based definition, but it is not stated as a proved property.
- Card suggestions, `setCards`, `mockData`/`mockAuth` and every `setTimeout` delay are simulated latency with constant data.
- `LinkedAccounts.LinkedAccountsPanel.OnMount`: the reload 500 ms after a successful link is logged as `ScheduleReload`, but that later reload is not run.
- `alert`, `confirm`, `window.history.replaceState` and `window.location` are logged effects. `confirm`'s answer is an input.
- `getLinkedAccounts`, `unlinkAccount`, `linkGoogleAccount` and `syncUserApps` are not defined in the source. Their answers are inputs, and `handleLinkAccount`, which only calls `linkGoogleAccount`, is not modelled.
- The async/await interleaving is not modelled. Each flow is a strictly sequential method, so an exception thrown by `localStorage.setItem` (for example a full quota) is not modelled either.
- `preloadLogo` and the `onError` DOM mutation are browser image loading. The fallback source is modelled as a value.
- JSX rendering, animations and the presentational components. This includes the `Unknown` name shown for an account without a name.
