/**
 * The cache-validity test that bootstrap applies to a parsed `cached_data_{userId}`
 * entry, and what it implies for the payloads the backend client produces.
 */
module CachePolicy {
  import opened Wrappers
  import opened Strings
  import opened Shapes
  import opened Backend

  const PendingAppName := "Backend Pending"

  /** An icon generated with the placeholder-avatar service and a random background. */
  predicate IsOldIcon(a: AppUsage) {
    a.icon.Some? && a.icon.value != "" && Contains(a.icon.value, AvatarHost) && Contains(a.icon.value, RandomBackground)
  }

  predicate HasOldIconUrls(p: Payload) {
    p.apps.Some? && exists i :: 0 <= i < |p.apps.value| && IsOldIcon(p.apps.value[i])
  }

  predicate HasPendingApp(p: Payload) {
    p.apps.Some? && exists i :: 0 <= i < |p.apps.value| && p.apps.value[i].name == PendingAppName
  }

  predicate HasDefaultUser(p: Payload) {
    p.user.Some? && p.user.value.name == Some(DefaultUserName)
  }

  /** A stored payload that must be discarded and fetched again. */
  predicate IsInvalidCache(p: Payload) {
    p.isFallback || HasOldIconUrls(p) || HasPendingApp(p) || HasDefaultUser(p)
  }

  /** A fallback payload is never trusted as cache. */
  lemma FallbackNeverValid(userId: string, message: string)
    ensures IsInvalidCache(FallbackPayload(userId, message))
  {
  }

  /**
   * A normalised backend payload with at least one app is never trusted as cache:
   * its generated icons carry the markers the policy rejects.
   */
  lemma NormalisedWithAppsNeverValid(body: RawBody)
    requires body.data.Some? && |body.data.value| > 0
    ensures HasOldIconUrls(Normalised(body))
    ensures IsInvalidCache(Normalised(body))
  {
    AppsMirrorItems(body.data.value);
    assert IsOldIcon(Normalised(body).apps.value[0]);
  }

  /** A normalised payload whose backend user has no name is never trusted as cache. */
  lemma NormalisedWithoutNameNeverValid(body: RawBody)
    requires body.data.Some?
    requires body.user.None? || !Truthy(body.user.value.name)
    ensures IsInvalidCache(Normalised(body))
  {
  }

  /** A normalised payload is trusted exactly when it has no apps and the backend supplied a real name. */
  lemma NormalisedValidity(body: RawBody)
    requires body.data.Some?
    ensures !IsInvalidCache(Normalised(body))
        <==> |body.data.value| == 0 && body.user.Some? && Truthy(body.user.value.name) && body.user.value.name.value != DefaultUserName
  {
    if |body.data.value| > 0 {
      NormalisedWithAppsNeverValid(body);
    }
  }
}
