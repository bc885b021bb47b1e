/** What a published X post saves, on the direct path and when resuming from the persisted result. */
module PublishedPosts {
  import opened Options
  import opened Idempotency

  const MAX_URL_LENGTH: nat := 2048
  const MAX_X_POST_ID_LENGTH: nat := 255

  datatype Tracking = Tracking(landingUrl: string, source: string, medium: string, campaign: nat, content: Key,
                               trackedUrl: string)

  datatype Published = Published(text: string, xPostId: string, publishedAt: Time, tracking: Tracking)

  /** The deterministic URL builder: landing URL, campaign and idempotency key to the tracked URL. */
  type UrlBuilder = (string, nat, Key) -> string

  function BuildTracking(url: UrlBuilder, landingUrl: string, campaign: nat, key: Key): Tracking {
    Tracking(landingUrl, "x", "social", campaign, key, url(landingUrl, campaign, key))
  }

  /** The text sent to X: body, newline, tracked URL. */
  function PostText(text: string, tracking: Tracking): string { text + "\n" + tracking.trackedUrl }

  /** The checks before X is called that bound what is stored afterwards. */
  predicate Publishable(url: UrlBuilder, request: Request, key: Key) {
    request.XPost? && 1 <= |url(request.landingUrl, request.campaign, key)| <= MAX_URL_LENGTH
  }

  /** `external` as built right after X accepted the post. */
  function ResultOf(url: UrlBuilder, request: Request, key: Key, xPostId: string, at: Time): ExternalResult
    requires request.XPost?
  {
    var tracking := BuildTracking(url, request.landingUrl, request.campaign, key);
    ExternalResult(xPostId, PostText(request.text, tracking), tracking.trackedUrl, at)
  }

  /** The post saved by an uninterrupted run. */
  function DirectPost(url: UrlBuilder, request: Request, key: Key, xPostId: string, at: Time): Published
    requires request.XPost?
  {
    Published(request.text, xPostId, at, BuildTracking(url, request.landingUrl, request.campaign, key))
  }

  predicate EndsWith(s: string, suffix: string) {
    |suffix| <= |s| && s[|s| - |suffix|..] == suffix
  }

  function RemoveSuffix(s: string, suffix: string): string {
    if suffix != "" && EndsWith(s, suffix) then s[..|s| - |suffix|] else s
  }

  /** The stored schema: lengths of the id, the text and the URL. */
  predicate StoredSchema(external: ExternalResult) {
    && 1 <= |external.xPostId| <= MAX_X_POST_ID_LENGTH
    && 1 <= |external.text|
    && 1 <= |external.trackedUrl| <= MAX_URL_LENGTH
  }

  /** `published_from_external_result`; None for its ValueError. */
  function FromExternal(url: UrlBuilder, request: Request, key: Key, external: ExternalResult): Option<Published>
    requires request.XPost?
  {
    if !StoredSchema(external) then None
    else if !EndsWith(external.text, "\n" + external.trackedUrl) then None
    else
      var text := RemoveSuffix(external.text, "\n" + external.trackedUrl);
      var tracking := BuildTracking(url, request.landingUrl, request.campaign, key);
      if text != request.text || external.trackedUrl != tracking.trackedUrl then None
      else Some(Published(text, external.xPostId, external.publishedAt, tracking.(trackedUrl := external.trackedUrl)))
  }

  lemma SuffixRoundTrip(s: string, suffix: string)
    ensures EndsWith(s + suffix, suffix)
    ensures RemoveSuffix(s + suffix, suffix) == s
  {
    assert (s + suffix)[|s|..] == suffix;
    assert (s + suffix)[..|s|] == s;
  }

  /**
   Resuming from a persisted result saves exactly the post of the uninterrupted run, and it is able
   to do so exactly when X answered with an id of 1 to 255 characters.
   */
  lemma ResumeMatchesDirect(url: UrlBuilder, request: Request, key: Key, xPostId: string, at: Time)
    requires Publishable(url, request, key)
    ensures var resumed := FromExternal(url, request, key, ResultOf(url, request, key, xPostId, at));
            && (resumed.Some? <==> 1 <= |xPostId| <= MAX_X_POST_ID_LENGTH)
            && (resumed.Some? ==> resumed.value == DirectPost(url, request, key, xPostId, at))
  {
    var external := ResultOf(url, request, key, xPostId, at);
    assert external.text == request.text + ("\n" + external.trackedUrl);
    SuffixRoundTrip(request.text, "\n" + external.trackedUrl);
  }

  /** Whatever is stored, a resumed save never departs from the request and the stored evidence. */
  lemma ResumeIsSound(url: UrlBuilder, request: Request, key: Key, external: ExternalResult)
    requires request.XPost? && FromExternal(url, request, key, external).Some?
    ensures FromExternal(url, request, key, external).value
         == DirectPost(url, request, key, external.xPostId, external.publishedAt)
    ensures external == ResultOf(url, request, key, external.xPostId, external.publishedAt)
  {
    var suffix := "\n" + external.trackedUrl;
    assert external.text == external.text[..|external.text| - |suffix|] + suffix;
    assert external.text == request.text + "\n" + external.trackedUrl;
  }
}
