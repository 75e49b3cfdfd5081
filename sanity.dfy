/** The CMS client helper (src/lib/sanity.ts): `sanityFetch` fills in its defaults and
    chooses the cache options handed to the CMS client, and the site settings record that
    several sections fall back on. The fetch itself and the query strings are not part of
    this model. */
module Sanity {
  import opened Js

  /** The site settings as the components read them: the six members `SiteSettings`
      declares, and `logoUrl` and `logoAlt`, which the footer reads but which neither that
      type nor the `siteSettings` query has. */
  datatype SiteSettings = SiteSettings(
    siteName: Option<string>,
    siteDescription: Option<string>,
    contactEmail: Option<string>,
    contactPhone: Option<string>,
    companyName: Option<string>,
    companyAddress: Option<string>,
    logoUrl: Option<string>,
    logoAlt: Option<string>)

  /** A record the `siteSettings` query can return: it selects neither logo member. */
  predicate Fetched(s: SiteSettings)
  {
    s.logoUrl.None? && s.logoAlt.None?
  }

  /** `revalidate`: a number of seconds, or `false` for "only on demand". */
  datatype Revalidate = Seconds(n: int) | Never

  datatype CacheMode = NoStore | ForceCache

  /** The `next` member of the fetch options. */
  datatype NextOptions = NextOptions(revalidate: Revalidate, tags: seq<string>)

  datatype FetchOptions = FetchOptions(cache: CacheMode, next: Option<NextOptions>)

  /** The arguments `client.fetch` receives. */
  datatype FetchCall = FetchCall(query: string, params: map<string, string>, options: FetchOptions)

  const DefaultRevalidate := 60

  /** `sanityFetch({query, params = {}, revalidate = 60, tags = []})` under `NODE_ENV`. */
  function SanityFetch(
    nodeEnv: Option<string>,
    query: string,
    params: Option<map<string, string>>,
    revalidate: Option<Revalidate>,
    tags: Option<seq<string>>): FetchCall
  {
    var params := OrDefault(params, map[]);
    var revalidate := OrDefault(revalidate, Seconds(DefaultRevalidate));
    var tags := OrDefault(tags, []);
    var isDev := nodeEnv == Some("development");
    FetchCall(
      query,
      params,
      FetchOptions(
        if isDev then NoStore else ForceCache,
        if isDev then None else Some(NextOptions(if |tags| > 0 then Never else revalidate, tags))))
  }

  /** In development nothing is cached and no `next` options are passed. */
  lemma DevelopmentBypassesCache(query: string, params: Option<map<string, string>>, revalidate: Option<Revalidate>, tags: Option<seq<string>>)
    ensures SanityFetch(Some("development"), query, params, revalidate, tags).options == FetchOptions(NoStore, None)
  {
  }

  /** Elsewhere the response is cached, the tags are passed through unchanged, tagged
      queries are refreshed only on demand, and untagged ones after `revalidate` seconds
      (60 unless given). */
  lemma ProductionCaching(nodeEnv: Option<string>, query: string, params: Option<map<string, string>>, revalidate: Option<Revalidate>, tags: Option<seq<string>>)
    requires nodeEnv != Some("development")
    ensures var o := SanityFetch(nodeEnv, query, params, revalidate, tags).options;
      && o.cache == ForceCache
      && o.next.Some?
      && o.next.value.tags == OrDefault(tags, [])
      && (tags.Some? && tags.value != [] ==> o.next.value.revalidate == Never)
      && (tags.None? || tags.value == [] ==> o.next.value.revalidate == OrDefault(revalidate, Seconds(60)))
  {
  }

  /** The query is passed as given and `params` defaults to `{}`. */
  lemma QueryAndParams(nodeEnv: Option<string>, query: string, params: Option<map<string, string>>, revalidate: Option<Revalidate>, tags: Option<seq<string>>)
    ensures SanityFetch(nodeEnv, query, params, revalidate, tags).query == query
    ensures SanityFetch(nodeEnv, query, params, revalidate, tags).params == if params.Some? then params.value else map[]
  {
  }

  /** The cache tags the home page attaches to its ten queries, one per document type. */
  const PageTags: seq<string> := [
    "siteSettings", "hero", "problem", "reason", "caseStudy",
    "testimonial", "pricingPlan", "faq", "clientLogo", "useCase"
  ]

  /** Every home-page query is tagged, so outside development none of them is refreshed
      on a timer: each waits for its tag to be invalidated. */
  lemma PageQueriesRefreshOnDemand(nodeEnv: Option<string>, query: string, i: nat)
    requires nodeEnv != Some("development") && i < |PageTags|
    ensures var o := SanityFetch(nodeEnv, query, None, None, Some([PageTags[i]])).options;
      o.next == Some(NextOptions(Never, [PageTags[i]]))
  {
  }
}
