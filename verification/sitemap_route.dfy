/** The sitemap route `src/app/sitemap.ts`: the static and blog entries
    concatenated, each re-emitted with its four fields. */
module SitemapRoute {
  import Sitemap

  /** `page => ({url, lastModified, changeFrequency, priority})`. */
  function CopyEntry(e: Sitemap.SitemapEntry): Sitemap.SitemapEntry {
    Sitemap.SitemapEntry(e.url, e.lastModified, e.changeFrequency, e.priority)
  }

  /** The final `map`: every entry keeps its url, time, frequency and priority. */
  function CopyEntries(es: seq<Sitemap.SitemapEntry>): (r: seq<Sitemap.SitemapEntry>)
    ensures r == es
    decreases |es|
  {
    if |es| == 0 then [] else [CopyEntry(es[0])] + CopyEntries(es[1..])
  }

  /** The default export `sitemap()`. */
  function BuildSitemap(baseUrl: string, now: Sitemap.Instant, source: Sitemap.PostSource)
    : (r: seq<Sitemap.SitemapEntry>)
    ensures r == Sitemap.GetAllSitemapEntries(baseUrl, now, source)
    ensures |r| == |Sitemap.GenerateSitemapPages(baseUrl, now)|
                   + |Sitemap.GenerateBlogSitemapEntries(baseUrl, source)|
    ensures r[..4] == Sitemap.GenerateSitemapPages(baseUrl, now)
    ensures r[4..] == Sitemap.GenerateBlogSitemapEntries(baseUrl, source)
  {
    var staticPages := Sitemap.GenerateSitemapPages(baseUrl, now);
    var blogPages := Sitemap.GenerateBlogSitemapEntries(baseUrl, source);
    CopyEntries(staticPages + blogPages)
  }

  /** Without blog entries, whether the source is empty or failing, the
      sitemap is exactly the static entries. */
  lemma OnlyStaticWithoutPosts(baseUrl: string, now: Sitemap.Instant, source: Sitemap.PostSource)
    requires source.Err? || source == Sitemap.TemplatePosts
    ensures BuildSitemap(baseUrl, now, source) == Sitemap.GenerateSitemapPages(baseUrl, now)
  {
    assert Sitemap.GenerateBlogSitemapEntries(baseUrl, source) == [];
  }
}
