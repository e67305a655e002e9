/** The sitemap entry builders of `src/lib/sitemap.ts`. The environment's
    site URL, the clock and the blog-post source are parameters. */
module Sitemap {
  import opened Wrappers
  import opened Js

  datatype ChangeFrequency = Always | Hourly | Daily | Weekly | Monthly | Yearly | Never

  /** A point in time (a JavaScript `Date`). */
  datatype Instant = Instant(epochMillis: int)

  /** One entry of the sitemap: absolute URL, freshness and crawl hints. */
  datatype SitemapEntry = SitemapEntry(
    url: string,
    lastModified: Instant,
    changeFrequency: ChangeFrequency,
    priority: real)

  /** One row of the static page table. */
  datatype StaticPage = StaticPage(path: string, priority: real, changeFrequency: ChangeFrequency)

  /** The base URL used when the environment does not supply one. */
  const LocalBaseUrl := "http://localhost:3000"

  /** `process.env.NEXT_PUBLIC_SITE_URL || 'http://localhost:3000'`. */
  function BaseUrl(env: Option<string>): (r: string)
    ensures Truthy(env) ==> r == env.value
    ensures !Truthy(env) ==> r == LocalBaseUrl
  {
    OrElse(env, LocalBaseUrl)
  }

  /** `staticPages`: the public pages, in declared order. */
  const StaticPages: seq<StaticPage> := [
    StaticPage("/", 1.0, Daily),
    StaticPage("/about", 0.8, Monthly),
    StaticPage("/contact", 0.7, Monthly),
    StaticPage("/isr-demo", 0.6, Weekly)
  ]

  /** `pages.map(page => ({url: baseUrl + page.path, lastModified: now, ...}))`. */
  function ExpandPages(pages: seq<StaticPage>, baseUrl: string, now: Instant): (r: seq<SitemapEntry>)
    ensures |r| == |pages|
    ensures forall i :: 0 <= i < |pages| ==>
      r[i] == SitemapEntry(baseUrl + pages[i].path, now, pages[i].changeFrequency, pages[i].priority)
    decreases |pages|
  {
    if |pages| == 0 then []
    else
      var p := pages[0];
      [SitemapEntry(baseUrl + p.path, now, p.changeFrequency, p.priority)] + ExpandPages(pages[1..], baseUrl, now)
  }

  /** `generateSitemapPages()`: one entry per static page, in table order,
      all stamped with the build time. */
  function GenerateSitemapPages(baseUrl: string, now: Instant): (r: seq<SitemapEntry>)
    ensures |r| == 4
    ensures forall i :: 0 <= i < |r| ==>
      && r[i].url == baseUrl + StaticPages[i].path
      && r[i].lastModified == now
      && r[i].priority == StaticPages[i].priority
      && r[i].changeFrequency == StaticPages[i].changeFrequency
  {
    ExpandPages(StaticPages, baseUrl, now)
  }

  /** The static entries are, in order, the home, about, contact and ISR
      demo pages with priorities 1.0, 0.8, 0.7, 0.6. */
  lemma StaticEntriesTable(baseUrl: string, now: Instant)
    ensures var r := GenerateSitemapPages(baseUrl, now);
      && [r[0].url, r[1].url, r[2].url, r[3].url]
         == [baseUrl + "/", baseUrl + "/about", baseUrl + "/contact", baseUrl + "/isr-demo"]
      && [r[0].priority, r[1].priority, r[2].priority, r[3].priority] == [1.0, 0.8, 0.7, 0.6]
      && [r[0].changeFrequency, r[1].changeFrequency, r[2].changeFrequency, r[3].changeFrequency]
         == [Daily, Monthly, Monthly, Weekly]
  {
  }

  /** A blog post as the content source describes it. */
  datatype BlogPost = BlogPost(
    slug: string,
    lastModified: Instant,
    priority: Option<real>,
    changeFrequency: Option<ChangeFrequency>)

  /** What the content source can throw. */
  datatype SourceError = SourceError(message: string)

  /** The content source: the posts, or the error it raised. */
  type PostSource = Result<seq<BlogPost>, SourceError>

  /** The source the template ships with: no posts. */
  const TemplatePosts: PostSource := Ok([])

  const DefaultBlogFrequency := Weekly
  const DefaultBlogPriority := 0.6

  /** One post's entry. `priority || 0.6` replaces an explicit 0 as well as
      an absent priority; every frequency name is truthy, so only an
      absent one falls back. */
  function BlogEntry(baseUrl: string, post: BlogPost): (e: SitemapEntry)
    ensures e.url == baseUrl + "/blog/" + post.slug
    ensures e.lastModified == post.lastModified
    ensures e.changeFrequency == (if post.changeFrequency.Some? then post.changeFrequency.value else Weekly)
    ensures TruthyNumber(post.priority) ==> e.priority == post.priority.value
    ensures !TruthyNumber(post.priority) ==> e.priority == DefaultBlogPriority
  {
    SitemapEntry(
      baseUrl + "/blog/" + post.slug,
      post.lastModified,
      post.changeFrequency.GetOr(DefaultBlogFrequency),
      OrElseNumber(post.priority, DefaultBlogPriority))
  }

  function BlogEntries(baseUrl: string, posts: seq<BlogPost>): (r: seq<SitemapEntry>)
    ensures |r| == |posts|
    ensures forall i :: 0 <= i < |posts| ==> r[i] == BlogEntry(baseUrl, posts[i])
    decreases |posts|
  {
    if |posts| == 0 then [] else [BlogEntry(baseUrl, posts[0])] + BlogEntries(baseUrl, posts[1..])
  }

  /** `generateBlogSitemapEntries()`: one entry per post, in the source's
      order; a failing source yields no entries instead of an error. */
  function GenerateBlogSitemapEntries(baseUrl: string, source: PostSource): (r: seq<SitemapEntry>)
    ensures source.Err? ==> r == []
    ensures source.Ok? ==> |r| == |source.value|
    ensures source.Ok? ==> forall i :: 0 <= i < |r| ==>
      r[i].url == baseUrl + "/blog/" + source.value[i].slug
      && r[i].lastModified == source.value[i].lastModified
    ensures source.Ok? ==> forall i :: 0 <= i < |r| ==> r[i] == BlogEntry(baseUrl, source.value[i])
  {
    match source
    case Ok(posts) => BlogEntries(baseUrl, posts)
    case Err(_) => []
  }

  /** With the template's source there are no blog entries. */
  lemma TemplateHasNoBlogEntries(baseUrl: string)
    ensures GenerateBlogSitemapEntries(baseUrl, TemplatePosts) == []
  {
  }

  /** `getAllSitemapEntries()`: static entries, then blog entries; nothing
      is dropped or merged. */
  function GetAllSitemapEntries(baseUrl: string, now: Instant, source: PostSource): (r: seq<SitemapEntry>)
    ensures |r| == |GenerateSitemapPages(baseUrl, now)| + |GenerateBlogSitemapEntries(baseUrl, source)|
    ensures r[..4] == GenerateSitemapPages(baseUrl, now)
    ensures r[4..] == GenerateBlogSitemapEntries(baseUrl, source)
  {
    GenerateSitemapPages(baseUrl, now) + GenerateBlogSitemapEntries(baseUrl, source)
  }

  /** Every priority is a valid sitemap priority (between 0 and 1) as long
      as every post's explicit priority is. */
  lemma PrioritiesInRange(baseUrl: string, now: Instant, source: PostSource)
    requires source.Ok? ==> forall p :: p in source.value && p.priority.Some? ==>
      0.0 <= p.priority.value <= 1.0
    ensures forall e :: e in GetAllSitemapEntries(baseUrl, now, source) ==> 0.0 <= e.priority <= 1.0
  {
    var r := GetAllSitemapEntries(baseUrl, now, source);
    forall e | e in r ensures 0.0 <= e.priority <= 1.0 {
      var i :| 0 <= i < |r| && r[i] == e;
      if i >= 4 {
        assert e == GenerateBlogSitemapEntries(baseUrl, source)[i - 4];
        assert source.value[i - 4] in source.value;
      }
    }
  }

  /** A common prefix keeps different strings different. */
  lemma PrefixKeepsDistinct(a: string, x: string, y: string)
    requires x != y
    ensures a + x != a + y
  {
    assert x == (a + x)[|a|..];
    assert y == (a + y)[|a|..];
  }

  /** No static path is a `/blog/` path. */
  lemma StaticPathIsNotBlog(i: nat, slug: string)
    requires i < |StaticPages|
    ensures StaticPages[i].path != "/blog/" + slug
  {
    var b := "/blog/" + slug;
    assert b[1] == 'b';
    if i > 0 {
      assert StaticPages[i].path[1] != 'b';
    }
  }

  /** Distinct slugs give a sitemap without a repeated URL: the static
      paths differ from each other, and none is a `/blog/` path. */
  lemma UrlsDistinct(baseUrl: string, now: Instant, source: PostSource)
    requires source.Ok? ==> forall i, j :: 0 <= i < j < |source.value| ==>
      source.value[i].slug != source.value[j].slug
    ensures var r := GetAllSitemapEntries(baseUrl, now, source);
      forall i, j :: 0 <= i < j < |r| ==> r[i].url != r[j].url
  {
    var r := GetAllSitemapEntries(baseUrl, now, source);
    forall i, j | 0 <= i < j < |r| ensures r[i].url != r[j].url {
      if j < 4 {
        PrefixKeepsDistinct(baseUrl, StaticPages[i].path, StaticPages[j].path);
      } else if i < 4 {
        var slug := source.value[j - 4].slug;
        assert r[j].url == baseUrl + ("/blog/" + slug);
        StaticPathIsNotBlog(i, slug);
        PrefixKeepsDistinct(baseUrl, StaticPages[i].path, "/blog/" + slug);
      } else {
        var s1, s2 := source.value[i - 4].slug, source.value[j - 4].slug;
        assert r[i].url == (baseUrl + "/blog/") + s1;
        assert r[j].url == (baseUrl + "/blog/") + s2;
        PrefixKeepsDistinct(baseUrl + "/blog/", s1, s2);
      }
    }
  }
}
