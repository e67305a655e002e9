/** The metadata resolver of `src/lib/seo.ts`: a default configuration is
    merged with a page's override and flattened into the metadata record
    the framework renders into the document head. */
module Seo {
  import opened Wrappers
  import opened Js
  import opened SeoTypes

  /** Spread precedence for one key of `{...base, ...over}`: a key present in
      `over` wins, an absent one inherits `base`. */
  predicate Overrides<T(==)>(merged: Option<T>, over: Option<T>, base: Option<T>) {
    merged == Spread(over, base)
  }

  /** The value of one key after a spread. */
  function Spread<T>(over: Option<T>, base: Option<T>): Option<T> {
    if over.Some? then over else base
  }

  /** Spreading `undefined` contributes no key. */
  function OpenGraphOf(o: Option<OpenGraph>): OpenGraph {
    o.GetOr(OpenGraph(None, None, None, None))
  }

  function TwitterOf(t: Option<Twitter>): Twitter {
    t.GetOr(Twitter(None, None, None))
  }

  /** `{...base.openGraph, ...over.openGraph}`: merged key by key, so a key
      the override leaves out keeps the default. */
  function MergeOpenGraph(base: Option<OpenGraph>, over: Option<OpenGraph>): (r: OpenGraph)
    ensures Overrides(r.ogType, OpenGraphOf(over).ogType, OpenGraphOf(base).ogType)
    ensures Overrides(r.siteName, OpenGraphOf(over).siteName, OpenGraphOf(base).siteName)
    ensures Overrides(r.locale, OpenGraphOf(over).locale, OpenGraphOf(base).locale)
    ensures Overrides(r.images, OpenGraphOf(over).images, OpenGraphOf(base).images)
  {
    var b, o := OpenGraphOf(base), OpenGraphOf(over);
    OpenGraph(
      Spread(o.ogType, b.ogType),
      Spread(o.siteName, b.siteName),
      Spread(o.locale, b.locale),
      Spread(o.images, b.images))
  }

  /** `{...base.twitter, ...over.twitter}`. */
  function MergeTwitter(base: Option<Twitter>, over: Option<Twitter>): (r: Twitter)
    ensures Overrides(r.card, TwitterOf(over).card, TwitterOf(base).card)
    ensures Overrides(r.site, TwitterOf(over).site, TwitterOf(base).site)
    ensures Overrides(r.creator, TwitterOf(over).creator, TwitterOf(base).creator)
  {
    var b, o := TwitterOf(base), TwitterOf(over);
    Twitter(Spread(o.card, b.card), Spread(o.site, b.site), Spread(o.creator, b.creator))
  }

  /** `mergedConfig`: top-level keys by spread, the two social sub-records
      one level deeper. The merged record always carries both sub-records. */
  function MergeConfig(defaults: SeoConfig, config: SeoConfig): (m: SeoConfig)
    ensures Overrides(m.title, config.title, defaults.title)
    ensures Overrides(m.description, config.description, defaults.description)
    ensures Overrides(m.keywords, config.keywords, defaults.keywords)
    ensures Overrides(m.author, config.author, defaults.author)
    ensures Overrides(m.siteUrl, config.siteUrl, defaults.siteUrl)
    ensures Overrides(m.canonicalUrl, config.canonicalUrl, defaults.canonicalUrl)
    ensures Overrides(m.structuredData, config.structuredData, defaults.structuredData)
    ensures m.openGraph == Some(MergeOpenGraph(defaults.openGraph, config.openGraph))
    ensures m.twitter == Some(MergeTwitter(defaults.twitter, config.twitter))
  {
    SeoConfig(
      Spread(config.title, defaults.title),
      Spread(config.description, defaults.description),
      Spread(config.keywords, defaults.keywords),
      Spread(config.author, defaults.author),
      Spread(config.siteUrl, defaults.siteUrl),
      Spread(config.canonicalUrl, defaults.canonicalUrl),
      Some(MergeOpenGraph(defaults.openGraph, config.openGraph)),
      Some(MergeTwitter(defaults.twitter, config.twitter)),
      Spread(config.structuredData, defaults.structuredData))
  }

  /** Next.js `Metadata`, restricted to the keys the resolver sets. */
  datatype Author = Author(name: string)
  datatype Alternates = Alternates(canonical: Option<string>)
  datatype OpenGraphMetadata = OpenGraphMetadata(
    ogType: Option<string>,
    siteName: Option<string>,
    locale: Option<string>,
    images: Option<seq<Image>>,
    title: Option<string>,
    description: Option<string>,
    url: Option<string>)
  datatype TwitterMetadata = TwitterMetadata(
    card: Option<string>,
    site: Option<string>,
    creator: Option<string>,
    title: Option<string>,
    description: Option<string>,
    images: Option<string>)
  datatype Metadata = Metadata(
    title: Option<string>,
    description: Option<string>,
    keywords: Option<seq<string>>,
    authors: Option<seq<Author>>,
    alternates: Alternates,
    openGraph: OpenGraphMetadata,
    twitter: TwitterMetadata)

  /** `images?.[0]?.url`. */
  function FirstImageUrl(images: Option<seq<Image>>): Option<string> {
    if images.Some? && |images.value| > 0 then Some(images.value[0].url) else None
  }

  /** `generateSEOMetadata(config)` with `seo.json` given as `site`. */
  function GenerateSeoMetadata(site: SiteConfig, config: SeoConfig): (r: Metadata)
    ensures Overrides(r.title, config.title, site.defaults.title)
    ensures Overrides(r.description, config.description, site.defaults.description)
    ensures Overrides(r.keywords, config.keywords, site.defaults.keywords)
    ensures Overrides(r.alternates.canonical, config.canonicalUrl, site.defaults.canonicalUrl)
    // title, description and canonical URL are mirrored into the social blocks
    ensures r.openGraph.title == r.title && r.twitter.title == r.title
    ensures r.openGraph.description == r.description && r.twitter.description == r.description
    ensures r.openGraph.url == r.alternates.canonical
    // the social blocks are the key-by-key merges
    ensures var og := MergeOpenGraph(site.defaults.openGraph, config.openGraph);
      r.openGraph.ogType == og.ogType && r.openGraph.siteName == og.siteName
      && r.openGraph.locale == og.locale && r.openGraph.images == og.images
    ensures var tw := MergeTwitter(site.defaults.twitter, config.twitter);
      r.twitter.card == tw.card && r.twitter.site == tw.site && r.twitter.creator == tw.creator
    // the Twitter image is the first Open Graph image, absent when there is none
    ensures r.twitter.images.Some? <==> r.openGraph.images.Some? && |r.openGraph.images.value| > 0
    ensures r.twitter.images.Some? ==> r.twitter.images.value == r.openGraph.images.value[0].url
    // one author entry exactly when the merged author is truthy
    ensures var author := Spread(config.author, site.defaults.author);
      if Truthy(author) then r.authors == Some([Author(author.value)]) else r.authors.None?
  {
    var m := MergeConfig(site.defaults, config);
    var og := m.openGraph.value;
    var tw := m.twitter.value;
    Metadata(
      m.title,
      m.description,
      m.keywords,
      if Truthy(m.author) then Some([Author(m.author.value)]) else None,
      Alternates(m.canonicalUrl),
      OpenGraphMetadata(og.ogType, og.siteName, og.locale, og.images, m.title, m.description, m.canonicalUrl),
      TwitterMetadata(tw.card, tw.site, tw.creator, m.title, m.description, FirstImageUrl(og.images)))
  }

  /** Width, height of the single image a blog article with its own image gets. */
  const ArticleImageWidth := 1200
  const ArticleImageHeight := 630

  /** The override `generateBlogSEOMetadata` builds from an article. */
  function BlogOverride(site: SiteConfig, article: BlogArticleData): SeoConfig {
    var blogOg := site.blog.openGraph;
    SeoConfig(
      Some(article.title + " - " + site.blog.title),
      Some(article.description),
      Some(article.keywords.GetOr(site.blog.keywords)),
      Some(article.author),
      None,
      Some(article.url),
      Some(OpenGraph(
        Some("article"),
        blogOg.siteName,
        blogOg.locale,
        if Truthy(article.image)
        then Some([Image(article.image.value, ArticleImageWidth, ArticleImageHeight, article.title)])
        else blogOg.images)),
      None,
      None)
  }

  /** `generateBlogSEOMetadata(article)`. */
  function GenerateBlogSeoMetadata(site: SiteConfig, article: BlogArticleData): (r: Metadata)
    ensures r.title == Some(article.title + " - " + site.blog.title)
    ensures r.description == Some(article.description)
    ensures r.openGraph.ogType == Some("article")
    ensures r.keywords == Some(if article.keywords.Some? then article.keywords.value else site.blog.keywords)
    ensures r.alternates.canonical == Some(article.url) && r.openGraph.url == Some(article.url)
    ensures Truthy(article.image) ==>
      r.openGraph.images == Some([Image(article.image.value, 1200, 630, article.title)])
      && r.twitter.images == Some(article.image.value)
    ensures !Truthy(article.image) ==>
      Overrides(r.openGraph.images, site.blog.openGraph.images, OpenGraphOf(site.defaults.openGraph).images)
    ensures Overrides(r.openGraph.siteName, site.blog.openGraph.siteName, OpenGraphOf(site.defaults.openGraph).siteName)
    ensures Overrides(r.openGraph.locale, site.blog.openGraph.locale, OpenGraphOf(site.defaults.openGraph).locale)
    ensures r.twitter.card == TwitterOf(site.defaults.twitter).card
    ensures r.twitter.site == TwitterOf(site.defaults.twitter).site
    ensures r.twitter.creator == TwitterOf(site.defaults.twitter).creator
    ensures r.openGraph.title == r.title && r.twitter.title == r.title
    ensures r.openGraph.description == r.description && r.twitter.description == r.description
    ensures !Truthy(article.image) ==> r.twitter.images == FirstImageUrl(r.openGraph.images)
    ensures article.author != "" ==> r.authors == Some([Author(article.author)])
    ensures article.author == "" ==> r.authors.None?
  {
    GenerateSeoMetadata(site, BlogOverride(site, article))
  }

  /** `generateBlogListSEOMetadata()`: the blog section overrides the
      defaults, except for the canonical URL, which it does not set. */
  function GenerateBlogListSeoMetadata(site: SiteConfig): (r: Metadata)
    ensures r.title == Some(site.blog.title) && r.openGraph.title == Some(site.blog.title)
    ensures r.description == Some(site.blog.description)
    ensures r.keywords == Some(site.blog.keywords)
    ensures r.alternates.canonical == site.defaults.canonicalUrl
    ensures Overrides(r.openGraph.ogType, site.blog.openGraph.ogType, OpenGraphOf(site.defaults.openGraph).ogType)
    ensures Overrides(r.openGraph.images, site.blog.openGraph.images, OpenGraphOf(site.defaults.openGraph).images)
    ensures Overrides(r.openGraph.siteName, site.blog.openGraph.siteName, OpenGraphOf(site.defaults.openGraph).siteName)
    ensures Overrides(r.openGraph.locale, site.blog.openGraph.locale, OpenGraphOf(site.defaults.openGraph).locale)
    ensures Overrides(r.twitter.card, site.blog.twitter.card, TwitterOf(site.defaults.twitter).card)
    ensures Overrides(r.twitter.site, site.blog.twitter.site, TwitterOf(site.defaults.twitter).site)
    ensures Overrides(r.twitter.creator, site.blog.twitter.creator, TwitterOf(site.defaults.twitter).creator)
    ensures site.blog.author != "" ==> r.authors == Some([Author(site.blog.author)])
    ensures site.blog.author == "" ==> r.authors.None?
    ensures r.twitter.title == r.title
    ensures r.openGraph.description == r.description && r.twitter.description == r.description
    ensures r.openGraph.url == site.defaults.canonicalUrl
    ensures r.twitter.images == FirstImageUrl(r.openGraph.images)
  {
    var b := site.blog;
    GenerateSeoMetadata(site, SeoConfig(
      Some(b.title), Some(b.description), Some(b.keywords), Some(b.author),
      None, None, Some(b.openGraph), Some(b.twitter), None))
  }

  /** Without an override the metadata is the defaults, flattened. */
  lemma NoOverrideKeepsDefaults(site: SiteConfig)
    ensures var r := GenerateSeoMetadata(site, EmptyConfig);
      && r.title == site.defaults.title
      && r.description == site.defaults.description
      && r.keywords == site.defaults.keywords
      && r.alternates.canonical == site.defaults.canonicalUrl
      && r.openGraph.images == OpenGraphOf(site.defaults.openGraph).images
      && r.openGraph.siteName == OpenGraphOf(site.defaults.openGraph).siteName
      && r.openGraph.ogType == OpenGraphOf(site.defaults.openGraph).ogType
      && r.openGraph.locale == OpenGraphOf(site.defaults.openGraph).locale
      && r.twitter.card == TwitterOf(site.defaults.twitter).card
      && r.twitter.site == TwitterOf(site.defaults.twitter).site
      && r.twitter.creator == TwitterOf(site.defaults.twitter).creator
  {
  }

  /** Overriding only `openGraph.locale` keeps every other Open Graph key
      of the defaults, and leaves the Twitter block untouched. */
  lemma LocaleOnlyOverride(site: SiteConfig, locale: string)
    ensures var r := GenerateSeoMetadata(site,
        EmptyConfig.(openGraph := Some(OpenGraph(None, None, Some(locale), None))));
      var d := OpenGraphOf(site.defaults.openGraph);
      && r.openGraph.locale == Some(locale)
      && r.openGraph.siteName == d.siteName
      && r.openGraph.ogType == d.ogType
      && r.openGraph.images == d.images
      && r.twitter == GenerateSeoMetadata(site, EmptyConfig).twitter
  {
  }

  /** Merging is idempotent: applying the same override to an already
      merged record changes nothing. */
  lemma MergeIdempotent(defaults: SeoConfig, config: SeoConfig)
    ensures MergeConfig(MergeConfig(defaults, config), config) == MergeConfig(defaults, config)
  {
  }

  /** The merged title survives whenever the defaults have one. */
  lemma TitleNeverLost(site: SiteConfig, config: SeoConfig)
    requires site.defaults.title.Some? && site.defaults.description.Some?
    ensures GenerateSeoMetadata(site, config).title.Some?
    ensures GenerateSeoMetadata(site, config).description.Some?
  {
  }
}
