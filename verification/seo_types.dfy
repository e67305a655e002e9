/** The records of `src/lib/seo.ts` and the shape of the static `seo.json`
    configuration the module imports. The configuration is passed to every
    operation as a `SiteConfig` value instead of being read from a file. */
module SeoTypes {
  import opened Wrappers
  import opened Json

  /** One Open Graph image. */
  datatype Image = Image(url: string, width: int, height: int, alt: string)

  /** The `openGraph` sub-record; `ogType` is the `type` key. */
  datatype OpenGraph = OpenGraph(
    ogType: Option<string>,
    siteName: Option<string>,
    locale: Option<string>,
    images: Option<seq<Image>>)

  /** The `twitter` sub-record. */
  datatype Twitter = Twitter(card: Option<string>, site: Option<string>, creator: Option<string>)

  /** `SEOConfig`: every key is optional. */
  datatype SeoConfig = SeoConfig(
    title: Option<string>,
    description: Option<string>,
    keywords: Option<seq<string>>,
    author: Option<string>,
    siteUrl: Option<string>,
    canonicalUrl: Option<string>,
    openGraph: Option<OpenGraph>,
    twitter: Option<Twitter>,
    structuredData: Option<Json>)

  /** `{}`: the argument `generateSEOMetadata` takes when called without one. */
  const EmptyConfig := SeoConfig(None, None, None, None, None, None, None, None, None)

  /** `BlogArticleData`: the fields of one article, supplied by its page. */
  datatype BlogArticleData = BlogArticleData(
    title: string,
    description: string,
    image: Option<string>,
    author: string,
    datePublished: string,
    dateModified: Option<string>,
    url: string,
    keywords: Option<seq<string>>,
    category: Option<string>,
    wordCount: Option<real>)

  /** The JSON-LD fragments of `seo.json`'s `blog.structuredData`. */
  datatype StructuredDataConfig = StructuredDataConfig(
    website: Json,
    organization: Json,
    blog: Json,
    article: Json)

  /** The `blog` section of `seo.json`. */
  datatype BlogConfig = BlogConfig(
    title: string,
    description: string,
    keywords: seq<string>,
    author: string,
    openGraph: OpenGraph,
    twitter: Twitter,
    structuredData: StructuredDataConfig)

  /** The whole of `seo.json`: site-wide `defaults` and the `blog` section. */
  datatype SiteConfig = SiteConfig(defaults: SeoConfig, blog: BlogConfig)
}
