/** `generateStructuredData` of `src/lib/seo.ts`: the JSON-LD (schema.org)
    fragments of the configuration, picked and ordered by page kind, with an
    article fragment built from the article's fields. The result is the
    JSON tree `JSON.stringify` prints. */
module StructuredData {
  import opened Wrappers
  import opened Js
  import opened Json
  import opened SeoTypes

  /** The error `generateStructuredData` throws when an article is asked for without data. */
  datatype StructuredDataError = ArticleDataRequired

  /** The category an article without one is filed under ("technical articles"). */
  const DefaultArticleSection := "\U{6280}\U{672F}\U{6587}\U{7AE0}"

  /** The keys the article fragment sets over its template. */
  const ArticleKeys: set<string> := {
    "headline", "description", "image", "author", "datePublished", "dateModified",
    "mainEntityOfPage", "keywords", "articleSection", "wordCount"
  }

  /** `organization.logo.url` exists and is a string, as the type of the
      imported configuration guarantees. */
  predicate HasLogoUrl(org: Json) {
    && org.JObj?
    && var logo := Get(org.members, "logo");
    && logo.Some? && logo.value.JObj?
    && var url := Get(logo.value.members, "url");
    && url.Some? && url.value.JStr?
  }

  function LogoUrl(org: Json): string
    requires HasLogoUrl(org)
  {
    Get(Get(org.members, "logo").value.members, "url").value.s
  }

  /** What the article branch needs of the configuration: an object template
      to spread and an organization logo to fall back on. */
  predicate ArticleReady(sd: StructuredDataConfig) {
    sd.article.JObj? && HasLogoUrl(sd.organization)
  }

  /** `data.keywords?.join(', ') || ''`. */
  function KeywordText(keywords: Option<seq<string>>): string {
    var joined := if keywords.Some? then Join(keywords.value, ", ") else "";
    if joined != "" then joined else ""
  }

  function PersonOf(name: string): Json {
    JObj([Member("@type", JStr("Person")), Member("name", JStr(name))])
  }

  function WebPageOf(url: string): Json {
    JObj([Member("@type", JStr("WebPage")), Member("@id", JStr(url))])
  }

  /** The nine keys the article fragment assigns over its template, in
      the order of `articleStructuredData`; the word count is handled apart. */
  function ArticleUpdates(sd: StructuredDataConfig, data: BlogArticleData): seq<Member>
    requires ArticleReady(sd)
  {
    [ Member("headline", JStr(data.title)),
      Member("description", JStr(data.description)),
      Member("image", JStr(OrElse(data.image, LogoUrl(sd.organization)))),
      Member("author", PersonOf(data.author)),
      Member("datePublished", JStr(data.datePublished)),
      Member("dateModified", JStr(OrElse(data.dateModified, data.datePublished))),
      Member("mainEntityOfPage", WebPageOf(data.url)),
      Member("keywords", JStr(KeywordText(data.keywords))),
      Member("articleSection", JStr(OrElse(data.category, DefaultArticleSection))) ]
  }

  /** `articleStructuredData`: the template spread, then each article key
      filled in turn; an absent word count leaves the key out of the text. */
  function ArticleFragment(sd: StructuredDataConfig, data: BlogArticleData): seq<Member>
    requires ArticleReady(sd)
  {
    var filled := Assign(sd.article.members, ArticleUpdates(sd, data));
    match data.wordCount
    case Some(n) => Put(filled, "wordCount", JNum(n))
    case None => Delete(filled, "wordCount")
  }

  /** The assigned keys are distinct, all article keys, none the word count. */
  lemma ArticleUpdateKeys(sd: StructuredDataConfig, data: BlogArticleData)
    requires ArticleReady(sd)
    ensures var us := ArticleUpdates(sd, data);
      && UniqueKeys(us)
      && forall i :: 0 <= i < |us| ==> us[i].key in ArticleKeys && us[i].key != "wordCount"
  {
  }

  /** The `i`-th assigned member is found in the finished fragment. */
  lemma ArticleFragmentHas(sd: StructuredDataConfig, data: BlogArticleData, i: nat)
    requires ArticleReady(sd) && i < |ArticleUpdates(sd, data)|
    ensures var u := ArticleUpdates(sd, data)[i];
      Get(ArticleFragment(sd, data), u.key) == Some(u.value)
  {
    var us := ArticleUpdates(sd, data);
    ArticleUpdateKeys(sd, data);
    AssignSets(sd.article.members, us, i);
    if data.wordCount.Some? {
      PutGetOther(Assign(sd.article.members, us), "wordCount", JNum(data.wordCount.value), us[i].key);
    }
  }

  /** The article's own fields are copied into the fragment. */
  lemma ArticleFragmentFields(sd: StructuredDataConfig, data: BlogArticleData)
    requires ArticleReady(sd)
    ensures var r := ArticleFragment(sd, data);
      && Get(r, "headline") == Some(JStr(data.title))
      && Get(r, "description") == Some(JStr(data.description))
      && Get(r, "author") == Some(PersonOf(data.author))
      && Get(r, "datePublished") == Some(JStr(data.datePublished))
      && Get(r, "mainEntityOfPage") == Some(WebPageOf(data.url))
      && Get(r, "keywords") == Some(JStr(KeywordText(data.keywords)))
  {
    ArticleFragmentHas(sd, data, 0);
    ArticleFragmentHas(sd, data, 1);
    ArticleFragmentHas(sd, data, 3);
    ArticleFragmentHas(sd, data, 4);
    ArticleFragmentHas(sd, data, 6);
    ArticleFragmentHas(sd, data, 7);
  }

  /** The optional fields fall back: the image to the organization logo,
      the modification date to the publication date, the section to the
      default category. */
  lemma ArticleFragmentFallbacks(sd: StructuredDataConfig, data: BlogArticleData)
    requires ArticleReady(sd)
    ensures var r := ArticleFragment(sd, data);
      && (Truthy(data.image) ==> Get(r, "image") == Some(JStr(data.image.value)))
      && (!Truthy(data.image) ==> Get(r, "image") == Some(JStr(LogoUrl(sd.organization))))
      && (Truthy(data.dateModified) ==> Get(r, "dateModified") == Some(JStr(data.dateModified.value)))
      && (!Truthy(data.dateModified) ==> Get(r, "dateModified") == Get(r, "datePublished"))
      && (Truthy(data.category) ==> Get(r, "articleSection") == Some(JStr(data.category.value)))
      && (!Truthy(data.category) ==> Get(r, "articleSection") == Some(JStr(DefaultArticleSection)))
  {
    ArticleFragmentHas(sd, data, 2);
    ArticleFragmentHas(sd, data, 4);
    ArticleFragmentHas(sd, data, 5);
    ArticleFragmentHas(sd, data, 8);
  }

  /** The word count is passed through unchanged, absent when absent. */
  lemma ArticleFragmentWordCount(sd: StructuredDataConfig, data: BlogArticleData)
    requires ArticleReady(sd)
    ensures var r := ArticleFragment(sd, data);
      && (data.wordCount.Some? ==> Get(r, "wordCount") == Some(JNum(data.wordCount.value)))
      && (data.wordCount.None? ==> Get(r, "wordCount").None?)
  {
    if data.wordCount.Some? {
      PutGet(Assign(sd.article.members, ArticleUpdates(sd, data)), "wordCount", JNum(data.wordCount.value));
    }
  }

  /** Every other key of the template is kept, and when the word count is
      present the template's keys keep their order ahead of the new ones. */
  lemma ArticleFragmentKeepsTemplate(sd: StructuredDataConfig, data: BlogArticleData, k: string)
    requires ArticleReady(sd)
    ensures k !in ArticleKeys ==> Get(ArticleFragment(sd, data), k) == Get(sd.article.members, k)
    ensures data.wordCount.Some? ==> Keys(sd.article.members) <= Keys(ArticleFragment(sd, data))
  {
    var us := ArticleUpdates(sd, data);
    ArticleUpdateKeys(sd, data);
    var filled := Assign(sd.article.members, us);
    if k !in ArticleKeys {
      AssignKeeps(sd.article.members, us, k);
      if data.wordCount.Some? {
        PutGetOther(filled, "wordCount", JNum(data.wordCount.value), k);
      }
    }
    AssignExtendsKeys(sd.article.members, us);
    if data.wordCount.Some? {
      PutKeys(filled, "wordCount", JNum(data.wordCount.value));
    }
  }

  /** `generateStructuredData(kind, data)`. */
  function GenerateStructuredData(sd: StructuredDataConfig, kind: string, data: Option<BlogArticleData>)
    : (r: Result<Json, StructuredDataError>)
    requires kind == "article" && data.Some? ==> ArticleReady(sd)
    ensures kind == "article" && data.Some? ==>
      r == Ok(JArr([sd.website, sd.organization, sd.blog, JObj(ArticleFragment(sd, data.value))]))
    ensures r.Err? <==> kind == "article" && data.None?
    ensures kind == "blog" ==> r == Ok(JArr([sd.website, sd.organization, sd.blog]))
    ensures kind != "blog" && kind != "article" ==> r == Ok(sd.website)
  {
    if kind == "website" then Ok(sd.website)
    else if kind == "blog" then Ok(JArr([sd.website, sd.organization, sd.blog]))
    else if kind == "article" then
      if data.None? then Err(ArticleDataRequired)
      else Ok(JArr([sd.website, sd.organization, sd.blog, JObj(ArticleFragment(sd, data.value))]))
    else Ok(sd.website)
  }

  /** An unknown kind produces exactly what `"website"` produces. */
  lemma UnknownKindIsWebsite(sd: StructuredDataConfig, kind: string, data: Option<BlogArticleData>)
    requires kind != "website" && kind != "blog" && kind != "article"
    ensures GenerateStructuredData(sd, kind, data) == GenerateStructuredData(sd, "website", None)
  {
  }

  /** With article data the result has four fragments, the article last, and
      the last one's headline is the article's title. */
  lemma ArticleIsLast(sd: StructuredDataConfig, data: BlogArticleData)
    requires ArticleReady(sd)
    ensures var r := GenerateStructuredData(sd, "article", Some(data));
      && r.Ok? && r.value.JArr? && |r.value.items| == 4
      && r.value.items[..3] == GenerateStructuredData(sd, "blog", None).value.items
      && r.value.items[3].JObj?
      && Get(r.value.items[3].members, "headline") == Some(JStr(data.title))
  {
    ArticleFragmentHas(sd, data, 0);
  }

  /** The keyword text is empty exactly when there are no keywords to show. */
  lemma KeywordTextEmptyIff(keywords: Option<seq<string>>)
    ensures KeywordText(keywords) == "" <==>
      keywords.None? || |keywords.value| == 0 || (|keywords.value| == 1 && keywords.value[0] == "")
  {
    if keywords.Some? {
      JoinEmptyIff(keywords.value, ", ");
    }
  }
}
