# SEO metadata, structured data, sitemap and robots policy — a Dafny model

This project models the SEO helpers of a Next.js starter site:

- the **metadata resolver** of `src/lib/seo.ts`. It merges the site-wide defaults of the static `seo.json` configuration with a page's override, then flattens the result into the `Metadata` record the framework renders into the document head. The blog article and blog list pages use specialised versions of it.
- the **structured-data builder** of the same file. It picks and orders the JSON-LD (schema.org) fragments of the configuration by page kind. For an article it also builds a fragment from the article's fields.
- the **sitemap builders** of `src/lib/sitemap.ts` and the route `src/app/sitemap.ts`. A fixed table of static pages is expanded against a base URL, and blog entries with defaults are appended after it.
- the **crawler policy** of `src/app/robots.ts`. It has four user-agent groups and a sitemap URL.

The model is functional. Every record is an immutable datatype, and every operation is a pure function.

The inputs the code reads from its environment are parameters:

- the `seo.json` configuration is a `SeoTypes.SiteConfig` value;
- `NEXT_PUBLIC_SITE_URL` is an `Option<string>`;
- the clock reading is a `Sitemap.Instant`;
- the blog-post source is a `Sitemap.PostSource`: either the list of posts or the error it raised.

JavaScript truthiness is modelled explicitly (`Js.Truthy`, `Js.TruthyNumber`). Under `||`, an empty string or a zero falls back exactly as a missing value does. An empty keyword array does not fall back, because arrays are truthy. A key that is absent and a key set to `undefined` are both `None`.

Structured data is a JSON value tree (`Json.Json`). Objects keep their members in insertion order. `Json.Put` is JavaScript property assignment and the `{...t, k: v}` spread: an existing key keeps its place, and a new key goes last. A property whose value is `undefined` is absent from the tree, because `JSON.stringify` leaves it out.

How a crawler reads the robots policy is modelled after section 2.2 of RFC 9309 (`Robots.Allowed`). The crawler obeys the group that names it, or else the `*` group. Within that group the longest matching prefix decides, and an allow rule wins a tie. `Robots.CrawlerVerdict` shows that every crawler is kept out of exactly the paths under the five disallowed prefixes.

Behaviour of the code worth knowing:

- The code does not guarantee a non-empty title or description. An override's empty string wins, and a missing default stays missing. `Seo.TitleNeverLost` proves that the title and description survive whenever the defaults have them.
- A blog entry's priority falls back to 0.6 whenever `post.priority || 0.6` finds it falsy. That covers an absent priority and also an explicit `0`; any other priority is kept. `Sitemap.BlogEntry` states both halves.
- The code checks neither that sitemap priorities lie in [0, 1] nor that no URL repeats. `Sitemap.PrioritiesInRange` and `Sitemap.UrlsDistinct` prove what holds under conditions on the posts.
- The blog list metadata does not set a canonical URL. It therefore inherits the site default (`Seo.GenerateBlogListSeoMetadata`).

## Model

| member | source | states |
|---|---|---|
| Seo.MergeOpenGraph | src/lib/seo.ts:50-53 | each Open Graph key of the override wins when present; each absent key keeps the default's value; a missing sub-record contributes nothing |
| Seo.MergeTwitter | src/lib/seo.ts:54-57 | each Twitter key of the override wins when present; each absent key keeps the default's value |
| Seo.MergeConfig | src/lib/seo.ts:44-58 | every top-level key present in the override wins; every absent key inherits the default; the merged record always carries both social sub-records, each merged key by key |
| Seo.GenerateSeoMetadata | src/lib/seo.ts:44-86 | title, description, keywords and canonical follow the override/default precedence; title and description are mirrored into the Open Graph and Twitter blocks; the Open Graph url equals the canonical; the Twitter image is the first Open Graph image's url and is absent exactly when that list is missing or empty; `authors` is `[{name: author}]` exactly when the merged author is non-empty |
| Seo.GenerateBlogSeoMetadata | src/lib/seo.ts:89-113 | title is `article.title + " - " + blog.title`; type is forced to `article`; keywords are the article's when given, else the blog's; canonical and Open Graph url are the article url; an article image gives exactly one 1200×630 image with the article title as alt and becomes the Twitter image; otherwise the blog's images, or the defaults'; site name and locale come from the blog section over the defaults; title and description are mirrored into the Open Graph and Twitter blocks; the Twitter card, site and creator are the defaults'; without an article image the Twitter image is the first Open Graph image's url; authors follow the truthiness of the article's author |
| Seo.GenerateBlogListSeoMetadata | src/lib/seo.ts:184-195 | the blog section's title, description, keywords and author override the defaults; its Open Graph type, site name, locale and images and its Twitter card, site and creator each win over the defaults' key when present; title and description are mirrored into both social blocks; the canonical URL and the Open Graph url are the default's canonical; the Twitter image is the first Open Graph image's url; authors are `[{name: blog.author}]` when the blog author is non-empty and absent otherwise |
| Seo.NoOverrideKeepsDefaults | src/lib/seo.ts:44-49 | called without an override, the metadata carries the defaults' title, description, keywords and canonical, their Open Graph type, site name, locale and images, and their Twitter card, site and creator |
| Seo.LocaleOnlyOverride | src/lib/seo.ts:50-57 | overriding only `openGraph.locale` keeps the defaults' site name, type and images, and leaves the Twitter block unchanged |
| Seo.MergeIdempotent | src/lib/seo.ts:47-58 | merging the same override into an already merged record changes nothing |
| Seo.TitleNeverLost | src/lib/seo.ts:47-62 | when the defaults have a title and description, every page's metadata has them too |
| Json.PutGet | src/lib/seo.ts:142-160 | after a property is assigned, it holds the assigned value |
| Json.PutGetOther | src/lib/seo.ts:142-160 | assigning one property leaves every other property unchanged |
| Json.PutKeys | src/lib/seo.ts:142-160 | an assigned key that already exists keeps its place; a new key is appended, so the text's key order is fixed |
| Json.PutKeepsUniqueKeys | src/lib/seo.ts:142-160 | assignment never produces a duplicate key |
| Json.Delete | src/lib/seo.ts:159 | a property set to `undefined` is absent from the serialised object, and the others are unchanged |
| Json.AssignSets | src/lib/seo.ts:142-160 | after a run of assignments with distinct keys, every assigned key holds its value |
| Json.AssignKeeps | src/lib/seo.ts:143 | a template key that is not assigned keeps its value from the spread template |
| Json.AssignExtendsKeys | src/lib/seo.ts:143-160 | the template's keys keep their order ahead of the newly assigned ones |
| StructuredData.ArticleUpdateKeys | src/lib/seo.ts:144-158 | the nine keys the article fragment assigns are distinct, all article keys, and none of them is `wordCount` |
| StructuredData.ArticleFragmentHas | src/lib/seo.ts:142-160 | each assigned article member is found in the finished fragment |
| StructuredData.ArticleFragmentFields | src/lib/seo.ts:142-157 | headline is the title; description is copied; author is a `Person` with the article's author name; `datePublished` is copied; `mainEntityOfPage` is a `WebPage` whose `@id` is the url; keywords is the keyword list joined with `", "` |
| StructuredData.ArticleFragmentFallbacks | src/lib/seo.ts:146-158 | image is the article image when non-empty, else the organization logo URL; `dateModified` is the article's when non-empty, else equal to `datePublished`; `articleSection` is the category when non-empty, else the default category |
| StructuredData.ArticleFragmentWordCount | src/lib/seo.ts:159 | the word count is passed through unchanged, and is absent when the article has none |
| StructuredData.ArticleFragmentKeepsTemplate | src/lib/seo.ts:142-143 | every template key the article does not set is kept with its value; with a word count, the template's keys lead in their original order |
| StructuredData.GenerateStructuredData | src/lib/seo.ts:116-176 | `blog` gives `[website, organization, blog]`; `article` without data is the missing-data error and nothing else is; `article` with data gives those three followed by the article fragment; every other kind gives the website fragment |
| StructuredData.UnknownKindIsWebsite | src/lib/seo.ts:173-174 | an unknown kind yields exactly what `website` yields |
| StructuredData.ArticleIsLast | src/lib/seo.ts:162-171 | the article result has four fragments; the first three are the blog result; the last is an object whose headline is the article title |
| StructuredData.KeywordTextEmptyIff | src/lib/seo.ts:157 | the keyword text is empty exactly when the keywords are missing, empty, or one empty string |
| Js.JoinEmptyIff | src/lib/seo.ts:157 | with a non-empty separator, the joined text is empty exactly when there are no parts or one empty part, so `|| ''` never changes the join |
| Sitemap.BaseUrl | src/lib/sitemap.ts:4 | the base URL is the environment's site URL when that is non-empty, else `http://localhost:3000` |
| Sitemap.ExpandPages | src/lib/sitemap.ts:32-37 | one entry per page, in order, with url `baseUrl + path`, the given clock reading, and the page's frequency and priority |
| Sitemap.GenerateSitemapPages | src/lib/sitemap.ts:31-38 | exactly four entries; each url is the base URL followed by the table's path; all share the build time; frequency and priority come from the table |
| Sitemap.StaticEntriesTable | src/lib/sitemap.ts:7-37 | the static entries are `/`, `/about`, `/contact`, `/isr-demo`, with priorities 1.0, 0.8, 0.7, 0.6 and frequencies daily, monthly, monthly, weekly |
| Sitemap.StaticPathIsNotBlog | src/lib/sitemap.ts:7-28 | no static path is a `/blog/` path |
| Sitemap.BlogEntry | src/lib/sitemap.ts:57-62 | url is `baseUrl + "/blog/" + slug`; `lastModified` is copied; an absent frequency becomes weekly; a truthy (present, non-zero) priority is kept; an absent priority or an explicit 0 becomes 0.6 |
| Sitemap.BlogEntries | src/lib/sitemap.ts:57-62 | one blog entry per post, in the order the post list gives |
| Sitemap.GenerateBlogSitemapEntries | src/lib/sitemap.ts:41-67 | a failing source yields the empty list; otherwise one entry per post, in order, each the post's blog entry: the blog URL, the post's time, and the weekly and 0.6 defaults |
| Sitemap.TemplateHasNoBlogEntries | src/lib/sitemap.ts:50-57 | with the shipped empty post list there are no blog entries |
| Sitemap.GetAllSitemapEntries | src/lib/sitemap.ts:70-75 | the static entries come first and the blog entries follow; the length is the sum, with nothing dropped or merged |
| Sitemap.PrioritiesInRange | src/lib/sitemap.ts:7-62 | every priority lies in [0, 1] whenever every explicit post priority does |
| Sitemap.PrefixKeepsDistinct | src/lib/sitemap.ts:33 | prefixing the same base URL keeps distinct paths distinct |
| Sitemap.UrlsDistinct | src/lib/sitemap.ts:7-75 | when the slugs are distinct, no URL occurs twice in the sitemap |
| SitemapRoute.CopyEntries | src/app/sitemap.ts:14-19 | the four-field copy returns every entry unchanged |
| SitemapRoute.BuildSitemap | src/app/sitemap.ts:4-20 | the route's sitemap is the static entries followed by the blog entries; its length is their sum |
| SitemapRoute.OnlyStaticWithoutPosts | src/app/sitemap.ts:6-12 | with an empty or failing post source, the sitemap equals the static entries element for element |
| Robots.RobotsBaseUrl | src/app/robots.ts:5-6 | the base URL is the configured site URL when non-empty, else `https://ai-code-template.com` |
| Robots.RobotsPolicyFor | src/app/robots.ts:4-33 | four groups, in order, for `*`, `Googlebot`, `Bingbot` and `Baiduspider`; each allows `/` and disallows the same five paths in the same order; the sitemap is the base URL followed by `/sitemap.xml` |
| Robots.FindGroup | src/app/robots.ts:9-30 | the group found names the agent asked for; when none is found, no group names it |
| Robots.LongestMatch | src/app/robots.ts:13 | the result is the length of the longest rule that prefixes the path, or -1 when no rule matches |
| Robots.SelectedGroup | src/app/robots.ts:9-30 | every crawler, named or not, obeys a group that allows `/` and disallows the five paths |
| Robots.DisallowedBeatsAllow | src/app/robots.ts:11-13 | every disallowed prefix starts with `/` and is longer than it, so it outranks the allow rule |
| Robots.CrawlerVerdict | src/app/robots.ts:9-30 | a crawler may fetch a path exactly when the path starts with none of the five disallowed prefixes |
| Robots.SameForEveryAgent | src/app/robots.ts:9-30 | every user agent gets the same verdict for every path |

## Left out

- Reading `@/config/seo.json`, `process.env` and the clock, and `console.error`. The configuration, site URL and clock reading are parameters, and the logging is dropped.
- `getSEOConfig` (src/lib/seo.ts:179-181) returns the configuration unchanged. The model passes the `SiteConfig` value directly, so there is nothing to state about it.
- The `async`/`Promise` plumbing. The blog-post source is a value that is either the posts or the error raised.
- The exact text of `JSON.stringify(..., null, 2)`. The result is the JSON tree it prints, with its key order.
- JavaScript's ordering of integer-like property keys, which are listed before the others. The configured fragments use names such as `@type`, so this does not arise.
- Sitemap.GenerateSitemapPages: takes one clock reading for all static entries. `generateSitemapPages` calls `new Date()` once per entry, so its entries can differ by the clock's resolution.
- StructuredData.GenerateStructuredData: for the article branch, requires the article template to be a JSON object and the organization fragment to carry `logo.url` as a string. The type of the imported configuration guarantees both. Other configurations, which `generateStructuredData` would spread differently or fail on, are not modelled.
- Next.js type casts of `type` and `card` (`as 'website' | 'article'`), and the difference between an absent key and a key set to `undefined` in a spread. Both forms are `None`.
- NaN priorities and floating-point rounding. Priorities are exact `real`s.
- Robots.FindGroup: matches user-agent names exactly. Section 2.2.1 of RFC 9309 asks for a case-insensitive match. This does not affect any result proved here: every group carries the same rules, so the verdict is independent of the agent (`Robots.SameForEveryAgent`).
- Serialising the robots policy into `robots.txt` text. The framework does this.
- The UI pages and `next.config.ts`: presentational components and framework settings with no logic of this core.
