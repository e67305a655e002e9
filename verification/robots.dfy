/** The crawler policy of `src/app/robots.ts`: four user-agent groups (the
    allow/disallow groups of section 2.2 of RFC 9309) and the sitemap
    location. The framework serialises the record into `robots.txt`. */
module Robots {
  import opened Wrappers
  import opened Js
  import opened SeoTypes

  datatype RuleGroup = RuleGroup(userAgent: string, allow: string, disallow: seq<string>)

  datatype RobotsPolicy = RobotsPolicy(rules: seq<RuleGroup>, sitemap: string)

  /** The base URL used when the configuration has no site URL. */
  const FallbackBaseUrl := "https://ai-code-template.com"

  /** The paths every crawler is kept out of, in declared order. */
  const DisallowedPaths: seq<string> := ["/admin-demo", "/api/", "/_next/", "/admin/", "/private/"]

  /** The crawlers named, in declared order. */
  const UserAgents: seq<string> := ["*", "Googlebot", "Bingbot", "Baiduspider"]

  /** `seoConfig.defaults.siteUrl || 'https://ai-code-template.com'`. */
  function RobotsBaseUrl(site: SiteConfig): (r: string)
    ensures Truthy(site.defaults.siteUrl) ==> r == site.defaults.siteUrl.value
    ensures !Truthy(site.defaults.siteUrl) ==> r == FallbackBaseUrl
  {
    OrElse(site.defaults.siteUrl, FallbackBaseUrl)
  }

  /** The group every crawler gets: everything allowed except the five paths. */
  function GroupFor(agent: string): RuleGroup {
    RuleGroup(agent, "/", DisallowedPaths)
  }

  /** The default export `robots()`. */
  function RobotsPolicyFor(site: SiteConfig): (r: RobotsPolicy)
    ensures |r.rules| == |UserAgents|
    ensures forall i :: 0 <= i < |r.rules| ==>
      r.rules[i].userAgent == UserAgents[i]
      && r.rules[i].allow == "/"
      && r.rules[i].disallow == DisallowedPaths
    ensures r.sitemap == RobotsBaseUrl(site) + "/sitemap.xml"
  {
    RobotsPolicy(
      [GroupFor("*"), GroupFor("Googlebot"), GroupFor("Bingbot"), GroupFor("Baiduspider")],
      RobotsBaseUrl(site) + "/sitemap.xml")
  }

  // How a crawler reads the policy (section 2.2 of RFC 9309): it obeys the
  // group naming it, else the `*` group; within the group the longest
  // matching path prefix decides, and an allow wins a tie.

  /** The first group for `agent`, if any. */
  function FindGroup(rules: seq<RuleGroup>, agent: string): (g: Option<RuleGroup>)
    ensures g.Some? ==> g.value in rules && g.value.userAgent == agent
    ensures g.None? ==> forall i :: 0 <= i < |rules| ==> rules[i].userAgent != agent
    decreases |rules|
  {
    if |rules| == 0 then None
    else if rules[0].userAgent == agent then Some(rules[0])
    else FindGroup(rules[1..], agent)
  }

  /** The group a crawler named `agent` obeys. */
  function SelectGroup(rules: seq<RuleGroup>, agent: string): Option<RuleGroup> {
    var own := FindGroup(rules, agent);
    if own.Some? then own else FindGroup(rules, "*")
  }

  /** The length of the longest pattern that is a prefix of `path`, or -1
      when none is. */
  function LongestMatch(patterns: seq<string>, path: string): (n: int)
    ensures n >= -1
    ensures forall i :: 0 <= i < |patterns| && patterns[i] <= path ==> |patterns[i]| <= n
    ensures n >= 0 ==> exists i :: 0 <= i < |patterns| && patterns[i] <= path && |patterns[i]| == n
    decreases |patterns|
  {
    if |patterns| == 0 then -1
    else
      var rest := LongestMatch(patterns[1..], path);
      assert forall i :: 1 <= i < |patterns| ==> patterns[i] == patterns[1..][i - 1];
      if patterns[0] <= path && |patterns[0]| > rest then |patterns[0]| else rest
  }

  /** Whether the policy lets `agent` fetch `path`. */
  predicate Allowed(policy: RobotsPolicy, agent: string, path: string) {
    match SelectGroup(policy.rules, agent)
    case None => true
    case Some(g) =>
      var disallowed := LongestMatch(g.disallow, path);
      var allowed := if g.allow <= path then |g.allow| else -1;
      disallowed < 0 || allowed >= disallowed
  }

  /** Every crawler ends up with the common group. */
  lemma SelectedGroup(site: SiteConfig, agent: string)
    ensures var g := SelectGroup(RobotsPolicyFor(site).rules, agent);
      g.Some? && g.value.allow == "/" && g.value.disallow == DisallowedPaths
  {
    var rules := RobotsPolicyFor(site).rules;
    assert rules[0].userAgent == "*";
    assert FindGroup(rules, "*").Some?;
  }

  /** Every disallowed prefix is longer than the allow rule `/` and starts
      with it. */
  lemma DisallowedBeatsAllow(i: nat, path: string)
    requires i < |DisallowedPaths| && DisallowedPaths[i] <= path
    ensures "/" <= path && |DisallowedPaths[i]| > 1
  {
    var p := DisallowedPaths[i];
    assert p[0] == '/' && |p| >= 5;
    assert path[0] == p[0];
  }

  /** Whatever crawler asks, it is kept out of exactly the paths under one
      of the five disallowed prefixes. */
  lemma CrawlerVerdict(site: SiteConfig, agent: string, path: string)
    ensures Allowed(RobotsPolicyFor(site), agent, path)
            <==> forall i :: 0 <= i < |DisallowedPaths| ==> !(DisallowedPaths[i] <= path)
  {
    SelectedGroup(site, agent);
    var d := LongestMatch(DisallowedPaths, path);
    if d >= 0 {
      var i :| 0 <= i < |DisallowedPaths| && DisallowedPaths[i] <= path && |DisallowedPaths[i]| == d;
      DisallowedBeatsAllow(i, path);
    }
  }

  /** The policy treats every crawler alike. */
  lemma SameForEveryAgent(site: SiteConfig, a1: string, a2: string, path: string)
    ensures Allowed(RobotsPolicyFor(site), a1, path) == Allowed(RobotsPolicyFor(site), a2, path)
  {
    CrawlerVerdict(site, a1, path);
    CrawlerVerdict(site, a2, path);
  }
}
