/** The JavaScript value conventions `src/lib/seo.ts` and `src/lib/sitemap.ts` rely on: truthiness as
    tested by `||` and `? :`, and `Array.prototype.join`. */
module Js {
  import opened Wrappers

  /** An optional string is truthy when it is present and not empty. */
  predicate Truthy(s: Option<string>) {
    s.Some? && s.value != ""
  }

  /** An optional number is truthy when it is present and not zero
      (NaN is not modelled). */
  predicate TruthyNumber(n: Option<real>) {
    n.Some? && n.value != 0.0
  }

  /** `s || fallback` on an optional string. */
  function OrElse(s: Option<string>, fallback: string): string {
    if Truthy(s) then s.value else fallback
  }

  /** `n || fallback` on an optional number. */
  function OrElseNumber(n: Option<real>, fallback: real): real {
    if TruthyNumber(n) then n.value else fallback
  }

  /** `parts.join(sep)`. */
  function Join(parts: seq<string>, sep: string): (r: string)
    decreases |parts|
  {
    if |parts| == 0 then ""
    else if |parts| == 1 then parts[0]
    else parts[0] + sep + Join(parts[1..], sep)
  }

  /** With a non-empty separator the joined text is empty exactly when
      there is no part, or a single empty part; so `join(sep) || ''`
      never differs from `join(sep)`. */
  lemma JoinEmptyIff(parts: seq<string>, sep: string)
    requires sep != ""
    ensures Join(parts, sep) == "" <==> |parts| == 0 || (|parts| == 1 && parts[0] == "")
  {
    if |parts| >= 2 {
      assert |Join(parts, sep)| >= |sep|;
    }
  }
}
