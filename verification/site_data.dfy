/**
 * The portfolio constants the filter and the sitemap read: the case studies,
 * the smaller "notable mentions" and the filter options. Only the fields
 * those two use are kept.
 */
module SiteData {
  datatype CaseStudy = CaseStudy(client: string, slug: string, pillars: seq<string>)

  datatype NotableMention = NotableMention(client: string, url: string, pillars: seq<string>)

  const ALL := "All"

  const CASE_STUDIES: seq<CaseStudy> := [
    CaseStudy("Shan Fisher Education", "shan-fisher-education", ["Web", "AI", "Strategy"]),
    CaseStudy("Elena Givone Academy", "elena-givone-academy", ["Web", "Strategy"]),
    CaseStudy("Showcase Ventures", "showcase-ventures", ["AI", "Strategy"])
  ]

  const NOTABLE_MENTIONS: seq<NotableMention> := [
    NotableMention("Lanelit", "https://lanelit.com", ["Web", "AI"])
  ]

  const PILLAR_FILTERS: seq<string> := [ALL, "Web", "AI", "Strategy"]

  /** The slugs of the case studies, in order. */
  function Slugs(studies: seq<CaseStudy>): (slugs: seq<string>)
    ensures |slugs| == |studies|
    ensures forall i | 0 <= i < |studies| :: slugs[i] == studies[i].slug
  {
    seq(|studies|, i requires 0 <= i < |studies| => studies[i].slug)
  }

  /** No two entries of `s` are equal. */
  predicate Distinct(s: seq<string>) {
    forall i, j | 0 <= i < j < |s| :: s[i] != s[j]
  }

  /** The shipped case studies have pairwise different slugs. */
  lemma ShippedSlugsDistinct()
    ensures Distinct(Slugs(CASE_STUDIES))
  {
    var slugs := Slugs(CASE_STUDIES);
    assert slugs[0] == "shan-fisher-education" && slugs[1] == "elena-givone-academy" && slugs[2] == "showcase-ventures";
    assert slugs[0][0] != slugs[1][0] && slugs[1][0] != slugs[2][0];
    assert slugs[0][2] != slugs[2][2];
  }
}
