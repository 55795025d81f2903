/**
 * The sitemap: the five static pages, then one entry per case study, in the
 * order of the case-study list. Priorities are kept in tenths.
 */
module Sitemap {
  import opened Strings
  import opened SiteData

  const BASE := "https://honestudio.co"
  const WORK_PREFIX := BASE + "/work/"

  /** One `<url>` entry; `priority` is in tenths (7 stands for 0.7). */
  datatype Entry = Entry(url: string, priority: nat)

  const STATIC_PAGES: seq<Entry> := [
    Entry(BASE, 10),
    Entry(BASE + "/services", 9),
    Entry(BASE + "/work", 9),
    Entry(BASE + "/about", 8),
    Entry(BASE + "/contact", 8)
  ]

  /** The entry of one case study. */
  function StudyEntry(slug: string): (e: Entry)
    ensures e.url == WORK_PREFIX + slug && e.priority == 7
  {
    Entry(BASE + "/work/" + slug, 7)
  }

  /** `sitemap()` for the given case studies. */
  function Entries(studies: seq<CaseStudy>): (r: seq<Entry>)
    ensures |r| == |STATIC_PAGES| + |studies|
    ensures forall i | 0 <= i < |STATIC_PAGES| :: r[i] == STATIC_PAGES[i]
    ensures forall i | |STATIC_PAGES| <= i < |r| :: r[i] == StudyEntry(studies[i - |STATIC_PAGES|].slug)
  {
    STATIC_PAGES + seq(|studies|, i requires 0 <= i < |studies| => StudyEntry(studies[i].slug))
  }

  /** The shipped sitemap: 5 static pages and one entry per shipped case study. */
  function Sitemap(): (r: seq<Entry>)
    ensures |r| == 5 + |CASE_STUDIES|
  {
    Entries(CASE_STUDIES)
  }

  /** The URL of entry `i`: a static URL, or the case study's URL under /work/. */
  lemma EntryUrl(studies: seq<CaseStudy>, i: nat)
    requires i < |Entries(studies)|
    ensures i < |STATIC_PAGES| ==> Entries(studies)[i] == STATIC_PAGES[i]
    ensures i >= |STATIC_PAGES| ==> Entries(studies)[i].url == WORK_PREFIX + studies[i - |STATIC_PAGES|].slug
  {
  }

  lemma PrefixStarts(a: string, b: string)
    ensures StartsWith(a + b, a)
  {
    assert (a + b)[..|a|] == a;
  }

  /** Every URL is on the site's origin. */
  lemma AllUrlsUnderBase(studies: seq<CaseStudy>)
    ensures forall i | 0 <= i < |Entries(studies)| :: StartsWith(Entries(studies)[i].url, BASE)
  {
    forall i | 0 <= i < |Entries(studies)|
      ensures StartsWith(Entries(studies)[i].url, BASE)
    {
      EntryUrl(studies, i);
      if i >= |STATIC_PAGES| {
        PrefixStarts(BASE, "/work/" + studies[i - |STATIC_PAGES|].slug);
        assert WORK_PREFIX + studies[i - |STATIC_PAGES|].slug == BASE + ("/work/" + studies[i - |STATIC_PAGES|].slug);
      } else {
        StaticUnderBase(i);
      }
    }
  }

  lemma StaticUnderBase(i: nat)
    requires i < |STATIC_PAGES|
    ensures StartsWith(STATIC_PAGES[i].url, BASE)
  {
    var suffix := ["", "/services", "/work", "/about", "/contact"][i];
    assert STATIC_PAGES[i].url == BASE + suffix;
    PrefixStarts(BASE, suffix);
  }

  /** Priorities never increase down the list: 1, 0.9, 0.9, 0.8, 0.8, then 0.7 for every case study. */
  lemma PrioritiesDescend(studies: seq<CaseStudy>)
    ensures var r := Entries(studies);
      forall i, j | 0 <= i < j < |r| :: r[i].priority >= r[j].priority
    ensures var r := Entries(studies);
      forall i | |STATIC_PAGES| <= i < |r| :: r[i].priority == 7
  {
  }

  /** A case-study URL determines its slug. */
  lemma StudyUrlsInjective(a: string, b: string)
    requires StudyEntry(a).url == StudyEntry(b).url
    ensures a == b
  {
    assert a == StudyEntry(a).url[|WORK_PREFIX|..];
    assert b == StudyEntry(b).url[|WORK_PREFIX|..];
  }

  /** A case-study URL is never one of the static URLs. */
  lemma StudyUrlIsNotStatic(slug: string, i: nat)
    requires i < |STATIC_PAGES|
    ensures StudyEntry(slug).url != STATIC_PAGES[i].url
  {
    var u := StudyEntry(slug).url;
    var n := |BASE|;
    assert u[n..n + 6] == "/work/";
    if i == 2 {
      assert |STATIC_PAGES[i].url| == n + 5 < |u|;
    } else if i != 0 {
      assert STATIC_PAGES[i].url[n + 1] != u[n + 1];
    }
  }

  /** With distinct slugs, no URL appears twice. */
  lemma UrlsDistinct(studies: seq<CaseStudy>)
    requires Distinct(Slugs(studies))
    ensures forall i, j | 0 <= i < j < |Entries(studies)| :: Entries(studies)[i].url != Entries(studies)[j].url
  {
    forall i, j | 0 <= i < j < |Entries(studies)|
      ensures Entries(studies)[i].url != Entries(studies)[j].url
    {
      EntryPairDistinct(studies, i, j);
    }
  }

  lemma EntryPairDistinct(studies: seq<CaseStudy>, i: nat, j: nat)
    requires Distinct(Slugs(studies))
    requires i < j < |Entries(studies)|
    ensures Entries(studies)[i].url != Entries(studies)[j].url
  {
    var n := |STATIC_PAGES|;
    if j < n {
      EntryUrl(studies, i);
      EntryUrl(studies, j);
      StaticUrlsDistinct(i, j);
    } else if i < n {
      StaticStudyDistinct(studies, i, j);
    } else {
      StudyEntriesDistinct(studies, i, j);
    }
  }

  lemma StaticStudyDistinct(studies: seq<CaseStudy>, i: nat, j: nat)
    requires i < |STATIC_PAGES| <= j < |Entries(studies)|
    ensures Entries(studies)[i].url != Entries(studies)[j].url
  {
    EntryUrl(studies, i);
    EntryUrl(studies, j);
    StudyUrlIsNotStatic(studies[j - |STATIC_PAGES|].slug, i);
  }

  lemma StudyEntriesDistinct(studies: seq<CaseStudy>, i: nat, j: nat)
    requires Distinct(Slugs(studies))
    requires |STATIC_PAGES| <= i < j < |Entries(studies)|
    ensures Entries(studies)[i].url != Entries(studies)[j].url
  {
    EntryUrl(studies, i);
    EntryUrl(studies, j);
    StudyUrlsDistinct(studies, i - |STATIC_PAGES|, j - |STATIC_PAGES|);
  }

  lemma StudyUrlsDistinct(studies: seq<CaseStudy>, a: nat, b: nat)
    requires Distinct(Slugs(studies))
    requires a < b < |studies|
    ensures WORK_PREFIX + studies[a].slug != WORK_PREFIX + studies[b].slug
  {
    assert Slugs(studies)[a] != Slugs(studies)[b];
    if StudyEntry(studies[a].slug).url == StudyEntry(studies[b].slug).url {
      StudyUrlsInjective(studies[a].slug, studies[b].slug);
    }
  }

  /** The five static URLs differ from each other. */
  lemma StaticUrlsDistinct(i: nat, j: nat)
    requires i < j < |STATIC_PAGES|
    ensures STATIC_PAGES[i].url != STATIC_PAGES[j].url
  {
    var n := |BASE|;
    if i == 0 {
      assert |STATIC_PAGES[i].url| == n < |STATIC_PAGES[j].url|;
    } else {
      assert STATIC_PAGES[i].url[n + 1] != STATIC_PAGES[j].url[n + 1];
    }
  }

  /** The shipped sitemap lists each page once, the case studies under /work/ in list order. */
  lemma ShippedSitemap()
    ensures |Sitemap()| == 8
    ensures Sitemap()[5].url == WORK_PREFIX + "shan-fisher-education"
    ensures Sitemap()[6].url == WORK_PREFIX + "elena-givone-academy"
    ensures Sitemap()[7].url == WORK_PREFIX + "showcase-ventures"
    ensures forall i, j | 0 <= i < j < |Sitemap()| :: Sitemap()[i].url != Sitemap()[j].url
    ensures forall i | 0 <= i < |Sitemap()| :: StartsWith(Sitemap()[i].url, BASE)
  {
    ShippedSlugsDistinct();
    UrlsDistinct(CASE_STUDIES);
    AllUrlsUnderBase(CASE_STUDIES);
  }
}
