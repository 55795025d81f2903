/**
 * The portfolio page's pillar filter: the active filter selects the case
 * studies and notable mentions whose pillars include it ("All" selects
 * everything), and decides whether the mentions block and the empty-state
 * notice are shown.
 */
module WorkGrid {
  import opened SiteData
  import opened Lists

  /** The filter the grid starts with. */
  const INITIAL_FILTER := ALL

  /** `active === "All" ? items : items.filter((s) => s.pillars.includes(active))`. */
  function Visible<T(!new)>(items: seq<T>, pillarsOf: T -> seq<string>, active: string): (r: seq<T>)
    ensures active == ALL ==> r == items
    ensures forall x :: x in r <==> x in items && (active == ALL || active in pillarsOf(x))
  {
    if active == ALL then items else Keep(items, x => active in pillarsOf(x))
  }

  function StudyPillars(s: CaseStudy): seq<string> { s.pillars }

  function MentionPillars(m: NotableMention): seq<string> { m.pillars }

  /** `filteredStudies`. */
  function FilteredStudies(active: string): (r: seq<CaseStudy>)
    ensures forall s :: s in r <==> s in CASE_STUDIES && (active == ALL || active in s.pillars)
  {
    Visible(CASE_STUDIES, StudyPillars, active)
  }

  /** `filteredMentions`. */
  function FilteredMentions(active: string): (r: seq<NotableMention>)
    ensures forall m :: m in r <==> m in NOTABLE_MENTIONS && (active == ALL || active in m.pillars)
  {
    Visible(NOTABLE_MENTIONS, MentionPillars, active)
  }

  /** What the grid shows for a filter. */
  datatype GridView = GridView(
    studies: seq<CaseStudy>,
    mentions: seq<NotableMention>,
    showMentions: bool,
    showEmptyNotice: bool)

  /** The rendered grid: the mentions block needs a mention, the notice needs `!hasResults`. */
  function View(active: string): (v: GridView)
    ensures v.studies == FilteredStudies(active) && v.mentions == FilteredMentions(active)
    ensures v.showMentions <==> v.mentions != []
    ensures v.showEmptyNotice <==> v.studies == [] && v.mentions == []
  {
    var studies := FilteredStudies(active);
    var mentions := FilteredMentions(active);
    var hasResults := |studies| > 0 || |mentions| > 0;
    GridView(studies, mentions, |mentions| > 0, !hasResults)
  }

  /** Whatever the filter, the list keeps the original order and every copy of the items it keeps. */
  lemma VisibleIsSublist<T(!new)>(items: seq<T>, pillarsOf: T -> seq<string>, active: string)
    ensures SubsequenceOf(Visible(items, pillarsOf, active), items)
    ensures forall x :: (multiset(Visible(items, pillarsOf, active))[x] ==
      if active == ALL || active in pillarsOf(x) then multiset(items)[x] else 0)
  {
    if active == ALL {
      SubsequenceOfSelf(items);
    } else {
      var keep := x => active in pillarsOf(x);
      KeepIsSubsequence(items, keep);
      forall x
        ensures multiset(Keep(items, keep))[x] == if keep(x) then multiset(items)[x] else 0
      {
        KeepCounts(items, keep, x);
      }
    }
  }

  /** The grid starts on "All", which shows both lists unchanged. */
  lemma InitialViewShowsEverything()
    ensures View(INITIAL_FILTER).studies == CASE_STUDIES
    ensures View(INITIAL_FILTER).mentions == NOTABLE_MENTIONS
    ensures !View(INITIAL_FILTER).showEmptyNotice
  {
  }

  /**
   * For a pillar filter, the notice shows exactly when no case study and no
   * mention carries that pillar.
   */
  lemma EmptyNoticeIffNoItemHasPillar(active: string)
    requires active != ALL
    ensures View(active).showEmptyNotice <==>
      && (forall s | s in CASE_STUDIES :: active !in s.pillars)
      && (forall m | m in NOTABLE_MENTIONS :: active !in m.pillars)
  {
    var v := View(active);
    if !v.showEmptyNotice {
      if v.studies != [] {
        assert v.studies[0] in v.studies;
      } else {
        assert v.mentions[0] in v.mentions;
      }
    }
  }

  /** With the shipped data, no filter button leads to the empty notice. */
  lemma EveryFilterHasResults(active: string)
    requires active in PILLAR_FILTERS
    ensures !View(active).showEmptyNotice
  {
    if active != ALL {
      assert active in CASE_STUDIES[0].pillars;
      EmptyNoticeIffNoItemHasPillar(active);
      assert CASE_STUDIES[0] in CASE_STUDIES;
    }
  }
}
