/** The lesson lists beside a lesson (`components/lessons/mobile.tsx` and `web.tsx`).
    Both filter the course's lessons by a search text; the mobile list shows the first
    three until "View All" is clicked and highlights the current lesson, the web list
    shows them all. */
module Lessons {
  import opened Base
  import opened Text
  import opened Schema

  /** The test both lists apply: an empty filter passes every lesson, otherwise the
      upper-cased filter must occur in the upper-cased title. */
  predicate LessonMatches(title: string, filter: string)
  {
    filter == "" || IndexOf(ToUpper(title), ToUpper(filter)) >= 0
  }

  /** The list's effect: the lessons that pass, in course order. */
  function FilterLessons(lessons: seq<Lesson>, filter: string): (r: seq<Lesson>)
    ensures forall l :: l in r <==> l in lessons && LessonMatches(l.title, filter)
    ensures forall l :: multiset(r)[l] == if LessonMatches(l.title, filter) then multiset(lessons)[l] else 0
    ensures IsSubsequence(r, lessons)
    ensures filter == "" ==> r == lessons
  {
    var p := (l: Lesson) => LessonMatches(l.title, filter);
    FilterCounts(lessons, p);
    FilterIsSubsequence(lessons, p);
    Filter(lessons, p)
  }

  /** Over ASCII the test is the case-insensitive `includes` of the other pages, and
      the empty-filter shortcut changes nothing. */
  lemma MatchesIsCaseInsensitiveIncludes(title: string, filter: string)
    ensures LessonMatches(title, filter) <==> Includes(ToUpper(title), ToUpper(filter))
    ensures LessonMatches(title, filter) <==> Includes(ToLower(title), ToLower(filter))
  {
    UpperMatchIffLowerMatch(title, filter);
    if filter == "" {
      EmptyIncluded(ToUpper(title));
    }
  }

  /** The link of a lesson of course `courseId`. */
  function LessonHref(courseId: string, lessonId: string): string
  {
    "/courses/" + courseId + "/lessons/" + lessonId
  }

  /** Within one course, different lessons get different links. */
  lemma HrefDeterminesLesson(courseId: string, a: string, b: string)
    requires LessonHref(courseId, a) == LessonHref(courseId, b)
    ensures a == b
  {
    var prefix := "/courses/" + courseId + "/lessons/";
    assert LessonHref(courseId, a)[|prefix|..] == a;
    assert LessonHref(courseId, b)[|prefix|..] == b;
  }

  /** A rendered entry: its link, its title and whether it is highlighted. */
  datatype LessonLink = LessonLink(href: string, title: string, highlighted: bool)

  /** How many entries the mobile list renders: indices past 2 are skipped until
      `viewAll`. */
  function MobileCount(n: nat, viewAll: bool): nat
  {
    if viewAll || n <= 3 then n else 3
  }

  /** The mobile list: the first entries of `lessons`, the one at `lessonNumber`
      highlighted. */
  function MobileLinks(lessons: seq<Lesson>, courseId: string, lessonNumber: int, viewAll: bool): (r: seq<LessonLink>)
    ensures |r| <= |lessons|
    ensures !viewAll ==> |r| <= 3
    ensures viewAll ==> |r| == |lessons|
    ensures |lessons| <= 3 ==> |r| == |lessons|
    ensures forall i :: 0 <= i < |r| ==>
              r[i] == LessonLink(LessonHref(courseId, lessons[i].id), lessons[i].title, i == lessonNumber)
  {
    seq(MobileCount(|lessons|, viewAll), i requires 0 <= i < MobileCount(|lessons|, viewAll) =>
      LessonLink(LessonHref(courseId, lessons[i].id), lessons[i].title, i == lessonNumber))
  }

  /** The "View All" control is shown until clicked, when there are more than two
      lessons. */
  predicate ShowViewAll(lessons: seq<Lesson>, viewAll: bool)
  {
    !viewAll && |lessons| > 2
  }

  /** Whenever the mobile list hides a lesson, "View All" is shown. */
  lemma HiddenLessonsOfferViewAll(lessons: seq<Lesson>, courseId: string, lessonNumber: int, viewAll: bool)
    requires |MobileLinks(lessons, courseId, lessonNumber, viewAll)| < |lessons|
    ensures ShowViewAll(lessons, viewAll)
  {
  }

  /** With exactly three lessons, "View All" is shown although nothing is hidden. */
  lemma ViewAllShownForThree(lessons: seq<Lesson>, courseId: string, lessonNumber: int)
    requires |lessons| == 3
    ensures ShowViewAll(lessons, false)
    ensures |MobileLinks(lessons, courseId, lessonNumber, false)| == |lessons|
  {
  }

  /** After "View All" is clicked every filtered lesson is listed, and the control is
      gone. */
  lemma ViewAllListsEverything(lessons: seq<Lesson>, courseId: string, lessonNumber: int)
    ensures |MobileLinks(lessons, courseId, lessonNumber, true)| == |lessons|
    ensures !ShowViewAll(lessons, true)
  {
  }

  /** At most one entry is highlighted, and exactly one when `lessonNumber` is the
      index of a listed entry. */
  lemma OneHighlight(lessons: seq<Lesson>, courseId: string, lessonNumber: int, viewAll: bool)
    ensures var r := MobileLinks(lessons, courseId, lessonNumber, viewAll);
            && (forall i, j :: 0 <= i < j < |r| ==> !(r[i].highlighted && r[j].highlighted))
            && (0 <= lessonNumber < |r| ==> r[lessonNumber].highlighted)
  {
  }

  /** The web list: every filtered lesson, nothing highlighted. */
  function WebLinks(lessons: seq<Lesson>, courseId: string): (r: seq<LessonLink>)
    ensures |r| == |lessons|
    ensures forall i :: 0 <= i < |r| ==>
              r[i] == LessonLink(LessonHref(courseId, lessons[i].id), lessons[i].title, false)
  {
    MapSeq(lessons, (l: Lesson) => LessonLink(LessonHref(courseId, l.id), l.title, false))
  }

  /** The web list links the same lessons, in the same order, as the expanded mobile
      list. */
  lemma WebMatchesExpandedMobile(lessons: seq<Lesson>, courseId: string, lessonNumber: int)
    ensures var w := WebLinks(lessons, courseId);
            var m := MobileLinks(lessons, courseId, lessonNumber, true);
            |w| == |m| && forall i :: 0 <= i < |w| ==> w[i].href == m[i].href && w[i].title == m[i].title
  {
  }
}
