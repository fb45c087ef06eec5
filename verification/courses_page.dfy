/** The course catalogue page (`/courses`): every course of the content service, each
    with the number of comments tagged with its id, filtered by a search submitted from
    the search form. Rendered on the server only for a signed-in user. */
module CoursesPage {
  import opened Base
  import opened Text
  import opened Schema
  import opened Purchases

  /** The comments whose `lesson_id` is `id`, in order. */
  function CommentsOn(comments: seq<Comment>, id: string): (r: seq<Comment>)
    ensures forall c :: c in r <==> c in comments && c.lessonId == id
    ensures forall c :: multiset(r)[c] == if c.lessonId == id then multiset(comments)[c] else 0
    ensures |r| <= |comments|
    ensures comments == [] ==> r == []
  {
    var p := (c: Comment) => c.lessonId == id;
    FilterCounts(comments, p);
    Filter(comments, p)
  }

  lemma CommentsOnAppend(comments: seq<Comment>, c: Comment, id: string)
    ensures CommentsOn(comments + [c], id) == CommentsOn(comments, id) + (if c.lessonId == id then [c] else [])
  {
    FilterAppend(comments, c, (x: Comment) => x.lessonId == id);
  }

  /** Counting one more comment of a list extends the counted comments by it exactly
      when it is tagged with `id`. */
  lemma CommentsOnPrefix(comments: seq<Comment>, i: nat, id: string)
    requires i < |comments|
    ensures CommentsOn(comments[..i + 1], id) ==
            CommentsOn(comments[..i], id) + (if comments[i].lessonId == id then [comments[i]] else [])
  {
    assert comments[..i + 1] == comments[..i] + [comments[i]];
    CommentsOnAppend(comments[..i], comments[i], id);
  }

  /** `calcCommentsCount`: pushes every comment on `id` into a list and answers its
      length. */
  method CalcCommentsCount(comments: seq<Comment>, id: string) returns (n: nat)
    ensures n == |CommentsOn(comments, id)|
    ensures n <= |comments|
    ensures comments == [] ==> n == 0
  {
    var res: seq<Comment> := [];
    var i := 0;
    while i < |comments|
      invariant 0 <= i <= |comments|
      invariant res == CommentsOn(comments[..i], id)
    {
      CommentsOnPrefix(comments, i, id);
      if comments[i].lessonId == id {
        res := res + [comments[i]];
      }
      i := i + 1;
    }
    assert comments[..i] == comments;
    n := |res|;
  }

  /** `filteredCollection`: the courses whose lower-cased title contains the lower-cased
      filter, in order. */
  function FilteredCollection(courses: seq<CourseItem>, filter: string): (r: seq<CourseItem>)
    ensures forall c :: c in r <==> c in courses && Includes(ToLower(c.title), ToLower(filter))
    ensures forall c :: multiset(r)[c] == if Includes(ToLower(c.title), ToLower(filter)) then multiset(courses)[c] else 0
    ensures IsSubsequence(r, courses)
    ensures filter == "" ==> r == courses
  {
    var p := (c: CourseItem) => Includes(ToLower(c.title), ToLower(filter));
    FilterCounts(courses, p);
    FilterIsSubsequence(courses, p);
    assert filter == "" ==> forall i :: 0 <= i < |courses| ==> p(courses[i]) by {
      if filter == "" {
        forall i | 0 <= i < |courses| {
          EmptyIncluded(ToLower(courses[i].title));
        }
      }
    }
    Filter(courses, p)
  }

  /** One rendered course card. */
  datatype Card = Card(course: CourseItem, commentsCnt: nat)

  /** The cards of the page: one per filtered course, in order, each counting the
      comments tagged with the course's own id. Counting reads the comment list, so with
      no comment data the render throws (`None`) as soon as there is a card to count for. */
  function Cards(courses: seq<CourseItem>, filter: string, comments: Option<seq<Comment>>): (r: Option<seq<Card>>)
    ensures r.None? <==> comments.None? && FilteredCollection(courses, filter) != []
    ensures r.Some? ==> |r.value| == |FilteredCollection(courses, filter)|
    ensures r.Some? ==> forall i :: 0 <= i < |r.value| ==>
              && r.value[i].course == FilteredCollection(courses, filter)[i]
              && r.value[i].commentsCnt == |CommentsOn(comments.value, r.value[i].course.id)|
  {
    var shown := FilteredCollection(courses, filter);
    if shown == [] then Some([])
    else if comments.None? then None
    else Some(MapSeq(shown, (c: CourseItem) => Card(c, |CommentsOn(comments.value, c.id)|)))
  }

  /** A card's count is the number of comments tagged with that course's id, so it
      never exceeds the number of comments. */
  lemma CardCountsCommentsOfCourse(courses: seq<CourseItem>, filter: string, comments: seq<Comment>)
    ensures var r := Cards(courses, filter, Some(comments));
            && r.Some?
            && forall i :: 0 <= i < |r.value| ==>
                 && r.value[i].commentsCnt <= |comments|
                 && (forall c :: c in comments && c.lessonId == r.value[i].course.id ==>
                       c in CommentsOn(comments, r.value[i].course.id))
  {
  }

  /** The page's search state. */
  class CoursesSearch {
    var searchVal: string
    var filter: string

    constructor ()
      ensures searchVal == "" && filter == ""
    {
      searchVal := "";
      filter := "";
    }

    /** The courses on screen. */
    function Shown(courses: seq<CourseItem>): seq<CourseItem>
      reads this
    {
      FilteredCollection(courses, filter)
    }

    /** Typing in the search form changes the search text only. */
    method SetSearchVal(v: string)
      modifies this
      ensures searchVal == v && filter == old(filter)
    {
      searchVal := v;
    }

    /** `handleFilter`: submitting the form copies the search text into the filter. */
    method HandleFilter()
      modifies this
      ensures filter == old(searchVal) && searchVal == old(searchVal)
    {
      filter := searchVal;
    }
  }

  /** What the server renders the page with. */
  datatype CoursesProps =
    | CoursesRedirect(redirect: Redirect)
    | CoursesProps(allCourses: seq<CourseItem>, purchasedCourseIds: seq<string>, comments: Option<seq<Comment>>)

  function CoursesServerProps(courses: seq<CourseItem>, user: Option<AuthUser>,
                              purchases: seq<PurchasedCourse>, purchasesOk: bool,
                              comments: seq<Comment>, commentsOk: bool): CoursesProps
  {
    if user.None? then CoursesRedirect(ToSignIn)
    else CoursesProps(courses, CourseIds(PurchaseData(purchases, user.value.id, purchasesOk)),
                      if commentsOk then Some(comments) else None)
  }

  /** `getServerSideProps`. */
  method GetServerSideProps(courses: seq<CourseItem>, user: Option<AuthUser>,
                            purchases: seq<PurchasedCourse>, purchasesOk: bool,
                            comments: seq<Comment>, commentsOk: bool) returns (r: CoursesProps)
    ensures r == CoursesServerProps(courses, user, purchases, purchasesOk, comments, commentsOk)
  {
    if user.None? {
      return CoursesRedirect(ToSignIn);
    }
    var ids := CollectCourseIds(PurchaseData(purchases, user.value.id, purchasesOk));
    r := CoursesProps(courses, ids, if commentsOk then Some(comments) else None);
  }

  /** Without a session the page redirects to the sign-in page. */
  lemma NoSessionRedirects(courses: seq<CourseItem>, purchases: seq<PurchasedCourse>, purchasesOk: bool,
                           comments: seq<Comment>, commentsOk: bool)
    ensures CoursesServerProps(courses, None, purchases, purchasesOk, comments, commentsOk) ==
            CoursesRedirect(Redirect(false, "/signin"))
  {
  }

  /** With a session, the page gets every course, the ids of the user's purchases and
      the comments. */
  lemma SessionProps(courses: seq<CourseItem>, user: AuthUser, purchases: seq<PurchasedCourse>,
                     comments: seq<Comment>)
    ensures var r := CoursesServerProps(courses, Some(user), purchases, true, comments, true);
            && r.CoursesProps? && r.allCourses == courses && r.comments == Some(comments)
            && forall c :: c in r.purchasedCourseIds <==>
                 exists p :: p in purchases && p.userId == user.id && p.courseId == c
  {
    CourseIdsAreUsersCourses(purchases, user.id);
  }
}
