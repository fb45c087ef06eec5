/** The "My Courses" page (`/mycourses`): the courses of the catalogue the signed-in user
    has bought, in catalogue order, each marked as purchased. */
module MyCoursesPage {
  import opened Base
  import opened Schema
  import opened Purchases

  /** A rendered course card and the purchase flag it is given. */
  datatype Rendered = Rendered(course: CourseItem, isPurchased: bool)

  /** The props the server hands the page. Without a session they hold only a redirect
      object, which the page does not act on. */
  datatype MyCoursesProps = MyCoursesProps(
    allCourses: Option<seq<CourseItem>>,
    purchasedCourseIds: Option<seq<string>>,
    redirect: Option<Redirect>)

  /** The courses of `all` whose id is among `ids`, in catalogue order. */
  function PurchasedOnly(all: seq<CourseItem>, ids: seq<string>): (r: seq<CourseItem>)
    ensures forall c :: c in r <==> c in all && c.id in ids
    ensures forall c :: multiset(r)[c] == if c.id in ids then multiset(all)[c] else 0
    ensures IsSubsequence(r, all)
  {
    var p := (c: CourseItem) => c.id in ids;
    FilterCounts(all, p);
    FilterIsSubsequence(all, p);
    Filter(all, p)
  }

  /** The render: a card with `isPurchased` for each course whose id is among the
      purchased ids. No course list renders nothing; a course list without ids throws
      (`None`) at the first course. */
  function Render(props: MyCoursesProps): (r: Option<seq<Rendered>>)
    ensures props.allCourses.None? ==> r == Some([])
    ensures props.allCourses.Some? && props.purchasedCourseIds.Some? ==>
              && r.Some?
              && |r.value| == |PurchasedOnly(props.allCourses.value, props.purchasedCourseIds.value)|
              && forall i :: 0 <= i < |r.value| ==>
                   r.value[i] == Rendered(PurchasedOnly(props.allCourses.value, props.purchasedCourseIds.value)[i], true)
    ensures r.None? <==> props.allCourses.Some? && props.allCourses.value != [] && props.purchasedCourseIds.None?
  {
    match (props.allCourses, props.purchasedCourseIds)
    case (None, _) => Some([])
    case (Some(all), None) => if all == [] then Some([]) else None
    case (Some(all), Some(ids)) => Some(MapSeq(PurchasedOnly(all, ids), (c: CourseItem) => Rendered(c, true)))
  }

  function MyCoursesServerProps(courses: seq<CourseItem>, user: Option<AuthUser>,
                                purchases: seq<PurchasedCourse>, purchasesOk: bool): MyCoursesProps
  {
    if user.None? then MyCoursesProps(None, None, Some(ToSignIn))
    else MyCoursesProps(Some(courses), Some(CourseIds(PurchaseData(purchases, user.value.id, purchasesOk))), None)
  }

  /** `getServerSideProps`. */
  method GetServerSideProps(courses: seq<CourseItem>, user: Option<AuthUser>,
                            purchases: seq<PurchasedCourse>, purchasesOk: bool) returns (r: MyCoursesProps)
    ensures r == MyCoursesServerProps(courses, user, purchases, purchasesOk)
  {
    if user.None? {
      return MyCoursesProps(None, None, Some(ToSignIn));
    }
    var ids := CollectCourseIds(PurchaseData(purchases, user.value.id, purchasesOk));
    r := MyCoursesProps(Some(courses), Some(ids), None);
  }

  /** Without a session the sign-in redirect is only a prop: the page renders, and
      shows no course. */
  lemma NoSessionRendersNothing(courses: seq<CourseItem>, purchases: seq<PurchasedCourse>, purchasesOk: bool)
    ensures var p := MyCoursesServerProps(courses, None, purchases, purchasesOk);
            p.redirect == Some(Redirect(false, "/signin")) && Render(p) == Some([])
  {
  }

  /** The courses kept by the purchase filter are exactly the catalogue courses the user
      bought. */
  lemma PurchasedOnlyIsBought(courses: seq<CourseItem>, user: AuthUser, purchases: seq<PurchasedCourse>)
    ensures forall c :: c in PurchasedOnly(courses, CourseIds(PurchaseData(purchases, user.id, true))) <==>
                        c in courses && exists p :: p in purchases && p.userId == user.id && p.courseId == c.id
  {
    CourseIdsAreUsersCourses(purchases, user.id);
  }

  /** The cards rendered for a course list and purchased ids are the courses the filter
      keeps, each marked as purchased. */
  lemma RenderShowsPurchasedOnly(all: seq<CourseItem>, ids: seq<string>)
    ensures var r := Render(MyCoursesProps(Some(all), Some(ids), None));
            && r.Some?
            && (forall x :: x in r.value ==> x.isPurchased)
            && (forall c :: (exists x :: x in r.value && x.course == c) <==> c in PurchasedOnly(all, ids))
  {
    var shown := PurchasedOnly(all, ids);
    var r := Render(MyCoursesProps(Some(all), Some(ids), None));
    assert |r.value| == |shown| && forall i :: 0 <= i < |r.value| ==> r.value[i] == Rendered(shown[i], true);
    forall c
      ensures (exists x :: x in r.value && x.course == c) <==> c in shown
    {
      if exists x :: x in r.value && x.course == c {
        var x :| x in r.value && x.course == c;
        var i :| 0 <= i < |r.value| && r.value[i] == x;
        assert shown[i] == c;
      }
      if c in shown {
        var i :| 0 <= i < |shown| && shown[i] == c;
        assert r.value[i] in r.value;
      }
    }
  }

  /** With a session, the page shows exactly the catalogue courses the user bought, in
      catalogue order, each marked as purchased. */
  lemma {:induction false} RendersExactlyBoughtCourses(courses: seq<CourseItem>, user: AuthUser,
                                                        purchases: seq<PurchasedCourse>)
    ensures var r := Render(MyCoursesServerProps(courses, Some(user), purchases, true));
            && r.Some?
            && (forall x :: x in r.value ==> x.isPurchased)
            && (forall c :: (exists x :: x in r.value && x.course == c) <==>
                  c in courses && exists p :: p in purchases && p.userId == user.id && p.courseId == c.id)
  {
    var ids := CourseIds(PurchaseData(purchases, user.id, true));
    assert MyCoursesServerProps(courses, Some(user), purchases, true) == MyCoursesProps(Some(courses), Some(ids), None);
    RenderShowsPurchasedOnly(courses, ids);
    PurchasedOnlyIsBought(courses, user, purchases);
  }
}
