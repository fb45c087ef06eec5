/** What the course pages read of `purchased_courses` when they are rendered on the
    server, and the redirect they answer without a session. */
module Purchases {
  import opened Base
  import opened Schema

  /** A redirect of the page request. */
  datatype Redirect = Redirect(permanent: bool, destination: string)

  /** The redirect to the sign-in page, not permanent. */
  const ToSignIn := Redirect(false, "/signin")

  /** `select * from purchased_courses where user_id = userId`, in table order. */
  function PurchasesOf(rows: seq<PurchasedCourse>, userId: string): (r: seq<PurchasedCourse>)
    ensures forall p :: p in r <==> p in rows && p.userId == userId
    ensures forall p :: multiset(r)[p] == if p.userId == userId then multiset(rows)[p] else 0
    ensures IsSubsequence(r, rows)
  {
    var p := (x: PurchasedCourse) => x.userId == userId;
    FilterCounts(rows, p);
    FilterIsSubsequence(rows, p);
    Filter(rows, p)
  }

  /** The query's data: the selected rows, or nothing when the query failed. */
  function PurchaseData(rows: seq<PurchasedCourse>, userId: string, queryOk: bool): Option<seq<PurchasedCourse>>
  {
    if queryOk then Some(PurchasesOf(rows, userId)) else None
  }

  /** `purchasedCourseIds`: the `course_id` of each row of the data, in order; none when
      there is no data. */
  function CourseIds(data: Option<seq<PurchasedCourse>>): (r: seq<string>)
    ensures data.None? ==> r == []
    ensures data.Some? ==> |r| == |data.value| && forall i :: 0 <= i < |r| ==> r[i] == data.value[i].courseId
  {
    if data.None? then [] else MapSeq(data.value, (p: PurchasedCourse) => p.courseId)
  }

  /** The `forEach` loop that pushes each row's `course_id`. */
  method CollectCourseIds(data: Option<seq<PurchasedCourse>>) returns (ids: seq<string>)
    ensures ids == CourseIds(data)
  {
    ids := [];
    if data.Some? {
      var i := 0;
      while i < |data.value|
        invariant 0 <= i <= |data.value|
        invariant |ids| == i
        invariant forall k :: 0 <= k < i ==> ids[k] == data.value[k].courseId
      {
        ids := ids + [data.value[i].courseId];
        i := i + 1;
      }
    }
  }

  /** The collected ids are exactly the courses the user bought. */
  lemma CourseIdsAreUsersCourses(rows: seq<PurchasedCourse>, userId: string)
    ensures forall c :: c in CourseIds(PurchaseData(rows, userId, true)) <==>
                        exists p :: p in rows && p.userId == userId && p.courseId == c
  {
    var own := PurchasesOf(rows, userId);
    var ids := CourseIds(Some(own));
    forall c
      ensures c in ids <==> exists p :: p in rows && p.userId == userId && p.courseId == c
    {
      if c in ids {
        var i :| 0 <= i < |ids| && ids[i] == c;
        assert own[i] in own;
      }
      if exists p :: p in rows && p.userId == userId && p.courseId == c {
        var p :| p in rows && p.userId == userId && p.courseId == c;
        assert p in own;
        var i :| 0 <= i < |own| && own[i] == p;
        assert ids[i] == c;
      }
    }
  }
}
