/** Rows of the hosted database tables the core reads and writes. */
module Schema {
  import opened Base

  /** A row of `scheduled_meetings`: one per (meeting, participant) pair. `id` is the
      row's primary key, assigned by the database on insert. */
  datatype ScheduledMeeting = ScheduledMeeting(
    id: nat,
    meetingId: string,
    userEmail: string,
    zoomLink: string,
    startTime: int,
    endTime: int,
    allowedToEdit: bool,
    title: string,
    description: string,
    insertedAt: int,
    updatedAt: int)

  /** A row of `purchased_courses`. */
  datatype PurchasedCourse = PurchasedCourse(userId: string, courseId: string)

  /** A row of `comments`; `lessonId` is the id of the content item commented on. */
  datatype Comment = Comment(userId: string, lessonId: string, content: string)

  /** A row of `users`. */
  datatype UserRow = UserRow(id: string, email: string)

  /** A row of `admin-user`. */
  datatype AdminUser = AdminUser(adminId: string)

  /** An account of the authentication service. */
  datatype AuthUser = AuthUser(id: string, email: Option<string>)

  /** A course entry of the content service: its `sys.id` and title. */
  datatype CourseItem = CourseItem(id: string, title: string)

  /** A lesson entry of the content service: its `sys.id` and title. */
  datatype Lesson = Lesson(id: string, title: string)
}
