/** The meeting booking endpoint (`/api/meetings`). It answers GET, POST, DELETE and
    PATCH over the `scheduled_meetings` table, which holds one row per
    (meeting, participant) pair, and talks to the video-conferencing provider.

    The pure functions below say what each request does to the table and what it
    answers; the class `ScheduledMeetingsTable` is the table itself, and its method
    `Handle` performs a request step by step and is proved to agree with them.
    The answers of the database and of the provider are the fields of `Env`. */
module MeetingsApi {
  import opened Base
  import opened Text
  import opened Time
  import opened Schema
  import Zoom

  datatype HttpMethod = Get | Post | Delete | Patch | OtherMethod

  /** The JSON body (`IBody`); the start time is the instant its text denotes. */
  datatype Body = Body(
    attendeeEmails: seq<string>,
    startTime: int,
    title: string,
    description: string,
    adminEmail: string)

  /** A request: its method, the query parameters `email` and `meeting_id`, and the body. */
  datatype Request = Request(verb: HttpMethod, email: Option<string>, meetingId: Option<string>, body: Body)

  /** Everything the handler learns from outside: the session, the clock, the token
      signer, and the outcome of each database query and provider call. */
  datatype Env = Env(
    user: Option<AuthUser>,
    now: int,
    zoomAdminId: string,
    sign: Zoom.JwtPayload -> string,
    selectOk: bool,
    usersQueryOk: bool,
    scheduleQueryOk: bool,
    create: Zoom.CreateReply,
    insertOk: bool,
    lookup: Zoom.LookupReply,
    deleteOk: bool,
    updateAccepted: bool,
    updateOk: bool)

  datatype Status = Completed | NotCompleted | Deleted

  datatype Response =
    | Reply(code: int, error: bool, status: Status, reason: Option<string>,
            meetingLink: Option<string>, meetingsData: Option<seq<ScheduledMeeting>>)
    | Threw    // an exception escaped the handler
    | NoReply  // the method is not handled and nothing is sent

  /** The provider request a handler run made, if any. */
  datatype RemoteCall =
    | NoCall
    | CreateCall(create: Zoom.CreatePayload, token: string)
    | UpdateCall(meetingId: string, update: Zoom.UpdatePayload, token: string)
    | LookupCall(meetingId: string, token: string)

  /** The answer, the new table and row-id counter, and the provider request made. */
  datatype Outcome = Outcome(response: Response, rows: seq<ScheduledMeeting>, nextId: nat, call: RemoteCall)

  function Failure(code: int, reason: string): Response
  {
    Reply(code, true, NotCompleted, Some(reason), None, None)
  }

  const Minutes: int := 60

  // ---------------------------------------------------------------- GET

  /** `select * from scheduled_meetings where user_email = email`, in table order. */
  function RowsOf(rows: seq<ScheduledMeeting>, email: string): (r: seq<ScheduledMeeting>)
    ensures forall m :: m in r <==> m in rows && m.userEmail == email
    ensures forall m :: multiset(r)[m] == if m.userEmail == email then multiset(rows)[m] else 0
    ensures IsSubsequence(r, rows)
  {
    var p := (m: ScheduledMeeting) => m.userEmail == email;
    FilterCounts(rows, p);
    FilterIsSubsequence(rows, p);
    Filter(rows, p)
  }

  /** The email guard of GET: a present, non-empty email of at most 9 UTF-16 code units. */
  predicate BadQueryEmail(email: Option<string>)
  {
    !Falsy(email) && Utf16Length(email.value) <= 9
  }

  function GetOutcome(rows: seq<ScheduledMeeting>, nextId: nat, email: Option<string>, env: Env): Outcome
  {
    if BadQueryEmail(email) then Outcome(Failure(400, "Email not valid"), rows, nextId, NoCall)
    else if !env.selectOk then Outcome(Failure(500, "Supabase error"), rows, nextId, NoCall)
    else Outcome(Reply(200, false, Completed, None, None, Some(RowsOf(rows, QueryText(email)))), rows, nextId, NoCall)
  }

  // ---------------------------------------------------------------- POST

  /** The first POST guard: no attendee, or an admin email of at most 9 UTF-16 code units. */
  predicate BadEmails(body: Body)
  {
    |body.attendeeEmails| < 1 || Utf16Length(body.adminEmail) <= 9
  }

  /** The second POST guard: description under 5 or title under 3 UTF-16 code units. */
  predicate BadText(body: Body)
  {
    Utf16Length(body.description) < 5 || Utf16Length(body.title) < 3
  }

  /** `InstructorsSchedule`: the UTC strings of the admin's booked start times. */
  function InstructorSchedule(rows: seq<ScheduledMeeting>, adminEmail: string): seq<int>
  {
    MapSeq(RowsOf(rows, adminEmail), (m: ScheduledMeeting) => UtcSecond(m.startTime))
  }

  /** `InstructorsSchedule.includes(StartTimeForMeeting)`. */
  predicate InstructorBusy(rows: seq<ScheduledMeeting>, adminEmail: string, start: int)
  {
    UtcSecond(start) in InstructorSchedule(rows, adminEmail)
  }

  /** The instructor is busy exactly when one of their rows starts in the same second. */
  lemma InstructorBusyIff(rows: seq<ScheduledMeeting>, adminEmail: string, start: int)
    ensures InstructorBusy(rows, adminEmail, start) <==>
            exists m :: m in rows && m.userEmail == adminEmail && UtcSecond(m.startTime) == UtcSecond(start)
  {
    var own := RowsOf(rows, adminEmail);
    if InstructorBusy(rows, adminEmail, start) {
      var i :| 0 <= i < |own| && InstructorSchedule(rows, adminEmail)[i] == UtcSecond(start);
      assert own[i] in own;
    }
    if exists m :: m in rows && m.userEmail == adminEmail && UtcSecond(m.startTime) == UtcSecond(start) {
      var m :| m in rows && m.userEmail == adminEmail && UtcSecond(m.startTime) == UtcSecond(start);
      assert m in own;
      var i :| 0 <= i < |own| && own[i] == m;
      assert InstructorSchedule(rows, adminEmail)[i] == UtcSecond(start);
    }
  }

  /** `parsed_attendee_emails`: each attendee email wrapped as `{email}`. */
  function WrapAttendees(emails: seq<string>): (r: seq<Zoom.Invitee>)
    ensures |r| == |emails|
    ensures forall i :: 0 <= i < |emails| ==> r[i].email == emails[i]
  {
    MapSeq(emails, (e: string) => Zoom.Invitee(e))
  }

  /** The create request POST sends: the argument order of the call site puts the body's
      description in the description slot and its title in the title slot; the
      alternative hosts are `[''].join(';')`, the empty string. */
  function PostPayload(body: Body): Zoom.CreatePayload
  {
    Zoom.CreateMeetingPayload(body.adminEmail, body.startTime, body.description, body.title,
                              "", WrapAttendees(body.attendeeEmails))
  }

  /** The fields every inserted row of one booking shares. */
  datatype Draft = Draft(meetingId: string, zoomLink: string, startTime: int, endTime: int,
                         title: string, description: string, insertedAt: int)

  function RowFor(id: nat, email: string, d: Draft): ScheduledMeeting
  {
    ScheduledMeeting(id, d.meetingId, email, d.zoomLink, d.startTime, d.endTime, true,
                     d.title, d.description, d.insertedAt, d.insertedAt)
  }

  /** `meetings_insert_data`: one row per attendee in order, then one for the admin,
      with consecutive row ids from `firstId`. */
  function InsertData(firstId: nat, attendees: seq<string>, adminEmail: string, d: Draft): (r: seq<ScheduledMeeting>)
    ensures |r| == |attendees| + 1
    ensures forall i :: 0 <= i < |r| ==>
              r[i] == RowFor(firstId + i, if i < |attendees| then attendees[i] else adminEmail, d)
  {
    seq(|attendees| + 1, i requires 0 <= i <= |attendees| =>
      RowFor(firstId + i, if i < |attendees| then attendees[i] else adminEmail, d))
  }

  /** Rows numbered on from the counter keep every id below the advanced counter and
      no two ids equal. */
  lemma AppendNumberedRows(rows: seq<ScheduledMeeting>, nextId: nat, data: seq<ScheduledMeeting>)
    requires forall m :: m in rows ==> m.id < nextId
    requires DistinctKeys(rows, (m: ScheduledMeeting) => m.id)
    requires forall i :: 0 <= i < |data| ==> data[i].id == nextId + i
    ensures forall m :: m in rows + data ==> m.id < nextId + |data|
    ensures DistinctKeys(rows + data, (m: ScheduledMeeting) => m.id)
  {
    var all := rows + data;
    forall i, j | 0 <= i < j < |all|
      ensures all[i].id != all[j].id
    {
      if j < |rows| {
        assert all[i] == rows[i] && all[j] == rows[j];
      } else if i < |rows| {
        assert all[i] in rows;
        assert all[j] == data[j - |rows|];
      } else {
        assert all[i] == data[i - |rows|] && all[j] == data[j - |rows|];
      }
    }
    forall m | m in all
      ensures m.id < nextId + |data|
    {
      if m !in rows {
        var k :| 0 <= k < |data| && data[k] == m;
      }
    }
  }

  /** The shared row fields of a booking: stored times are UTC strings, so whole seconds. */
  function DraftFor(body: Body, meetingId: string, startUrl: string, now: int): Draft
  {
    Draft(meetingId, startUrl, UtcSecond(body.startTime), UtcSecond(body.startTime + Minutes * MsPerMinute),
          body.title, body.description, now)
  }

  function PostOutcome(rows: seq<ScheduledMeeting>, nextId: nat, body: Body, token: string, env: Env): Outcome
  {
    if BadEmails(body) then Outcome(Failure(400, "Email not valid"), rows, nextId, NoCall)
    else if BadText(body) then Outcome(Failure(500, "meeting description"), rows, nextId, NoCall)
    else if !env.usersQueryOk then Outcome(Failure(401, "not valid | Unauthorized"), rows, nextId, NoCall)
    else if env.scheduleQueryOk && InstructorBusy(rows, body.adminEmail, body.startTime) then
      Outcome(Failure(400, "Instructor is not available at this time"), rows, nextId, NoCall)
    else BookingOutcome(rows, nextId, body, token, env)
  }

  /** The part of POST after its checks: the provider's create call, then the insert. */
  function BookingOutcome(rows: seq<ScheduledMeeting>, nextId: nat, body: Body, token: string, env: Env): Outcome
  {
    var call := CreateCall(PostPayload(body), token);
    match env.create
    case CreateFailed => Outcome(Threw, rows, nextId, call)
    case Created(meetingId, startUrl, joinLink) =>
      if !env.insertOk then
        Outcome(Failure(500, "Supabase error inserting meeting data"), rows, nextId, call)
      else
        var data := InsertData(nextId, body.attendeeEmails, body.adminEmail,
                               DraftFor(body, meetingId, startUrl, env.now));
        Outcome(Reply(200, false, Completed, None, Some(joinLink), None), rows + data, nextId + |data|, call)
  }

  // ---------------------------------------------------------------- DELETE

  /** `delete from scheduled_meetings where meeting_id = id`. */
  function RemoveMeeting(rows: seq<ScheduledMeeting>, meetingId: string): (r: seq<ScheduledMeeting>)
    ensures forall m :: m in r <==> m in rows && m.meetingId != meetingId
    ensures forall m :: multiset(r)[m] == if m.meetingId != meetingId then multiset(rows)[m] else 0
    ensures IsSubsequence(r, rows)
  {
    var p := (m: ScheduledMeeting) => m.meetingId != meetingId;
    FilterCounts(rows, p);
    FilterIsSubsequence(rows, p);
    Filter(rows, p)
  }

  /** The DELETE and PATCH guard: no `meeting_id`, or a session user without an email. */
  predicate MissingQuery(meetingId: Option<string>, user: AuthUser)
  {
    Falsy(meetingId) || Falsy(user.email)
  }

  function DeleteOutcome(rows: seq<ScheduledMeeting>, nextId: nat, meetingId: Option<string>, user: AuthUser,
                         token: string, env: Env): Outcome
  {
    if MissingQuery(meetingId, user) then Outcome(Failure(400, "Query parameter not found"), rows, nextId, NoCall)
    else
      var call := LookupCall(meetingId.value, token);
      if !env.deleteOk then Outcome(Failure(500, "Supabase error"), rows, nextId, call)
      else Outcome(Reply(200, false, Deleted, None, None, None), RemoveMeeting(rows, meetingId.value), nextId, call)
  }

  // ---------------------------------------------------------------- PATCH

  function Patched(m: ScheduledMeeting, meetingId: string, start: int, title: string, description: string): ScheduledMeeting
  {
    if m.meetingId == meetingId then m.(startTime := start, title := title, description := description) else m
  }

  /** `update scheduled_meetings set start_time, meeting_title, meeting_description
      where meeting_id = id`. */
  function PatchRows(rows: seq<ScheduledMeeting>, meetingId: string, start: int, title: string, description: string)
    : (r: seq<ScheduledMeeting>)
    ensures |r| == |rows|
    ensures forall i :: 0 <= i < |rows| ==> r[i] == Patched(rows[i], meetingId, start, title, description)
  {
    MapSeq(rows, (m: ScheduledMeeting) => Patched(m, meetingId, start, title, description))
  }

  function PatchOutcome(rows: seq<ScheduledMeeting>, nextId: nat, meetingId: Option<string>, body: Body,
                        user: AuthUser, token: string, env: Env): Outcome
  {
    if MissingQuery(meetingId, user) then Outcome(Failure(400, "Query parameter not found"), rows, nextId, NoCall)
    else
      var call := UpdateCall(meetingId.value, Zoom.UpdateMeetingPayload(body.startTime, body.title, body.description), token);
      if !env.updateAccepted then Outcome(Threw, rows, nextId, call)
      else if !env.updateOk then Outcome(Failure(500, "supabase error: scheduled_meetings"), rows, nextId, call)
      else
        Outcome(Reply(200, false, Completed, None, None, None),
                PatchRows(rows, meetingId.value, body.startTime, body.title, body.description), nextId, call)
  }

  // ---------------------------------------------------------------- handler

  /** The token every provider call of one request carries. */
  function TokenOf(env: Env): string
  {
    Zoom.GenerateZoomAdminData(env.zoomAdminId, env.now, env.sign).token
  }

  /** What `handler` does: the session gate, then the branch of the request's method.
      The admin-token check in between never fires, since the token generator always
      returns a record. */
  function HandlerOutcome(rows: seq<ScheduledMeeting>, nextId: nat, req: Request, env: Env): Outcome
  {
    if env.user.None? then Outcome(Failure(401, "Unauthorized"), rows, nextId, NoCall)
    else
      match req.verb
      case Get => GetOutcome(rows, nextId, req.email, env)
      case Post => PostOutcome(rows, nextId, req.body, TokenOf(env), env)
      case Delete => DeleteOutcome(rows, nextId, req.meetingId, env.user.value, TokenOf(env), env)
      case Patch => PatchOutcome(rows, nextId, req.meetingId, req.body, env.user.value, TokenOf(env), env)
      case OtherMethod => Outcome(NoReply, rows, nextId, NoCall)
  }

  /** Builds `meetings_insert_data` as the source does: map over the attendees, then push
      the admin's row. */
  method BuildInsertData(firstId: nat, attendees: seq<string>, adminEmail: string, d: Draft)
    returns (data: seq<ScheduledMeeting>)
    ensures data == InsertData(firstId, attendees, adminEmail, d)
  {
    data := [];
    var i := 0;
    while i < |attendees|
      invariant 0 <= i <= |attendees|
      invariant |data| == i
      invariant forall k :: 0 <= k < i ==> data[k] == RowFor(firstId + k, attendees[k], d)
    {
      data := data + [RowFor(firstId + i, attendees[i], d)];
      i := i + 1;
    }
    data := data + [RowFor(firstId + |attendees|, adminEmail, d)];
  }

  /** The `scheduled_meetings` table, with the counter the database draws row ids from. */
  class ScheduledMeetingsTable {
    var rows: seq<ScheduledMeeting>
    var nextId: nat

    /** Every row id was drawn from the counter, and no two rows share an id. */
    ghost predicate Valid()
      reads this
    {
      && (forall m :: m in rows ==> m.id < nextId)
      && DistinctKeys(rows, (m: ScheduledMeeting) => m.id)
    }

    constructor ()
      ensures Valid() && rows == [] && nextId == 0
    {
      rows := [];
      nextId := 0;
    }

    method Get(email: Option<string>, env: Env) returns (resp: Response)
      ensures Outcome(resp, rows, nextId, NoCall) == GetOutcome(rows, nextId, email, env)
    {
      if BadQueryEmail(email) {
        return Failure(400, "Email not valid");
      }
      if !env.selectOk {
        return Failure(500, "Supabase error");
      }
      resp := Reply(200, false, Completed, None, None, Some(RowsOf(rows, QueryText(email))));
    }

    method Post(body: Body, token: string, env: Env) returns (resp: Response, call: RemoteCall)
      requires Valid()
      modifies this
      ensures Valid()
      ensures Outcome(resp, rows, nextId, call) == PostOutcome(old(rows), old(nextId), body, token, env)
    {
      call := NoCall;
      if BadEmails(body) {
        return Failure(400, "Email not valid"), call;
      }
      if BadText(body) {
        return Failure(500, "meeting description"), call;
      }
      if !env.usersQueryOk {
        return Failure(401, "not valid | Unauthorized"), call;
      }
      var endDate := new JsDate(body.startTime);
      endDate := AddMinutes(endDate, Minutes);
      var invitees := WrapAttendees(body.attendeeEmails);
      if env.scheduleQueryOk && InstructorBusy(rows, body.adminEmail, body.startTime) {
        return Failure(400, "Instructor is not available at this time"), call;
      }
      resp, call := Book(body, invitees, endDate.time, token, env);
    }

    /** The provider call and the insert of a POST that passed its checks, given the
        wrapped attendees and the end instant computed before the checks. */
    method Book(body: Body, invitees: seq<Zoom.Invitee>, endTime: int, token: string, env: Env)
      returns (resp: Response, call: RemoteCall)
      requires Valid()
      requires invitees == WrapAttendees(body.attendeeEmails)
      requires endTime == body.startTime + Minutes * MsPerMinute
      modifies this
      ensures Valid()
      ensures Outcome(resp, rows, nextId, call) == BookingOutcome(old(rows), old(nextId), body, token, env)
    {
      call := CreateCall(Zoom.CreateMeetingPayload(body.adminEmail, body.startTime, body.description,
                                                   body.title, "", invitees), token);
      if env.create.CreateFailed? {
        return Threw, call;
      }
      var d := Draft(env.create.id, env.create.startUrl, UtcSecond(body.startTime), UtcSecond(endTime),
                     body.title, body.description, env.now);
      assert d == DraftFor(body, env.create.id, env.create.startUrl, env.now);
      var data := BuildInsertData(nextId, body.attendeeEmails, body.adminEmail, d);
      if !env.insertOk {
        return Failure(500, "Supabase error inserting meeting data"), call;
      }
      AppendNumberedRows(rows, nextId, data);
      rows := rows + data;
      nextId := nextId + |data|;
      resp := Reply(200, false, Completed, None, Some(env.create.joinLink), None);
    }

    method Delete(meetingId: Option<string>, user: AuthUser, token: string, env: Env) returns (resp: Response, call: RemoteCall)
      requires Valid()
      modifies this
      ensures Valid()
      ensures Outcome(resp, rows, nextId, call) == DeleteOutcome(old(rows), old(nextId), meetingId, user, token, env)
    {
      call := NoCall;
      if Falsy(meetingId) || Falsy(user.email) {
        return Failure(400, "Query parameter not found"), call;
      }
      call := LookupCall(meetingId.value, token);
      var deleteStatus := Zoom.DeleteZoomMeeting(env.lookup);
      if !env.deleteOk {
        return Failure(500, "Supabase error"), call;
      }
      FilterKeepsDistinctKeys(rows, (m: ScheduledMeeting) => m.meetingId != meetingId.value, (m: ScheduledMeeting) => m.id);
      rows := RemoveMeeting(rows, meetingId.value);
      resp := Reply(200, false, Deleted, None, None, None);
    }

    method Patch(meetingId: Option<string>, body: Body, user: AuthUser, token: string, env: Env)
      returns (resp: Response, call: RemoteCall)
      requires Valid()
      modifies this
      ensures Valid()
      ensures Outcome(resp, rows, nextId, call) == PatchOutcome(old(rows), old(nextId), meetingId, body, user, token, env)
    {
      call := NoCall;
      if Falsy(meetingId) || Falsy(user.email) {
        return Failure(400, "Query parameter not found"), call;
      }
      call := UpdateCall(meetingId.value, Zoom.UpdateMeetingPayload(body.startTime, body.title, body.description), token);
      if !env.updateAccepted {
        return Threw, call;
      }
      if !env.updateOk {
        return Failure(500, "supabase error: scheduled_meetings"), call;
      }
      rows := PatchRows(rows, meetingId.value, body.startTime, body.title, body.description);
      resp := Reply(200, false, Completed, None, None, None);
    }

    /** `handler`: one request against the table. */
    method Handle(req: Request, env: Env) returns (resp: Response, call: RemoteCall)
      requires Valid()
      modifies this
      ensures Valid()
      ensures Outcome(resp, rows, nextId, call) == HandlerOutcome(old(rows), old(nextId), req, env)
    {
      call := NoCall;
      if env.user.None? {
        return Failure(401, "Unauthorized"), call;
      }
      var zoomAdminData := Zoom.GenerateZoomAdminData(env.zoomAdminId, env.now, env.sign);
      match req.verb {
        case Get =>
          resp := Get(req.email, env);
        case Post =>
          resp, call := Post(req.body, zoomAdminData.token, env);
        case Delete =>
          resp, call := Delete(req.meetingId, env.user.value, zoomAdminData.token, env);
        case Patch =>
          resp, call := Patch(req.meetingId, req.body, env.user.value, zoomAdminData.token, env);
        case OtherMethod =>
          resp := NoReply;
      }
    }
  }
}
