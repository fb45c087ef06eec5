/** What the booking endpoint promises, stated over the functions of MeetingsApi:
    the session gate, the order of the POST checks, the double-booking guard, the
    fan-out of a booking into rows, and what DELETE and PATCH do to the table. */
module MeetingsApiProperties {
  import opened Base
  import opened Text
  import opened Time
  import opened Schema
  import Zoom
  import opened MeetingsApi

  predicate Succeeded(o: Outcome)
  {
    o.response.Reply? && o.response.code == 200
  }

  /** Without a session, every method answers 401 and neither the table nor the provider
      is touched. */
  lemma UnauthorizedTouchesNothing(rows: seq<ScheduledMeeting>, nextId: nat, req: Request, env: Env)
    requires env.user.None?
    ensures HandlerOutcome(rows, nextId, req, env) == Outcome(Failure(401, "Unauthorized"), rows, nextId, NoCall)
  {
  }

  /** Only a successful request changes the table. */
  lemma {:induction false} FailureLeavesTableUnchanged(rows: seq<ScheduledMeeting>, nextId: nat, req: Request, env: Env)
    ensures var o := HandlerOutcome(rows, nextId, req, env);
            !Succeeded(o) ==> o.rows == rows && o.nextId == nextId
  {
    if env.user.Some? {
      var user := env.user.value;
      match req.verb {
        case Get =>
        case Post => PostFailureKeepsTable(rows, nextId, req.body, TokenOf(env), env);
        case Delete =>
          assert HandlerOutcome(rows, nextId, req, env) == DeleteOutcome(rows, nextId, req.meetingId, user, TokenOf(env), env);
        case Patch =>
          assert HandlerOutcome(rows, nextId, req, env) ==
                 PatchOutcome(rows, nextId, req.meetingId, req.body, user, TokenOf(env), env);
        case OtherMethod =>
      }
    }
  }

  /** A POST that does not succeed leaves the table and the counter as they were. */
  lemma PostFailureKeepsTable(rows: seq<ScheduledMeeting>, nextId: nat, body: Body, token: string, env: Env)
    ensures var o := PostOutcome(rows, nextId, body, token, env);
            !Succeeded(o) ==> o.rows == rows && o.nextId == nextId
  {
  }

  /** The provider is asked to create a meeting only for a request that passed every
      check before it, the double-booking check included. */
  lemma CreateOnlyAfterChecks(rows: seq<ScheduledMeeting>, nextId: nat, req: Request, env: Env)
    ensures var o := HandlerOutcome(rows, nextId, req, env);
            o.call.CreateCall? ==>
              && env.user.Some? && req.verb == Post
              && !BadEmails(req.body) && !BadText(req.body) && env.usersQueryOk
              && !(env.scheduleQueryOk &&
                   exists m :: m in rows && m.userEmail == req.body.adminEmail &&
                               UtcSecond(m.startTime) == UtcSecond(req.body.startTime))
              && o.call.create == PostPayload(req.body)
              && o.call.token == TokenOf(env)
  {
    var o := HandlerOutcome(rows, nextId, req, env);
    if env.user.Some? && req.verb == Post {
      assert o == PostOutcome(rows, nextId, req.body, TokenOf(env), env);
      InstructorBusyIff(rows, req.body.adminEmail, req.body.startTime);
    } else {
      assert !o.call.CreateCall?;
    }
  }

  /** Every provider call is made with a token whose payload expires 5 seconds after
      the request's clock reading. */
  lemma TokenExpiresInFiveSeconds(env: Env)
    ensures Zoom.GenerateZoomAdminData(env.zoomAdminId, env.now, env.sign).payload.exp == env.now + 5000
    ensures TokenOf(env) == env.sign(Zoom.JwtPayload(env.zoomAdminId, env.now + 5000))
  {
  }

  // ---------------------------------------------------------------- GET

  /** A present email of 1 to 9 UTF-16 code units is refused. */
  lemma GetRejectsShortEmail(rows: seq<ScheduledMeeting>, nextId: nat, email: string, env: Env)
    requires 0 < Utf16Length(email) <= 9
    ensures GetOutcome(rows, nextId, Some(email), env) ==
            Outcome(Failure(400, "Email not valid"), rows, nextId, NoCall)
  {
  }

  /** Otherwise GET lists exactly the rows of that email, in table order. */
  lemma GetListsExactlyUserRows(rows: seq<ScheduledMeeting>, nextId: nat, email: string, env: Env)
    requires Utf16Length(email) > 9 && env.selectOk
    ensures var o := GetOutcome(rows, nextId, Some(email), env);
            && Succeeded(o) && o.response.status == Completed && o.rows == rows
            && o.response.meetingsData.Some?
            && (forall m :: m in o.response.meetingsData.value <==> m in rows && m.userEmail == email)
            && (forall m :: multiset(o.response.meetingsData.value)[m] ==
                             if m.userEmail == email then multiset(rows)[m] else 0)
            && IsSubsequence(o.response.meetingsData.value, rows)
  {
  }

  /** A missing email passes the guard, and the filter then compares with "undefined". */
  lemma GetWithoutEmail(rows: seq<ScheduledMeeting>, nextId: nat, env: Env)
    requires env.selectOk
    ensures GetOutcome(rows, nextId, None, env).response.meetingsData == Some(RowsOf(rows, "undefined"))
  {
  }

  // ---------------------------------------------------------------- POST

  /** The email check comes first, whatever the title and description. */
  lemma PostEmailCheckFirst(rows: seq<ScheduledMeeting>, nextId: nat, body: Body, token: string, env: Env)
    requires |body.attendeeEmails| == 0 || Utf16Length(body.adminEmail) <= 9
    ensures PostOutcome(rows, nextId, body, token, env) ==
            Outcome(Failure(400, "Email not valid"), rows, nextId, NoCall)
  {
  }

  /** Only then are the title and description checked. */
  lemma PostTextCheckSecond(rows: seq<ScheduledMeeting>, nextId: nat, body: Body, token: string, env: Env)
    requires |body.attendeeEmails| >= 1 && Utf16Length(body.adminEmail) >= 10
    requires Utf16Length(body.description) < 5 || Utf16Length(body.title) < 3
    ensures PostOutcome(rows, nextId, body, token, env) ==
            Outcome(Failure(500, "meeting description"), rows, nextId, NoCall)
  {
  }

  /** Boundaries of the checks, in UTF-16 code units: a title of 3, a description of 5
      and an admin email of 10 pass; 2, 4 and 9 fail. */
  lemma ValidationBoundaries(body: Body)
    requires |body.attendeeEmails| >= 1
    ensures Utf16Length(body.adminEmail) == 10 ==> !BadEmails(body)
    ensures Utf16Length(body.adminEmail) == 9 ==> BadEmails(body)
    ensures Utf16Length(body.title) == 3 && Utf16Length(body.description) == 5 ==> !BadText(body)
    ensures Utf16Length(body.title) == 2 || Utf16Length(body.description) == 4 ==> BadText(body)
  {
  }

  /** A start time the admin already holds, to the second, is refused: no provider call,
      no change to the table. */
  lemma PostConflictChangesNothing(rows: seq<ScheduledMeeting>, nextId: nat, body: Body, token: string, env: Env)
    requires !BadEmails(body) && !BadText(body) && env.usersQueryOk && env.scheduleQueryOk
    requires exists m :: m in rows && m.userEmail == body.adminEmail &&
                         UtcSecond(m.startTime) == UtcSecond(body.startTime)
    ensures PostOutcome(rows, nextId, body, token, env) ==
            Outcome(Failure(400, "Instructor is not available at this time"), rows, nextId, NoCall)
  {
    InstructorBusyIff(rows, body.adminEmail, body.startTime);
  }

  /** If the schedule query fails, its result is undefined and the double-booking check
      is skipped: a busy admin is booked again. */
  lemma ScheduleQueryFailureSkipsCheck(rows: seq<ScheduledMeeting>, nextId: nat, body: Body, token: string, env: Env)
    requires !BadEmails(body) && !BadText(body) && env.usersQueryOk && !env.scheduleQueryOk
    requires env.create.Created? && env.insertOk
    ensures Succeeded(PostOutcome(rows, nextId, body, token, env))
  {
  }

  /** Once the checks pass, a failed provider call throws before the insert: the create
      request was sent, and nothing is written. */
  lemma PostProviderFailureThrows(rows: seq<ScheduledMeeting>, nextId: nat, body: Body, token: string, env: Env)
    requires !BadEmails(body) && !BadText(body) && env.usersQueryOk
    requires !(env.scheduleQueryOk && InstructorBusy(rows, body.adminEmail, body.startTime))
    requires env.create.CreateFailed?
    ensures PostOutcome(rows, nextId, body, token, env) ==
            Outcome(Threw, rows, nextId, CreateCall(PostPayload(body), token))
  {
  }

  /** Once the checks pass and the provider created the meeting, a failed insert answers
      500 with no link, and nothing is written although the provider's meeting exists. */
  lemma PostInsertFailureAnswers500(rows: seq<ScheduledMeeting>, nextId: nat, body: Body, token: string, env: Env)
    requires !BadEmails(body) && !BadText(body) && env.usersQueryOk
    requires !(env.scheduleQueryOk && InstructorBusy(rows, body.adminEmail, body.startTime))
    requires env.create.Created? && !env.insertOk
    ensures PostOutcome(rows, nextId, body, token, env) ==
            Outcome(Failure(500, "Supabase error inserting meeting data"), rows, nextId,
                    CreateCall(PostPayload(body), token))
  {
  }

  /** A successful booking appends one row per attendee, in order, and then one for the
      admin. All of them share the provider's meeting id, its host start URL as stored
      link, the start truncated to the second, an end one hour later, the title and the
      description, and may be edited. The link answered is the join link. */
  lemma {:induction false} PostSuccessFanOut(rows: seq<ScheduledMeeting>, nextId: nat, body: Body, token: string, env: Env)
    requires Succeeded(PostOutcome(rows, nextId, body, token, env))
    ensures env.create.Created? && env.insertOk
    ensures var o := PostOutcome(rows, nextId, body, token, env);
            && o.response.meetingLink == Some(env.create.joinLink)
            && |o.rows| == |rows| + |body.attendeeEmails| + 1
            && o.rows[..|rows|] == rows
            && (forall i :: 0 <= i < |body.attendeeEmails| ==> o.rows[|rows| + i].userEmail == body.attendeeEmails[i])
            && o.rows[|o.rows| - 1].userEmail == body.adminEmail
            && (forall i :: |rows| <= i < |o.rows| ==>
                  && o.rows[i].meetingId == env.create.id
                  && o.rows[i].zoomLink == env.create.startUrl
                  && o.rows[i].startTime == UtcSecond(body.startTime)
                  && o.rows[i].endTime == o.rows[i].startTime + MsPerHour
                  && o.rows[i].allowedToEdit
                  && o.rows[i].title == body.title
                  && o.rows[i].description == body.description)
  {
    SuccessfulPostIsBooking(rows, nextId, body, token, env);
    BookingFanOut(rows, nextId, body, token, env);
  }

  /** A POST that succeeds passed its checks: its outcome is the booking's. */
  lemma SuccessfulPostIsBooking(rows: seq<ScheduledMeeting>, nextId: nat, body: Body, token: string, env: Env)
    requires Succeeded(PostOutcome(rows, nextId, body, token, env))
    ensures PostOutcome(rows, nextId, body, token, env) == BookingOutcome(rows, nextId, body, token, env)
  {
  }

  /** A successful booking appends one row per attendee and one for the admin, sharing
      the provider's meeting and the request's fields. */
  lemma {:induction false} BookingFanOut(rows: seq<ScheduledMeeting>, nextId: nat, body: Body, token: string, env: Env)
    requires Succeeded(BookingOutcome(rows, nextId, body, token, env))
    ensures env.create.Created? && env.insertOk
    ensures var o := BookingOutcome(rows, nextId, body, token, env);
            && o.response.meetingLink == Some(env.create.joinLink)
            && |o.rows| == |rows| + |body.attendeeEmails| + 1
            && o.rows[..|rows|] == rows
            && (forall i :: 0 <= i < |body.attendeeEmails| ==> o.rows[|rows| + i].userEmail == body.attendeeEmails[i])
            && o.rows[|o.rows| - 1].userEmail == body.adminEmail
            && (forall i :: |rows| <= i < |o.rows| ==>
                  && o.rows[i].meetingId == env.create.id
                  && o.rows[i].zoomLink == env.create.startUrl
                  && o.rows[i].startTime == UtcSecond(body.startTime)
                  && o.rows[i].endTime == o.rows[i].startTime + MsPerHour
                  && o.rows[i].allowedToEdit
                  && o.rows[i].title == body.title
                  && o.rows[i].description == body.description)
  {
    UtcSecondShift(body.startTime, Minutes);
    var o := BookingOutcome(rows, nextId, body, token, env);
    var data := InsertData(nextId, body.attendeeEmails, body.adminEmail,
                           DraftFor(body, env.create.id, env.create.startUrl, env.now));
    assert o.rows == rows + data;
    forall i | |rows| <= i < |o.rows|
      ensures o.rows[i] == data[i - |rows|]
    {
    }
  }

  /** A successful booking never puts the admin at a second they already held, as long
      as the schedule query answered. */
  lemma PostNeverDoubleBooksAdmin(rows: seq<ScheduledMeeting>, nextId: nat, body: Body, token: string, env: Env)
    requires Succeeded(PostOutcome(rows, nextId, body, token, env)) && env.scheduleQueryOk
    ensures forall m :: m in rows && m.userEmail == body.adminEmail ==>
              UtcSecond(m.startTime) != UtcSecond(body.startTime)
  {
    InstructorBusyIff(rows, body.adminEmail, body.startTime);
  }

  /** When the admin is also listed as an attendee, the booking holds two rows for the
      admin with the same meeting id. */
  lemma PostAdminRowDuplicated(rows: seq<ScheduledMeeting>, nextId: nat, body: Body, token: string, env: Env)
    requires Succeeded(PostOutcome(rows, nextId, body, token, env))
    requires body.adminEmail in body.attendeeEmails
    ensures var o := PostOutcome(rows, nextId, body, token, env);
            exists i, j :: |rows| <= i < j < |o.rows| &&
                           o.rows[i].userEmail == body.adminEmail && o.rows[j].userEmail == body.adminEmail &&
                           o.rows[i].meetingId == o.rows[j].meetingId
  {
    PostSuccessFanOut(rows, nextId, body, token, env);
    var o := PostOutcome(rows, nextId, body, token, env);
    var k :| 0 <= k < |body.attendeeEmails| && body.attendeeEmails[k] == body.adminEmail;
    assert o.rows[|rows| + k].userEmail == body.adminEmail;
  }

  /** The create request carries the title as agenda, the description as topic, the
      attendees as invitees in order, a 60-minute duration in UTC, meeting type 2, and
      the admin email's local part as contact name. */
  lemma PostPayloadFields(body: Body)
    ensures var p := PostPayload(body);
            && p.agenda == body.title && p.topic == body.description
            && p.duration == 60 && p.timezone == "UTC" && p.meetingType == 2
            && p.startTime == body.startTime
            && |p.settings.meetingInvitees| == |body.attendeeEmails|
            && (forall i :: 0 <= i < |body.attendeeEmails| ==> p.settings.meetingInvitees[i].email == body.attendeeEmails[i])
            && p.settings.contactEmail == body.adminEmail
            && '@' !in p.settings.contactName
            && p.settings.alternativeHosts == ""
  {
  }

  // ---------------------------------------------------------------- DELETE

  /** DELETE without a meeting id, with an empty one, or for a session user without an
      email answers 400, asks nothing of the provider and changes nothing. */
  lemma DeleteNeedsMeetingId(rows: seq<ScheduledMeeting>, nextId: nat, meetingId: Option<string>,
                             user: AuthUser, token: string, env: Env)
    requires meetingId.None? || meetingId == Some("") || Falsy(user.email)
    ensures DeleteOutcome(rows, nextId, meetingId, user, token, env) ==
            Outcome(Failure(400, "Query parameter not found"), rows, nextId, NoCall)
  {
  }

  /** Otherwise every row of that meeting, and only those, is removed: each other row
      stays as often as it was there, in order. The answer is "deleted" whatever the
      provider answered. Afterwards no participant's listing mentions the meeting. */
  lemma DeleteRemovesExactlyMeeting(rows: seq<ScheduledMeeting>, nextId: nat, id: string, user: AuthUser,
                                    token: string, env: Env)
    requires id != "" && !Falsy(user.email) && env.deleteOk
    ensures var o := DeleteOutcome(rows, nextId, Some(id), user, token, env);
            && o.response == Reply(200, false, Deleted, None, None, None)
            && (forall m :: m in o.rows <==> m in rows && m.meetingId != id)
            && (forall m :: multiset(o.rows)[m] == if m.meetingId != id then multiset(rows)[m] else 0)
            && IsSubsequence(o.rows, rows)
            && (forall e, m :: m in RowsOf(o.rows, e) ==> m.meetingId != id)
  {
  }

  /** The provider lookup `deleteZoomMeeting` makes is awaited and then ignored: whatever
      the provider answers, DELETE has the same outcome. */
  lemma DeleteIgnoresProviderLookup(rows: seq<ScheduledMeeting>, nextId: nat, meetingId: Option<string>,
                                    user: AuthUser, token: string, env: Env, other: Zoom.LookupReply)
    ensures DeleteOutcome(rows, nextId, meetingId, user, token, env) ==
            DeleteOutcome(rows, nextId, meetingId, user, token, env.(lookup := other))
  {
  }

  // ---------------------------------------------------------------- PATCH

  /** PATCH without a meeting id, with an empty one, or for a session user without an
      email answers 400, asks nothing of the provider and changes nothing. */
  lemma PatchNeedsMeetingId(rows: seq<ScheduledMeeting>, nextId: nat, meetingId: Option<string>, body: Body,
                            user: AuthUser, token: string, env: Env)
    requires meetingId.None? || meetingId == Some("") || Falsy(user.email)
    ensures PatchOutcome(rows, nextId, meetingId, body, user, token, env) ==
            Outcome(Failure(400, "Query parameter not found"), rows, nextId, NoCall)
  {
  }

  /** A successful PATCH sets start, title and description on every row of the meeting;
      every other row, and every other field (the end time included), is kept. */
  lemma PatchRewritesMeeting(rows: seq<ScheduledMeeting>, nextId: nat, id: string, body: Body, user: AuthUser,
                             token: string, env: Env)
    requires Succeeded(PatchOutcome(rows, nextId, Some(id), body, user, token, env))
    ensures var o := PatchOutcome(rows, nextId, Some(id), body, user, token, env);
            && |o.rows| == |rows|
            && (forall i :: 0 <= i < |rows| && rows[i].meetingId == id ==>
                  && o.rows[i].startTime == body.startTime
                  && o.rows[i].title == body.title
                  && o.rows[i].description == body.description
                  && o.rows[i].endTime == rows[i].endTime
                  && o.rows[i].(startTime := rows[i].startTime, title := rows[i].title,
                                description := rows[i].description) == rows[i])
            && (forall i :: 0 <= i < |rows| && rows[i].meetingId != id ==> o.rows[i] == rows[i])
  {
  }

  /** Applying the same PATCH twice is the same as applying it once. */
  lemma PatchIdempotent(rows: seq<ScheduledMeeting>, id: string, start: int, title: string, description: string)
    ensures PatchRows(PatchRows(rows, id, start, title, description), id, start, title, description) ==
            PatchRows(rows, id, start, title, description)
  {
  }

  // ---------------------------------------------------------------- scenarios

  const Jan10At15: int := 1704898800000

  function ScenarioBody(): Body
  {
    Body(["a@x.com"], Jan10At15, "Intro", "First chat", "instr@x.com")
  }

  /** Booking `a@x.com` with `instr@x.com` at 2024-01-10T15:00:00Z on an empty table
      stores two rows of one meeting, ending at 16:00:00Z, and answers the join link. */
  lemma BookingScenario(env: Env, token: string)
    requires env.usersQueryOk && env.insertOk && env.create == Zoom.Created("m1", "host-url", "join-url")
    ensures var o := PostOutcome([], 0, ScenarioBody(), token, env);
            && o.response.Reply? && o.response.meetingLink == Some("join-url")
            && |o.rows| == 2
            && o.rows[0].userEmail == "a@x.com" && o.rows[1].userEmail == "instr@x.com"
            && o.rows[0].meetingId == "m1" && o.rows[1].meetingId == "m1"
            && o.rows[0].endTime == Jan10At15 + MsPerHour
  {
    assert !InstructorBusy([], "instr@x.com", Jan10At15);
    assert UtcSecond(Jan10At15) == Jan10At15;
    UtcSecondShift(Jan10At15, Minutes);
  }

  /** Booking the same admin at the same time again is refused and leaves the table as
      it was. */
  lemma ConflictScenario(env: Env, token: string)
    requires env.usersQueryOk && env.scheduleQueryOk && env.insertOk && env.create == Zoom.Created("m1", "host-url", "join-url")
    ensures var first := PostOutcome([], 0, ScenarioBody(), token, env);
            var second := PostOutcome(first.rows, first.nextId, ScenarioBody(), token, env);
            second == Outcome(Failure(400, "Instructor is not available at this time"), first.rows, first.nextId, NoCall)
  {
    BookingScenario(env, token);
    var first := PostOutcome([], 0, ScenarioBody(), token, env);
    PostConflictChangesNothing(first.rows, first.nextId, ScenarioBody(), token, env);
  }
}
