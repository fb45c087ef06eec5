/** The experimental booking route (`/api/test`). It answers POST only: it checks the
    body more strictly than `/api/meetings`, asks the provider for a meeting and returns
    the join link. It has no session gate and writes nothing to the database. */
module TestApi {
  import opened Base
  import opened Text
  import opened Schema
  import Zoom
  import opened MeetingsApi

  /** The email guard of this route: fewer than two attendees, or an admin email of at
      most 9 UTF-16 code units. */
  predicate BadEmailsStrict(body: Body)
  {
    |body.attendeeEmails| <= 1 || Utf16Length(body.adminEmail) <= 9
  }

  /** The answer and the provider request of one run. */
  datatype TestOutcome = TestOutcome(response: Response, call: RemoteCall)

  /** `handler` of `/api/test`. The admin-token check before the method test never
      fires, since the token generator always returns a record. */
  function TestHandler(verb: HttpMethod, body: Body, env: Env): TestOutcome
  {
    if verb != Post then TestOutcome(NoReply, NoCall)
    else if BadEmailsStrict(body) then TestOutcome(Failure(400, "Email not valid"), NoCall)
    else if BadText(body) then TestOutcome(Failure(500, "meeting description"), NoCall)
    else
      var call := CreateCall(PostPayload(body), TokenOf(env));
      match env.create
      case CreateFailed => TestOutcome(Threw, call)
      case Created(_, _, joinLink) => TestOutcome(Reply(200, false, Completed, None, Some(joinLink), None), call)
  }

  /** Only POST is answered. */
  lemma OnlyPostAnswered(verb: HttpMethod, body: Body, env: Env)
    requires verb != Post
    ensures TestHandler(verb, body, env) == TestOutcome(NoReply, NoCall)
  {
  }

  /** Fewer than two attendees, or a short admin email, is refused before anything else. */
  lemma TestEmailCheckFirst(body: Body, env: Env)
    requires |body.attendeeEmails| <= 1 || Utf16Length(body.adminEmail) <= 9
    ensures TestHandler(Post, body, env) == TestOutcome(Failure(400, "Email not valid"), NoCall)
  {
  }

  /** The title and description are checked only after the emails passed. */
  lemma TestTextCheckSecond(body: Body, env: Env)
    requires |body.attendeeEmails| >= 2 && Utf16Length(body.adminEmail) >= 10
    requires Utf16Length(body.description) < 5 || Utf16Length(body.title) < 3
    ensures TestHandler(Post, body, env) == TestOutcome(Failure(500, "meeting description"), NoCall)
  {
  }

  /** The email check here is stricter than the one of `/api/meetings`: every body that
      route refuses is refused here, and a single attendee is refused here only. */
  lemma StricterThanMeetingsRoute(body: Body)
    ensures BadEmails(body) ==> BadEmailsStrict(body)
    ensures |body.attendeeEmails| == 1 && Utf16Length(body.adminEmail) > 9 ==> BadEmailsStrict(body) && !BadEmails(body)
  {
  }

  /** A body that passes both checks is sent to the provider with its attendees wrapped
      in order; a provider failure escapes as an exception, and otherwise the answer is
      the join link. */
  lemma {:induction false} TestSuccess(body: Body, env: Env)
    requires !BadEmailsStrict(body) && !BadText(body)
    ensures var o := TestHandler(Post, body, env);
            && o.call.CreateCall?
            && o.call.token == TokenOf(env)
            && |o.call.create.settings.meetingInvitees| == |body.attendeeEmails|
            && (forall i :: 0 <= i < |body.attendeeEmails| ==>
                  o.call.create.settings.meetingInvitees[i] == Zoom.Invitee(body.attendeeEmails[i]))
            && (env.create.CreateFailed? ==> o.response == Threw)
            && (env.create.Created? ==> o.response == Reply(200, false, Completed, None, Some(env.create.joinLink), None))
  {
    var invitees := WrapAttendees(body.attendeeEmails);
    assert PostPayload(body).settings.meetingInvitees == invitees;
  }

  /** The route does not look at the session nor at any database answer: the outcome
      depends only on the method, the body, the clock, the signer and the provider. */
  lemma IgnoresSessionAndDatabase(verb: HttpMethod, body: Body, env: Env, env2: Env)
    requires env2.now == env.now && env2.zoomAdminId == env.zoomAdminId && env2.sign == env.sign
    requires env2.create == env.create
    ensures TestHandler(verb, body, env) == TestHandler(verb, body, env2)
  {
  }

  /** For a body both routes accept, this route sends the provider the same request
      `/api/meetings` would. */
  lemma SameCreateRequestAsMeetingsRoute(rows: seq<ScheduledMeeting>, nextId: nat, body: Body, env: Env)
    requires !BadEmailsStrict(body) && !BadText(body) && env.usersQueryOk
    requires !(env.scheduleQueryOk && InstructorBusy(rows, body.adminEmail, body.startTime))
    ensures TestHandler(Post, body, env).call == PostOutcome(rows, nextId, body, TokenOf(env), env).call
  {
  }
}
