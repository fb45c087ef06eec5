/** The video-conferencing helpers of `src/utils/helper.ts`: the admin token payload,
    `addMinutes` (in module Time), the request records sent to create and update a
    meeting, and the never-failing meeting lookup used on delete. The HTTP calls
    themselves are not modelled: what the provider answers is a parameter. */
module Zoom {
  import opened Base
  import opened Text

  /** Lifetime of the admin token, in milliseconds. */
  const TokenLifetimeMs: int := 5000

  datatype JwtPayload = JwtPayload(iss: string, exp: int)

  datatype AdminData = AdminData(token: string, payload: JwtPayload)

  /** `GenerateZoomAdminData`. Signing is a foreign library and is the parameter `sign`.
      The result is always a record with a token, never a falsy value. */
  function GenerateZoomAdminData(adminId: string, now: int, sign: JwtPayload -> string): (r: AdminData)
    ensures r.payload.iss == adminId
    ensures r.payload.exp - now == TokenLifetimeMs
    ensures r.token == sign(r.payload)
  {
    var payload := JwtPayload(adminId, now + TokenLifetimeMs);
    AdminData(sign(payload), payload)
  }

  /** One entry of `meeting_invitees`. */
  datatype Invitee = Invitee(email: string)

  /** `contact_name`: `email.split("@")[0]`. */
  function ContactName(email: string): (r: string)
    ensures '@' !in r
    ensures '@' in email ==> exists rest :: email == r + ['@'] + rest
    ensures '@' !in email ==> r == email
  {
    var r := BeforeFirst(email, '@');
    if '@' in email then
      assert email == r + ['@'] + email[|r| + 1..];
      r
    else r
  }

  /** The settings of a create request that depend on the caller, and the switches the
      booking flow relies on. */
  datatype CreateSettings = CreateSettings(
    alternativeHosts: string,
    contactEmail: string,
    contactName: string,
    meetingInvitees: seq<Invitee>,
    emailNotification: bool,
    joinBeforeHost: bool,
    jbhTime: int,
    meetingAuthentication: bool,
    registrationType: int)

  /** The body of the create request (`zoom_api_config`). */
  datatype CreatePayload = CreatePayload(
    agenda: string,
    defaultPassword: bool,
    duration: int,
    password: string,
    preSchedule: bool,
    settings: CreateSettings,
    startTime: int,
    timezone: string,
    topic: string,
    meetingType: int)

  /** `createZoomMeeting`'s request record, for arguments in its declared order
      (email, start_time, meeting_description, meeting_title, hosts, invitees). */
  function CreateMeetingPayload(email: string, startTime: int, description: string, title: string,
                                alternativeHosts: string, invitees: seq<Invitee>): (p: CreatePayload)
    ensures p.duration == 60 && p.timezone == "UTC" && p.meetingType == 2
    ensures p.agenda == title && p.topic == description && p.startTime == startTime
    ensures p.settings.meetingInvitees == invitees
    ensures p.settings.contactEmail == email && p.settings.contactName == ContactName(email)
    ensures p.settings.alternativeHosts == alternativeHosts
  {
    CreatePayload(
      title, false, 60, "mind-hub", true,
      CreateSettings(alternativeHosts, email, ContactName(email), invitees, true, false, 5, true, 1),
      startTime, "UTC", description, 2)
  }

  datatype UpdateSettings = UpdateSettings(emailNotification: bool, encryptionType: string)

  /** The body of the update request (`zoom_config_updated`). */
  datatype UpdatePayload = UpdatePayload(
    agenda: string,
    settings: UpdateSettings,
    startTime: int,
    timezone: string,
    topic: string,
    meetingType: int)

  /** `UpdateZoomMeeting`'s request record. */
  function UpdateMeetingPayload(startTime: int, title: string, description: string): (p: UpdatePayload)
    ensures p.startTime == startTime && p.timezone == "UTC" && p.meetingType == 2
    ensures p.agenda == title && p.topic == description
  {
    UpdatePayload(title, UpdateSettings(true, "enhanced_encryption"), startTime, "UTC", description, 2)
  }

  /** What the provider answers to a create request: an exception, or the new meeting. */
  datatype CreateReply = CreateFailed | Created(id: string, startUrl: string, joinLink: string)

  /** What the provider answers to the lookup `deleteZoomMeeting` issues. */
  datatype LookupReply = LookupFailed | LookupOk(data: string)

  /** `deleteZoomMeeting`: the provider's error is caught, so the call never throws and
      yields `undefined` exactly when the provider failed. */
  function DeleteZoomMeeting(reply: LookupReply): Option<string>
  {
    match reply
    case LookupFailed => None
    case LookupOk(data) => Some(data)
  }
}
