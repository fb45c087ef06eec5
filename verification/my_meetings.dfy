/** The "My Meetings" page (`/mymeetings`): it loads the signed-in user's rows from
    `/api/meetings`, lists those whose title matches the search text, removes a row from
    the list as soon as its deletion is confirmed, and reschedules a meeting to a chosen
    day and hour.

    `MyMeetingsPage` holds the page state; its methods are the event handlers. */
module MyMeetingsPage {
  import opened Base
  import opened Text
  import opened Time
  import opened Schema
  import MeetingsApi

  /** A meeting as the page holds it, its instants read back as `Date` values. */
  datatype Meeting = Meeting(id: nat, meetingId: string, title: string, description: string,
                             startTime: int, endTime: int, zoomLink: string, insertedAt: int, updatedAt: int)

  /** `getMeetings`' conversion of one row: the four timestamps become dates. */
  function ToMeeting(row: ScheduledMeeting): Meeting
  {
    Meeting(row.id, row.meetingId, row.title, row.description, row.startTime, row.endTime,
            row.zoomLink, row.insertedAt, row.updatedAt)
  }

  /** What `getMeetings` does with the answer of the GET request. */
  datatype LoadResult = LoadThrew | SetMeetings(meetings: seq<Meeting>) | ShowError(reason: Option<string>)

  /** The rows are converted before the status is looked at, so an answer without
      `meetingsData` throws; an answer that cannot be read as JSON throws too. */
  function GetMeetingsResult(resp: MeetingsApi.Response): (r: LoadResult)
    ensures r.SetMeetings? <==> resp.Reply? && resp.meetingsData.Some? && resp.status == MeetingsApi.Completed
    ensures r.SetMeetings? ==> |r.meetings| == |resp.meetingsData.value|
    ensures r.SetMeetings? ==>
              forall i :: 0 <= i < |r.meetings| ==> r.meetings[i] == ToMeeting(resp.meetingsData.value[i])
    ensures r == LoadThrew <==> !resp.Reply? || resp.meetingsData.None?
  {
    if !resp.Reply? || resp.meetingsData.None? then LoadThrew
    else
      var data := MapSeq(resp.meetingsData.value, ToMeeting);
      if resp.status == MeetingsApi.Completed then SetMeetings(data) else ShowError(resp.reason)
  }

  /** The listed meetings: those whose lower-cased title contains the lower-cased
      filter, in order. */
  function VisibleMeetings(ms: seq<Meeting>, filter: string): (r: seq<Meeting>)
    ensures forall m :: m in r <==> m in ms && Includes(ToLower(m.title), ToLower(filter))
    ensures forall m :: multiset(r)[m] == if Includes(ToLower(m.title), ToLower(filter)) then multiset(ms)[m] else 0
    ensures IsSubsequence(r, ms)
    ensures filter == "" ==> r == ms
  {
    var p := (m: Meeting) => Includes(ToLower(m.title), ToLower(filter));
    FilterCounts(ms, p);
    FilterIsSubsequence(ms, p);
    assert filter == "" ==> forall i :: 0 <= i < |ms| ==> p(ms[i]) by {
      if filter == "" {
        forall i | 0 <= i < |ms| {
          EmptyIncluded(ToLower(ms[i].title));
        }
      }
    }
    Filter(ms, p)
  }

  /** The optimistic removal: the list without the meetings of row id `id`, in order. */
  function WithoutId(ms: seq<Meeting>, id: nat): (r: seq<Meeting>)
    ensures forall m :: m in r <==> m in ms && m.id != id
    ensures forall m :: multiset(r)[m] == if m.id != id then multiset(ms)[m] else 0
    ensures IsSubsequence(r, ms)
  {
    var p := (m: Meeting) => m.id != id;
    FilterCounts(ms, p);
    FilterIsSubsequence(ms, p);
    Filter(ms, p)
  }

  /** The text of option `i` of the hour selector: two digits below 10, else `i`. */
  function HourLabel(i: nat): string
    requires i < 24
  {
    if i < 10 then "0" + NatToString(i) else NatToString(i)
  }

  /** The 24 options of the hour selector. */
  function HourOptions(): (r: seq<string>)
    ensures |r| == 24
    ensures forall i :: 0 <= i < 24 ==> r[i] == HourLabel(i)
  {
    seq(24, i requires 0 <= i < 24 => HourLabel(i))
  }

  /** Every option is two characters long and reads back as its own hour. */
  lemma HourOptionsReadBack()
    ensures forall i :: 0 <= i < 24 ==> |HourOptions()[i]| == 2 && ParseInt(HourOptions()[i]) == Some(i)
  {
    forall i | 0 <= i < 24
      ensures |HourLabel(i)| == 2 && ParseInt(HourLabel(i)) == Some(i)
    {
      var s := HourLabel(i);
      if i < 10 {
        LeadingDigitsOfDigits(s);
        assert s == ['0', DigitChar(i)];
        assert s[..1] == "0";
        assert DigitsValue("0") == 0 by {
          assert "0"[..0] == "";
        }
      } else {
        ParseIntOfNatToString(i);
      }
    }
  }

  /** The PATCH request `PatchMeeting` sends: the meeting id as query parameter and, as
      body, the start as a UTC string (whole seconds), the title and the description. */
  datatype PatchRequest = PatchRequest(meetingId: string, body: MeetingsApi.Body)

  function PatchMeetingRequest(meetingId: string, start: int, title: string, description: string): (r: PatchRequest)
    ensures r.meetingId == meetingId && r.body.title == title && r.body.description == description
    ensures r.body.startTime == UtcSecond(start)
  {
    PatchRequest(meetingId, MeetingsApi.Body([], UtcSecond(start), title, description, ""))
  }

  /** `PatchMeeting`: it also computes a copy of the start truncated to the hour, which
      is never used, and leaves the given date untouched. */
  method PatchMeeting(meetingId: string, start: JsDate, title: string, description: string) returns (r: PatchRequest)
    ensures r == PatchMeetingRequest(meetingId, start.time, title, description)
  {
    var fixedTime := new JsDate(start.time);
    fixedTime.SetHours(HoursOf(fixedTime.time));
    r := PatchRequest(meetingId, MeetingsApi.Body([], UtcSecond(start.time), title, description, ""));
  }

  /** What Save Edit sends for meeting `m`, given the picked date (none when cleared) and
      the selected hour text: nothing when either is missing or the hour does not parse
      (the schema check throws), else the day at that hour, with the meeting's title
      passed as description and its description as title. */
  function SaveEditRequest(m: Meeting, date: Option<int>, hour: string): Option<PatchRequest>
  {
    match (date, ParseInt(hour))
    case (Some(t), Some(h)) => Some(PatchMeetingRequest(m.meetingId, AtHour(t, h), m.description, m.title))
    case _ => None
  }

  class MyMeetingsPage {
    var meetings: seq<Meeting>
    var searchText: string
    var filter: string
    var editMeetingId: Option<nat>
    var confirmRemovalMeetingId: Option<nat>
    var newMeetingTime: JsDate?
    var newMeetingHour: string

    /** The picked date's instant, if a date is picked. */
    function PickedDate(): Option<int>
      reads this, newMeetingTime
    {
      if newMeetingTime == null then None else Some(newMeetingTime.time)
    }

    /** The meetings on screen. */
    function Displayed(): seq<Meeting>
      reads this
    {
      VisibleMeetings(meetings, filter)
    }

    /** The initial state: no meetings, empty search, today's midnight as picked date. */
    constructor (now: int)
      ensures meetings == [] && searchText == "" && filter == ""
      ensures editMeetingId.None? && confirmRemovalMeetingId.None? && newMeetingHour == ""
      ensures newMeetingTime != null && fresh(newMeetingTime) && newMeetingTime.time == DayStart(now)
    {
      var today := new JsDate(now);
      today.SetHours(0);
      meetings := [];
      searchText := "";
      filter := "";
      editMeetingId := None;
      confirmRemovalMeetingId := None;
      newMeetingTime := today;
      newMeetingHour := "";
    }

    /** `getMeetings` receiving `resp`. */
    method LoadMeetings(resp: MeetingsApi.Response) returns (r: LoadResult)
      modifies this
      ensures r == GetMeetingsResult(resp)
      ensures meetings == (if r.SetMeetings? then r.meetings else old(meetings))
      ensures filter == old(filter) && searchText == old(searchText) && newMeetingTime == old(newMeetingTime)
      ensures editMeetingId == old(editMeetingId) && confirmRemovalMeetingId == old(confirmRemovalMeetingId)
      ensures newMeetingHour == old(newMeetingHour)
    {
      r := GetMeetingsResult(resp);
      if r.SetMeetings? {
        meetings := r.meetings;
      }
    }

    /** Typing in the search box; the filter follows once the typing pauses. */
    method TypeSearch(text: string)
      modifies this
      ensures searchText == text && filter == old(filter) && meetings == old(meetings)
      ensures newMeetingTime == old(newMeetingTime) && newMeetingHour == old(newMeetingHour)
      ensures editMeetingId == old(editMeetingId) && confirmRemovalMeetingId == old(confirmRemovalMeetingId)
    {
      searchText := text;
    }

    /** The debounced update of the filter. */
    method ApplySearch()
      modifies this
      ensures filter == old(searchText) && searchText == old(searchText) && meetings == old(meetings)
      ensures newMeetingTime == old(newMeetingTime) && newMeetingHour == old(newMeetingHour)
      ensures editMeetingId == old(editMeetingId) && confirmRemovalMeetingId == old(confirmRemovalMeetingId)
    {
      filter := searchText;
    }

    /** Delete on the confirmation of row `id`: the row leaves the list at once, and the
        deletion of the whole meeting is requested; the answer only shows a message. */
    method ConfirmDelete(id: nat, meetingId: string) returns (deleteFor: string)
      modifies this
      ensures meetings == WithoutId(old(meetings), id)
      ensures confirmRemovalMeetingId.None? && deleteFor == meetingId
      ensures filter == old(filter) && searchText == old(searchText) && editMeetingId == old(editMeetingId)
      ensures newMeetingTime == old(newMeetingTime) && newMeetingHour == old(newMeetingHour)
    {
      confirmRemovalMeetingId := None;
      meetings := WithoutId(meetings, id);
      deleteFor := meetingId;
    }

    /** Edit Meeting on `m`: the picked date becomes the meeting's start and the hour
        text its hour, unpadded. */
    method StartEdit(m: Meeting)
      modifies this
      ensures editMeetingId == Some(m.id) && confirmRemovalMeetingId.None?
      ensures newMeetingTime != null && fresh(newMeetingTime) && newMeetingTime.time == m.startTime
      ensures newMeetingHour == NatToString(HoursOf(m.startTime))
      ensures meetings == old(meetings) && filter == old(filter) && searchText == old(searchText)
    {
      editMeetingId := Some(m.id);
      newMeetingTime := new JsDate(m.startTime);
      confirmRemovalMeetingId := None;
      newMeetingHour := NatToString(HoursOf(m.startTime));
    }

    /** Choosing an option of the hour selector. */
    method SelectHour(i: nat)
      requires i < 24
      modifies this
      ensures newMeetingHour == HourOptions()[i]
      ensures meetings == old(meetings) && newMeetingTime == old(newMeetingTime)
      ensures editMeetingId == old(editMeetingId) && filter == old(filter)
      ensures searchText == old(searchText) && confirmRemovalMeetingId == old(confirmRemovalMeetingId)
    {
      newMeetingHour := HourLabel(i);
    }

    /** Save Edit on `m`: the picked date itself is set to the selected hour (minutes,
        seconds and milliseconds zero), and the PATCH request is built from it. */
    method SaveEdit(m: Meeting) returns (req: Option<PatchRequest>)
      modifies this, newMeetingTime
      ensures req == SaveEditRequest(m, old(PickedDate()), old(newMeetingHour))
      ensures editMeetingId.None? && newMeetingTime == old(newMeetingTime) && newMeetingHour == old(newMeetingHour)
      ensures newMeetingTime != null && ParseInt(newMeetingHour).Some? ==>
                newMeetingTime.time == AtHour(old(newMeetingTime.time), ParseInt(newMeetingHour).value)
      ensures meetings == old(meetings) && filter == old(filter) && searchText == old(searchText)
      ensures confirmRemovalMeetingId == old(confirmRemovalMeetingId)
    {
      editMeetingId := None;
      var date := newMeetingTime;
      var hour := ParseInt(newMeetingHour);
      if date == null || hour.None? {
        return None;
      }
      date.SetHours(hour.value);
      var r := PatchMeeting(m.meetingId, date, m.description, m.title);
      req := Some(r);
    }
  }

  // ---------------------------------------------------------------- properties

  /** The hour of an instant, set on that instant, is its hour start. */
  lemma AtOwnHour(t: int)
    ensures AtHour(t, HoursOf(t)) == HourStart(t)
  {
    var w := t % MsPerDay;
    var q := t / MsPerDay;
    assert t == q * MsPerDay + w;
    var a := w / MsPerHour;
    var b := w % MsPerHour;
    assert w == a * MsPerHour + b;
    assert t == (q * 24 + a) * MsPerHour + b;
    DivModUnique(t, q * 24 + a, b, MsPerHour);
  }

  /** A loaded GET answer lists exactly the user's rows, converted, in table order. */
  lemma LoadedMeetingsAreUsersRows(rows: seq<ScheduledMeeting>, nextId: nat, email: string, env: MeetingsApi.Env)
    requires Utf16Length(email) > 9 && env.selectOk
    ensures var r := GetMeetingsResult(MeetingsApi.GetOutcome(rows, nextId, Some(email), env).response);
            r == SetMeetings(MapSeq(MeetingsApi.RowsOf(rows, email), ToMeeting))
  {
  }

  /** A refused GET carries no rows, so the page throws before it could show the reason. */
  lemma RefusedLoadThrows(rows: seq<ScheduledMeeting>, nextId: nat, email: string, env: MeetingsApi.Env)
    requires 0 < Utf16Length(email) <= 9 || !env.selectOk
    ensures GetMeetingsResult(MeetingsApi.GetOutcome(rows, nextId, Some(email), env).response) == LoadThrew
  {
  }

  /** Save Edit with a picked day and a selected hour sends that hour of that day,
      on the hour, with the title and the description exchanged. */
  lemma SaveEditSendsHourOfDay(m: Meeting, t: int, hour: string)
    requires ParseInt(hour).Some? && ParseInt(hour).value < 24
    ensures var h := ParseInt(hour).value;
            var req := SaveEditRequest(m, Some(t), hour);
            && req.Some?
            && req.value.meetingId == m.meetingId
            && req.value.body.startTime % MsPerHour == 0
            && HoursOf(req.value.body.startTime) == h
            && DayStart(req.value.body.startTime) == DayStart(t)
            && req.value.body.title == m.description
            && req.value.body.description == m.title
  {
    UtcSecondOnTheHour(AtHour(t, ParseInt(hour).value));
  }

  /** Save Edit sends nothing when no date is picked or the hour text is not a number. */
  lemma SaveEditNeedsDateAndHour(m: Meeting, date: Option<int>, hour: string)
    requires date.None? || hour == [] || !IsDigit(hour[0])
    ensures SaveEditRequest(m, date, hour).None?
  {
  }

  /** Edit Meeting followed by Save Edit, without touching the selector, moves the
      meeting to the start of its own hour. */
  lemma EditThenSaveTruncatesToHour(m: Meeting)
    ensures var req := SaveEditRequest(m, Some(m.startTime), NatToString(HoursOf(m.startTime)));
            req.Some? && req.value.body.startTime == HourStart(m.startTime)
  {
    var t := m.startTime;
    var h := HoursOf(t);
    ParseIntOfNatToString(h);
    AtOwnHour(t);
    assert SaveEditRequest(m, Some(t), NatToString(h)) ==
           Some(PatchMeetingRequest(m.meetingId, HourStart(t), m.description, m.title));
    UtcSecondOnTheHour(HourStart(t));
  }

  /** Once the endpoint applies a Save Edit request, every row of that meeting carries
      the meeting's description as title and its title as description. */
  lemma SavedEditExchangesTitleAndDescription(m: Meeting, t: int, hour: string,
                                              rows: seq<ScheduledMeeting>, nextId: nat, user: AuthUser,
                                              token: string, env: MeetingsApi.Env)
    requires SaveEditRequest(m, Some(t), hour).Some?
    requires var req := SaveEditRequest(m, Some(t), hour).value;
             MeetingsApi.PatchOutcome(rows, nextId, Some(req.meetingId), req.body, user, token, env).response.Reply? &&
             MeetingsApi.PatchOutcome(rows, nextId, Some(req.meetingId), req.body, user, token, env).response.code == 200
    ensures var req := SaveEditRequest(m, Some(t), hour).value;
            var o := MeetingsApi.PatchOutcome(rows, nextId, Some(req.meetingId), req.body, user, token, env);
            forall i :: 0 <= i < |o.rows| && o.rows[i].meetingId == m.meetingId ==>
              o.rows[i].title == m.description && o.rows[i].description == m.title &&
              o.rows[i].startTime % MsPerHour == 0
  {
  }

  /** `PatchMeeting` sends the start to the second, not the truncated copy: a start at
      half past midnight is sent as such. */
  lemma PatchMeetingIgnoresTruncatedCopy()
    ensures PatchMeetingRequest("m", 30 * MsPerMinute, "t", "d").body.startTime == 30 * MsPerMinute
    ensures HourStart(30 * MsPerMinute) == 0
  {
  }
}
