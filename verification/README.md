# MindHub booking and course pages — a Dafny model

MindHub is a learning site built with Next.js. Students buy courses, read lessons and
book video meetings with instructors. This project models the parts of it that have
rules:

- **The meeting booking endpoint** `/api/meetings` and its provider helpers.
  It keeps the `scheduled_meetings` table, with one row per (meeting, participant) pair.
  - GET lists a user's rows.
  - POST checks the request and refuses an instructor who is already booked at that second. Then it asks the video provider for a meeting and writes one row per attendee plus one for the instructor.
  - DELETE removes every row of a meeting.
  - PATCH rewrites the start, title and description of every row of a meeting.
- **Two sibling endpoints.**
  - `/api/test` is a stricter POST check that only forwards the booking to the provider.
  - `/api/delusers` lets an administrator remove a user. It deletes the user's rows from four tables and then the account.
- **Page logic.**
  - The "My Meetings" page: search, optimistic removal, rescheduling to an hour, and the hour selector.
  - The course catalogue: search and comment counts.
  - The "My Courses" page: the purchased-course filter.
  - The password update form.
  - The two lesson lists.

Layout, one module per file:

| file | module | models |
|---|---|---|
| base.dfy | `Base` | Option, order-preserving `filter`, `map`, JavaScript falsiness, filter text of a missing value, distinct keys |
| text.dfy | `Text` | UTF-16 length, ASCII case mapping, `includes`/`indexOf`, `split(c)[0]`, `replaceAll(c, "")`, `toString`/`parseInt` |
| time.dfy | `Time` | millisecond instants, `toUTCString` resolution, a mutable `Date` (`setMinutes`, `setHours`), `addMinutes` |
| schema.dfy | `Schema` | table rows and content entries |
| zoom.dfy | `Zoom` | `src/utils/helper.ts` |
| meetings_api.dfy, meetings_props.dfy | `MeetingsApi`, `MeetingsApiProperties` | `src/pages/api/meetings/index.ts` |
| test_api.dfy | `TestApi` | `src/pages/api/test.ts` |
| delusers_api.dfy | `DelUsersApi` | `src/pages/api/delusers/index.ts` |
| my_meetings.dfy | `MyMeetingsPage` | `src/pages/mymeetings/index.tsx` |
| purchases.dfy | `Purchases` | the purchased-course query and the redirect shared by both course pages |
| courses_page.dfy | `CoursesPage` | `src/pages/courses/index.tsx` |
| my_courses.dfy | `MyCoursesPage` | `src/pages/mycourses/index.tsx` |
| update_password.dfy | `UpdatePassword` | `src/pages/update-password.tsx` |
| lessons.dfy | `Lessons` | `src/components/lessons/mobile.tsx`, `src/components/lessons/web.tsx` |

How each endpoint is modelled:

- A pure function (`HandlerOutcome`, `DeleteUserOutcome`) states what one request answers and what the tables hold afterwards.
- A class holds the tables as `seq` fields. Its methods perform the request step by step, in the source's order, and each method is proved to agree with the function.
- The lemmas state the endpoint's promises over the function.
- The answers of the database, the authentication service and the video provider are fields of an environment record (`Env`, `DelEnv`). Each answer is either success or failure, and the model takes whichever one the record holds.

Instants are integer milliseconds. The local time zone is UTC.

The source has some quirks. The model reproduces them as written:

- A POST whose instructor is also listed as an attendee stores two rows for the instructor.
- The stored link is the provider's host start URL, but the link returned is the join link.
- PATCH keeps `end_time`.
- Save Edit on "My Meetings" sends the meeting's title as description and its description as title.
- A failed schedule query silently skips the double-booking check.
- "View All" is shown for exactly three lessons, although nothing is hidden.
- Without a session, "My Courses" puts its redirect inside the page props, so no redirect happens.

## Model

| member | source | states |
|---|---|---|
| Text.IndexOf | src/components/lessons/web.tsx:11 | `indexOf` is non-negative exactly when the pattern occurs; it is then the first occurrence, else -1 |
| Text.Utf16Length | src/pages/api/meetings/index.ts:93 | JavaScript's `length` counts one code unit per character of the Basic Multilingual Plane and two per character outside it: at least the number of characters, at most twice it, equal to it for text without astral characters |
| Text.UpperMatchIffLowerMatch | src/components/lessons/mobile.tsx:13 | over ASCII, matching upper-cased strings is the same as matching lower-cased ones |
| Text.BeforeFirst | src/utils/helper.ts:106 | `split(sep)[0]` holds no `sep`, is a prefix of the input followed by `sep` or the end, and is the whole input when there is no `sep` |
| Text.RemoveAll | src/pages/update-password.tsx:48 | `replaceAll(c, "")` holds no `c`, keeps every other character as often as it occurs and in order |
| Text.RemoveAllShortens | src/pages/update-password.tsx:48 | removing a character never makes the text longer in UTF-16 code units |
| Text.ParseInt | src/pages/mymeetings/index.tsx:380 | `parseInt` is NaN exactly when the text is empty or does not start with a digit |
| Text.ParseIntOfNatToString | src/pages/mymeetings/index.tsx:327-330 | the decimal text of an hour, as `toString` makes it, reads back as that hour |
| Time.UtcSecond | src/pages/api/meetings/index.ts:141-146 | the instant a UTC string denotes is a whole second, at most the input and less than one second before it |
| Time.SameUtcStringIffSameSecond | src/pages/api/meetings/index.ts:148 | two instants have the same UTC string exactly when they fall in the same second |
| Time.UtcSecondShift | src/pages/api/meetings/index.ts:174-176 | the stored end (start plus 60 minutes, as a UTC string) is the stored start plus one hour |
| Time.AtHour | src/pages/mymeetings/index.tsx:379-384 | `setHours(h, 0, 0, 0)` gives an instant on the hour, at hour `h` of the same day |
| Time.JsDate.SetMinutes | src/utils/helper.ts:22 | `setMinutes` keeps the hour start, seconds and milliseconds and sets the minute count, carrying into the hours |
| Time.JsDate.SetHours | src/pages/mymeetings/index.tsx:379-384 | `setHours(h, 0, 0, 0)` moves the date itself to hour `h` of its day |
| Time.AddMinutes | src/utils/helper.ts:21-25 | `addMinutes` moves the given date forward by the minutes and returns that same object |
| Zoom.GenerateZoomAdminData | src/utils/helper.ts:11-19 | the token data is always a record, issued for the admin id, expiring 5000 ms after now, with the signed payload as token |
| Zoom.ContactName | src/utils/helper.ts:106 | the contact name is the email before its first "@", or the whole email without one |
| Zoom.CreateMeetingPayload | src/utils/helper.ts:92-132 | the create request has duration 60, timezone "UTC", type 2, agenda = title, topic = description, invitees and hosts unchanged, contact = email and its local part |
| Zoom.UpdateMeetingPayload | src/utils/helper.ts:56-65 | the update request passes the start through, uses "UTC" and type 2, agenda = title, topic = description |
| MeetingsApi.RowsOf | src/pages/api/meetings/index.ts:58-61 | the rows selected by email are exactly the table's rows of that email, each as often as in the table, in table order |
| MeetingsApi.InstructorBusyIff | src/pages/api/meetings/index.ts:132-148 | the instructor is busy exactly when one of their rows starts in the requested second |
| MeetingsApi.WrapAttendees | src/pages/api/meetings/index.ts:126-128 | attendees are wrapped as `{email}` in the same order |
| MeetingsApi.InsertData | src/pages/api/meetings/index.ts:169-190 | the insert holds one row per attendee in order, then the admin's, with consecutive ids and the shared fields |
| MeetingsApi.BuildInsertData | src/pages/api/meetings/index.ts:169-190 | the map-then-push construction builds exactly that insert |
| MeetingsApi.AppendNumberedRows | src/pages/api/meetings/index.ts:192-194 | inserted rows numbered on from the counter keep every row id below the advanced counter and no two row ids equal |
| MeetingsApi.RemoveMeeting | src/pages/api/meetings/index.ts:225-228 | the delete keeps exactly the rows of other meetings, each as often as in the table, in order |
| MeetingsApi.PatchRows | src/pages/api/meetings/index.ts:267-270 | the update rewrites start, title and description of each row of the meeting and leaves every other row as it was |
| MeetingsApi.ScheduledMeetingsTable.Get | src/pages/api/meetings/index.ts:48-82 | GET answers as the specification function says and leaves the table alone |
| MeetingsApi.ScheduledMeetingsTable.Post | src/pages/api/meetings/index.ts:83-209 | POST's checks, provider call, insert and answer agree with the specification function; row ids stay below the counter and distinct |
| MeetingsApi.ScheduledMeetingsTable.Book | src/pages/api/meetings/index.ts:157-208 | after the checks, the provider call, the insert and the answer agree with the booking part of the specification function; row ids stay below the counter and distinct |
| MeetingsApi.ScheduledMeetingsTable.Delete | src/pages/api/meetings/index.ts:210-241 | DELETE agrees with the specification function; row ids stay below the counter and distinct |
| MeetingsApi.ScheduledMeetingsTable.Patch | src/pages/api/meetings/index.ts:242-284 | PATCH agrees with the specification function |
| MeetingsApi.ScheduledMeetingsTable.Handle | src/pages/api/meetings/index.ts:22-47 | one request (session gate, then the method's branch) agrees with the specification function |
| MeetingsApiProperties.UnauthorizedTouchesNothing | src/pages/api/meetings/index.ts:30-38 | without a session every method answers 401 "Unauthorized", with no table change and no provider call |
| MeetingsApiProperties.FailureLeavesTableUnchanged | src/pages/api/meetings/index.ts:22-285 | only a successful request changes the table |
| MeetingsApiProperties.CreateOnlyAfterChecks | src/pages/api/meetings/index.ts:93-167 | a provider create happens only after every check, the double-booking check included, with the request's payload and token |
| MeetingsApiProperties.TokenExpiresInFiveSeconds | src/pages/api/meetings/index.ts:39 | every provider call carries a token whose payload expires 5 seconds after now |
| MeetingsApiProperties.GetRejectsShortEmail | src/pages/api/meetings/index.ts:50-57 | a present email of 1 to 9 UTF-16 code units gets 400 "Email not valid" |
| MeetingsApiProperties.GetListsExactlyUserRows | src/pages/api/meetings/index.ts:58-81 | otherwise GET returns exactly the rows of that email, each as often as in the table, in table order |
| MeetingsApiProperties.GetWithoutEmail | src/pages/api/meetings/index.ts:49-61 | a missing email passes the guard and selects the rows whose email is "undefined" |
| MeetingsApiProperties.PostEmailCheckFirst | src/pages/api/meetings/index.ts:93-100 | no attendee or an admin email of at most 9 UTF-16 code units gets 400 "Email not valid", whatever else the body holds |
| MeetingsApiProperties.PostTextCheckSecond | src/pages/api/meetings/index.ts:102-109 | only after that, a description under 5 or a title under 3 UTF-16 code units gets 500 "meeting description" |
| MeetingsApiProperties.ValidationBoundaries | src/pages/api/meetings/index.ts:93-109 | an admin email of 10 code units, a title of 3 and a description of 5 pass; 9, 2 and 4 fail |
| MeetingsApiProperties.PostConflictChangesNothing | src/pages/api/meetings/index.ts:132-155 | a start the admin holds to the second gets 400 "Instructor is not available at this time", with no provider call and no table change |
| MeetingsApiProperties.ScheduleQueryFailureSkipsCheck | src/pages/api/meetings/index.ts:141-148 | when the schedule query fails, a busy admin is booked anyway |
| MeetingsApiProperties.PostProviderFailureThrows | src/pages/api/meetings/index.ts:157-167 | once the checks pass, a failed provider create throws after the create call, with the table and counter unchanged |
| MeetingsApiProperties.PostInsertFailureAnswers500 | src/pages/api/meetings/index.ts:192-202 | a failed insert after a created meeting answers 500 "Supabase error inserting meeting data" with no link, after the create call, with the table and counter unchanged |
| MeetingsApiProperties.PostSuccessFanOut | src/pages/api/meetings/index.ts:169-208 | a booking appends the attendees' rows in order and then the admin's, all with the meeting id, start URL, start, start plus one hour, title, description and edit right; it answers the join link |
| MeetingsApiProperties.PostNeverDoubleBooksAdmin | src/pages/api/meetings/index.ts:132-155 | a successful booking never puts the admin at a second they already held, when the schedule query answered |
| MeetingsApiProperties.PostAdminRowDuplicated | src/pages/api/meetings/index.ts:169-190 | an admin also listed as attendee gets two rows of the same meeting |
| MeetingsApiProperties.PostPayloadFields | src/pages/api/meetings/index.ts:157-167 | the create request carries title as agenda, description as topic, the attendees in order, 60 minutes, UTC, type 2 and no alternative host |
| MeetingsApiProperties.DeleteNeedsMeetingId | src/pages/api/meetings/index.ts:211-219 | DELETE with a missing or empty meeting id, or from a user without an email, gets 400 "Query parameter not found" and changes nothing |
| MeetingsApiProperties.DeleteRemovesExactlyMeeting | src/pages/api/meetings/index.ts:220-241 | otherwise exactly the meeting's rows go, every other row stays as often as it was there, the answer is "deleted", and no listing shows the meeting again |
| MeetingsApiProperties.DeleteIgnoresProviderLookup | src/pages/api/meetings/index.ts:220-236 | the provider lookup's answer changes neither the DELETE answer nor the table |
| MeetingsApiProperties.PatchNeedsMeetingId | src/pages/api/meetings/index.ts:247-255 | PATCH with a missing or empty meeting id, or from a user without an email, gets 400 and changes nothing |
| MeetingsApiProperties.PatchRewritesMeeting | src/pages/api/meetings/index.ts:258-283 | a successful PATCH sets start, title and description of the meeting's rows and keeps their end and every other row |
| MeetingsApiProperties.PatchIdempotent | src/pages/api/meetings/index.ts:267-270 | applying the same update twice is applying it once |
| MeetingsApiProperties.BookingScenario | src/pages/api/meetings/index.ts:124-208 | booking one attendee with an instructor at 15:00 UTC stores two rows of one meeting ending at 16:00 and answers the join link |
| MeetingsApiProperties.ConflictScenario | src/pages/api/meetings/index.ts:132-155 | repeating that booking is refused and leaves the table as it was |
| TestApi.OnlyPostAnswered | src/pages/api/test.ts:36-84 | any other method gets no answer and no provider call |
| TestApi.TestEmailCheckFirst | src/pages/api/test.ts:44-51 | at most one attendee, or an admin email of at most 9 UTF-16 code units, gets 400 "Email not valid" |
| TestApi.TestTextCheckSecond | src/pages/api/test.ts:53-60 | only then, a description under 5 or a title under 3 UTF-16 code units gets 500 "meeting description" |
| TestApi.StricterThanMeetingsRoute | src/pages/api/test.ts:44 | every body the meetings route refuses by email is refused here, and a single attendee is refused here only |
| TestApi.TestSuccess | src/pages/api/test.ts:62-81 | an accepted body is sent with the attendees wrapped in order; a provider failure throws, otherwise the answer is the join link |
| TestApi.IgnoresSessionAndDatabase | src/pages/api/test.ts:22-84 | the outcome depends on no session and no database answer, so nothing is written |
| TestApi.SameCreateRequestAsMeetingsRoute | src/pages/api/test.ts:65-75 | for a body both routes accept, the provider gets the same request as from the meetings route |
| DelUsersApi.Without | src/pages/api/delusers/index.ts:54-69 | a delete by key keeps exactly the rows with another key, each as often as before, in order |
| DelUsersApi.AfterDelete | src/pages/api/delusers/index.ts:54-69 | a failed delete keeps the table; a done one keeps exactly the rows with another key, each as often as before, in order |
| DelUsersApi.FindAccount | src/pages/api/delusers/index.ts:46 | the account lookup finds an account with that id, or none exists |
| DelUsersApi.Database.DeleteUser | src/pages/api/delusers/index.ts:10-80 | the guard chain, the account lookup, the four deletions and the account deletion agree with the specification function |
| DelUsersApi.Database.DeleteRowsOf | src/pages/api/delusers/index.ts:54-69 | the four deletions change the tables as the cascade function says |
| DelUsersApi.MissingUserIdFailsFirst | src/pages/api/delusers/index.ts:14-20 | a missing user id fails with 500 before anything else is consulted |
| DelUsersApi.GuardFailureDeletesNothing | src/pages/api/delusers/index.ts:26-52 | no session or an auth error, a caller who is not an administrator, a failed account lookup or an unknown user fails with nothing deleted |
| DelUsersApi.CascadeRemovesExactlyTargetRows | src/pages/api/delusers/index.ts:54-69 | each deletion that goes through removes exactly the target's purchases, meeting rows (by email), comments and user row; every other row stays as often as it was there and in order; a failed deletion leaves its table as it was |
| DelUsersApi.AccountDeletedOnlyAfterAllData | src/pages/api/delusers/index.ts:70-79 | 200 is answered exactly when all guards pass and all four deletions returned data, otherwise 500 with the accounts kept and earlier deletions staying; 200 is answered even when the account deletion fails, and the account then stays; once the guards pass, the account is gone exactly when 200 was answered and its deletion went through |
| DelUsersApi.MeetingsDeletedByEmailText | src/pages/api/delusers/index.ts:58-61 | an account without email deletes the meeting rows whose email is "undefined" |
| MyMeetingsPage.GetMeetingsResult | src/pages/mymeetings/index.tsx:86-104 | the rows are set exactly on a "completed" answer with data, converted one by one; an answer without data throws |
| MyMeetingsPage.VisibleMeetings | src/pages/mymeetings/index.tsx:260-265 | the list shows exactly the meetings whose lower-cased title contains the lower-cased filter, each as often as loaded, in order; all for an empty filter |
| MyMeetingsPage.WithoutId | src/pages/mymeetings/index.tsx:309-313 | the optimistic removal drops exactly the meetings with that id, keeps every other as often as it was listed and keeps the order |
| MyMeetingsPage.HourOptions | src/pages/mymeetings/index.tsx:353-358 | the hour selector has 24 options, option `i` labelled for hour `i` |
| MyMeetingsPage.HourOptionsReadBack | src/pages/mymeetings/index.tsx:353-358 | each option is two characters long and reads back as its hour |
| MyMeetingsPage.PatchMeetingRequest | src/pages/mymeetings/index.tsx:150-162 | the PATCH body carries the start to the second, the title and the description |
| MyMeetingsPage.PatchMeeting | src/pages/mymeetings/index.tsx:134-162 | the truncated copy does not reach the request and the given date is untouched |
| MyMeetingsPage.MyMeetingsPage.LoadMeetings | src/pages/mymeetings/index.tsx:75-107 | loading sets the list to the converted rows only on a "completed" answer |
| MyMeetingsPage.MyMeetingsPage.TypeSearch | src/pages/mymeetings/index.tsx:205-207 | typing changes the search text only |
| MyMeetingsPage.MyMeetingsPage.ApplySearch | src/pages/mymeetings/index.tsx:208-213 | the debounced update copies the search text into the filter |
| MyMeetingsPage.MyMeetingsPage.ConfirmDelete | src/pages/mymeetings/index.tsx:303-316 | confirming removes the row from the list at once and asks to delete its whole meeting |
| MyMeetingsPage.MyMeetingsPage.StartEdit | src/pages/mymeetings/index.tsx:322-332 | Edit picks the meeting's start as date and its hour, unpadded, as hour text |
| MyMeetingsPage.MyMeetingsPage.SelectHour | src/pages/mymeetings/index.tsx:349-351 | choosing an option sets the hour text to its label and changes nothing else |
| MyMeetingsPage.MyMeetingsPage.SaveEdit | src/pages/mymeetings/index.tsx:372-394 | Save Edit moves the picked date itself to the hour and sends the request the specification function describes |
| MyMeetingsPage.AtOwnHour | src/pages/mymeetings/index.tsx:327-384 | setting an instant's own hour yields its hour start |
| MyMeetingsPage.LoadedMeetingsAreUsersRows | src/pages/mymeetings/index.tsx:83-98 | after a successful GET the page lists exactly the user's rows, converted, in table order |
| MyMeetingsPage.RefusedLoadThrows | src/pages/mymeetings/index.tsx:88-104 | a refused GET throws before its reason could be shown |
| MyMeetingsPage.SaveEditSendsHourOfDay | src/pages/mymeetings/index.tsx:379-393 | Save Edit sends the picked day at the chosen hour, on the hour, with title and description exchanged |
| MyMeetingsPage.SaveEditNeedsDateAndHour | src/pages/mymeetings/index.tsx:377-386 | with no date or a non-numeric hour nothing is sent |
| MyMeetingsPage.EditThenSaveTruncatesToHour | src/pages/mymeetings/index.tsx:322-393 | Edit then Save Edit moves the meeting to the start of its own hour |
| MyMeetingsPage.SavedEditExchangesTitleAndDescription | src/pages/mymeetings/index.tsx:388-393 | once applied, every row of the meeting has the old description as title and the old title as description |
| MyMeetingsPage.PatchMeetingIgnoresTruncatedCopy | src/pages/mymeetings/index.tsx:153-159 | a half-past start is sent as such, not truncated to the hour |
| Purchases.PurchasesOf | src/pages/courses/index.tsx:98 | the purchase query selects exactly the user's rows, each as often as in the table, in order |
| Purchases.CourseIds | src/pages/courses/index.tsx:99-102 | the ids are the rows' course ids in row order, and none without data |
| Purchases.CollectCourseIds | src/pages/mycourses/index.tsx:78-81 | the `forEach`/`push` loop builds exactly those ids |
| Purchases.CourseIdsAreUsersCourses | src/pages/courses/index.tsx:98-102 | the collected ids are exactly the courses the user bought |
| CoursesPage.CommentsOn | src/pages/courses/index.tsx:17-23 | the counted comments are exactly those tagged with the id, each as often as it occurs, at most all of them, none of an empty list |
| CoursesPage.CalcCommentsCount | src/pages/courses/index.tsx:17-23 | the loop counts the comments tagged with the id, at most their number, 0 for no comments |
| CoursesPage.FilteredCollection | src/pages/courses/index.tsx:35-37 | the page keeps exactly the courses whose lower-cased title contains the lower-cased filter, each as often as in the catalogue, in order; all for an empty filter |
| CoursesPage.Cards | src/pages/courses/index.tsx:61-77 | one card per filtered course, in order, counting the comments tagged with that course's id; without comment data the render throws |
| CoursesPage.CardCountsCommentsOfCourse | src/pages/courses/index.tsx:62 | a card's count covers every comment tagged with its course id and never exceeds the number of comments |
| CoursesPage.CoursesSearch.SetSearchVal | src/pages/courses/index.tsx:26-27 | typing changes the search text and not the filter |
| CoursesPage.CoursesSearch.HandleFilter | src/pages/courses/index.tsx:30-33 | submitting copies the search text into the filter |
| CoursesPage.GetServerSideProps | src/pages/courses/index.tsx:84-112 | the server props are the redirect or the courses, the user's purchased ids and the comments |
| CoursesPage.NoSessionRedirects | src/pages/courses/index.tsx:87-96 | without a session the page redirects, not permanently, to /signin |
| CoursesPage.SessionProps | src/pages/courses/index.tsx:98-111 | with a session the props hold all courses, exactly the user's purchased course ids and the comments |
| MyCoursesPage.PurchasedOnly | src/pages/mycourses/index.tsx:31-37 | exactly the courses whose id is among the purchased ids, each as often as in the catalogue, in catalogue order |
| MyCoursesPage.PurchasedOnlyIsBought | src/pages/mycourses/index.tsx:31-37 | with the ids of a successful purchase query, the filter keeps exactly the catalogue courses the user bought |
| MyCoursesPage.Render | src/pages/mycourses/index.tsx:31-54 | one card per purchased course in order, each with `isPurchased`; nothing without a course list |
| MyCoursesPage.GetServerSideProps | src/pages/mycourses/index.tsx:61-88 | the server props agree with the specification function |
| MyCoursesPage.NoSessionRendersNothing | src/pages/mycourses/index.tsx:64-72 | without a session the redirect is only a prop, and the page shows no course |
| MyCoursesPage.RendersExactlyBoughtCourses | src/pages/mycourses/index.tsx:31-47 | with a session the page shows exactly the catalogue courses the user bought, each marked purchased |
| UpdatePassword.PasswordError | src/pages/update-password.tsx:20-22 | the password error is cleared exactly when the password is accepted, and otherwise "Must be 16 or more characters" |
| UpdatePassword.ConfirmError | src/pages/update-password.tsx:61-68 | the confirmation error is cleared exactly when both entries are equal, and otherwise "Passwords do not match" |
| UpdatePassword.SpacesDoNotCount | src/pages/update-password.tsx:48 | a space added before or after never changes acceptance |
| UpdatePassword.AcceptedIsLong | src/pages/update-password.tsx:48 | an accepted password is at least 16 UTF-16 code units long |
| UpdatePassword.WithoutSpacesLengthDecides | src/pages/update-password.tsx:20-22 | without spaces, 16 UTF-16 code units or more is accepted and fewer is not |
| UpdatePassword.EightEmojiAccepted | src/pages/update-password.tsx:20-22 | eight characters from outside the Basic Multilingual Plane make an accepted password, since each counts as two code units |
| UpdatePassword.OnlySpacesRefused | src/pages/update-password.tsx:48 | a password of spaces only is refused at any length |
| UpdatePassword.ConfirmationCountsSpaces | src/pages/update-password.tsx:62 | a trailing space the length rule ignores still fails the confirmation |
| UpdatePassword.PasswordForm.constructor | src/pages/update-password.tsx:26-31 | the first render shows empty entries, the length error, and no confirmation error |
| UpdatePassword.PasswordForm.ValidatePassword | src/pages/update-password.tsx:46-59 | the check answers acceptance and leaves the matching error text |
| UpdatePassword.PasswordForm.ValidateConfirmPassword | src/pages/update-password.tsx:61-68 | the check answers equality and leaves the matching error text |
| UpdatePassword.PasswordForm.OnChange | src/pages/update-password.tsx:70-86 | an edit sets its field, and both error texts then agree with the entries |
| UpdatePassword.PasswordForm.OnSubmit | src/pages/update-password.tsx:88-100 | the update is requested exactly when the password is accepted and both entries are equal |
| Lessons.FilterLessons | src/components/lessons/mobile.tsx:11-16 | the list keeps exactly the lessons that pass, each as often as in the course, in course order; all for an empty filter |
| Lessons.MatchesIsCaseInsensitiveIncludes | src/components/lessons/web.tsx:10-12 | the test is the case-insensitive `includes` of the other pages, empty filter included |
| Lessons.HrefDeterminesLesson | src/components/lessons/mobile.tsx:26 | within a course, different lessons get different links |
| Lessons.MobileLinks | src/components/lessons/mobile.tsx:21-39 | the mobile list renders the first three lessons until View All, all after, each linked, the current one highlighted |
| Lessons.HiddenLessonsOfferViewAll | src/components/lessons/mobile.tsx:22 | whenever a lesson is hidden, View All is shown |
| Lessons.ViewAllShownForThree | src/components/lessons/mobile.tsx:41 | with exactly three lessons View All is shown though nothing is hidden |
| Lessons.ViewAllListsEverything | src/components/lessons/mobile.tsx:42 | after View All every lesson is listed and the control is gone |
| Lessons.OneHighlight | src/components/lessons/mobile.tsx:27 | at most one entry is highlighted, and the one at the lesson number when listed |
| Lessons.WebLinks | src/components/lessons/web.tsx:20-24 | the web list renders every filtered lesson, each linked |
| Lessons.WebMatchesExpandedMobile | src/components/lessons/web.tsx:20-24 | the web list links the same lessons in the same order as the expanded mobile list |

## Left out

- HTTP, the database client, the authentication service and the video provider are not modelled as code. What each one answers is a field of `Env` or `DelEnv`: success or failure of each query, the provider's meeting, whether each delete returned rows, and whether the account lookup and the account deletion went through.
- Strings are sequences of Unicode scalar values. Lengths are counted in UTF-16 code units, as JavaScript counts them, but a lone surrogate (ill-formed UTF-16) cannot be represented.
- The JSON parsing of request bodies is not modelled. Neither is the request body arriving already parsed, which makes `JSON.parse` throw.
- Query parameters that repeat, and so arrive as arrays, are not modelled.
- JWT signing is a foreign library. It is the parameter `sign`, and only the payload is modelled.
- Real `Date` behaviour is not modelled: text parsing of dates, invalid dates, locale formatting, time zones and daylight saving. Instants are integer milliseconds, the local zone is UTC, and "same UTC string" means "same second".
- MyMeetingsPage.MyMeetingsPage.SaveEdit: an hour text that does not parse makes the real `Date` invalid before the schema check throws. The model leaves the picked date unchanged instead.
- MyMeetingsPage.MyMeetingsPage.StartEdit: the page keeps the meeting's own `Date` object as the picked date, so Save Edit also changes the listed meeting in place. The model picks a fresh copy and does not capture that aliasing.
- Text.ParseInt: models `parseInt` only on text that is empty or does not start with white space or a sign. That is all the page ever parses.
- Case mapping is ASCII only. There is no Unicode case folding.
- The check-then-insert race between two POSTs at the same time is not modelled. Requests run one at a time.
- Database defaults for `inserted_at`/`updated_at` are not modelled. New rows take the request's clock for both.
- PATCH does not touch `updated_at` in the model.
- The lesson lists recompute their contents only when the filter changes. That staleness is not modelled: the lists are functions of the current lessons and filter.
- The debounce delay of the "My Meetings" search is not modelled. `ApplySearch` is the moment it fires.
- Toasts, navigation after a password update, the page layout and other presentation are not modelled.
- The outcome of the account update request is not modelled. `OnSubmit` answers whether the update is requested.
- Comment posting, the note editor, the Stripe checkout route, the header and sidebar, and static configuration are not part of this model.
- The per-hour availability grid of the instructor schedule page is not part of this model.
