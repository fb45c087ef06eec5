/** The account-removal endpoint (`/api/delusers`). An administrator names a user; the
    endpoint checks the caller, finds the user's account and deletes the user's rows
    from four tables in turn, then the account itself.

    `Database` holds the tables; its method `DeleteUser` performs the steps in the
    source's order and is proved to agree with the function `DeleteUserOutcome`, about
    which the lemmas below state what is deleted when. */
module DelUsersApi {
  import opened Base
  import opened Schema

  /** What a `delete().eq(...)` call yields: a failure (nothing deleted, no data), or the
      deletion, with or without returned data. */
  datatype DeleteReply = DeleteFailed | DeleteDone(returnedData: bool)

  /** The answers of the services the endpoint consults besides the tables themselves:
      the session, the admin query, whether the account lookup and the account deletion
      went through, and the four row deletions. */
  datatype DelEnv = DelEnv(
    caller: Option<AuthUser>,
    authError: bool,
    adminQueryOk: bool,
    lookupOk: bool,
    purchases: DeleteReply,
    meetings: DeleteReply,
    comments: DeleteReply,
    users: DeleteReply,
    accountDeleteOk: bool)

  datatype DelResponse = DelResponse(code: int, error: bool, completed: bool)

  const Failed := DelResponse(500, true, false)
  const Done := DelResponse(200, false, true)

  /** The tables the endpoint reads or deletes from, and the authentication accounts. */
  datatype Tables = Tables(
    purchasedCourses: seq<PurchasedCourse>,
    scheduledMeetings: seq<ScheduledMeeting>,
    comments: seq<Comment>,
    users: seq<UserRow>,
    admins: seq<AdminUser>,
    accounts: seq<AuthUser>)

  datatype DelOutcome = DelOutcome(response: DelResponse, tables: Tables)

  /** `rows` without those whose key is `k`, in order. */
  function Without<T(!new)>(rows: seq<T>, key: T -> string, k: string): (r: seq<T>)
    ensures forall x :: x in r <==> x in rows && key(x) != k
    ensures forall x :: multiset(r)[x] == if key(x) != k then multiset(rows)[x] else 0
    ensures IsSubsequence(r, rows)
    ensures |r| <= |rows|
  {
    var p := (x: T) => key(x) != k;
    FilterCounts(rows, p);
    FilterIsSubsequence(rows, p);
    Filter(rows, p)
  }

  /** The table after a delete of the rows keyed `k`, as the reply says. */
  function AfterDelete<T(!new)>(reply: DeleteReply, rows: seq<T>, key: T -> string, k: string): (r: seq<T>)
    ensures reply.DeleteFailed? ==> r == rows
    ensures reply.DeleteDone? ==> forall x :: x in r <==> x in rows && key(x) != k
    ensures reply.DeleteDone? ==> forall x :: multiset(r)[x] == if key(x) != k then multiset(rows)[x] else 0
    ensures reply.DeleteDone? ==> IsSubsequence(r, rows)
  {
    if reply.DeleteDone? then Without(rows, key, k) else rows
  }

  /** `select * from admin-user where admin_id = id` has at least one row. */
  predicate IsAdmin(admins: seq<AdminUser>, id: string)
  {
    exists a :: a in admins && a.adminId == id
  }

  /** What `getUserById(id)` finds when the lookup goes through: the first account with
      that id, if any. */
  function FindAccount(accounts: seq<AuthUser>, id: string): (r: Option<AuthUser>)
    ensures r.Some? ==> r.value in accounts && r.value.id == id
    ensures r.None? ==> forall a :: a in accounts ==> a.id != id
  {
    if accounts == [] then None
    else if accounts[0].id == id then Some(accounts[0])
    else FindAccount(accounts[1..], id)
  }

  predicate ReturnedData(reply: DeleteReply)
  {
    reply.DeleteDone? && reply.returnedData
  }

  /** The four deletions, in the source's order, of the rows belonging to `target`. */
  function Cascade(t: Tables, target: AuthUser, env: DelEnv): Tables
  {
    t.(purchasedCourses := AfterDelete(env.purchases, t.purchasedCourses, (p: PurchasedCourse) => p.userId, target.id),
       scheduledMeetings := AfterDelete(env.meetings, t.scheduledMeetings, (m: ScheduledMeeting) => m.userEmail,
                                        QueryText(target.email)),
       comments := AfterDelete(env.comments, t.comments, (c: Comment) => c.userId, target.id),
       users := AfterDelete(env.users, t.users, (u: UserRow) => u.id, target.id))
  }

  /** What `handler` answers and what the tables hold afterwards. The result of the
      final account deletion is not looked at: the answer is 200 either way, and the
      account is gone only when that deletion went through. */
  function DeleteUserOutcome(t: Tables, userId: Option<string>, env: DelEnv): DelOutcome
  {
    if Falsy(userId) then DelOutcome(Failed, t)
    else if env.caller.None? || env.authError then DelOutcome(Failed, t)
    else if !env.adminQueryOk || !IsAdmin(t.admins, env.caller.value.id) then DelOutcome(Failed, t)
    else if !env.lookupOk then DelOutcome(Failed, t)
    else match FindAccount(t.accounts, userId.value)
      case None => DelOutcome(Failed, t)
      case Some(target) =>
        var t1 := Cascade(t, target, env);
        if !(ReturnedData(env.purchases) && ReturnedData(env.meetings) &&
             ReturnedData(env.comments) && ReturnedData(env.users)) then
          DelOutcome(Failed, t1)
        else if !env.accountDeleteOk then DelOutcome(Done, t1)
        else DelOutcome(Done, t1.(accounts := Without(t1.accounts, (a: AuthUser) => a.id, userId.value)))
  }

  /** The guards that come before any deletion all pass. */
  predicate GuardsPass(t: Tables, userId: Option<string>, env: DelEnv)
  {
    && !Falsy(userId)
    && env.caller.Some? && !env.authError
    && env.adminQueryOk && IsAdmin(t.admins, env.caller.value.id)
    && env.lookupOk
    && FindAccount(t.accounts, userId.value).Some?
  }

  class Database {
    var purchasedCourses: seq<PurchasedCourse>
    var scheduledMeetings: seq<ScheduledMeeting>
    var comments: seq<Comment>
    var users: seq<UserRow>
    var admins: seq<AdminUser>
    var accounts: seq<AuthUser>

    function State(): Tables
      reads this
    {
      Tables(purchasedCourses, scheduledMeetings, comments, users, admins, accounts)
    }

    constructor (t: Tables)
      ensures State() == t
    {
      purchasedCourses := t.purchasedCourses;
      scheduledMeetings := t.scheduledMeetings;
      comments := t.comments;
      users := t.users;
      admins := t.admins;
      accounts := t.accounts;
    }

    /** The four deletions of `target`'s rows, in the source's order. */
    method DeleteRowsOf(target: AuthUser, env: DelEnv)
      modifies this
      ensures State() == Cascade(old(State()), target, env)
    {
      purchasedCourses := AfterDelete(env.purchases, purchasedCourses, (p: PurchasedCourse) => p.userId, target.id);
      scheduledMeetings := AfterDelete(env.meetings, scheduledMeetings, (m: ScheduledMeeting) => m.userEmail,
                                       QueryText(target.email));
      comments := AfterDelete(env.comments, comments, (c: Comment) => c.userId, target.id);
      users := AfterDelete(env.users, users, (u: UserRow) => u.id, target.id);
    }

    /** `handler`: the guard chain, then the four deletions, then the account. */
    method DeleteUser(userId: Option<string>, env: DelEnv) returns (resp: DelResponse)
      modifies this
      ensures DelOutcome(resp, State()) == DeleteUserOutcome(old(State()), userId, env)
    {
      if Falsy(userId) {
        return Failed;
      }
      if env.caller.None? || env.authError {
        return Failed;
      }
      if !env.adminQueryOk || !IsAdmin(admins, env.caller.value.id) {
        return Failed;
      }
      if !env.lookupOk {
        return Failed;
      }
      var found := FindAccount(accounts, userId.value);
      if found.None? {
        return Failed;
      }
      DeleteRowsOf(found.value, env);
      if !ReturnedData(env.purchases) || !ReturnedData(env.meetings) ||
         !ReturnedData(env.comments) || !ReturnedData(env.users) {
        return Failed;
      }
      if env.accountDeleteOk {
        accounts := Without(accounts, (a: AuthUser) => a.id, userId.value);
      }
      resp := Done;
    }
  }

  // ---------------------------------------------------------------- properties

  /** A missing or empty `user_id` fails before the session or any table is consulted:
      the outcome does not depend on the environment at all. */
  lemma MissingUserIdFailsFirst(t: Tables, userId: Option<string>, env: DelEnv, env2: DelEnv)
    requires Falsy(userId)
    ensures DeleteUserOutcome(t, userId, env) == DelOutcome(Failed, t)
    ensures DeleteUserOutcome(t, userId, env) == DeleteUserOutcome(t, userId, env2)
  {
  }

  /** Whenever a guard fails — no session or an auth error, a caller who is not an
      administrator, an unknown user — the answer is 500 and nothing is deleted. */
  lemma GuardFailureDeletesNothing(t: Tables, userId: Option<string>, env: DelEnv)
    requires !GuardsPass(t, userId, env)
    ensures DeleteUserOutcome(t, userId, env) == DelOutcome(Failed, t)
  {
  }

  /** Once the guards pass, every deletion that went through removes exactly the
      target's rows of its table: every other row stays, as often as it was there and
      in its order. A deletion that failed leaves its table as it was. */
  lemma {:induction false} CascadeRemovesExactlyTargetRows(t: Tables, userId: Option<string>, env: DelEnv)
    requires GuardsPass(t, userId, env)
    ensures var target := FindAccount(t.accounts, userId.value).value;
            var t1 := DeleteUserOutcome(t, userId, env).tables;
            && target.id == userId.value
            && (env.purchases.DeleteDone? ==>
                  && (forall p :: p in t1.purchasedCourses <==> p in t.purchasedCourses && p.userId != target.id)
                  && (forall p :: multiset(t1.purchasedCourses)[p] ==
                                   if p.userId != target.id then multiset(t.purchasedCourses)[p] else 0)
                  && IsSubsequence(t1.purchasedCourses, t.purchasedCourses))
            && (env.meetings.DeleteDone? ==>
                  && (forall m :: m in t1.scheduledMeetings <==>
                                   m in t.scheduledMeetings && m.userEmail != QueryText(target.email))
                  && (forall m :: multiset(t1.scheduledMeetings)[m] ==
                                   if m.userEmail != QueryText(target.email) then multiset(t.scheduledMeetings)[m] else 0)
                  && IsSubsequence(t1.scheduledMeetings, t.scheduledMeetings))
            && (env.comments.DeleteDone? ==>
                  && (forall c :: c in t1.comments <==> c in t.comments && c.userId != target.id)
                  && (forall c :: multiset(t1.comments)[c] == if c.userId != target.id then multiset(t.comments)[c] else 0)
                  && IsSubsequence(t1.comments, t.comments))
            && (env.users.DeleteDone? ==>
                  && (forall u :: u in t1.users <==> u in t.users && u.id != target.id)
                  && (forall u :: multiset(t1.users)[u] == if u.id != target.id then multiset(t.users)[u] else 0)
                  && IsSubsequence(t1.users, t.users))
            && (env.purchases.DeleteFailed? ==> t1.purchasedCourses == t.purchasedCourses)
            && (env.meetings.DeleteFailed? ==> t1.scheduledMeetings == t.scheduledMeetings)
            && (env.comments.DeleteFailed? ==> t1.comments == t.comments)
            && (env.users.DeleteFailed? ==> t1.users == t.users)
            && t1.admins == t.admins
  {
    var target := FindAccount(t.accounts, userId.value).value;
    var t1 := Cascade(t, target, env);
    var o := DeleteUserOutcome(t, userId, env);
    if ReturnedData(env.purchases) && ReturnedData(env.meetings) &&
       ReturnedData(env.comments) && ReturnedData(env.users) && env.accountDeleteOk {
      assert o.tables == t1.(accounts := Without(t1.accounts, (a: AuthUser) => a.id, userId.value));
    } else {
      assert o.tables == t1;
    }
  }

  /** The answer is 200 exactly when the guards pass and all four deletions returned
      data; otherwise it is 500, the accounts stay as they were, and the deletions already
      made stay made. The answer does not depend on the account deletion: when that
      fails the answer is still 200 and the account stays. Once the guards pass, the
      account is gone afterwards exactly when the answer is 200 and the account deletion
      went through. */
  lemma AccountDeletedOnlyAfterAllData(t: Tables, userId: Option<string>, env: DelEnv)
    ensures var o := DeleteUserOutcome(t, userId, env);
            var all := ReturnedData(env.purchases) && ReturnedData(env.meetings) &&
                       ReturnedData(env.comments) && ReturnedData(env.users);
            && (o.response == Done <==> GuardsPass(t, userId, env) && all)
            && (o.response != Done ==> o.response == Failed && o.tables.accounts == t.accounts)
            && (o.response == Done && env.accountDeleteOk ==>
                  forall a :: a in o.tables.accounts <==> a in t.accounts && a.id != userId.value)
            && (o.response == Done && !env.accountDeleteOk ==> o.tables.accounts == t.accounts)
            && (GuardsPass(t, userId, env) ==>
                  ((exists a :: a in o.tables.accounts && a.id == userId.value) <==>
                   !(o.response == Done && env.accountDeleteOk)))
            && (GuardsPass(t, userId, env) && !all ==>
                  o.tables == Cascade(t, FindAccount(t.accounts, userId.value).value, env))
  {
    if GuardsPass(t, userId, env) {
      var target := FindAccount(t.accounts, userId.value).value;
      assert target in t.accounts && target.id == userId.value;
    }
  }

  /** The target's meeting rows are found by email: a target account without an email
      deletes the rows whose email is the text "undefined". */
  lemma MeetingsDeletedByEmailText(t: Tables, userId: Option<string>, env: DelEnv)
    requires GuardsPass(t, userId, env) && env.meetings.DeleteDone?
    requires FindAccount(t.accounts, userId.value).value.email.None?
    ensures forall m :: m in DeleteUserOutcome(t, userId, env).tables.scheduledMeetings <==>
                        m in t.scheduledMeetings && m.userEmail != "undefined"
  {
    CascadeRemovesExactlyTargetRows(t, userId, env);
  }
}
