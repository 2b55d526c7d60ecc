/**
 * The request decisions of the Flask application (app.py): the registration
 * validation chain, the login check and login-count increment, the session
 * guards of the page and API routes, logout, the profile update, the mock
 * biometric check, and the defaults of the dashboard statistics. The session is
 * a dictionary the routes update; the users table and the activity log are
 * sequences of rows the routes append to or update.
 */
module Server {
  import opened Js

  // ---------------------------------------------------------------------------
  // Responses

  /** One item of the mock activity feed: type, title and age in seconds. */
  datatype FeedItem = FeedItem(activityType: string, title: string, ageSeconds: int)

  datatype Response =
    | Page(template: string, error: Option<string>)
    | DashboardPage(stats: map<string, JsValue>)
    | Redirect(location: string)
    | Json(status: int, body: map<string, JsValue>)
    | Feed(items: seq<FeedItem>)
    | BadRequest
    | ServerFault

  const NotAuthenticated: map<string, JsValue> := map["error" := Str("Not authenticated")]

  // ---------------------------------------------------------------------------
  // Registration chain

  /** The checks of `register`, in the order they are tried. */
  datatype RegistrationRule = MissingField | ShortUsername | ShortPassword | Mismatch

  /** Whether a rule rejects the submitted fields (Python `len` counts code points). */
  predicate Breaks(rule: RegistrationRule, username: string, password: string, confirm: string) {
    match rule
    case MissingField => username == "" || password == ""
    case ShortUsername => |username| < 3
    case ShortPassword => |password| < 8
    case Mismatch => password != confirm
  }

  function RuleText(rule: RegistrationRule): string {
    match rule
    case MissingField => "Please fill in all required fields"
    case ShortUsername => "Username must be at least 3 characters long"
    case ShortPassword => "Password must be at least 8 characters long"
    case Mismatch => "Passwords do not match"
  }

  function RuleOrder(rule: RegistrationRule): nat {
    match rule
    case MissingField => 0
    case ShortUsername => 1
    case ShortPassword => 2
    case Mismatch => 3
  }

  /** The `if/elif` chain of `register`: the message of the first failing check. */
  function RegistrationError(username: string, password: string, confirm: string): Option<string> {
    if username == "" || password == "" then Some("Please fill in all required fields")
    else if |username| < 3 then Some("Username must be at least 3 characters long")
    else if |password| < 8 then Some("Password must be at least 8 characters long")
    else if password != confirm then Some("Passwords do not match")
    else None
  }

  /**
   * The chain reports the first broken rule: its text, with every earlier rule
   * holding. There is no error exactly when no rule is broken.
   */
  lemma RegistrationFirstFailure(username: string, password: string, confirm: string)
    ensures RegistrationError(username, password, confirm).None? <==>
      forall rule :: !Breaks(rule, username, password, confirm)
    ensures RegistrationError(username, password, confirm).Some? ==>
      exists rule ::
        && Breaks(rule, username, password, confirm)
        && RegistrationError(username, password, confirm).value == RuleText(rule)
        && forall earlier :: RuleOrder(earlier) < RuleOrder(rule) ==> !Breaks(earlier, username, password, confirm)
  {
    if username == "" || password == "" {
      assert Breaks(MissingField, username, password, confirm);
    } else if |username| < 3 {
      assert Breaks(ShortUsername, username, password, confirm);
    } else if |password| < 8 {
      assert Breaks(ShortPassword, username, password, confirm);
    } else if password != confirm {
      assert Breaks(Mismatch, username, password, confirm);
    } else {
      forall rule ensures !Breaks(rule, username, password, confirm) {
      }
    }
  }

  /** An accepted registration has a username of at least 3 and a password of at least 8 characters, confirmed. */
  lemma RegistrationAccepted(username: string, password: string, confirm: string)
    requires RegistrationError(username, password, confirm).None?
    ensures |username| >= 3 && |password| >= 8 && confirm == password
  {
  }

  // ---------------------------------------------------------------------------
  // Login count and statistics

  /** `(user[4] or 0) + 1`: a NULL or zero count restarts from 1. */
  function NextLoginCount(stored: Option<int>): (n: int)
    ensures stored.None? ==> n == 1
    ensures stored.Some? && stored.value != 0 ==> n == stored.value + 1
    ensures stored == Some(0) ==> n == 1
  {
    match stored
    case None => 1
    case Some(c) => c + 1
  }

  /** `session.get(key, fallback)`: the fallback only when the key is absent. */
  function GetOr(m: map<string, JsValue>, key: string, fallback: JsValue): (v: JsValue)
    ensures key in m ==> v == m[key]
    ensures key !in m ==> v == fallback
  {
    if key in m then m[key] else fallback
  }

  const SecondsPerDay := 86400

  /**
   * `get_user_stats`: `created` is None when the user has no row, Some(None)
   * when its `created_at` is NULL; `now` is the clock in seconds.
   */
  function UserStats(session: map<string, JsValue>, created: Option<Option<int>>, now: int): (stats: map<string, JsValue>)
    ensures stats.Keys == {"login_count", "account_age", "security_score", "last_login"}
    ensures stats["security_score"] == Num(85)
    ensures stats["login_count"] == GetOr(session, "login_count", Num(1))
    ensures stats["last_login"] == GetOr(session, "last_login", Str("Today"))
  {
    var accountAge :=
      match created
      case None => 0
      case Some(None) => 0
      case Some(Some(t)) => (now - t) / SecondsPerDay;
    map["login_count" := GetOr(session, "login_count", Num(1)),
        "account_age" := Num(accountAge),
        "security_score" := Num(85),
        "last_login" := GetOr(session, "last_login", Str("Today"))]
  }

  /**
   * The account age is the number of whole days since creation (`timedelta.days`
   * floors), and 0 when there is no row or no creation time.
   */
  lemma AccountAgeDays(session: map<string, JsValue>, created: Option<Option<int>>, now: int)
    ensures var age := UserStats(session, created, now)["account_age"];
      && age.Num?
      && (created.None? || created == Some(None) ==> age.n == 0)
      && (created.Some? && created.value.Some? ==>
            age.n * SecondsPerDay <= now - created.value.value < (age.n + 1) * SecondsPerDay)
  {
  }

  // ---------------------------------------------------------------------------
  // Biometric check

  /**
   * `api_verify_biometric`: `body` is the parsed JSON body, None when the request
   * is not JSON (the `.get` on None then raises).
   */
  function VerifyBiometric(body: Option<map<string, JsValue>>): (r: Response)
    ensures body.None? ==> r == ServerFault
    ensures body.Some? ==> r.Json? && (r.status == 200 <==> Truthy(Get(body.value, "credential")))
    ensures r.Json? ==> r.status in {200, 400} && (r.status == 200 <==> Truthy(Get(r.body, "success")))
  {
    match body
    case None => ServerFault
    case Some(json) =>
      if Truthy(Get(json, "credential")) then
        Json(200, map["success" := Bool(true), "message" := Str("Biometric authentication successful")])
      else
        Json(400, map["success" := Bool(false), "message" := Str("Invalid biometric credential")])
  }

  // ---------------------------------------------------------------------------
  // Rows, log entries and the application state

  datatype UserRow = UserRow(
    id: int,
    username: string,
    email: Option<string>,
    passwordHash: string,
    createdAt: Option<int>,
    lastLogin: Option<int>,
    loginCount: Option<int>)

  /** A line of the activity log (its clock, address and agent fields are left out). */
  datatype LogEntry = LogEntry(userId: JsValue, activity: string, details: string)

  /** The row `fetchone` returns for a username: the first match, or |users|. */
  function FindUser(users: seq<UserRow>, username: string): (k: nat)
    ensures k <= |users|
    ensures k < |users| ==> users[k].username == username
    ensures forall i :: 0 <= i < k ==> users[i].username != username
  {
    if users == [] then 0
    else if users[0].username == username then 0
    else 1 + FindUser(users[1..], username)
  }

  /** `UPDATE users SET login_count=..., last_login=... WHERE id=...`. */
  function RecordLogin(users: seq<UserRow>, id: int, count: int, now: int): (r: seq<UserRow>)
    ensures |r| == |users|
    ensures forall i :: 0 <= i < |users| ==>
      r[i] == if users[i].id == id then users[i].(loginCount := Some(count), lastLogin := Some(now)) else users[i]
  {
    seq(|users|, i requires 0 <= i < |users| =>
      if users[i].id == id then users[i].(loginCount := Some(count), lastLogin := Some(now)) else users[i])
  }

  /**
   * `UPDATE users SET email=%s WHERE id=%s`: `id` is the session's user id as
   * stored (it matches only a number equal to a row's id); `None` is SQL NULL.
   */
  function SetEmail(users: seq<UserRow>, id: JsValue, email: Option<string>): (r: seq<UserRow>)
    ensures |r| == |users|
    ensures forall i :: 0 <= i < |users| ==>
      r[i] == if Num(users[i].id) == id then users[i].(email := email) else users[i]
  {
    seq(|users|, i requires 0 <= i < |users| => if Num(users[i].id) == id then users[i].(email := email) else users[i])
  }

  /** `request.form.get(key)`: `None` when the field is absent. */
  function FormGet(form: map<string, string>, key: string): (v: Option<string>)
    ensures v.Some? <==> key in form
    ensures v.Some? ==> v.value == form[key]
  {
    if key in form then Some(form[key]) else None
  }

  /**
   * The password test of `login` as written: `check_password_hash` is handed
   * the row's username column where the stored hash belongs.
   */
  predicate PasswordCheckAsWritten(row: UserRow, password: string, checkHash: (string, string) -> bool) {
    checkHash(row.username, password)
  }

  /** The test evidently intended: the submitted password against the stored hash. */
  predicate PasswordCheck(row: UserRow, password: string, checkHash: (string, string) -> bool) {
    checkHash(row.passwordHash, password)
  }

  /**
   * Finding, as written: take a hash check that accepts exactly the hash
   * registration stored. A user whose username is not that hash string (every
   * real user: werkzeug hashes start with the method name and contain `$`)
   * fails the test as written with the very password they registered.
   */
  lemma RegisteredUserRefused(row: UserRow, password: string, hash: string -> string)
    requires row.passwordHash == hash(password)
    requires row.username != hash(password)
    ensures !PasswordCheckAsWritten(row, password, (h: string, p: string) => h == hash(p))
  {
  }

  /**
   * Finding, as written, for hashes shaped like werkzeug's: when every hash
   * contains '$' and the username does not, no submitted password passes.
   */
  lemma DollarHashLocksOut(row: UserRow, submitted: string, hash: string -> string)
    requires forall p :: '$' in hash(p)
    requires '$' !in row.username
    ensures !PasswordCheckAsWritten(row, submitted, (h: string, p: string) => h == hash(p))
  {
    assert '$' in hash(submitted);
  }

  /** A stand-in for `generate_password_hash`: a method tag, a '$', the password. */
  function TaggedHash(password: string): (h: string)
    ensures '$' in h
  {
    assert ("pbkdf2:sha256$" + password)[13] == '$';
    "pbkdf2:sha256$" + password
  }

  /** User "alice", registered with "password1": refused as written, admitted as intended. */
  lemma AliceLockedOut()
    ensures var row := UserRow(1, "alice", Some("alice@example.com"), TaggedHash("password1"), None, None, Some(0));
      && !PasswordCheckAsWritten(row, "password1", (h: string, p: string) => h == TaggedHash(p))
      && PasswordCheck(row, "password1", (h: string, p: string) => h == TaggedHash(p))
  {
    var row := UserRow(1, "alice", Some("alice@example.com"), TaggedHash("password1"), None, None, Some(0));
    assert '$' !in row.username;
    DollarHashLocksOut(row, "password1", TaggedHash);
  }

  /**
   * Corrected: with the stored hash, a submitted password passes exactly when
   * it hashes like the registered one, whatever the username.
   */
  lemma PasswordCheckMatchesHash(row: UserRow, password: string, submitted: string, hash: string -> string)
    requires row.passwordHash == hash(password)
    ensures PasswordCheck(row, submitted, (h: string, p: string) => h == hash(p)) <==> hash(submitted) == hash(password)
  {
  }

  /** `'user_id' in session`. */
  predicate SignedIn(session: map<string, JsValue>) {
    "user_id" in session
  }

  /**
   * The server: the signed-in session, the users table and the activity log.
   * `permanent` is the session's permanence flag.
   */
  class App {
    var session: map<string, JsValue>
    var permanent: bool
    var users: seq<UserRow>
    var log: seq<LogEntry>

    constructor(users: seq<UserRow>)
      ensures session == map[] && !permanent && this.users == users && log == []
    {
      session := map[];
      permanent := false;
      this.users := users;
      log := [];
    }

    /**
     * POST `/`: `checkHash` stands for `check_password_hash`, applied as
     * written to the row's username column (`PasswordCheckAsWritten`);
     * `nowText` is the ISO text of `now` and `token` the fresh session id.
     */
    method Login(form: map<string, string>, checkHash: (string, string) -> bool, now: int, nowText: string, token: string)
      returns (r: Response)
      modifies this
      ensures "last_login" !in old(session) ==> "last_login" !in session
      ensures "username" !in form || "password" !in form ==>
        r == BadRequest && session == old(session) && users == old(users) && log == old(log) && permanent == old(permanent)
      ensures "username" in form && "password" in form && (form["username"] == "" || form["password"] == "") ==>
        r == Page("login.html", Some("Please fill in all fields"))
        && session == old(session) && users == old(users) && log == old(log) && permanent == old(permanent)
      ensures "username" in form && "password" in form && form["username"] != "" && form["password"] != "" ==>
        var k := FindUser(old(users), form["username"]);
        if k < |old(users)| && PasswordCheckAsWritten(old(users)[k], form["password"], checkHash) then
          var row := old(users)[k];
          var count := NextLoginCount(row.loginCount);
          && r == Redirect("/dashboard")
          && users == RecordLogin(old(users), row.id, count, now)
          && session == old(session)["user_id" := Num(row.id)]["username" := Str(row.username)]
                          ["login_count" := Num(count)]["login_time" := Str(nowText)]["session_id" := Str(token)]
          && permanent
          && log == old(log) + [LogEntry(Num(row.id), "login", "Successful login for " + form["username"])]
        else
          && r == Page("login.html", Some("Invalid username or password"))
          && session == old(session) && users == old(users) && permanent == old(permanent)
          && log == old(log) + [LogEntry(Num(0), "failed_login", "Failed login attempt for " + form["username"])]
    {
      if "username" !in form || "password" !in form {
        return BadRequest;
      }
      var username := form["username"];
      var password := form["password"];
      if username == "" || password == "" {
        return Page("login.html", Some("Please fill in all fields"));
      }
      var k := FindUser(users, username);
      if k < |users| && PasswordCheckAsWritten(users[k], password, checkHash) {
        var user := users[k];
        var newLoginCount := NextLoginCount(user.loginCount);
        users := RecordLogin(users, user.id, newLoginCount, now);
        permanent := true;
        session := session["user_id" := Num(user.id)];
        session := session["username" := Str(user.username)];
        session := session["login_count" := Num(newLoginCount)];
        session := session["login_time" := Str(nowText)];
        session := session["session_id" := Str(token)];
        log := log + [LogEntry(Num(user.id), "login", "Successful login for " + username)];
        return Redirect("/dashboard");
      }
      log := log + [LogEntry(Num(0), "failed_login", "Failed login attempt for " + username)];
      return Page("login.html", Some("Invalid username or password"));
    }

    /**
     * POST `/register`: `hashed` stands for `generate_password_hash(password)`,
     * `inserted` for whether the INSERT went through (it fails on a taken
     * username), `newId` for the id the database assigns.
     */
    method Register(form: map<string, string>, hashed: string, inserted: bool, newId: int, now: int)
      returns (r: Response)
      modifies this
      ensures session == old(session) && permanent == old(permanent)
      ensures "last_login" !in old(session) ==> "last_login" !in session
      ensures "username" !in form || "password" !in form ==> r == BadRequest && users == old(users) && log == old(log)
      ensures "username" in form && "password" in form ==>
        var username, password := form["username"], form["password"];
        var email := if "email" in form then form["email"] else "";
        var confirm := if "confirm_password" in form then form["confirm_password"] else "";
        match RegistrationError(username, password, confirm)
        case Some(error) =>
          r == Page("register.html", Some(error)) && users == old(users) && log == old(log)
        case None =>
          if inserted then
            && r == Redirect("/")
            && users == old(users) + [UserRow(newId, username, Some(email), hashed, Some(now), None, Some(0))]
            && log == old(log) + [LogEntry(Num(newId), "registration", "New user registered: " + username)]
          else
            && r == Page("register.html", Some("Username already exists or registration failed"))
            && users == old(users) && log == old(log)
    {
      if "username" !in form || "password" !in form {
        return BadRequest;
      }
      var username := form["username"];
      var email := if "email" in form then form["email"] else "";
      var password := form["password"];
      var confirmPassword := if "confirm_password" in form then form["confirm_password"] else "";
      var error := RegistrationError(username, password, confirmPassword);
      if error.Some? {
        return Page("register.html", error);
      }
      if !inserted {
        return Page("register.html", Some("Username already exists or registration failed"));
      }
      users := users + [UserRow(newId, username, Some(email), hashed, Some(now), None, Some(0))];
      log := log + [LogEntry(Num(newId), "registration", "New user registered: " + username)];
      return Redirect("/");
    }

    /** `/logout`: the session is always cleared; a logout is logged only for a truthy user id. */
    method Logout() returns (r: Response)
      modifies this
      ensures r == Redirect("/")
      ensures session == map[] && !permanent && users == old(users)
      ensures "last_login" !in session
      ensures Truthy(Get(old(session), "user_id")) ==>
        log == old(log) + [LogEntry(Get(old(session), "user_id"), "logout",
                                    "User " + ToText(PyNone(Get(old(session), "username"))) + " logged out")]
      ensures !Truthy(Get(old(session), "user_id")) ==> log == old(log)
    {
      var userId := Get(session, "user_id");
      var username := Get(session, "username");
      if Truthy(userId) {
        log := log + [LogEntry(userId, "logout", "User " + ToText(PyNone(username)) + " logged out")];
      }
      session := map[];
      permanent := false;
      return Redirect("/");
    }

    /** `/dashboard`: the page with the statistics, or back to '/' when signed out. */
    method Dashboard(created: Option<Option<int>>, now: int) returns (r: Response)
      ensures !SignedIn(session) ==> r == Redirect("/")
      ensures SignedIn(session) ==> r == DashboardPage(UserStats(session, created, now))
    {
      if "user_id" !in session {
        return Redirect("/");
      }
      return DashboardPage(UserStats(session, created, now));
    }

    /** `/camera`: a signed-in user is sent on to the dashboard, anyone else to '/'. */
    method Camera() returns (r: Response)
      ensures r == if SignedIn(session) then Redirect("/dashboard") else Redirect("/")
    {
      if "user_id" !in session {
        return Redirect("/");
      }
      return Redirect("/dashboard");
    }

    /** `/api/user-stats`: 401 when signed out. */
    method ApiUserStats(created: Option<Option<int>>, now: int) returns (r: Response)
      ensures !SignedIn(session) ==> r == Json(401, NotAuthenticated)
      ensures SignedIn(session) ==> r == Json(200, UserStats(session, created, now))
      ensures SignedIn(session) && "last_login" !in session ==> r.body["last_login"] == Str("Today")
    {
      if "user_id" !in session {
        return Json(401, NotAuthenticated);
      }
      return Json(200, UserStats(session, created, now));
    }

    /** `/api/recent-activity`: 401 when signed out, else the three mock items. */
    method ApiRecentActivity() returns (r: Response)
      ensures !SignedIn(session) ==> r == Json(401, NotAuthenticated)
      ensures SignedIn(session) ==> r == Feed(MockFeed)
    {
      if "user_id" !in session {
        return Json(401, NotAuthenticated);
      }
      return Feed(MockFeed);
    }

    /**
     * POST `/api/update-profile`: 401 when signed out; otherwise the email is
     * written, as NULL when the form has no email field (`saved` says whether
     * the database calls went through).
     */
    method ApiUpdateProfile(form: map<string, string>, saved: bool) returns (r: Response)
      modifies this
      ensures session == old(session) && permanent == old(permanent)
      ensures "last_login" !in old(session) ==> "last_login" !in session
      ensures !SignedIn(old(session)) ==> r == Json(401, UpdateRefused) && users == old(users) && log == old(log)
      ensures SignedIn(old(session)) && saved ==>
        && r == Json(200, UpdateDone)
        && log == old(log) + [LogEntry(old(session)["user_id"], "profile_update", "Profile information updated")]
        && users == SetEmail(old(users), old(session)["user_id"], FormGet(form, "email"))
      ensures SignedIn(old(session)) && !saved ==>
        r == Json(500, UpdateFailed) && users == old(users) && log == old(log)
    {
      if "user_id" !in session {
        return Json(401, UpdateRefused);
      }
      if !saved {
        return Json(500, UpdateFailed);
      }
      var userId := session["user_id"];
      var email := FormGet(form, "email");
      users := SetEmail(users, userId, email);
      log := log + [LogEntry(userId, "profile_update", "Profile information updated")];
      return Json(200, UpdateDone);
    }
  }

  /** Python's `str(None)` for a missing session value. */
  function PyNone(v: JsValue): JsValue {
    if v == Undefined then Str("None") else v
  }

  const UpdateRefused: map<string, JsValue> := map["success" := Bool(false), "message" := Str("Not authenticated")]
  const UpdateDone: map<string, JsValue> := map["success" := Bool(true), "message" := Str("Profile updated successfully")]
  const UpdateFailed: map<string, JsValue> := map["success" := Bool(false), "message" := Str("Failed to update profile")]

  /** The mock activity list: a login now, a profile update two hours ago, a security change a day ago. */
  const MockFeed: seq<FeedItem> := [
    FeedItem("login", "Successful Login", 0),
    FeedItem("profile_update", "Profile Updated", 2 * 3600),
    FeedItem("security_change", "Security Settings Changed", SecondsPerDay)
  ]

  /**
   * No route writes `last_login` into the session: the constructor starts from
   * an empty session, and `Login`, `Register`, `Logout` and `ApiUpdateProfile`
   * each ensure the key stays absent. So every session the server reaches has
   * none, and its statistics report 'Today'.
   */
  lemma LastLoginAlwaysToday(session: map<string, JsValue>, created: Option<Option<int>>, now: int)
    requires "last_login" !in session
    ensures UserStats(session, created, now)["last_login"] == Str("Today")
  {
  }
}
