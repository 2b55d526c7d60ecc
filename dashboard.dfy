/**
 * Presentation rules of the dashboard page (`Dashboard` in static/dashboard.js):
 * the activity-type icon lookup, the relative-time buckets, the stats panel
 * with its per-field defaults, the submit button around profile and security
 * updates with the notification each reply produces, the logout reply, and the
 * rendering of the activity list.
 */
module Dashboard {
  import opened Js

  // ---------------------------------------------------------------------------
  // Activity icons

  /** The icon table of `getActivityIcon`. */
  const Icons: map<string, JsValue> := map[
    "login" := Str("fa-sign-in-alt"),
    "logout" := Str("fa-sign-out-alt"),
    "profile_update" := Str("fa-user-edit"),
    "security_change" := Str("fa-shield-alt"),
    "password_change" := Str("fa-key")
  ]

  const DefaultIcon := "fa-info-circle"

  /** `a || fallback` shown as text: the value when it is truthy, else the fallback. */
  function OrDefault(v: JsValue, fallback: string): (r: string)
    requires fallback != ""
    ensures r != ""
    ensures Truthy(v) ==> r == ToText(v)
    ensures !Truthy(v) ==> r == fallback
  {
    if Truthy(v) then ToText(v) else fallback
  }

  /** `getActivityIcon(type)`: the table entry, or the default icon. */
  function ActivityIcon(activityType: string): string {
    OrDefault(Get(Icons, activityType), DefaultIcon)
  }

  predicate IsKnownActivity(activityType: string) {
    activityType in {"login", "logout", "profile_update", "security_change", "password_change"}
  }

  /**
   * The five known types get their own icons, all different from each other and
   * from the default; every other type gets the default.
   */
  lemma ActivityIconChoice(activityType: string)
    ensures IsKnownActivity(activityType) ==> ActivityIcon(activityType) == Icons[activityType].s
    ensures ActivityIcon(activityType) == DefaultIcon <==> !IsKnownActivity(activityType)
  {
    assert activityType in Icons <==> IsKnownActivity(activityType);
  }

  lemma ActivityIconsDistinct(t1: string, t2: string)
    requires IsKnownActivity(t1) && IsKnownActivity(t2) && t1 != t2
    ensures ActivityIcon(t1) != ActivityIcon(t2)
  {
  }

  lemma KnownActivityIcons()
    ensures ActivityIcon("login") == "fa-sign-in-alt"
    ensures ActivityIcon("logout") == "fa-sign-out-alt"
    ensures ActivityIcon("profile_update") == "fa-user-edit"
    ensures ActivityIcon("security_change") == "fa-shield-alt"
    ensures ActivityIcon("password_change") == "fa-key"
  {
  }

  // ---------------------------------------------------------------------------
  // Relative time

  const MinuteMs := 60000
  const HourMs := 3600000
  const DayMs := 86400000

  /** How long ago something happened, as `formatTime` reports it. */
  datatype Elapsed = JustNow | MinutesAgo(n: nat) | HoursAgo(n: nat) | DaysAgo(n: nat) {
    /** The length of one counted unit, in milliseconds. */
    function Unit(): nat {
      match this
      case JustNow => 0
      case MinutesAgo(_) => MinuteMs
      case HoursAgo(_) => HourMs
      case DaysAgo(_) => DayMs
    }

    /** The smallest difference that reads this way. */
    function Floor(): nat {
      if JustNow? then 0 else n * Unit()
    }
  }

  /**
   * The bucket of a difference in milliseconds (`now - date`): under a minute,
   * including a negative difference, is "just now"; otherwise the count of
   * whole units of the largest unit that fits, minutes (1..59), hours (1..23) or
   * days (1 and up).
   */
  function Bucket(diff: int): (e: Elapsed)
    ensures e.JustNow? <==> diff < MinuteMs
    ensures e.MinutesAgo? <==> MinuteMs <= diff < HourMs
    ensures e.HoursAgo? <==> HourMs <= diff < DayMs
    ensures e.DaysAgo? <==> DayMs <= diff
    ensures e.MinutesAgo? ==> 1 <= e.n <= 59
    ensures e.HoursAgo? ==> 1 <= e.n <= 23
    ensures e.DaysAgo? ==> 1 <= e.n
    ensures !e.JustNow? ==> e.n * e.Unit() <= diff < (e.n + 1) * e.Unit()
  {
    if diff < MinuteMs then JustNow
    else if diff < HourMs then MinutesAgo(diff / MinuteMs)
    else if diff < DayMs then HoursAgo(diff / HourMs)
    else DaysAgo(diff / DayMs)
  }

  /** The text of a bucket. */
  function Render(e: Elapsed): string {
    match e
    case JustNow => "Just now"
    case MinutesAgo(n) => NatToString(n) + " minutes ago"
    case HoursAgo(n) => NatToString(n) + " hours ago"
    case DaysAgo(n) => NatToString(n) + " days ago"
  }

  /** `formatTime`, given the difference between now and the timestamp. */
  function FormatTime(diff: int): string {
    Render(Bucket(diff))
  }

  /** The character six places from the end tells the four texts apart. */
  lemma RenderMark(e: Elapsed)
    ensures |Render(e)| >= 8
    ensures Render(e)[|Render(e)| - 6]
      == match e
         case JustNow => 's'
         case MinutesAgo(_) => 'e'
         case HoursAgo(_) => 'r'
         case DaysAgo(_) => 'y'
  {
  }

  lemma {:induction false} SuffixCancel(a: string, b: string, suffix: string)
    requires a + suffix == b + suffix
    ensures a == b
  {
    assert |a| == |b|;
    assert a == (a + suffix)[..|a|];
    assert b == (b + suffix)[..|b|];
  }

  /** Different buckets read differently: the text gives the bucket back. */
  lemma RenderInjective(e1: Elapsed, e2: Elapsed)
    requires Render(e1) == Render(e2)
    ensures e1 == e2
  {
    RenderMark(e1);
    RenderMark(e2);
    match e1
    case JustNow =>
    case MinutesAgo(n1) =>
      SuffixCancel(NatToString(n1), NatToString(e2.n), " minutes ago");
      NatToStringInjective(n1, e2.n);
    case HoursAgo(n1) =>
      SuffixCancel(NatToString(n1), NatToString(e2.n), " hours ago");
      NatToStringInjective(n1, e2.n);
    case DaysAgo(n1) =>
      SuffixCancel(NatToString(n1), NatToString(e2.n), " days ago");
      NatToStringInjective(n1, e2.n);
  }

  /** The bucket never overstates: the elapsed time is at least its floor. */
  lemma BucketBelow(diff: int)
    ensures Bucket(diff).Floor() <= if diff < 0 then 0 else diff
  {
  }

  /** A later event never reads as longer ago: the floor grows with the difference. */
  lemma BucketMonotone(d1: int, d2: int)
    requires d1 <= d2
    ensures Bucket(d1).Floor() <= Bucket(d2).Floor()
  {
    var e1, e2 := Bucket(d1), Bucket(d2);
    if e1.MinutesAgo? && e2.MinutesAgo? {
      assert d1 / MinuteMs <= d2 / MinuteMs;
    } else if e1.HoursAgo? && e2.HoursAgo? {
      assert d1 / HourMs <= d2 / HourMs;
    } else if e1.DaysAgo? && e2.DaysAgo? {
      assert d1 / DayMs <= d2 / DayMs;
    }
  }

  // ---------------------------------------------------------------------------
  // Stats panel

  /** The four texts of the stats panel. */
  datatype StatsView = StatsView(loginCount: string, lastLogin: string, accountAge: string, securityScore: string)

  /**
   * What `updateStatsDisplay` writes: each field of the reply when truthy, else
   * '0', 'Never', '0 days' or '85%'. It reads the camelCase keys.
   */
  function StatsTexts(stats: map<string, JsValue>): (view: StatsView)
    ensures view.loginCount != "" && view.lastLogin != ""
    ensures view.accountAge != "" && view.securityScore != ""
    ensures var v := Get(stats, "loginCount"); view.loginCount == if Truthy(v) then ToText(v) else "0"
    ensures var v := Get(stats, "lastLogin"); view.lastLogin == if Truthy(v) then ToText(v) else "Never"
    ensures var v := Get(stats, "accountAge"); view.accountAge == if Truthy(v) then ToText(v) else "0 days"
    ensures var v := Get(stats, "securityScore"); view.securityScore == if Truthy(v) then ToText(v) else "85%"
  {
    StatsView(
      OrDefault(Get(stats, "loginCount"), "0"),
      OrDefault(Get(stats, "lastLogin"), "Never"),
      OrDefault(Get(stats, "accountAge"), "0 days"),
      OrDefault(Get(stats, "securityScore"), "85%"))
  }

  const DefaultStats := StatsView("0", "Never", "0 days", "85%")

  /**
   * Finding, as written: a reply that carries only the snake_case keys the
   * server sends shows the four defaults, whatever its values.
   */
  lemma SnakeCaseReplyShowsDefaults(stats: map<string, JsValue>)
    requires forall k :: k in stats ==> k in {"login_count", "last_login", "account_age", "security_score"}
    ensures StatsTexts(stats) == DefaultStats
  {
    assert "loginCount" !in stats && "lastLogin" !in stats;
    assert "accountAge" !in stats && "securityScore" !in stats;
  }

  /** The evident intent: read the keys the server actually sends. */
  function StatsTextsFromServer(stats: map<string, JsValue>): (view: StatsView)
    ensures view.loginCount != "" && view.lastLogin != ""
    ensures view.accountAge != "" && view.securityScore != ""
    ensures var v := Get(stats, "login_count"); view.loginCount == if Truthy(v) then ToText(v) else "0"
    ensures var v := Get(stats, "last_login"); view.lastLogin == if Truthy(v) then ToText(v) else "Never"
    ensures var v := Get(stats, "account_age"); view.accountAge == if Truthy(v) then ToText(v) else "0 days"
    ensures var v := Get(stats, "security_score"); view.securityScore == if Truthy(v) then ToText(v) else "85%"
  {
    StatsView(
      OrDefault(Get(stats, "login_count"), "0"),
      OrDefault(Get(stats, "last_login"), "Never"),
      OrDefault(Get(stats, "account_age"), "0 days"),
      OrDefault(Get(stats, "security_score"), "85%"))
  }

  /**
   * With the server's keys, a positive login count is shown as its number,
   * where the as-written panel shows '0'.
   */
  lemma ServerStatsShown(stats: map<string, JsValue>, count: nat)
    requires Get(stats, "login_count") == Num(count) && count > 0 && "loginCount" !in stats
    ensures StatsTextsFromServer(stats).loginCount == NatToString(count)
    ensures StatsTexts(stats).loginCount == "0" != NatToString(count)
  {
    var r := NatToString(count);
    assert r[0] != '0';
  }

  /**
   * The stats panel: each text is `None` when its element is not on the page
   * (the update then skips it).
   */
  class StatsPanel {
    var loginCount: Option<string>
    var lastLogin: Option<string>
    var accountAge: Option<string>
    var securityScore: Option<string>

    constructor(hasLoginCount: bool, hasLastLogin: bool, hasAccountAge: bool, hasSecurityScore: bool)
      ensures loginCount == (if hasLoginCount then Some("") else None)
      ensures lastLogin == (if hasLastLogin then Some("") else None)
      ensures accountAge == (if hasAccountAge then Some("") else None)
      ensures securityScore == (if hasSecurityScore then Some("") else None)
    {
      loginCount := if hasLoginCount then Some("") else None;
      lastLogin := if hasLastLogin then Some("") else None;
      accountAge := if hasAccountAge then Some("") else None;
      securityScore := if hasSecurityScore then Some("") else None;
    }

    /** `updateStatsDisplay`: every element on the page gets its text; absent ones stay absent. */
    method UpdateStatsDisplay(stats: map<string, JsValue>)
      modifies this
      ensures var view := StatsTexts(stats);
        && loginCount == (if old(loginCount).Some? then Some(view.loginCount) else None)
        && lastLogin == (if old(lastLogin).Some? then Some(view.lastLogin) else None)
        && accountAge == (if old(accountAge).Some? then Some(view.accountAge) else None)
        && securityScore == (if old(securityScore).Some? then Some(view.securityScore) else None)
    {
      if loginCount.Some? { loginCount := Some(OrDefault(Get(stats, "loginCount"), "0")); }
      if lastLogin.Some? { lastLogin := Some(OrDefault(Get(stats, "lastLogin"), "Never")); }
      if accountAge.Some? { accountAge := Some(OrDefault(Get(stats, "accountAge"), "0 days")); }
      if securityScore.Some? { securityScore := Some(OrDefault(Get(stats, "securityScore"), "85%")); }
    }
  }

  // ---------------------------------------------------------------------------
  // Notifications and the update handlers

  /** The `type` argument of `showNotification`: 'success', 'error' or 'info'. */
  datatype NotificationKind = Success | Failure | Info

  datatype Notification = Notification(title: string, message: string, kind: NotificationKind)

  /**
   * What a `fetch(...).then(r => r.json())` round trip produced: a thrown error
   * (network failure, or a body that is not JSON) or the parsed object.
   */
  datatype UpdateReply = Thrown(error: JsError) | Reply(json: map<string, JsValue>)

  /** `new Error(m).message`: empty when `m` is undefined, else `String(m)`. */
  function ErrorMessage(m: JsValue): (r: string)
    ensures m.Str? ==> r == m.s
    ensures m == Undefined ==> r == ""
  {
    if m == Undefined then "" else ToText(m)
  }

  /** Which of the two update forms was submitted. */
  datatype UpdateForm = ProfileForm | SecurityForm {
    function SuccessTitle(): string {
      match this
      case ProfileForm => "Profile Updated"
      case SecurityForm => "Security Updated"
    }
    function SuccessMessage(): string {
      match this
      case ProfileForm => "Your profile has been updated successfully."
      case SecurityForm => "Your security settings have been updated."
    }
  }

  /**
   * The notification an update shows: the success notice when `success` is
   * truthy; otherwise "Update Failed" with the error's message, which for a
   * parsed reply is the server's `message`.
   */
  function UpdateNotification(form: UpdateForm, reply: UpdateReply): (note: Notification)
    ensures note.kind == Success <==> reply.Reply? && Truthy(Get(reply.json, "success"))
    ensures note.kind == Success ==> note.title == form.SuccessTitle() && note.message == form.SuccessMessage()
    ensures note.kind != Success ==> note.kind == Failure && note.title == "Update Failed"
    ensures reply.Thrown? ==> note.message == reply.error.message
    ensures reply.Reply? && !Truthy(Get(reply.json, "success")) ==>
      note.message == ErrorMessage(Get(reply.json, "message"))
  {
    match reply
    case Thrown(error) => Notification("Update Failed", error.message, Failure)
    case Reply(json) =>
      if Truthy(Get(json, "success")) then Notification(form.SuccessTitle(), form.SuccessMessage(), Success)
      else Notification("Update Failed", ErrorMessage(Get(json, "message")), Failure)
  }

  /** A refusal that carries a message string shows exactly that message. */
  lemma RefusalShowsServerMessage(form: UpdateForm, json: map<string, JsValue>, m: string)
    requires !Truthy(Get(json, "success")) && Get(json, "message") == Str(m)
    ensures UpdateNotification(form, Reply(json)) == Notification("Update Failed", m, Failure)
  {
  }

  const UpdatingLabel := "<div class=\"loading\"><div class=\"spinner\"></div> Updating...</div>"

  /** The submit button of an update form. */
  class SubmitButton {
    var caption: string
    var disabled: bool

    constructor(caption: string)
      ensures this.caption == caption && !disabled
    {
      this.caption := caption;
      disabled := false;
    }

    /**
     * `handleProfileUpdate` / `handleSecurityUpdate`: the button shows the
     * loading caption and is disabled while the request runs; afterwards, on
     * success and on failure alike, the caption is the one it had before and the
     * button is enabled.
     */
    method HandleUpdate(form: UpdateForm, reply: UpdateReply) returns (note: Notification)
      modifies this
      ensures caption == old(caption) && !disabled
      ensures note == UpdateNotification(form, reply)
    {
      var originalText := caption;
      caption := UpdatingLabel;
      disabled := true;
      note := UpdateNotification(form, reply);
      caption := originalText;
      disabled := false;
    }
  }

  // ---------------------------------------------------------------------------
  // Logout

  /** What `fetch('/logout', ...)` produced: a thrown error, or a response and its `ok` flag. */
  datatype LogoutReply = LogoutThrown | LogoutResponse(ok: bool)

  /** `handleLogout`: the notification shown (if any) and whether the page then goes to '/'. */
  function LogoutOutcome(reply: LogoutReply): (r: (Option<Notification>, bool))
    ensures r.1 <==> reply == LogoutResponse(true)
    ensures r.0.None? <==> reply == LogoutResponse(false)
    ensures r.0.Some? ==> (r.0.value.kind == Success <==> r.1)
    ensures reply == LogoutThrown ==> r.0 == Some(Notification("Error", "Failed to logout. Please try again.", Failure))
    ensures r.1 ==> r.0 == Some(Notification("Logged Out", "You have been successfully logged out.", Success))
  {
    match reply
    case LogoutThrown => (Some(Notification("Error", "Failed to logout. Please try again.", Failure)), false)
    case LogoutResponse(ok) =>
      if ok then (Some(Notification("Logged Out", "You have been successfully logged out.", Success)), true)
      else (None, false)
  }

  // ---------------------------------------------------------------------------
  // Activity list

  /**
   * An activity as the list renders it: its type, its title (as sent) and the
   * milliseconds between its timestamp and now.
   */
  datatype Activity = Activity(activityType: string, title: JsValue, ageMs: int)

  /** One `<li>` of the list: icon class, title text and time text. */
  datatype ActivityItem = ActivityItem(icon: string, title: string, time: string)

  function RenderActivity(a: Activity): ActivityItem {
    ActivityItem(ActivityIcon(a.activityType), ToText(a.title), FormatTime(a.ageMs))
  }

  /** `updateActivityList`: one item per activity, in the order received. */
  function RenderActivities(activities: seq<Activity>): (items: seq<ActivityItem>)
    ensures |items| == |activities|
    ensures forall i :: 0 <= i < |activities| ==> items[i] == RenderActivity(activities[i])
  {
    if activities == [] then []
    else [RenderActivity(activities[0])] + RenderActivities(activities[1..])
  }

  /** Rendering commutes with concatenation: the list of a longer feed extends the shorter one's. */
  lemma {:induction false} RenderActivitiesAppend(a: seq<Activity>, b: seq<Activity>)
    ensures RenderActivities(a + b) == RenderActivities(a) + RenderActivities(b)
  {
    var r := RenderActivities(a + b);
    assert forall i :: 0 <= i < |a| ==> (a + b)[i] == a[i];
    assert forall i :: 0 <= i < |b| ==> (a + b)[|a| + i] == b[i];
    assert r == RenderActivities(a) + RenderActivities(b);
  }
}
