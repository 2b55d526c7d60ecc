/**
 * How the pieces meet: the client's field checks against the server's
 * registration chain, the server's JSON replies as the dashboard shows them,
 * and the mock activity feed as the dashboard renders it.
 */
module Portal {
  import opened Js
  import Auth
  import Dashboard
  import Server

  /** The username and password inputs of the registration form. */
  function UsernameInput(value: string): Auth.Input {
    Auth.Input(value, true, "text", "username")
  }

  function PasswordInput(value: string): Auth.Input {
    Auth.Input(value, true, "password", "password")
  }

  predicate NoSurroundingSpace(s: string) {
    s == [] || (!IsWhiteSpace(s[0]) && !IsWhiteSpace(s[|s| - 1]))
  }

  /** A username of at least 3 characters with no surrounding whitespace passes the client. */
  lemma LongUsernamePassesClient(username: string)
    requires |username| >= 3 && NoSurroundingSpace(username)
    ensures Auth.FieldValid(UsernameInput(username))
  {
    UsernameRulesHold(username);
    UntrimmedPassesClient(UsernameInput(username));
  }

  /** A password of at least 8 characters with no surrounding whitespace passes the client. */
  lemma LongPasswordPassesClient(password: string)
    requires |password| >= 8 && NoSurroundingSpace(password)
    ensures Auth.FieldValid(PasswordInput(password))
  {
    PasswordRulesHold(password);
    UntrimmedPassesClient(PasswordInput(password));
  }

  /** An input whose value `trim()` leaves alone passes when no rule rejects that value. */
  lemma UntrimmedPassesClient(input: Auth.Input)
    requires NoSurroundingSpace(input.value)
    requires forall rule :: !Auth.Violates(input, input.value, rule)
    ensures Auth.FieldValid(input)
  {
    TrimUntouched(input.value);
    Auth.ValidWhenNoRuleBroken(input, input.value);
  }

  lemma UsernameRulesHold(username: string)
    requires |username| >= 3
    ensures forall rule :: !Auth.Violates(UsernameInput(username), username, rule)
  {
    UsernameUnitsRulesHold(username);
  }

  /** The client counts UTF-16 units: three of them are enough, whatever the characters. */
  lemma UsernameUnitsRulesHold(username: string)
    requires Utf16Length(username) >= 3
    ensures forall rule :: !Auth.Violates(UsernameInput(username), username, rule)
  {
  }

  lemma PasswordRulesHold(password: string)
    requires |password| >= 8
    ensures forall rule :: !Auth.Violates(PasswordInput(password), password, rule)
  {
    assert Utf16Length(password) >= 8;
  }

  /**
   * What the server accepts, the client accepts too: a username and password
   * that pass the registration chain (and carry no surrounding whitespace,
   * which the client trims) pass the client's field checks.
   */
  lemma ServerAcceptedPassesClient(username: string, password: string, confirm: string)
    requires Server.RegistrationError(username, password, confirm).None?
    requires NoSurroundingSpace(username) && NoSurroundingSpace(password)
    ensures Auth.FieldValid(UsernameInput(username))
    ensures Auth.FieldValid(PasswordInput(password))
  {
    Server.RegistrationAccepted(username, password, confirm);
    LongUsernamePassesClient(username);
    LongPasswordPassesClient(password);
  }

  /**
   * For text in the Basic Multilingual Plane the thresholds agree the other way
   * too: a username the client accepts is long enough for the server.
   */
  lemma ClientAcceptedUsernameLongEnough(username: string)
    requires Auth.FieldValid(UsernameInput(username))
    requires NoSurroundingSpace(username)
    requires forall i :: 0 <= i < |username| ==> username[i] as int <= 0xFFFF
    ensures |username| >= 3
  {
    TrimUntouched(username);
    Auth.FieldVerdictUnfolded(UsernameInput(username));
    Utf16LengthBmp(username);
  }

  /**
   * Outside the Basic Multilingual Plane they part: two emoji are four UTF-16
   * units for the client but two characters for the server.
   */
  lemma ThresholdsPartOutsideBmp()
    ensures Auth.FieldValid(UsernameInput(TwoEmoji))
    ensures Server.RegistrationError(TwoEmoji, "password1", "password1")
            == Some("Username must be at least 3 characters long")
  {
    TwoEmojiFacts();
    UsernameUnitsRulesHold(TwoEmoji);
    UntrimmedPassesClient(UsernameInput(TwoEmoji));
  }

  /** Two characters outside the Basic Multilingual Plane. */
  const TwoEmoji: string := "\U{1F600}\U{1F600}"

  lemma TwoEmojiFacts()
    ensures |TwoEmoji| == 2 && NoSurroundingSpace(TwoEmoji)
    ensures Utf16Length(TwoEmoji) == 4
  {
    var first := TwoEmoji[..1];
    assert first[..0] == [];
    assert Utf16Length(first) == 2;
    assert TwoEmoji[..|TwoEmoji| - 1] == first;
  }

  /** The profile update's three server replies, as the dashboard reports them. */
  lemma ProfileRepliesShown()
    ensures Dashboard.UpdateNotification(Dashboard.ProfileForm, Dashboard.Reply(Server.UpdateRefused))
            == Dashboard.Notification("Update Failed", "Not authenticated", Dashboard.Failure)
    ensures Dashboard.UpdateNotification(Dashboard.ProfileForm, Dashboard.Reply(Server.UpdateFailed))
            == Dashboard.Notification("Update Failed", "Failed to update profile", Dashboard.Failure)
    ensures Dashboard.UpdateNotification(Dashboard.ProfileForm, Dashboard.Reply(Server.UpdateDone)).kind
            == Dashboard.Success
  {
    Dashboard.RefusalShowsServerMessage(Dashboard.ProfileForm, Server.UpdateRefused, "Not authenticated");
    Dashboard.RefusalShowsServerMessage(Dashboard.ProfileForm, Server.UpdateFailed, "Failed to update profile");
  }

  /**
   * Finding, as written: whatever the session and clock, the statistics the
   * server sends are shown by the dashboard as the four defaults.
   */
  lemma ServerStatsShownAsDefaults(session: map<string, JsValue>, created: Option<Option<int>>, now: int)
    ensures Dashboard.StatsTexts(Server.UserStats(session, created, now)) == Dashboard.DefaultStats
  {
    Dashboard.SnakeCaseReplyShowsDefaults(Server.UserStats(session, created, now));
  }

  /**
   * Read with the server's own keys, the same reply shows its values: the
   * security score as "85", the session's login count and last login as
   * stored (or their defaults 1 and "Today"), a falsy stored value as the
   * dashboard's fallback, and the account age in days.
   */
  lemma ServerStatsShownWithServerKeys(session: map<string, JsValue>, created: Option<Option<int>>, now: int)
    ensures var view := Dashboard.StatsTextsFromServer(Server.UserStats(session, created, now));
      && view.securityScore == "85"
      && ("login_count" !in session ==> view.loginCount == "1")
      && ("login_count" in session && Truthy(session["login_count"]) ==>
            view.loginCount == ToText(session["login_count"]))
      && ("login_count" in session && !Truthy(session["login_count"]) ==> view.loginCount == "0")
      && ("last_login" !in session ==> view.lastLogin == "Today")
      && ("last_login" in session && Truthy(session["last_login"]) ==>
            view.lastLogin == ToText(session["last_login"]))
      && ("last_login" in session && !Truthy(session["last_login"]) ==> view.lastLogin == "Never")
    ensures var view := Dashboard.StatsTextsFromServer(Server.UserStats(session, created, now));
      var age := Server.UserStats(session, created, now)["account_age"];
      && (created.None? || created == Some(None) ==> view.accountAge == "0 days")
      && (age.Num? && age.n != 0 ==> view.accountAge == IntToString(age.n))
  {
  }

  /** The feed item as the dashboard receives it, `latencyMs` after it was built. */
  function ToActivity(item: Server.FeedItem, latencyMs: int): Dashboard.Activity {
    Dashboard.Activity(item.activityType, Str(item.title), item.ageSeconds * 1000 + latencyMs)
  }

  function ToActivities(items: seq<Server.FeedItem>, latencyMs: int): (r: seq<Dashboard.Activity>)
    ensures |r| == |items|
    ensures forall i :: 0 <= i < |items| ==> r[i] == ToActivity(items[i], latencyMs)
  {
    if items == [] then [] else [ToActivity(items[0], latencyMs)] + ToActivities(items[1..], latencyMs)
  }

  /**
   * The mock feed, rendered within a minute of being built, reads: a login
   * "Just now", a profile update "2 hours ago", a security change "1 days ago".
   */
  lemma MockFeedRendered(latencyMs: int)
    requires 0 <= latencyMs < Dashboard.MinuteMs
    ensures Dashboard.RenderActivities(ToActivities(Server.MockFeed, latencyMs)) == [
      Dashboard.ActivityItem("fa-sign-in-alt", "Successful Login", "Just now"),
      Dashboard.ActivityItem("fa-user-edit", "Profile Updated", "2 hours ago"),
      Dashboard.ActivityItem("fa-shield-alt", "Security Settings Changed", "1 days ago")]
  {
    var items := Dashboard.RenderActivities(ToActivities(Server.MockFeed, latencyMs));
    assert Dashboard.Bucket(7200000 + latencyMs) == Dashboard.HoursAgo(2);
    assert Dashboard.Bucket(86400000 + latencyMs) == Dashboard.DaysAgo(1);
    assert NatToString(2) == "2" && NatToString(1) == "1";
    assert items[0] == Dashboard.ActivityItem("fa-sign-in-alt", "Successful Login", "Just now");
    assert items[1] == Dashboard.ActivityItem("fa-user-edit", "Profile Updated", "2 hours ago");
    assert items[2] == Dashboard.ActivityItem("fa-shield-alt", "Security Settings Changed", "1 days ago");
  }

  /** The credential id the login page posts is a non-empty string, which the server accepts. */
  lemma BiometricCredentialAccepted(credentialId: string)
    requires credentialId != ""
    ensures Server.VerifyBiometric(Some(map["credential" := Str(credentialId)])).status == 200
  {
  }
}
