# Smart Login Portal — a Dafny model

This project models the Smart Login Portal. It is a Flask application with three
browser scripts: a sign-in/registration page, a dashboard and a camera capture page.
The model covers the decisions those four files make and proves what they promise.

- **`js.dfy` (module `Js`)** holds the JavaScript semantics the scripts rely on:
  - values and truthiness, and `String(v)`;
  - `trim()` over the ECMAScript whitespace set;
  - `indexOf`, `includes` and first-occurrence `replace`;
  - `.length` counted in UTF-16 code units;
  - the decimal text of a whole number, with its parse-back round trip.
- **`auth.dfy` (module `Auth`)** models `static/auth.js`:
  - the five-rule password strength scorer and its meter bands;
  - the email test;
  - the four-check field validator;
  - the form validator, which checks every required input without stopping at the first failure;
  - the remember-me username in local storage.
- **`dashboard.dfy` (module `Dashboard`)** models `static/dashboard.js`:
  - the statistics panel, with its fall-back texts;
  - the activity icon lookup;
  - the relative-time buckets;
  - the activity list;
  - the notifications of the logout, profile and security handlers;
  - the submit button those handlers disable and re-enable.
- **`capture.dfy` (module `Capture`)** models `static/script.js`:
  - the capture page as a class over a page state (camera stream, captured frame, preview, accept button caption and disabled flag, status line);
  - the 5,000,000-unit re-encode threshold;
  - the 800-unit downscale;
  - the upload result and its error classification;
  - each event handler as a step on that state.
- **`server.dfy` (module `Server`)** models `app.py`:
  - the registration check chain;
  - login with the login-count increment and session setup;
  - the session guards of the page and API routes;
  - logout;
  - the profile update;
  - the mock biometric check;
  - the statistics dictionary with its defaults.

  The application holds the session dictionary, the users table and the activity log; its routes update them.
- **`portal.dfy` (module `Portal`)** connects the pieces:
  - the client's field checks against the server's registration chain;
  - the server's JSON replies as the dashboard shows them;
  - the mock activity feed as the dashboard renders it.

Foreign calls are parameters of the operations that make them:
- the database's answers;
- `check_password_hash` and `generate_password_hash`;
- the clock;
- the camera;
- `fetch` replies and thrown errors.

Four places where the code does less than one might expect; the model follows the code:
- The profile and security handlers set the button's `disabled` to `false` in `finally`. They do not restore its earlier value.
- After a failed upload, the accept button gets the fixed caption "Accept & Save". The capture's original caption is not restored.
- The re-encode threshold, commented "If larger than 5MB" (static/script.js:100), compares `.length`: UTF-16 units of the data URL, not a byte count.
- The resize path is not covered by the accept handler's `catch`; see Findings.

## Model

| member | source | states |
|---|---|---|
| Js.Get | static/dashboard.js:55-58 | reading a missing key gives `undefined`; a present key gives its value |
| Js.ToText | static/dashboard.js:55-58 | `String(v)` is empty exactly for the empty string and leaves strings unchanged |
| Js.NatToString | static/dashboard.js:106-108 | a count renders as a non-empty run of digits that starts with '0' only for zero |
| Js.ParseNatToString | static/dashboard.js:106-108 | the rendered count parses back to the same number |
| Js.NatToStringInjective | static/dashboard.js:106-108 | different counts render as different texts |
| Js.IntToString | static/dashboard.js:106-108 | a negative number renders as '-' followed by its magnitude; others as the count |
| Js.Trim | static/auth.js:111 | the trimmed value is no longer than the input and starts and ends with non-whitespace |
| Js.TrimIsSlice | static/auth.js:111 | the trimmed value is a slice of the input with only whitespace cut from either side |
| Js.TrimAllWhiteSpace | static/auth.js:111 | a value of only whitespace trims to the empty string |
| Js.TrimUntouched | static/auth.js:111 | a value with no surrounding whitespace is its own trim |
| Js.Utf16Length | static/auth.js:125-128 | `.length` lies between the number of characters and twice that |
| Js.Utf16LengthBmp | static/auth.js:125-128 | inside the Basic Multilingual Plane `.length` equals the number of characters |
| Js.IndexFrom | static/script.js:142-144 | the search from a position finds the first occurrence at or after it, or -1 when there is none |
| Js.IndexOf | static/script.js:142-144 | `indexOf` is -1 exactly when the pattern never occurs, else the first occurrence |
| Js.ReplaceFirst | static/script.js:143 | `replace` with a string pattern changes only the first occurrence and leaves a string without one unchanged |
| Js.IndexOfPrefixed | static/script.js:181 | a text built as prefix + rest finds the prefix at index 0 |
| Auth.StrengthScore | static/auth.js:31-51 | the specification of the score: 25 points per strength rule met, capped at 100; CalculatePasswordStrength and ScoreFromFeedback state its properties |
| Auth.StrengthFeedback | static/auth.js:31-51 | the specification of the hints: one per unmet rule, in rule order; HintShownIffUnmet and FeedbackEmptyIffAllMet state its properties |
| Auth.CalculatePasswordStrength | static/auth.js:31-51 | the five tests, in order, produce the score and hint list of the rule-list specification, and the score is a multiple of 25 up to 100 |
| Auth.UnmetMembers | static/auth.js:31-51 | a rule is listed as unmet exactly when it is a strength rule the password fails |
| Auth.MetUnmetPartition | static/auth.js:31-51 | every rule is either scored or hinted, never both |
| Auth.HintsAppend | static/auth.js:33-48 | hints of consecutive rule lists concatenate |
| Auth.ScoreFromFeedback | static/auth.js:35-50 | score = min(100, 25 × (5 − number of hints)), one of 0, 25, 50, 75, 100 |
| Auth.FeedbackEmptyIffAllMet | static/auth.js:35-50 | no hint is shown exactly when every rule is met |
| Auth.HintsMembership | static/auth.js:35-48 | a rule's hint text appears exactly when the rule is in the list |
| Auth.HintShownIffUnmet | static/auth.js:35-48 | each hint is shown exactly when its rule fails |
| Auth.EmptyPasswordStrength | static/auth.js:31-51 | the empty password scores 0 with all five hints in order |
| Auth.BandOf | static/auth.js:53-75 | the meter's band for a score: below 25, 50 and 75, or above; BandCountsRules states what it means for a password |
| Auth.BandCountsRules | static/auth.js:53-75 | the meter reads Weak, Fair, Good or Strong, with the label "Weak password" ... "Strong password", exactly for 0, 1, 2 or 3 and more rules met |
| Auth.FirstIndex | static/auth.js:141-144 | the first position of a character, or the length when it is absent |
| Auth.IsValidEmail | static/auth.js:141-144 | `isValidEmail`, decided by one split at the first '@'; IsValidEmailMatchesPattern proves it equal to the regular expression's language |
| Auth.IsValidEmailMatchesPattern | static/auth.js:141-144 | the email test holds exactly when the text has the regular expression's shape: plain run, '@', plain run, '.', plain run |
| Auth.ValidEmailHasPattern | static/auth.js:141-144 | an accepted email has that shape |
| Auth.PatternIsValidEmail | static/auth.js:141-144 | any text of that shape is accepted |
| Auth.SplitIsValidEmail | static/auth.js:141-144 | a text split at an '@' and a later '.' into three plain runs is accepted |
| Auth.AcceptedEmailShape | static/auth.js:141-144 | an accepted email has no whitespace, exactly one '@' not at the start, and a '.' after it |
| Auth.RuleMessage | static/auth.js:119-131 | every field rule has a non-empty message |
| Auth.FirstViolation | static/auth.js:119-131 | the index of the first rule the trimmed value breaks, with every earlier rule holding |
| Auth.FirstViolationChain | static/auth.js:119-131 | that index is the one the if/else-if chain picks |
| Auth.FieldVerdict | static/auth.js:110-139 | the first failing check of `validateField` on the trimmed value, or none; FieldVerdictUnfolded and FieldVerdictIsFirstFailure state its properties |
| Auth.FieldMessage | static/auth.js:110-139 | the text shown under a field: the failing check's message, or empty; ValidateField states its properties |
| Auth.FieldVerdictUnfolded | static/auth.js:111-131 | the verdict on an input is the chain applied to its trimmed value |
| Auth.ValidateField | static/auth.js:110-139 | the field is valid exactly when no check fails; the message is the first failing check's text and is empty exactly when valid |
| Auth.Order | static/auth.js:119-131 | each rule's position in the order the checks are tried |
| Auth.FieldVerdictIsFirstFailure | static/auth.js:119-131 | valid iff no rule is broken; a reported rule is broken and every earlier rule holds |
| Auth.ValidWhenNoRuleBroken | static/auth.js:119-131 | an input whose trimmed value breaks no rule is valid |
| Auth.BlankOptionalFieldValid | static/auth.js:119-131 | a blank optional field passes every check |
| Auth.RequiredInputs | static/auth.js:98 | exactly the required inputs of the form are selected |
| Auth.RequiredInputsAppend | static/auth.js:98 | selection keeps document order: the required inputs of two parts are those of the first, then those of the second |
| Auth.FieldMessages | static/auth.js:101-105 | one message per checked input |
| Auth.AllFieldsValidMeans | static/auth.js:99-107 | the accumulated flag holds exactly when every checked input is valid |
| Auth.FieldMessagesAt | static/auth.js:101-105 | the i-th message is the i-th input's own message |
| Auth.ValidateForm | static/auth.js:97-108 | every required input is checked, none skipped after a failure, and the form is valid exactly when all of them are |
| Auth.ValidateStep | static/auth.js:101-105 | one more input checked extends the messages by its message and the flag by its verdict |
| Auth.FormMessagesPerInput | static/auth.js:97-108 | each required input shows its own field message |
| Auth.SaveOnSubmit | static/auth.js:203-209 | checked stores the username under the key; unchecked removes the key; other keys are untouched |
| Auth.LoadRemembered | static/auth.js:193-198 | a stored non-empty username is filled in; nothing otherwise |
| Auth.RememberRoundTrip | static/auth.js:193-209 | after a submit, the next load fills in the username exactly when the box was checked and the name non-empty |
| Dashboard.OrDefault | static/dashboard.js:55-58 | `v \|\| fallback` is never empty: `String(v)` for a truthy value, the fallback otherwise |
| Dashboard.ActivityIcon | static/dashboard.js:89-98 | `getActivityIcon`: the table entry or the default icon; ActivityIconChoice and KnownActivityIcons state its properties |
| Dashboard.ActivityIconChoice | static/dashboard.js:89-98 | a known type gets its table icon; the default icon appears exactly for unknown types |
| Dashboard.ActivityIconsDistinct | static/dashboard.js:89-98 | different known types get different icons |
| Dashboard.KnownActivityIcons | static/dashboard.js:90-96 | the five table entries |
| Dashboard.FormatTime | static/dashboard.js:100-109 | `formatTime`: the rendering of the elapsed-time bucket; Bucket, RenderInjective, BucketBelow and BucketMonotone state its properties |
| Dashboard.Bucket | static/dashboard.js:100-109 | each range picks its unit; the count is the floor of the elapsed time over the unit (1–59 minutes, 1–23 hours, 1 or more days) |
| Dashboard.RenderMark | static/dashboard.js:105-108 | the rendered texts of the four kinds differ in a fixed position |
| Dashboard.SuffixCancel | static/dashboard.js:106-108 | texts ending in the same unit suffix are equal only when what precedes it is equal |
| Dashboard.RenderInjective | static/dashboard.js:105-108 | different buckets render as different texts |
| Dashboard.BucketBelow | static/dashboard.js:105-108 | the time shown never exceeds the elapsed time |
| Dashboard.BucketMonotone | static/dashboard.js:105-108 | an older timestamp never shows a smaller time |
| Dashboard.StatsTexts | static/dashboard.js:55-58 | every panel text is non-empty; each of `loginCount`, `lastLogin`, `accountAge`, `securityScore` is shown as its text when truthy, otherwise as "0", "Never", "0 days" or "85%" |
| Dashboard.SnakeCaseReplyShowsDefaults | static/dashboard.js:55-58 | Finding, as written: a reply with only the server's snake_case keys shows the four defaults |
| Dashboard.StatsTextsFromServer | static/dashboard.js:55-58 | corrected panel, reading the server's keys: every text non-empty; each truthy field shown as its text, otherwise the same four fallbacks |
| Dashboard.ServerStatsShown | static/dashboard.js:55-58 | with the server's keys a positive login count is shown as sent, where the code as written shows "0" |
| Dashboard.StatsPanel.constructor | static/dashboard.js:48-53 | the panel holds exactly the elements the page has |
| Dashboard.StatsPanel.UpdateStatsDisplay | static/dashboard.js:47-59 | each present element shows its panel text and absent elements stay absent |
| Dashboard.ErrorMessage | static/dashboard.js:196-199 | `new Error(m).message` is `m` for a string and empty for `undefined` |
| Dashboard.UpdateNotification | static/dashboard.js:185-203 | success exactly when the reply's `success` is truthy; otherwise "Update Failed" with the thrown or the server's message |
| Dashboard.RefusalShowsServerMessage | static/dashboard.js:193-199 | a refusal with a message shows that message |
| Dashboard.SubmitButton.HandleUpdate | static/dashboard.js:174-204 | the notification is the one above, the caption is put back and the button ends enabled whatever happened |
| Dashboard.LogoutOutcome | static/dashboard.js:158-172 | redirect exactly on an ok reply, announced by the "Logged Out" success notification; no notification for a non-ok reply; the "Failed to logout" error notification when the request throws |
| Dashboard.RenderActivities | static/dashboard.js:72-87 | one list item per activity, each rendered on its own |
| Dashboard.RenderActivitiesAppend | static/dashboard.js:76-86 | rendering distributes over concatenation |
| Capture.Downscale | static/script.js:108-120 | the branchy resize equals scaling both sides by 800 over the longer side when that exceeds 800 |
| Capture.FitWithin | static/script.js:108-120 | the drawn size by one scale factor over the longer side; Downscale proves the branchy code equal to it, and FitWithinSmall, FitWithinLarge and FitWithinBounded state its properties |
| Capture.FitWithinSmall | static/script.js:108-120 | an image within 800 keeps its size |
| Capture.FitWithinLarge | static/script.js:108-120 | a larger image gets its longer side exactly 800 and keeps its aspect ratio |
| Capture.FitWithinBounded | static/script.js:108-120 | both drawn sides are at most 800 |
| Capture.ServerDetail | static/script.js:180 | the server's reason is never empty: its message's text when truthy, else exactly "Unknown server error" |
| Capture.UploadError | static/script.js:166-182 | an error is thrown exactly when the reply's status is not "success": a rejected request's own error, or an `Error` whose message is "Server error: " and the reason |
| Capture.ServerErrorRoundTrip | static/script.js:137-151 | the status line shows exactly the server's reason that the send step wrapped |
| Capture.ErrorText | static/script.js:140-148 | the text the accept handler's `catch` shows; ServerPrefixCheckedFirst, NetworkErrorClassified, OtherErrorText and ServerErrorRoundTrip state its branches |
| Capture.ServerPrefixCheckedFirst | static/script.js:142-143 | a message with the server prefix loses its first prefix occurrence |
| Capture.NetworkErrorClassified | static/script.js:144-145 | a `TypeError` mentioning fetch shows the network text |
| Capture.OtherErrorText | static/script.js:141-148 | anything else shows the generic text |
| Capture.InitStep | static/script.js:15-32 | `initializeCamera` on the page state; CapturePage.InitializeCamera is proved against it |
| Capture.CaptureStep | static/script.js:47-81 | the capture click on the page state; CapturePage.CaptureClick is proved against it |
| Capture.RetakeStep | static/script.js:186-190 | the retake click on the page state; CapturePage.RetakeClick is proved against it |
| Capture.AcceptStep | static/script.js:84-152 | the accept click as written; CapturePage.AcceptClick is proved against it, and the accept lemmas below state its properties |
| Capture.SentUnmodifiedIffSmall | static/script.js:99-135 | the capture is sent unchanged exactly when its length is at most 5,000,000, else re-encoded at the fitted size |
| Capture.AcceptWithoutCapture | static/script.js:85-88 | on an enabled button without a capture only the error message changes and nothing is sent |
| Capture.AcceptSuccess | static/script.js:169-178 | a successful upload clears the capture and preview and resets the button |
| Capture.AcceptFailureSmall | static/script.js:135-151 | a failed direct upload shows the classified error and re-enables the button, keeping the capture |
| Capture.ResizeFailureLeavesButtonStuck | static/script.js:106-132 | Finding, as written: a failed upload after re-encoding leaves the button disabled on "Saving..." and shows nothing |
| Capture.AcceptStepCaught | static/script.js:84-152 | corrected accept click, with the re-encoded upload's failure caught; AcceptCaughtAlwaysRecovers and AcceptCaughtAgrees state its properties |
| Capture.AcceptCaughtAlwaysRecovers | static/script.js:137-151 | corrected: with the resize path inside the catch every failure is reported and the button recovers |
| Capture.AcceptCaughtAgrees | static/script.js:84-152 | the corrected handler differs from the code only on a failed re-encoded upload |
| Capture.HandlersKeepButtonConsistent | static/script.js:84-152 | every handler keeps "disabled exactly while the caption reads Saving..." |
| Capture.StuckButtonStaysStuck | static/script.js:47-152 | camera start, capture and retake never re-enable a disabled accept button, and a click on it is not delivered, so nothing changes and nothing is sent |
| Capture.RetakeThenAccept | static/script.js:186-190 | after retake the capture is gone and accept only reports that none exists (or is not delivered while the button is disabled) |
| Capture.CapturePage.constructor | static/script.js:11-12 | no stream, no capture, preview hidden, button enabled |
| Capture.CapturePage.ShowMessage | static/script.js:35-44 | the status line shows the text and kind; nothing else changes |
| Capture.CapturePage.InitializeCamera | static/script.js:15-32 | the stream is set and a success or error message is shown |
| Capture.CapturePage.CaptureClick | static/script.js:47-81 | without a stream an error is shown; with one the frame is kept and the preview shown |
| Capture.CapturePage.RetakeClick | static/script.js:186-190 | the capture is dropped and the preview hidden |
| Capture.CapturePage.SendImageToServer | static/script.js:155-183 | success resets the page; otherwise it throws the wrapped server reason and changes nothing |
| Capture.CapturePage.AcceptClick | static/script.js:84-152 | the new state and the upload sent are those of the accept step; a disabled button changes nothing |
| Server.RegistrationError | app.py:119-127 | the registration checks as an if/elif chain; RegistrationFirstFailure and RegistrationAccepted state its properties |
| Server.RegistrationFirstFailure | app.py:119-130 | no error exactly when no check fails; a reported error is the first failing check's text |
| Server.RegistrationAccepted | app.py:119-128 | an accepted registration has a username of 3 or more characters, a password of 8 or more and a matching confirmation |
| Server.NextLoginCount | app.py:85 | a missing or zero count becomes 1; any other count is incremented |
| Server.GetOr | app.py:58-61 | `dict.get` with a default |
| Server.UserStats | app.py:40-62 | the four snake_case keys; score 85; count and last login from the session or 1 and "Today" |
| Server.AccountAgeDays | app.py:49-53 | the age is the whole days since creation, 0 without a row or date |
| Server.LastLoginAlwaysToday | app.py:61 | without `last_login` in the session the reply says "Today"; the constructor starts without it and Login, Register, Logout and ApiUpdateProfile each ensure it stays absent, so it never appears |
| Server.VerifyBiometric | app.py:239-248 | status 200 exactly for a truthy credential, else 400; a body that is not JSON is a server fault |
| Server.FindUser | app.py:77-78 | the first row with the username, or none |
| Server.RecordLogin | app.py:86-88 | only the matching row's count and last login change |
| Server.FormGet | app.py:223 | `request.form.get`: a value exactly when the field was submitted, and then that value |
| Server.SetEmail | app.py:228 | only the rows whose id is the session's user id change, and only their email, to the submitted value or NULL |
| Server.PasswordCheckAsWritten | app.py:81 | the login's hash test as written, on the username column; RegisteredUserRefused states its consequence |
| Server.PasswordCheck | app.py:81 | corrected hash test, on the stored hash column; PasswordCheckMatchesHash states its meaning |
| Server.RegisteredUserRefused | app.py:81 | Finding, as written: the test passes the username column, so a registered password fails it |
| Server.DollarHashLocksOut | app.py:81 | Finding, as written: when every hash contains '$' and the username does not, no submitted password passes |
| Server.AliceLockedOut | app.py:81 | Finding, as written: "alice" registered with "password1" fails the test as written and passes the intended one |
| Server.PasswordCheckMatchesHash | app.py:81 | corrected: against the stored hash a password passes exactly when it hashes like the registered one |
| Server.App.constructor | app.py:11-12 | empty session, not permanent, empty log |
| Server.App.Login | app.py:64-108 | missing fields are a bad request that changes nothing; empty fields an error page; a matching row is counted, signed in and logged; otherwise a failure is logged; `last_login` is never added |
| Server.App.Register | app.py:110-155 | the first failing check's error page; else a new row with count 0 and a log line, or the duplicate error page; `last_login` is never added |
| Server.App.Logout | app.py:172-181 | the session is cleared, so `last_login` is absent, and a signed-in user's logout is logged |
| Server.App.Dashboard | app.py:157-170 | signed out redirects to `/`; signed in renders the statistics |
| Server.App.Camera | app.py:272-276 | redirects to the dashboard when signed in, else to `/` |
| Server.App.ApiUserStats | app.py:184-190 | 401 when signed out, else the statistics, with "Today" as the last login when the session has none |
| Server.App.ApiRecentActivity | app.py:192-216 | 401 when signed out, else the three mock items |
| Server.App.ApiUpdateProfile | app.py:218-237 | 401 when signed out; when saved, the signed-in user's email is set to the submitted one, or NULL when none was submitted, with its log line; 500 when the update fails; `last_login` is never added |
| Portal.LongUsernamePassesClient | static/auth.js:110-139 | a username of 3 or more characters with no surrounding whitespace passes the client |
| Portal.LongPasswordPassesClient | static/auth.js:110-139 | a password of 8 or more characters with no surrounding whitespace passes the client |
| Portal.UntrimmedPassesClient | static/auth.js:110-139 | an input whose value `trim()` leaves unchanged passes when that value breaks no rule |
| Portal.UsernameRulesHold | static/auth.js:119-131 | a username of 3 or more characters breaks no check |
| Portal.UsernameUnitsRulesHold | static/auth.js:128 | three UTF-16 units are enough for the client's username checks |
| Portal.PasswordRulesHold | static/auth.js:119-131 | a password of 8 or more characters breaks no check |
| Portal.ServerAcceptedPassesClient | app.py:119-128 | what the server's chain accepts, the client's checks accept |
| Portal.ClientAcceptedUsernameLongEnough | static/auth.js:128-131 | inside the Basic Multilingual Plane a username the client accepts is long enough for the server |
| Portal.ThresholdsPartOutsideBmp | app.py:122-123 | two emoji pass the client's 3-unit check and fail the server's 3-character check |
| Portal.ProfileRepliesShown | static/dashboard.js:191-199 | the server's three profile replies as the dashboard reports them |
| Portal.ServerStatsShownAsDefaults | static/dashboard.js:55-58 | Finding, as written: whatever the session, the server's statistics show as the four defaults |
| Portal.ServerStatsShownWithServerKeys | app.py:57-62 | read with the server's keys the reply shows score "85"; the session's login count and last login as their text when truthy, the fallbacks "0"/"Never" when falsy, 1/"Today" when absent; the account age as days, "0 days" without a creation time |
| Portal.ToActivities | app.py:198-214 | one activity per feed item, in order |
| Portal.MockFeedRendered | app.py:198-214 | rendered within a minute, the feed reads "Just now", "2 hours ago", "1 days ago" with its icons |
| Portal.BiometricCredentialAccepted | app.py:242-246 | a non-empty credential id is accepted |

## Left out

- Rendering is not modelled: the DOM, styling, CSS classes and animations, the meter colours, inline error elements and innerHTML markup. Only the texts and flags the code sets are modelled.
- Timers and intervals are not modelled: the message auto-hide, the notification removal, the redirect delay, the two-second reset after a saved upload (modelled as immediate), and the 30 s and 60 s refresh intervals.
- The browser and network are parameters, not models:
  - `fetch` and `response.json()` are replaced by their outcomes;
  - `getUserMedia` is replaced by a granted flag and the frame by an optional string;
  - canvas drawing and JPEG encoding are replaced by a given re-encoded string;
  - `Image.onload` is taken to fire.
- The WebAuthn flow of the login page and the browser Notification API are not modelled. The server side of the biometric check is modelled.
- The camera track pause/resume on visibility change, the track stop on unload, and the space-bar shortcut are not modelled.
- `encodeURIComponent` of the upload body is not modelled.
- Real-number resize is not rounded: the canvas's truncation of fractional sizes is left out.
- `Date` parsing of ISO timestamps is not modelled. The activity age is given in milliseconds.
- The password-visibility toggle is not modelled.
- JSON numbers are modelled as integers (`Js.JsValue.Num`), not IEEE doubles: fractional values, `NaN` and rounding of large counts are left out.
- Local storage is a map from keys to strings.
- Prototype keys in the icon lookup are not modelled: `icons["constructor"]` is truthy in JavaScript and would render as a function's source text.
- The password hash functions are opaque parameters. Database connections, commits and rollbacks are not modelled; a failed insert is a flag.
- The log's timestamp, IP address, user agent and file output are not modelled. `session.permanent` and the session lifetime are a flag only.
- The `/system-info` route, the 404/500 error handlers and `app.run` are not modelled.
- Two routes the scripts call are missing from `app.py`: `/upload_image` and `/api/update-security`. Their replies are parameters of the scripts' handlers. A missing route's HTML 404 page makes `response.json()` throw, which is the `Thrown` reply.
- Dashboard.SubmitButton.HandleUpdate: it sets the disabled flag to `false`, as the code does, rather than restoring the earlier value.
- Dashboard.LogoutOutcome: the redirect itself is the returned flag; the navigation is not modelled.
- Server.App.Login: `check_password_hash` is applied to the username column exactly as the code does (see Findings). Python `request.form[...]` on a missing field is a bad request, not an exception trace.
- Server.VerifyBiometric: whether `request.json` on a non-JSON body raises or yields `None` depends on the Flask version; it is modelled as a server fault.
- Portal.UntrimmedPassesClient and the two Long* lemmas require no surrounding whitespace, because the client trims and the server does not. A padded name is judged on different text by the two sides.

## Findings

| source | as written | input that shows it | evidently intended | confidence | as-written member | corrected member |
|---|---|---|---|---|---|---|
| static/dashboard.js:55-58 | the panel reads `loginCount`, `lastLogin`, `accountAge`, `securityScore`, but `/api/user-stats` (app.py:57-62) sends `login_count`, `account_age`, `security_score`, `last_login` | any signed-in user, e.g. a session with `login_count` 5: the panel shows "0", "Never", "0 days", "85%" | read the keys the server sends, showing "5" | not executed | Dashboard.SnakeCaseReplyShowsDefaults | Dashboard.ServerStatsShown |
| static/script.js:106-132 | the re-encode path returns before the upload and sends from `img.onload`, outside the `try`, so a failed upload there is never caught | a capture longer than 5,000,000 units whose upload the server rejects: the button stays disabled on "Saving..." and no error is shown | route the onload upload's failure into the same catch, reporting it and re-enabling the button | not executed | Capture.ResizeFailureLeavesButtonStuck | Capture.AcceptCaughtAlwaysRecovers |
| app.py:81 | `check_password_hash(user[1], password)` passes the username column, not the stored hash `user[2]` | user "alice" registered with "password1": the hash test receives "alice", which is not a werkzeug hash, so the login fails | `check_password_hash(user[2], password)` | not executed | Server.AliceLockedOut | Server.PasswordCheckMatchesHash |
