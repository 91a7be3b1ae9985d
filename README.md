# Softphone agent console — a Dafny model

The application is a browser softphone console for a small call centre. An
employee (an "agent") signs in and reaches the agent dashboard. There the
agent keeps a status: available, break, lunch, personal time, tech issues,
gone home, after-call work, outbound or on call. Each stretch of one status
is a segment in a status log kept in the store. While the agent is available
and idle, a simulated incoming call rings after five to eleven seconds. The
agent can answer or decline it, or dial out from a dial pad. Every call is
recorded in a call log. Administrators get an overview page, an employee
list with search, editing and deletion, and a registration form. A page
switch decides which screen a signed-in user sees.

The heart of the model is `AgentSession` (session.dfy). It is a pure
`Session` value with one transition function per event: sign-in, picking a
status, each second of the two counters, the ring firing, answer, decline,
hang-up and dial-out. After every handler come the three reactions that the
component runs after each change, in this order:

- "gone home" withdraws a ring;
- entering a call switches the status to "on call";
- the ring scheduler re-arms only when the status, the ring or the call
  changed.

The class `AgentSession.EmployeeDashboard` holds the component's state one
field per piece of state. Each of its handlers is proved to produce exactly
the session its transition function gives. Each handler also keeps the
session invariant `Consistent`:

- a ring is pending exactly while the agent is available and idle;
- the pending delay lies in [5000, 10999] ms;
- "gone home" never rings;
- a call id implies an active call;
- the call counter is zero between calls and never negative.

`ReachableConsistent` states that every session reached from the first
render by any sequence of events is consistent.

The store is never called. Each write the session issues is appended to a
ghost log of `StoreWrite`s. Each answer the store gives is a parameter: the
id of an inserted row or its failure, a fetched list, an error code. The
random draws are parameters of type `Draw`, a real in [0, 1). Times are
integer milliseconds. JavaScript's floor division, truncating `%`,
`padStart`, `trim` and ASCII case mapping are written out in module `Text`.

The other modules follow the source files one by one:

- `StatusDropdown` — the nine statuses and the option list;
- `Durations` — the two duration displays, `HH:MM:SS` and `MM:SS`;
- `ActivityLog` — the call table;
- `ActiveCall` — mute and hold;
- `Dialer` — the digit buffer and the progressive number display;
- `Auth` — the sign-in decision chain;
- `App` — the page switch;
- `RegisterEmployee`, `EmployeesPage` and `Dashboard` — the admin pages.

At sign-in without an open segment, the code opens an "available" segment
but does not set the status; the model does the same. When inserting the
new segment fails, the old (already closed) segment id is kept and the
counter is not reset; the model reproduces this too.

## Model

| member | source | states |
|---|---|---|
| Text.NatToString | src/components/StatusDropdown.tsx:53 | `String(n)` of a natural is a non-empty digit string with a leading zero only for 0 |
| Text.DecimalRoundTrip | src/components/StatusDropdown.tsx:53 | reading the decimal numeral of n back gives n |
| Text.IntToString | src/pages/Dashboard.tsx:65 | `String(i)` of a negative integer is a minus sign before the numeral of its magnitude |
| Text.PadStart | src/components/StatusDropdown.tsx:53 | `padStart` keeps the string as its suffix, fills the rest with the fill character and has length max(len, width) |
| Text.Pad2Numeral | src/components/StatusDropdown.tsx:53 | a numeral padded to two places still reads as the number and is two characters wide below 10 |
| Text.JsRem | src/components/StatusDropdown.tsx:51-52 | JavaScript `%` differs from the dividend by a multiple of b and lies in [0, b) for a non-negative dividend and in (-b, 0] for a negative one |
| Text.JsRemOfNegative | src/components/StatusDropdown.tsx:51-52 | for a negative dividend JavaScript's remainder is 0 when b divides it and otherwise the Euclidean remainder less b |
| Text.Utf16Length | src/pages/RegisterEmployee.tsx:25 | a string's `.length` counts UTF-16 code units: at least one and at most two per character |
| Text.Utf16LengthOfBmp | src/pages/EmployeesPage.tsx:94 | `.length` equals the number of characters exactly when every character lies in the Basic Multilingual Plane |
| Text.Lower | src/pages/EmployeesPage.tsx:56 | `toLowerCase` maps each character by the ASCII case mapping and keeps the length |
| Text.ContainsEmpty | src/pages/EmployeesPage.tsx:56 | every string includes the empty string |
| Durations.HoursMinutesSecondsRoundTrip | src/components/StatusDropdown.tsx:49-54 | the status timer reads back as hours, minutes below 60 and seconds below 60 with hours*3600 + minutes*60 + seconds equal to the count |
| Durations.HoursMinutesSecondsSplit | src/components/StatusDropdown.tsx:49-54 | the status timer is three zero-padded numerals joined by colons, the hours being the count divided by 3600 |
| Durations.HoursMinutesSecondsWidth | src/components/StatusDropdown.tsx:53 | the timer is at least eight characters and grows a third hour digit exactly from 360000 seconds on, as hours are not capped |
| Durations.MinutesSecondsRoundTrip | src/components/ActivityLog.tsx:27-31 | the call duration reads back as minutes and seconds below 60 with minutes*60 + seconds equal to the count |
| Durations.MinutesSecondsSplit | src/components/ActiveCall.tsx:14-18 | the call timer is two zero-padded numerals joined by a colon, the minutes being the count divided by 60 |
| Durations.MinutesSecondsWidth | src/components/ActivityLog.tsx:27-31 | minutes are not capped: the display gains a third minute digit exactly from 6000 seconds on |
| StatusDropdown.StatusIdRoundTrip | src/components/StatusDropdown.tsx:4 | each status's stored name reads back as that status, so the nine names are distinct |
| StatusDropdown.ParseStatusSound | src/components/StatusDropdown.tsx:4 | a name read as a status is that status's stored name |
| StatusDropdown.StatusOptionsDistinct | src/components/StatusDropdown.tsx:20-30 | the option list has nine entries with pairwise distinct ids |
| StatusDropdown.OptionIndex | src/components/StatusDropdown.tsx:20-30 | every status has an entry in the option list |
| StatusDropdown.FindOption | src/components/StatusDropdown.tsx:36 | the search returns an option of the list whose id is the current status, or none when no option has it |
| StatusDropdown.FindOptionFirst | src/components/StatusDropdown.tsx:36 | the option returned is the first one in list order whose id is the current status |
| StatusDropdown.CurrentOption | src/components/StatusDropdown.tsx:36 | the shown option is the current status's own, and the first option ("available") for a name that is none of the nine |
| StatusDropdown.NoOptionNoStatus | src/components/StatusDropdown.tsx:36 | the fallback is taken only for a name that is not a status |
| StatusDropdown.Dropdown.constructor | src/components/StatusDropdown.tsx:33 | the dropdown starts closed |
| StatusDropdown.Dropdown.Toggle | src/components/StatusDropdown.tsx:64 | the button flips the open flag |
| StatusDropdown.Dropdown.CloseOnOutsideClick | src/components/StatusDropdown.tsx:38-47 | a mouse press outside the dropdown closes it, one inside leaves the open flag as it was |
| StatusDropdown.Dropdown.SelectStatus | src/components/StatusDropdown.tsx:56-59 | choosing an option forwards exactly that status and closes the dropdown |
| ActivityLog.StatusColor | src/components/ActivityLog.tsx:33-44 | answered, declined and missed get green, red and orange badges; any other string gets the slate default |
| ActivityLog.OutcomeColorsDistinct | src/components/ActivityLog.tsx:33-44 | the three outcomes have three different colours, none of them the default |
| ActivityLog.StatusLabel | src/components/ActivityLog.tsx:46-48 | the label upper-cases the first character, keeps the rest and the length, and leaves the empty string empty |
| ActivityLog.StatusLabelIdempotent | src/components/ActivityLog.tsx:46-48 | labelling twice is labelling once; the outcomes read "Answered", "Declined", "Missed" |
| ActivityLog.Render | src/components/ActivityLog.tsx:56-116 | an empty list shows the empty state; otherwise one row per record, in the given order |
| ActiveCall.CallControls.constructor | src/components/ActiveCall.tsx:11-12 | mute and hold both start off |
| ActiveCall.CallControls.ToggleMute | src/components/ActiveCall.tsx:20-22 | mute flips and hold is untouched |
| ActiveCall.CallControls.ToggleHold | src/components/ActiveCall.tsx:24-26 | hold flips and mute is untouched |
| ActiveCall.ToggleMuteTwice | src/components/ActiveCall.tsx:20-22 | two mute presses restore both flags |
| ActiveCall.ToggleHoldTwice | src/components/ActiveCall.tsx:24-26 | two hold presses restore both flags |
| ActiveCall.CallControls.Render | src/components/ActiveCall.tsx:28-62 | the "On Hold" badge shows iff on hold; the button titles follow the flags; the timer is the `MM:SS` display |
| Dialer.DigitsOf | src/components/Dialer.tsx:21 | stripping non-digits leaves only digits and never lengthens the text |
| Dialer.DigitsOfConcat | src/components/Dialer.tsx:21 | stripping distributes over concatenation |
| Dialer.DigitsOfChar | src/components/Dialer.tsx:21 | a single character is kept exactly when it is a digit, so with DigitsOfConcat stripping keeps every digit and drops every other character, in order |
| Dialer.DigitsOfEmptyIffNoDigit | src/components/Dialer.tsx:21 | stripping leaves nothing exactly when no character is a digit |
| Dialer.DigitsOfDigits | src/components/Dialer.tsx:63-64 | stripping a digit string changes nothing |
| Dialer.FormatPhoneNumber | src/components/Dialer.tsx:20-27 | the display is empty exactly when no character of the input is a digit, and starts with "+" otherwise |
| Dialer.FormattedDigits | src/components/Dialer.tsx:20-27 | the digits shown are the first min(n, 11) input digits in order, surrounded by exactly the punctuation for n digits, and nothing else |
| Dialer.DialPad.constructor | src/components/Dialer.tsx:9 | the buffer starts empty |
| Dialer.DialPad.PressKey | src/components/Dialer.tsx:12-18 | backspace drops the last character (nothing on empty); any other key appends its text, "+" included |
| Dialer.DialPad.Clear | src/components/Dialer.tsx:29-31 | clear empties the buffer |
| Dialer.DialPad.Edit | src/components/Dialer.tsx:62-65 | typing replaces the buffer by the digits of the typed text |
| Dialer.DialPad.Call | src/components/Dialer.tsx:33-38 | a non-blank buffer is dialled as it stands and then emptied; a blank one dials nothing and stays |
| Auth.Decide | src/contexts/AuthContext.tsx:25-70 | sign-in succeeds iff the user is found, the stored password equals the given one and the stored role is the requested one; the user is then the record without its password |
| Auth.UnknownUserLooksLikeWrongPassword | src/contexts/AuthContext.tsx:38-45 | an unknown username and a wrong password give the same answer, whatever the roles, so the password is checked before the role |
| Auth.RoleMismatchMessage | src/contexts/AuthContext.tsx:48-53 | an employee asking for admin is told employees cannot sign in as admin; any other mismatch gets the invalid-role message |
| Auth.LookupErrorMessage | src/contexts/AuthContext.tsx:34-36 | a failed lookup gets its own message, distinct from the bad-credentials answer |
| Auth.AuthState.constructor | src/contexts/AuthContext.tsx:14-15 | nobody is signed in and loading is on |
| Auth.AuthState.Restore | src/contexts/AuthContext.tsx:17-23 | a saved user is restored and loading ends either way |
| Auth.AuthState.SignIn | src/contexts/AuthContext.tsx:25-71 | success sets the user from the record; a failure returns the decision's message and keeps the user |
| Auth.AuthState.SignOut | src/contexts/AuthContext.tsx:73-76 | sign-out clears the user |
| App.SyncPage | src/App.tsx:13-23 | after loading, admin selects the admin page, employee the employee page, nobody the sign-in page, and any other role keeps the page; while loading the page stays |
| App.Render | src/App.tsx:33-49 | the loading screen shows iff loading; each dashboard shows iff the page and the user's role both name it; sign-in shows otherwise |
| App.SyncThenRender | src/App.tsx:13-49 | once the page has followed the user, admins see the admin dashboard, employees theirs and everyone else the sign-in form |
| App.SignInSuccessPage | src/App.tsx:25-27 | admin goes to the admin page and any other role to the employee page |
| App.AppContent.constructor | src/App.tsx:11 | the first page is sign-in |
| App.AppContent.SyncWithAuth | src/App.tsx:13-23 | the page follows the user as SyncPage says |
| App.AppContent.HandleSignInSuccess | src/App.tsx:25-27 | the page becomes the one for the signed-in role |
| App.AppContent.HandleSignOut | src/App.tsx:29-31 | sign-out always selects the sign-in page |
| RegisterEmployee.CheckPasswords | src/pages/RegisterEmployee.tsx:20-28 | a submission passes iff the confirmation matches and the password is at least six UTF-16 code units long; a mismatch is reported first |
| RegisterEmployee.AstralPasswordLength | src/pages/RegisterEmployee.tsx:25 | a password of three emoji, three characters but six code units, passes the length check |
| RegisterEmployee.InsertErrorMessage | src/pages/RegisterEmployee.tsx:46-52 | code 23505 is reported as a duplicate username and every other code as a generic failure |
| RegisterEmployee.RegisterForm.constructor | src/pages/RegisterEmployee.tsx:6-13 | the form starts empty, with no message and not loading |
| RegisterEmployee.RegisterForm.Type | src/pages/RegisterEmployee.tsx:6-8 | typing sets the three fields and nothing else |
| RegisterEmployee.RegisterForm.Submit | src/pages/RegisterEmployee.tsx:15-79 | messages are cleared first; a failed check sends nothing; a failed insert maps its code to a message; a successful one inserts the info row and shows success and empties the fields whether or not that second insert returns an error, while a throw from it shows the generic message and keeps the fields |
| EmployeesPage.FilterEmployees | src/pages/EmployeesPage.tsx:55-57 | the list keeps exactly the employees whose lower-cased username contains the lower-cased term |
| EmployeesPage.FilterConcat | src/pages/EmployeesPage.tsx:55-57 | filtering keeps the original order |
| EmployeesPage.FilterEmptyTerm | src/pages/EmployeesPage.tsx:55-57 | an empty term keeps every employee |
| EmployeesPage.CheckEdit | src/pages/EmployeesPage.tsx:88-97 | a save passes iff neither field is blank after trimming and the untrimmed password is at least six UTF-16 code units long; blankness is reported first |
| EmployeesPage.BlankCheckedFirst | src/pages/EmployeesPage.tsx:89-97 | a password of spaces is "required", while a padded two-letter one is "too short" as its untrimmed length counts |
| EmployeesPage.UpdateErrorMessage | src/pages/EmployeesPage.tsx:112-118 | code 23505 is reported as a duplicate username and every other code as an update failure |
| EmployeesPage.ToggleFlag | src/pages/EmployeesPage.tsx:68-70 | toggling flips only the given id's visibility and leaves every other id as it was |
| EmployeesPage.ToggleTwice | src/pages/EmployeesPage.tsx:68-70 | toggling an id twice restores what every id shows |
| EmployeesPage.Reloaded | src/pages/EmployeesPage.tsx:34-53 | loading the list changes only the employees, the page error and the loading flag: a fetched list (an absent one reads as empty) replaces the employees, an error or a throw keeps them and sets a message, and loading ends in every case |
| EmployeesPage.Saved | src/pages/EmployeesPage.tsx:99-130 | a save whose checks passed sends one update of the edited username and password, keeps the edit mode and fields, maps an error code or a throw to a message with no success shown, announces success with the error cleared, and ends with the saving flag lowered |
| EmployeesPage.Deleted | src/pages/EmployeesPage.tsx:146-165 | a confirmed delete sends one delete of the selected employee; a failure or throw sets its message and keeps the selection, the modal, the list and the success message; a success announces it and closes the modal; the deleting flag ends lowered |
| EmployeesPage.Page.constructor | src/pages/EmployeesPage.tsx:15-28 | the page starts loading, empty, with nothing edited and no modal |
| EmployeesPage.Page.FetchEmployees | src/pages/EmployeesPage.tsx:34-53 | the whole new page state is Reloaded of the old one |
| EmployeesPage.Page.SetSearchTerm | src/pages/EmployeesPage.tsx:55-57 | only the term changes, and the shown list is the filter of the employees by the new term |
| EmployeesPage.Page.TogglePasswordVisibility | src/pages/EmployeesPage.tsx:68-70 | only the visibility map changes, toggled at the given id |
| EmployeesPage.Page.StartEditing | src/pages/EmployeesPage.tsx:72-78 | editing copies the employee's id, username and password and clears both messages; nothing else changes |
| EmployeesPage.Page.CancelEditing | src/pages/EmployeesPage.tsx:80-86 | cancelling clears the edit id, both fields and both messages; nothing else changes |
| EmployeesPage.Page.EditFields | src/pages/EmployeesPage.tsx:20-21 | typing sets the two edit fields and nothing else |
| EmployeesPage.Page.SaveChanges | src/pages/EmployeesPage.tsx:88-131 | a failed check sets its message and changes nothing else; otherwise the whole new page state is Saved of the old one |
| EmployeesPage.Page.BeginUpdate | src/pages/EmployeesPage.tsx:99-110 | the saving flag goes up, both messages are cleared and one update of the edited fields is sent; nothing else changes |
| EmployeesPage.Page.OpenDeleteModal | src/pages/EmployeesPage.tsx:133-136 | the employee is selected and the modal opens; nothing else changes |
| EmployeesPage.Page.CloseDeleteModal | src/pages/EmployeesPage.tsx:138-141 | the selection is cleared and the modal closes; nothing else changes |
| EmployeesPage.Page.BeginDelete | src/pages/EmployeesPage.tsx:146-151 | the deleting flag goes up and one delete of the employee is sent; nothing else changes |
| EmployeesPage.Page.ConfirmDelete | src/pages/EmployeesPage.tsx:143-166 | with nothing selected nothing changes; otherwise the whole new page state is Deleted of the old one |
| Dashboard.TimeAgoParts | src/pages/Dashboard.tsx:57-72 | days are shown iff at least a whole day has passed, hours iff at least an hour but less than a day, minutes otherwise |
| Dashboard.DaysFromHours | src/pages/Dashboard.tsx:61-62 | whole days of whole hours are whole days of the age |
| Dashboard.TimeAgoCount | src/pages/Dashboard.tsx:57-72 | the count shown is the number of whole units elapsed |
| Dashboard.TimeAgoRanges | src/pages/Dashboard.tsx:64-70 | a day count is at least 1, an hour count is 1 to 23, a minute count at most 59 |
| Dashboard.GetTimeAgo | src/pages/Dashboard.tsx:57-72 | the caption is the count, a space, the unit, an "s" iff the count exceeds one, and " ago", and is exactly that long |
| Dashboard.SingularCaptions | src/pages/Dashboard.tsx:65-70 | zero and one are singular ("0 minute ago", "1 minute ago"); two hours are plural |
| Dashboard.NewSince | src/pages/Dashboard.tsx:41-46 | the count of new employees never exceeds the list, equals it iff all are new, and is zero iff none are |
| Dashboard.Recent | src/pages/Dashboard.tsx:48 | recent activity is the first four employees, or all of them when there are fewer |
| Dashboard.Initial | src/pages/Dashboard.tsx:150 | the avatar letter is the username's first character upper-cased, empty for an empty name |
| Dashboard.Overview.constructor | src/pages/Dashboard.tsx:16-19 | the overview starts loading with zero figures |
| Dashboard.Overview.FetchDashboardData | src/pages/Dashboard.tsx:25-55 | a returned list sets the total, the new count and the recent four; an error, a throw or no data keeps them; loading ends in every case |
| Dashboard.Overview.TotalText | src/pages/Dashboard.tsx:90 | the card shows an ellipsis while loading and then the total as a decimal numeral |
| AgentSession.IncomingDelay | src/pages/EmployeeDashboard.tsx:64 | the ring delay is an integer in [5000, 10999] ms |
| AgentSession.GenerateUSAPhoneNumber | src/pages/EmployeeDashboard.tsx:25-31 | the number is "+1 " and three dash-separated groups: an area code from the list, an exchange in 100..999 and a line in 1000..9999 |
| AgentSession.WritesSplit | src/pages/EmployeeDashboard.tsx:132-262 | every write the session issues goes to exactly one of the status log and the call log |
| AgentSession.Initial | src/pages/EmployeeDashboard.tsx:35-45 | the first render is available and idle, writes nothing and has a ring scheduled |
| AgentSession.SettleShape | src/pages/EmployeeDashboard.tsx:62-102 | the reactions withdraw a ring on "gone home", switch to "on call" only when a call was just entered from another status, and reset the timer exactly when status, ring or call changed, arming it only when idle |
| AgentSession.SettleConsistent | src/pages/EmployeeDashboard.tsx:62-102 | the reactions restore the session invariant after any handler |
| AgentSession.StepConsistent | src/pages/EmployeeDashboard.tsx:54-262 | every event keeps a consistent session consistent |
| AgentSession.RunConsistent | src/pages/EmployeeDashboard.tsx:54-262 | any sequence of events keeps a consistent session consistent |
| AgentSession.ReachableConsistent | src/pages/EmployeeDashboard.tsx:35-262 | every session reachable from the first render is consistent: a ring is pending iff available and idle, "gone home" never rings, a call id implies a call |
| AgentSession.StatusChangeSegments | src/pages/EmployeeDashboard.tsx:132-166 | without an open segment a status change does nothing; with one it closes it with the counted seconds and opens one for the new status, even the same one; the new id and a zero counter come only with a successful insert |
| AgentSession.GoneHomeWithdrawsRing | src/pages/EmployeeDashboard.tsx:77-81 | going home withdraws the ring, schedules none, writes no call record and enables sign-out |
| AgentSession.CanSignOut | src/pages/EmployeeDashboard.tsx:265 | sign-out is offered iff the status is "gone home" |
| AgentSession.StatusTickCounts | src/pages/EmployeeDashboard.tsx:54-60 | the status counter rises by exactly one per second whatever the status, and nothing else changes |
| AgentSession.CallTickCounts | src/pages/EmployeeDashboard.tsx:83-87 | the call counter rises by one per second of a call and stands still otherwise |
| AgentSession.RingSetsNumber | src/pages/EmployeeDashboard.tsx:104-108 | a firing timer rings with the generated number, writes nothing and schedules no further ring |
| AgentSession.AnswerEntersCall | src/pages/EmployeeDashboard.tsx:189-209 | answering enters a call at zero seconds and withdraws the ring even when the insert failed; the record id is kept only on success; the status becomes "on call" |
| AgentSession.AnswerWrites | src/pages/EmployeeDashboard.tsx:189-209 | answering writes one inbound answered record with duration 0, and touches the status log only when not already "on call" |
| AgentSession.AnswerLog | src/pages/EmployeeDashboard.tsx:189-209 | the writes an answer appends, in order |
| AgentSession.DialEntersCallOnRecord | src/pages/EmployeeDashboard.tsx:242-262 | a failed outbound insert leaves the call as it was; a successful one enters a call at zero with the dialled number; a pending ring is untouched |
| AgentSession.DialWrites | src/pages/EmployeeDashboard.tsx:242-262 | dialling out writes one outbound answered record with duration 0; a failed insert touches no segment |
| AgentSession.DialLog | src/pages/EmployeeDashboard.tsx:242-262 | the writes a dial appends, in order |
| AgentSession.DialWhileRinging | src/pages/EmployeeDashboard.tsx:242-262 | dialling out while ringing keeps both, and the panel shows the active call |
| AgentSession.Interactions | src/pages/EmployeeDashboard.tsx:323-339 | the active call is shown iff on a call, the ring iff ringing and not on a call, each with the current number |
| AgentSession.DeclineRecordsOnce | src/pages/EmployeeDashboard.tsx:211-225 | declining writes exactly one inbound declined record, withdraws the ring and leaves status, call and counter alone |
| AgentSession.EndCallEffects | src/pages/EmployeeDashboard.tsx:227-240 | without a record id hang-up does nothing; with one it clears the call and counter and, with an open segment, sets "after call" whatever the status was |
| AgentSession.EndCallWrites | src/pages/EmployeeDashboard.tsx:227-240 | hang-up writes the counted seconds to the call's record and, with an open segment, closes it and opens "after call" |
| AgentSession.EndLog | src/pages/EmployeeDashboard.tsx:227-240 | the writes a hang-up appends, in order |
| AgentSession.UnrecordedCallCannotEnd | src/pages/EmployeeDashboard.tsx:201-207 | a call answered after a failed insert has no id, so hang-up leaves it running |
| AgentSession.StartResumesSegment | src/pages/EmployeeDashboard.tsx:110-130 | sign-in resumes an open segment with floor((now - start)/1000) seconds, or opens an "available" segment; a fetched call list replaces the old one |
| AgentSession.EmployeeDashboard.constructor | src/pages/EmployeeDashboard.tsx:35-45 | the component starts as the first-render session, consistent |
| AgentSession.EmployeeDashboard.CreateNewStatus | src/pages/EmployeeDashboard.tsx:132-149 | opens a segment; only a successful insert sets the id and zeroes the counter |
| AgentSession.EmployeeDashboard.HandleStatusChange | src/pages/EmployeeDashboard.tsx:151-166 | closes the open segment, sets the status and opens a new segment |
| AgentSession.EmployeeDashboard.FetchCallLogs | src/pages/EmployeeDashboard.tsx:168-181 | a successful fetch replaces the call list |
| AgentSession.EmployeeDashboard.RunEffects | src/pages/EmployeeDashboard.tsx:62-102 | runs the three reactions as the session's reactions do |
| AgentSession.EmployeeDashboard.InitializeStatus | src/pages/EmployeeDashboard.tsx:47-52 | the sign-in step, keeping the session invariant |
| AgentSession.EmployeeDashboard.ChooseStatus | src/pages/EmployeeDashboard.tsx:344-347 | a status picked from the dropdown, keeping the session invariant |
| AgentSession.EmployeeDashboard.StatusTick | src/pages/EmployeeDashboard.tsx:54-60 | one second of the status counter, keeping the invariant |
| AgentSession.EmployeeDashboard.CallTick | src/pages/EmployeeDashboard.tsx:83-87 | one second of the call counter, keeping the invariant |
| AgentSession.EmployeeDashboard.ScheduleIncomingCall | src/pages/EmployeeDashboard.tsx:104-108 | the pending ring fires, keeping the invariant |
| AgentSession.EmployeeDashboard.HandleAnswerCall | src/pages/EmployeeDashboard.tsx:189-209 | the answer step, keeping the invariant |
| AgentSession.EmployeeDashboard.HandleDeclineCall | src/pages/EmployeeDashboard.tsx:211-225 | the decline step, keeping the invariant |
| AgentSession.EmployeeDashboard.HandleEndCall | src/pages/EmployeeDashboard.tsx:227-240 | the hang-up step, keeping the invariant |
| AgentSession.EmployeeDashboard.HandleOutboundCall | src/pages/EmployeeDashboard.tsx:242-262 | the dial-out step, keeping the invariant |

## Left out

- The store (a remote database) is not modelled. Each write is appended to a ghost log, and each reply is a parameter. Neither the order in which asynchronous writes land nor any divergence between local and stored state is captured.
- React scheduling is abstracted. Intervals, timeouts, effect re-runs, stale closures over the status counter and `async`/`await` interleavings become explicit events under one control flow. The reactions run once, after each handler, on its net change; intermediate renders are not modelled.
- The phase of the two one-second intervals is not modelled. Each tick is a separate event, so restarting the status interval on a status change is invisible.
- `Math.random()` values are `Draw` parameters in [0, 1).
- The date and clock are not modelled. Times are integer milliseconds supplied by the caller, including the month start of the overview.
- Locale formatting is not modelled: the call log's time column, the employee list's date column and the time-zone clocks.
- The persistence of the signed-in user in `localStorage` and its JSON encoding is not modelled. `Restore` takes the saved user as a parameter.
- Purely presentational parts are left out: the incoming-call card, the layouts and their sidebar, the admin page switch, the sign-in form, CSS classes and icons. The header avatar's colour chain in src/pages/EmployeeDashboard.tsx:300-310 repeats the option colours and is also left out.
- Case mapping is ASCII only. Unicode `toLowerCase`/`toUpperCase` is not modelled.
- A stored status outside the nine values is not modelled. The open segment read at sign-in carries a `StatusType`.
- The DOM containment test of the status dropdown's outside-click handler is not modelled. Whether the press landed inside is the `inside` parameter of `CloseOnOutsideClick`.
- The open/closed flag of the dial pad is not modelled, as it only decides whether the pad is drawn.
- `simulateIncomingCall` (src/pages/EmployeeDashboard.tsx:183-187) is not modelled, because nothing calls it.
- The server-side limit of ten rows on the call-log fetch is not modelled. The fetched list is whatever the store returns.
- The edit form's reset 1.5 s after a successful save is not modelled as part of the save. It is the separate `CancelEditing` call.
- The plaintext password comparison is modelled as the equality it is.
- ActiveCall's `formatDuration` repeats ActivityLog's exactly, so both are `Durations.FormatMinutesSeconds`.
- Dialer.FormattedDigits: states the digits in order, the punctuation in order and the total length of the display, but not how digits and punctuation interleave.
- Durations.HoursMinutesSecondsRoundTrip: states the round trip for non-negative counts only. A negative count arises only from a resumed segment whose start time lies in the future.
- Durations.MinutesSecondsRoundTrip: states the round trip for non-negative counts only.
