# Membership front-end: a verified model of its decision logic

This project models the logic under the screens of a small React membership
front-end: the member directory (roster sanitising, the four-clause filter,
the profile draft and its save), the statistics dashboard (six frequency
tables folded over the member list), the event calendar (the guarded
add-event handler), the login and registration forms (their ordered checks,
the email shape test, the session projection and the create payload) and
the navigation shell (the authentication flag and the route table).

Each source file is one module:

- `Records` (`records.dfy`): a JSON record as `map<string, Option<string>>`, with
  None for null/undefined; JavaScript truthiness, `|| ""`, ASCII `toLowerCase`,
  `includes`, and the white-space class that `\s` and `trim` share.
- `Members` (`members.dfy`): pure functions for sanitising, seeding the draft and
  filtering, and a `MembersView` class whose fields are the component's state
  and whose methods are its effects and handlers.
- `Dashboard` (`dashboard.dfy`): each `reduce` is a method with a loop, proved
  against the reference counts `Count`, `CountOther` and `Values`; a
  `DashboardView` class holds the fetch state.
- `Calendar` (`calendar.dfy`): `CheckDraft` gives the ordered checks; the
  `CalendarView` class keeps the invariant that every event has a title and
  does not end before it starts.
- `Login` (`login.dfy`): `ValidEmail` is a direct test on positions, proved to
  accept exactly the language of the pattern `^[^\s@]+@[^\s@]+\.[^\s@]+$`; the
  `LoginForm` class records every value handed to `setLoading` in a ghost trace.
- `Register` (`register.dfy`): `CheckForm`, `Payload` and the `RegisterForm` class.
- `App` (`app.dfy`): `Resolve` is the route table; `AppShell` holds the flag.

Server replies are parameters of the handlers (`FetchReply`, `SaveReply`,
`LoginReply`, `RegisterReply`): ok with a payload, not ok, or an exception.
The stored session is a parameter of `LoadSession`. Alerts, the query that
would be sent and the request bodies are returned as out-parameters.

Where the code's behaviour is easy to misread, the model follows the code:

- The calendar accepts an event whose start equals its end. The ordering check
  uses `isAfter`, which is strict, so an event may end at the instant it starts.
- Registration compares the password with its confirmation before it checks
  for empty fields. So a form with one non-empty password gets the mismatch message.
- A successful login does not clear an earlier error message.

## Model

| member | source | states |
|---|---|---|
| `Members.Sanitize` | src/components/Members.jsx:48 | the record loses `id` and `password` and keeps every other field with its value |
| `Members.SanitizeAll` | src/components/Members.jsx:46-49 | one sanitised record per fetched record, same count, same order |
| `Members.SeedDraft` | src/components/Members.jsx:22-31 | the draft has exactly the eight form keys; each holds the session value when truthy, otherwise "" |
| `Members.CanSave` | src/components/Members.jsx:70 | the save guard passes iff the draft has an id that is neither null, undefined nor "" |
| `Members.SeedDraftCanSave` | src/components/Members.jsx:22-31 | a seeded draft passes the save guard iff the session id is truthy; it never holds the password |
| `Members.FieldMatches` | src/components/Members.jsx:104 | with an empty term exactly the non-null fields match; a field always matches its own value |
| `Members.MatchesSearch` | src/components/Members.jsx:102-105 | a record with no fields matches only the empty term; a non-empty term needs some non-null field |
| `Members.MatchesGender` | src/components/Members.jsx:106 | a member without a gender fails a set gender filter; a member whose gender equals the filter passes |
| `Members.MatchesYear` | src/components/Members.jsx:107 | a set year filter passes only members whose year field equals it exactly |
| `Members.MatchesInterest` | src/components/Members.jsx:108 | a member without an interest fails a set interest filter; a member whose interest equals the filter passes |
| `Members.Keep` | src/components/Members.jsx:100-109 | with all four inputs empty every member is kept |
| `Members.Filter` | src/components/Members.jsx:100-110 | the result holds exactly the roster members passing all four clauses, each as many times as the roster holds it, and no other record; it is no longer than the roster |
| `Members.FilterIsSub` | src/components/Members.jsx:100-110 | the filtered roster is an order-preserving subsequence of the roster |
| `Members.FilterNoFilters` | src/components/Members.jsx:100-110 | with all four inputs empty the filter returns the roster unchanged |
| `Members.FilterNarrowing` | src/components/Members.jsx:100-110 | filling in more inputs gives a subsequence of the earlier result, never a longer one |
| `Members.SearchIgnoresHidden` | src/components/Members.jsx:102-105 | on a sanitised record the search matches iff some field other than id/password, non-null, contains the term case-insensitively |
| `Members.RosterHidesSecrets` | src/components/Members.jsx:48 | no record of the filtered roster has an `id` or `password` field |
| `Members.RosterRow` | src/components/Members.jsx:224-233 | a table row shows name, username, email, gender, university, year, interest in that order |
| `Members.FormValues` | src/components/Members.jsx:127-147 | each form input shows the draft value of its key, or "" when falsy |
| `Members.MembersView.constructor` | src/components/Members.jsx:4-15 | no session, empty roster, loading, no error, not editing, empty draft, empty filters |
| `Members.MembersView.LoadSession` | src/components/Members.jsx:17-36 | a stored session seeds the draft and becomes the current user; without one only the alert is raised |
| `Members.MembersView.ReceiveMembers` | src/components/Members.jsx:39-58 | success stores the sanitised roster; failure stores the message and keeps the roster; loading ends either way |
| `Members.MembersView.HandleInputChange` | src/components/Members.jsx:61-67 | the named field takes the value; every other draft field and all other state is unchanged |
| `Members.MembersView.HandleSaveChanges` | src/components/Members.jsx:70-98 | a falsy id sends nothing and changes nothing; otherwise the draft is sent to its id; ok replaces user and draft and ends editing; not ok or an exception keeps the draft |
| `Members.MembersView.SetFilters` | src/components/Members.jsx:166-204 | the filter inputs change and nothing else does |
| `Members.MembersView.FilteredMembers` | src/components/Members.jsx:100-110 | the shown roster is the filter applied to the current roster and inputs, so a subsequence of the roster, and the whole roster when no filter is set |
| `Members.MembersView.Render` | src/components/Members.jsx:112-241 | loading wins, then a truthy error; otherwise the form and a table whose body is the placeholder iff nothing passes the filter, and whose row i shows the columns of the i-th filtered member |
| `Dashboard.CountPositive` | src/components/Dashboard.jsx:60-78 | a value is counted at least once iff some member holds it |
| `Dashboard.ValuesMeaning` | src/components/Dashboard.jsx:60-78 | the distinct values are exactly the field values of the members |
| `Dashboard.CountSplit` | src/components/Dashboard.jsx:44-58 | members holding a value plus members not holding it make up the list |
| `Dashboard.SumCountsBump` | src/components/Dashboard.jsx:61 | one group-by step, which stores one more than the key's count (0 when absent), raises the table's total by exactly one |
| `Dashboard.TwoWayStats` | src/components/Dashboard.jsx:44-58 | exactly the two bucket keys; the hit bucket counts exact matches, the other bucket all the rest; the two sum to the list length |
| `Dashboard.GenderStats` | src/components/Dashboard.jsx:44-50 | "male" counts gender exactly "M", "female" every other value including missing; male + female = length |
| `Dashboard.EducationStats` | src/components/Dashboard.jsx:52-58 | "bachelor" counts education exactly "bachelor", "master" all others; the two sum to the length |
| `Dashboard.GroupCount` | src/components/Dashboard.jsx:60-78 | keys are exactly the distinct field values; each count equals the number of members with that value and is at least 1; counts sum to the length |
| `Dashboard.ComputeStats` | src/components/Dashboard.jsx:44-78 | the six tables with the properties above for gender, education, interest, university, year and age, every group-by count at least 1 |
| `Dashboard.DashboardView.constructor` | src/components/Dashboard.jsx:17-19 | empty list, loading, no error |
| `Dashboard.DashboardView.ReceiveMembers` | src/components/Dashboard.jsx:21-38 | success stores the list as fetched; failure stores the message and keeps the list; loading ends either way |
| `Dashboard.DashboardView.Render` | src/components/Dashboard.jsx:40-78 | loading wins, then a truthy error; otherwise the charts hold the six tables of the member list: the male/female and bachelor/master counts and the four group-by tables |
| `Dashboard.FailedFetch` | src/components/Dashboard.jsx:21-38 | a failed first fetch shows the error and leaves the member list empty |
| `Calendar.Fixtures` | src/components/Calendar.jsx:11-22 | two events, "Team Meeting" then "Project Deadline", each ending after it starts |
| `Calendar.FixturesWellFormed` | src/components/Calendar.jsx:11-22 | both fixtures have a non-blank title and do not end before they start |
| `Calendar.CheckDraft` | src/components/Calendar.jsx:34-45 | a blank title fails first, then a missing time, then start after end; start equal to end passes |
| `Calendar.SameInstantAccepted` | src/components/Calendar.jsx:42-45 | an event with start equal to end is accepted |
| `Calendar.EmptyTitleReportedFirst` | src/components/Calendar.jsx:34-37 | a blank title is the only failure reported, whatever the times |
| `Calendar.Alert` | src/components/Calendar.jsx:34-45 | every failed check has a non-empty alert, and an accepted draft has none |
| `Calendar.CalendarView.constructor` | src/components/Calendar.jsx:11-29 | the fixtures, a closed form and an empty draft |
| `Calendar.CalendarView.OpenModal` | src/components/Calendar.jsx:78 | the form opens; events and draft unchanged; every event stays well formed |
| `Calendar.CalendarView.CloseModal` | src/components/Calendar.jsx:127 | the form closes; events and draft unchanged; every event stays well formed |
| `Calendar.CalendarView.EditDraft` | src/components/Calendar.jsx:107-122 | the draft changes; events and form visibility unchanged; every event stays well formed |
| `Calendar.CalendarView.HandleAddEvent` | src/components/Calendar.jsx:31-54 | on a failed check, alert and change nothing; otherwise append one event with the untrimmed title, close and clear the form; every event stays well formed |
| `Calendar.AddSync` | src/components/Calendar.jsx:31-54 | adding "Sync" 10:00 to 11:00 yields the two fixtures followed by exactly that event |
| `Login.ValidEmail` | src/components/Login.jsx:11-14 | an accepted address has at least five characters and is not blank |
| `Login.ValidEmailMatchesPattern` | src/components/Login.jsx:11-14 | the positional test (no white space, one '@' with text before it, a '.' with text on both sides after it) accepts exactly the pattern's language |
| `Login.EmailExamples` | src/components/Login.jsx:12 | "bob" is rejected and "bob@x.com" accepted |
| `Login.SessionOf` | src/components/Login.jsx:43-48 | the session has exactly the keys id, username and email, each with the user's value |
| `Login.SessionHasNoPassword` | src/components/Login.jsx:43-51 | the stored session never holds the password |
| `Login.LoginForm.constructor` | src/components/Login.jsx:5-8 | empty inputs, no error, not loading |
| `Login.LoginForm.Edit` | src/components/Login.jsx:74-87 | the inputs change and nothing else does |
| `Login.LoginForm.HandleSubmit` | src/components/Login.jsx:16-60 | empty input fails first, then the shape, both without a query or loading change; otherwise loading goes true then false, and an empty result, a user or an exception give "User not found", the first user's session, or the failure message |
| `Register.CheckForm` | src/components/Register.jsx:27-35 | the mismatch check runs first; then any empty field fails; otherwise the form passes |
| `Register.Payload` | src/components/Register.jsx:41 | the body carries exactly email, username and password from the form |
| `Register.PayloadOmitsConfirmation` | src/components/Register.jsx:41 | confirmPassword is never sent |
| `Register.MismatchBeforeEmptiness` | src/components/Register.jsx:27-35 | a lone non-empty password gets the mismatch error although other fields are empty |
| `Register.RegisterForm.constructor` | src/components/Register.jsx:4-12 | four empty fields, no messages |
| `Register.RegisterForm.HandleChange` | src/components/Register.jsx:14-21 | only the named field changes; error and success are cleared |
| `Register.RegisterForm.HandleSubmit` | src/components/Register.jsx:23-53 | failed checks set their message and send nothing; otherwise the payload is sent; ok sets success and resets all four fields; not ok or an exception sets the error and keeps the form |
| `App.Resolve` | src/App.jsx:20-29 | "/" shows Login iff unauthenticated, else redirects to "/menu"; "/register" always shows Register; other views need authentication; every redirect goes to "/" or from "/" to "/menu" |
| `App.MenuRoutesGuarded` | src/App.jsx:25-28 | each menu path shows its view iff authenticated and otherwise redirects to "/" |
| `App.UnknownPathsRedirect` | src/App.jsx:29 | every path outside the table redirects to "/" |
| `App.RedirectsSettle` | src/App.jsx:20-29 | redirects never loop: a view is reached after at most two redirects |
| `App.AppShell.constructor` | src/App.jsx:11 | the shell starts unauthenticated |
| `App.AppShell.HandleLogin` | src/App.jsx:13-15 | the flag becomes true, and calling it again keeps it true |
| `App.AppShell.Route` | src/App.jsx:19-30 | the shown outcome is the route table's answer for the current flag |
| `App.SubmitLogin` | src/App.jsx:22 | a login that stores a session authenticates the shell, after which "/" redirects to the menu; the flag never goes back to false |

## Left out

- HTTP, `response.json()`/`text()` and JSON: replies are handler parameters. A reply that is not an array is not modelled.
- `localStorage`, `alert`, `console.log` and `navigate`: the session is an input or an output, and alerts are returned strings. The log and the navigation are dropped.
- Rendering, the chart datasets and colours, the calendar widget and the modal markup are not modelled.
- Date parsing: start and end are optional integers. An unparseable date string is not modelled (`isAfter` on an invalid date would accept it).
- `Calendar.Fixtures`: the fixture times use `LocalMinutes`, which keeps chronological order but is not a real epoch or time zone.
- The regular-expression engine: `ValidEmail` is a direct predicate, proved equal to the pattern's language.
- `Records.Lower`: `toLowerCase` is modelled on ASCII letters only. Unicode case mapping is not modelled.
- Field values are strings, or None for null/undefined. Numbers appear as their `toString` form, so the falsiness of 0, false and NaN is not modelled. Objects and arrays as field values are not modelled, and neither is the TypeError from `toLowerCase` on a non-string.
- `Dashboard.GroupCount`: keys are field values, with one None key for both null and undefined. JavaScript turns keys into the strings "null" and "undefined", which could collide with real values. The source's accumulator is a plain `{}`, so a value naming an inherited `Object.prototype` member behaves differently there: for "toString" or "constructor" the stored count is the function's source text with "1" appended, and a "__proto__" key never appears. The model treats every value as an ordinary key. `Object.keys` order is not modelled.
- `Login.SessionOf`: keeps all three keys, even with a None value. `JSON.stringify` would drop a key whose value is undefined.
- `Members.MembersView.LoadSession`: a stored value that parses to null is not modelled.
- The two effects of the member view can interleave, and a late reply can arrive after unmount. This concurrency is not modelled.
- `App.Resolve`: paths match exactly. The router's case-insensitive matching and trailing-slash handling are not modelled.
- The menu component (`src/components/Menu.jsx`) is not part of this model.
- `isEditing` is kept as a field. The code shown never sets it to true.
