# MindPulse in Dafny

MindPulse is a team mood-tracking application. Members log a daily check-in
of mood, stress, energy, sleep and a note; an AI service analyses each note;
team leads see averaged team statistics and an AI report; members send one
"positive vibe" per day to their group; a support chat and a counselling
booking page complete the client.

This project models the application's rules:

- The Express/Mongo server (`server.js`) is one in-memory store
  (`Server.Store`) whose fields are the user, group and entry collections.
  Each HTTP handler is a method on it. Pure specification functions (`Vibe`,
  `Status`, `NewUser`, `Members`, `ChatTurns`, `SummaryData`) state what each
  handler computes, and lemmas prove the group invariant: the counter equals
  the number of history records, with at most one record per user and day.
- The client services (`geminiService.ts`, `dataService.ts`) are pure functions
  from the outcome of a `fetch` call (`Fetch.Response`: rejected, or a status,
  body text and parsed JSON) to the value or error they produce.
- Each React component is a class whose fields are its `useState` variables.
  Each handler is a method. An `async` handler is split into `BeginX` (the
  synchronous part up to the `await`) and `FinishX` (the continuation), and
  `HandleX` runs both against a given response. Pure derivations (averages,
  weather, chart windows, today's entry, suggestions) are functions.
- `RoundTrips` sends server replies through the client services: what the
  server computes is what the client reads back, and a vibe refused by the
  store leaves the dashboard as it was before the click.

JavaScript semantics are written out where they matter:

- `\s` and `trim` use the full JavaScript whitespace set.
- `toUpperCase` maps ASCII letters.
- A regular expression with the `i` flag is equality after upper-casing.
- `includes` is a substring test.
- `x || d` gives the default for a missing or falsy value.

Time ("today", "now"), new ids, the local calendar of the browser and the
stored session are parameters.

## Model

| member | source | states |
|---|---|---|
| Server.Store.constructor | mindpulse/server/models/Group.js:3-11 | The store starts with no users, groups or entries, and every group's counter equals the length of its history. |
| Server.Store.Login | mindpulse/server/server.js:56-66 | Success with the public user when the first user whose e-mail matches ignoring case has exactly this password; otherwise 401 "Invalid credentials". |
| Server.LoginSucceedsIff | mindpulse/server/server.js:59-60 | With distinct e-mails, login succeeds iff some stored user matches the e-mail ignoring case and has exactly this password. |
| Server.Store.Signup | mindpulse/server/server.js:69-87 | An e-mail already present ignoring case gives 400 and leaves the users unchanged. A document missing a required field gives 500 and changes nothing. Otherwise exactly the new user is appended, and e-mails stay distinct. |
| Server.AddUserKeepsEmailsDistinct | mindpulse/server/server.js:72-73 | Appending a user whose e-mail matches nobody keeps all e-mails distinct ignoring case. |
| Server.Store.ListUsers | mindpulse/server/server.js:89-98 | A missing group id gives 400 "GroupId required"; otherwise the public users of the upper-cased group, in store order. |
| Server.MembersAreTheGroup | mindpulse/server/server.js:93 | The member list holds exactly the users whose group id equals the upper-cased id, and it does not depend on the case of the id given. |
| Server.Store.ReadGroup | mindpulse/server/server.js:250-268 | An absent group reads as ("", 0, false); otherwise its announcement and counter, with the flag set iff a user id is given and the history records that user today. |
| Server.StatusPredictsVibe | mindpulse/server/server.js:259-263 | For a given user, the "vibed today" flag of the group read is true exactly when a vibe would be refused. |
| Server.Store.PostAnnouncement | mindpulse/server/server.js:270-281 | Only the announcement of the upper-cased group changes. An absent group is created with the schema defaults. The invariant is kept. |
| Server.UpsertKeepsGroupValid | mindpulse/server/server.js:274-278 | The upsert keeps the counter and history, so the group invariant holds, and it sets the announcement. |
| Server.Store.PostVibe | mindpulse/server/server.js:283-304 | The store changes exactly as the vibe rule says: a new group with one record, a refusal that changes nothing, or the counter plus one with the record appended. The reply carries the new counter. |
| Server.VibeRejectedIff | mindpulse/server/server.js:296-297 | A vibe is refused, with 400 "Daily vibe limit reached", iff the group exists and its history holds (user, today). |
| Server.VibeAddsOneRecord | mindpulse/server/server.js:290-300 | An accepted vibe adds one to the counter and appends exactly the record (user, today) to the history of the group, or of a new empty group. |
| Server.VibeKeepsGroupValid | mindpulse/server/server.js:299-300 | An accepted vibe keeps the counter equal to the history length and keeps (user, day) records pairwise distinct. |
| Server.SecondVibeSameDayRejected | mindpulse/server/server.js:296-297 | After an accepted vibe, the same user's second vibe on the same day is refused. |
| Server.Store.CreateEntry | mindpulse/server/server.js:241-247 | The client's id is replaced by the store's. An entry without a user id is refused with 500 and not stored. Otherwise the entry is appended with the schema defaults: a missing burnout flag becomes false and missing tags become an empty list. |
| Server.Store.ListEntries | mindpulse/server/server.js:234-239 | The entries are returned sorted by timestamp, and they are a permutation of the stored ones. |
| Server.SortByTime | mindpulse/server/server.js:236 | The result is sorted by timestamp and has the same multiset of entries as the input. |
| Server.InsertByTime | mindpulse/server/server.js:236 | Inserting into a sorted list keeps it sorted and adds exactly the one entry. |
| Server.ConsSorted | mindpulse/server/server.js:236 | An entry no later than every element of a sorted list can be put in front of it. |
| Server.ChatTurns | mindpulse/server/server.js:155-171 | One turn per history message plus the new user message last. Role "model" becomes "assistant" and other roles are kept. Each content is taken from the first part's text, else the flat text. |
| Server.SummaryData | mindpulse/server/server.js:198 | One row per entry, in order. Row i holds the stress, mood and tags of entry i. |
| Server.SummaryIgnoresOtherFields | mindpulse/server/server.js:198 | The report input depends only on each entry's stress, mood and tags. |
| GeminiService.AnalyzeMoodEntry | mindpulse/src/services/geminiService.ts:13-35 | A successful response is returned as is. On any failure: sentiment 0, burnout iff stress > 7, the offline intervention, and tags exactly ["Offline Mode"]. |
| GeminiService.GenerateGroupReport | mindpulse/src/services/geminiService.ts:40-66 | A successful response is returned as is. On failure: score 0, risk Low, the three fixed recommendations, and the current time. The summary is "Report Generation Failed: " followed by the error message, or "Unknown Error" when it is empty. For a non-OK status that message is the body text, or "Group Report Service Failed" when the body is empty. |
| GeminiService.GetChatResponse | mindpulse/src/services/geminiService.ts:71-96 | Success gives the reply text and nothing else does. A 503 gives MISSING_API_KEY. Another non-OK status gives its body text, or "Network Error". Any error mentioning the missing key becomes exactly MISSING_API_KEY. |
| JsText.Upper | mindpulse/server/server.js:80 | Upper-casing keeps the length and maps each character through the ASCII letter mapping. |
| JsText.UpperIdempotent | mindpulse/server/server.js:80 | Upper-casing an upper-cased group id changes nothing. |
| JsText.EqualsIgnoringCaseIsEquivalence | mindpulse/server/server.js:59 | Matching e-mails ignoring case is reflexive, symmetric and transitive. |
| JsText.RemoveSpaces | mindpulse/src/components/AuthPage.tsx:182 | The result contains no whitespace. |
| JsText.RemoveSpacesKeepsText | mindpulse/src/components/AuthPage.tsx:182 | Removing whitespace keeps every other character, in their original order. |
| JsText.TrimEmptyIffBlank | mindpulse/src/components/AIChat.tsx:29 | The trimmed input is empty exactly when every character is whitespace. |
| JsText.ShorterExcludes | mindpulse/src/services/geminiService.ts:92 | A string cannot include a longer one, so "Network Error" never triggers the missing-key rewrite. |
| DataService.FetchEntries | mindpulse/src/services/dataService.ts:6-15 | The parsed entries on success, and the empty list on any failure. |
| DataService.CreateEntry | mindpulse/src/services/dataService.ts:17-31 | The stored entry iff the call succeeded, and null otherwise. |
| DataService.FetchGroupAnnouncement | mindpulse/src/services/dataService.ts:33-47 | ("", 0, false) on failure. On success each missing field takes its default, and the flag is true only when the server said true. |
| DataService.UpdateGroupAnnouncement | mindpulse/src/services/dataService.ts:49-61 | True exactly when a response arrived with an OK status. |
| DataService.SendGroupVibe | mindpulse/src/services/dataService.ts:63-78 | The server's counter iff the call succeeded, and null otherwise. |
| RoundTrips.GroupStatusRoundTrip | mindpulse/server/server.js:266 | The group status the server sends is read back unchanged by the client. |
| RoundTrips.VibeReplyRoundTrip | mindpulse/src/services/dataService.ts:71-74 | An accepted vibe reaches the client as the stored counter, and a refused one as null. |
| RoundTrips.SendVibeThroughStore | mindpulse/src/components/GroupDashboard.tsx:66-95 | Against the store, an accepted vibe leaves the dashboard showing the group's stored counter. A refused one leaves both the store and the dashboard as they were before the click. |
| GroupDashboard.Dashboard.constructor | mindpulse/src/components/GroupDashboard.tsx:29-38 | No analysis, not loading, an empty announcement, a zero counter, no vibe sent, and not editing or saving. |
| GroupDashboard.Dashboard.LoadGroupData | mindpulse/src/components/GroupDashboard.tsx:46-53 | With a group id, the three fields take the values the group read yields; without one, nothing changes. |
| GroupDashboard.Dashboard.EditAnnouncement | mindpulse/src/components/GroupDashboard.tsx:239 | The announcement text is replaced and nothing else changes. |
| GroupDashboard.Dashboard.SaveAnnouncement | mindpulse/src/components/GroupDashboard.tsx:59-64 | Saving and editing both end, whatever the outcome of the update. |
| GroupDashboard.Dashboard.BeginSendVibe | mindpulse/src/components/GroupDashboard.tsx:67-71 | Nothing happens if the user already sent a vibe. Otherwise the flag is set and the counter goes up by one before the call. |
| GroupDashboard.Dashboard.FinishSendVibe | mindpulse/src/components/GroupDashboard.tsx:85-94 | A server count replaces the counter. Null clears the flag and takes the counter back down by one. |
| GroupDashboard.Dashboard.HandleSendVibe | mindpulse/src/components/GroupDashboard.tsx:66-95 | A second click is a no-op. A successful call shows the server's counter. A failed call restores exactly the state before the click. |
| GroupDashboard.Dashboard.HandleGenerateReport | mindpulse/src/components/GroupDashboard.tsx:109-114 | The analysis becomes the service's report (the fallback on failure), and loading ends. |
| GroupDashboard.Dashboard.AutoReport | mindpulse/src/components/GroupDashboard.tsx:123-128 | The report is generated exactly for an admin with no analysis and some entries; otherwise nothing changes. |
| GroupDashboard.SumStressBounds | mindpulse/src/components/GroupDashboard.tsx:98 | The stress sum lies between n·lo and n·hi when every level lies in [lo, hi]. |
| GroupDashboard.AvgStressBounds | mindpulse/src/components/GroupDashboard.tsx:98 | The average stress is 0 with no entries, and otherwise lies within the range of the individual levels. |
| GroupDashboard.SumSentimentBounds | mindpulse/src/components/GroupDashboard.tsx:99 | The sentiment sum, counting a missing score as 0, lies between n·lo and n·hi. |
| GroupDashboard.AvgMoodBounds | mindpulse/src/components/GroupDashboard.tsx:99 | The average sentiment is 0 with no entries, and otherwise lies within any range holding 0 and every reported score. |
| GroupDashboard.TeamWeather | mindpulse/src/components/GroupDashboard.tsx:131-136 | The first rule that applies: Stormy iff stress > 7; Rainy iff not stormy and mood < -0.3; Cloudy iff neither and mood < 0.2; Sunny otherwise. |
| GroupDashboard.StormyNeedsStressedEntry | mindpulse/src/components/GroupDashboard.tsx:132 | A stormy team has at least one entry with stress above 7. |
| GroupDashboard.ChartData | mindpulse/src/components/GroupDashboard.tsx:102-107 | The last min(20, n) entries, in order, one point each, with the sentiment rescaled. |
| GroupDashboard.ScaledRange | mindpulse/src/components/GroupDashboard.tsx:106 | The rescaling 5s+5 maps [-1, 1] onto [0, 10] and preserves order. |
| GroupDashboard.ColourOfScore | mindpulse/src/components/GroupDashboard.tsx:418 | A bar is green iff the score is positive, red iff it is below -0.2, and grey otherwise. |
| App.IsSameDay | mindpulse/src/App.tsx:51-55 | Two local dates are the same day iff year, month and day of the month all agree, that is, iff they are the same calendar date. |
| App.TodayEntry | mindpulse/src/App.tsx:58-63 | The user's first entry dated today in list order. It is absent exactly when there is none, and always absent with nobody signed in. |
| App.NewEntryIsFoundToday | mindpulse/src/App.tsx:65-67 | After appending today's entry of the user, a check-in for today exists, and an earlier one stays the one found. |
| Seqs.PrefixDecidesFind | mindpulse/src/App.tsx:58 | When a match exists in a prefix, `find` on a longer list returns that same match. |
| App.TeamEntries | mindpulse/src/App.tsx:214 | Only entries whose author is a team member, in their original order. |
| App.TeamEntriesComplete | mindpulse/src/App.tsx:214 | Every entry by a team member is passed to the team view. |
| App.AppState.constructor | mindpulse/src/App.tsx:18-23 | No user, session loading, no entries, the check-in tab, no members, and the sidebar closed. |
| App.AppState.View | mindpulse/src/App.tsx:107-118 | A loading screen while the session is checked, then the sign-in page without a user, else the main screen on the active tab. |
| App.AppState.RestoreSession | mindpulse/src/App.tsx:26-32 | A stored session becomes the current user, and loading ends either way. |
| App.AppState.LoadData | mindpulse/src/App.tsx:35-48 | With a user in a group, the members and the fetched entries replace the old ones; otherwise nothing changes. |
| App.AppState.HandleNewEntry | mindpulse/src/App.tsx:65-74 | Exactly the new entry is appended, after all earlier ones. |
| App.AppState.HandleLogin | mindpulse/src/App.tsx:76-79 | The user is set and the check-in tab opens. |
| App.AppState.HandleLogout | mindpulse/src/App.tsx:81-85 | No user and no entries remain. |
| App.AppState.HandleTabClick | mindpulse/src/App.tsx:88-91 | The tab opens and the sidebar closes. |
| App.AppState.ToggleSidebar | mindpulse/src/App.tsx:127 | The sidebar flips. |
| App.AppState.ViewHistory | mindpulse/src/App.tsx:203 | The personal tab opens. |
| App.LoginThenLogout | mindpulse/src/App.tsx:76-85 | Signing in shows the check-in tab; signing out shows the sign-in page with no entries. |
| PersonalDashboard.MyEntries | mindpulse/src/components/PersonalDashboard.tsx:12 | Only the user's own entries. |
| PersonalDashboard.MyEntriesComplete | mindpulse/src/components/PersonalDashboard.tsx:12 | Every own entry is kept, in input order. |
| PersonalDashboard.FirstName | mindpulse/src/components/PersonalDashboard.tsx:27 | The prefix of the name before its first space. |
| PersonalDashboard.ChartData | mindpulse/src/components/PersonalDashboard.tsx:14-19 | The last min(7, n) own entries, in order, with their stress, energy and sleep. |
| PersonalDashboard.LastEntry | mindpulse/src/components/PersonalDashboard.tsx:21 | The user's newest entry, the last of their entries in list order. It is absent exactly when the user has no entries. |
| PersonalDashboard.Stress | mindpulse/src/components/PersonalDashboard.tsx:37 | A dash exactly when there is no last entry, else its stress. |
| PersonalDashboard.Energy | mindpulse/src/components/PersonalDashboard.tsx:42 | A dash exactly when there is no last entry, else its energy. |
| PersonalDashboard.Sleep | mindpulse/src/components/PersonalDashboard.tsx:47 | A dash exactly when there is no last entry, else its sleep. |
| PersonalDashboard.Suggestions | mindpulse/src/components/PersonalDashboard.tsx:76-77 | Exactly those of the user's last three entries that carry a non-empty suggestion, newest first. At most three entries. |
| PersonalDashboard.LatestSuggestionFirst | mindpulse/src/components/PersonalDashboard.tsx:76 | The newest entry's suggestion, if it has one, heads the list. |
| DailyCheckIn.ResultOfExisting | mindpulse/src/components/DailyCheckIn.tsx:49-57 | The earlier entry's suggestion, or "You've already checked in today."; burnout only when it was flagged true; its tags. |
| DailyCheckIn.NewEntry | mindpulse/src/components/DailyCheckIn.tsx:71-84 | Mood, levels and note come from the form; sentiment, burnout, suggestion and tags come from the analysis. |
| DailyCheckIn.RevisitShowsSameResult | mindpulse/src/components/DailyCheckIn.tsx:49-94 | Revisiting the check-in shows the card seen right after submitting exactly when the suggestion was non-empty. |
| DailyCheckIn.OfflineResultShowsBadge | mindpulse/src/components/DailyCheckIn.tsx:121 | The offline fallback always shows the offline badge, and flags burnout exactly for highlighted stress. |
| DailyCheckIn.CheckIn.constructor | mindpulse/src/components/DailyCheckIn.tsx:40-46 | Neutral mood, stress 5, energy 5, sleep 7, an empty note, not submitting, and no result. |
| DailyCheckIn.CheckIn.Edit | mindpulse/src/components/DailyCheckIn.tsx:150-213 | The form's controls set their fields; the sliders stay in 1..10. |
| DailyCheckIn.CheckIn.ShowExisting | mindpulse/src/components/DailyCheckIn.tsx:49-57 | An existing entry shows its card; otherwise nothing changes. |
| DailyCheckIn.CheckIn.HandleSubmit | mindpulse/src/components/DailyCheckIn.tsx:59-103 | With an entry for today, nothing is sent or changed. Otherwise the built entry is handed on, the card mirrors the analysis, the note clears, and submitting ends. |
| AuthPage.NormaliseGroupCode | mindpulse/src/components/AuthPage.tsx:182 | The code contains no whitespace and is no longer than the input. |
| AuthPage.NormaliseGroupCodeIdempotent | mindpulse/src/components/AuthPage.tsx:182 | Normalising twice equals normalising once, and the result is already upper-case. |
| JsText.RemoveSpacesOfSpaceFree | mindpulse/src/components/AuthPage.tsx:182 | Removing whitespace changes nothing in a string without whitespace. |
| AuthPage.SignupBodyAsWritten | mindpulse/src/components/AuthPage.tsx:32 | The sign-up body carries no password. |
| AuthPage.SignupAsWrittenLosesPassword | mindpulse/src/components/AuthPage.tsx:32 | As written, a new account's stored password differs from any typed one other than "password123", so logging in with the typed password fails. |
| AuthPage.SignupBodyCorrected | mindpulse/src/services/authService.ts:34-39 | The sign-up body carries the typed password. |
| AuthPage.SignupCorrectedKeepsPassword | mindpulse/src/services/authService.ts:34-39 | With the password passed on, the new account is found by its e-mail and stores the typed password. |
| AuthPage.NewUserIsFound | mindpulse/server/server.js:72-83 | After a sign-up with a fresh e-mail, looking up that e-mail finds the new user. |
| AuthPage.ErrorText | mindpulse/src/components/AuthPage.tsx:36 | The error's message, or "An error occurred" when it is empty. |
| AuthPage.Page.constructor | mindpulse/src/components/AuthPage.tsx:11-20 | Login mode, not loading, no error, empty fields, and role member. |
| AuthPage.Page.ToggleMode | mindpulse/src/components/AuthPage.tsx:94 | The mode flips and the error clears. |
| AuthPage.Page.EditFields | mindpulse/src/components/AuthPage.tsx:108-166 | The inputs set name, e-mail, password and role. |
| AuthPage.Page.SetGroupCode | mindpulse/src/components/AuthPage.tsx:182 | The group code holds the normalised input. |
| AuthPage.Page.FillDemoData | mindpulse/src/components/AuthPage.tsx:43-46 | The demo e-mail and password are filled in. |
| AuthPage.Page.Request | mindpulse/src/components/AuthPage.tsx:29-33 | A login request iff in login mode, with the typed e-mail and password. Otherwise the sign-up body the page builds: name, e-mail, role and group code, with no password. |
| AuthPage.Page.BeginSubmit | mindpulse/src/components/AuthPage.tsx:22-33 | Nothing is sent while loading or with a required input empty. Otherwise the error clears, loading starts and the request for the mode is sent. |
| AuthPage.Page.FinishSubmit | mindpulse/src/components/AuthPage.tsx:34-39 | Success hands the user on; failure shows the error text; loading ends either way. |
| AuthPage.Page.HandleSubmit | mindpulse/src/components/AuthPage.tsx:22-40 | A sent request always ends with loading off, and either the user handed on or the error shown. |
| AIChat.HistoryContext | mindpulse/src/components/AIChat.tsx:55-58 | One context message per transcript message, with its role and its text as the only part. |
| AIChat.ContextReachesServerIntact | mindpulse/src/components/AIChat.tsx:55-62 | The server turns the context into the transcript itself, with the model's role renamed and the new message last. |
| AIChat.ErrorText | mindpulse/src/components/AIChat.tsx:71-77 | The missing-key error gives the system-error text, any other message gives "Connection Error: " plus it, and an empty message gives the generic text. |
| AIChat.ReplyText | mindpulse/src/components/AIChat.tsx:62-77 | The reply, or the listening prompt for an empty one, or the error text; never empty. |
| AIChat.MissingKeyShownAsSystemError | mindpulse/src/components/AIChat.tsx:71-77 | A 503 shows the system-error text; other non-OK statuses show that text or a connection error. |
| AIChat.Chat.constructor | mindpulse/src/components/AIChat.tsx:7-16 | The transcript is the single welcome message, the input is empty, and no reply is pending. |
| AIChat.Chat.SetInput | mindpulse/src/components/AIChat.tsx:147 | The input holds the typed text. |
| AIChat.Chat.BeginSend | mindpulse/src/components/AIChat.tsx:27-41 | A blank input or a pending reply sends nothing. Otherwise the earlier transcript and the text are sent, the user message is appended, the input clears and typing starts. |
| AIChat.Chat.FinishSend | mindpulse/src/components/AIChat.tsx:62-87 | Exactly one model message is appended and typing ends. |
| AIChat.Chat.HandleSend | mindpulse/src/components/AIChat.tsx:27-88 | A handled send appends the user's message and then exactly one model message, clears the input and ends typing; an ignored send changes nothing. |
| CounselingSupport.Shown | mindpulse/src/components/CounselingSupport.tsx:20-172 | The 30-minute plan shows "30 Minutes", "₹500" and "30-minute". Anything else, even no plan, shows "1 Hour", "₹900" and "1-hour". Each text identifies the plan in both directions. |
| CounselingSupport.DialogMatchesPlan | mindpulse/src/components/CounselingSupport.tsx:81-172 | The dialog repeats each plan's price and label. |
| CounselingSupport.Booking.constructor | mindpulse/src/components/CounselingSupport.tsx:5-6 | No plan is chosen, on the selection step. |
| CounselingSupport.Booking.HandleBook | mindpulse/src/components/CounselingSupport.tsx:8-11 | The plan is chosen and the dialog opens. |
| CounselingSupport.Booking.ConfirmBooking | mindpulse/src/components/CounselingSupport.tsx:13-18 | The booking is confirmed and the plan is kept. |
| CounselingSupport.Booking.Cancel | mindpulse/src/components/CounselingSupport.tsx:177 | Back to the plans, with the plan kept. |
| CounselingSupport.Booking.BookAnother | mindpulse/src/components/CounselingSupport.tsx:32 | Back to the plans, with the plan kept. |
| CounselingSupport.BookingRoundTrip | mindpulse/src/components/CounselingSupport.tsx:8-32 | A full booking shows the chosen plan's price and duration, then returns to the plans with that plan selected. |

## Left out

- Express routing, the Mongo connection and the Mongoose calls are replaced by the in-memory `Server.Store`. Each handler's `try`/`catch` with status 500 is modelled only where a schema validator makes it reachable: a required field missing at sign-up or at entry creation.
- The AI handlers (`/api/ai/analyze`, `/api/ai/chat`, `/api/ai/report`) call an external model. The 503 for a missing key, the model's output, its JSON parsing and the `lastUpdated` stamp are not modelled. The client sees only their outcome, as a `Fetch.Response`. Of these handlers, the chat history mapping and the report input projection are modelled.
- The vibe handler reads and then writes the group. Concurrent requests can interleave between the two; each handler is modelled as one atomic step.
- Wall-clock time is a parameter: the server's UTC day as a string, the client's local calendar day, and the current time.
- Server.Store.Login: the e-mail lookup builds a regular expression from raw input. It is modelled as equality ignoring case, so inputs with regular-expression metacharacters behave differently in the source.
- Server.Store.Signup: the duplicate e-mail check builds the same regular expression from raw input as login. It is modelled as equality ignoring case, so inputs with regular-expression metacharacters behave differently in the source.
- Server.Store.CreateEntry: the schema's `Date.now` default for a missing timestamp is not modelled; every entry carries the timestamp the client set.
- JsText.Upper: only ASCII letters are mapped; `toUpperCase` on other scripts is not modelled.
- JSX markup, styling, icons, the heart particles, the clipboard copy, scrolling and the one-second booking delay are not modelled. So is a timer that still fires after a cancel.
- Averages and scores are `real`; IEEE rounding, `toFixed` and locale date formatting are not modelled.
- authService.ts and api.ts are not part of this model. Their outcomes (the signed-in user or an error message, the member list, the stored session) are parameters.
- Chat message ids and timestamps, built from `Date.now()`, are not modelled.
- DataService.SendGroupVibe: a successful vibe response without a `vibes` field is not modelled; the source would store `undefined` as the count.
- Server.Store.PostAnnouncement: a request body without an `announcement` field is not modelled.
- Async interleavings, such as two clicks before the first reply, are not modelled. Each `HandleX` runs its continuation immediately after its synchronous part.
- DailyCheckIn.CheckIn.HandleSubmit: the `catch` branch is unreachable, because the analysis service never throws. The submit button's `disabled` state is always off when a submission starts, since each submission completes at once.
- The browser's e-mail format check on `type="email"` inputs is not modelled; only the `required` checks are.

## Findings

| source | as written | input that shows it | evidently intended | confidence | as-written member | corrected member |
|---|---|---|---|---|---|---|
| mindpulse/src/components/AuthPage.tsx:32 | `apiSignup(name, email, role, groupCode)` omits the typed password, so the server stores "password123" | sign up with password "secret1", then log in with "secret1": 401 | pass the typed password as the fifth argument, which `apiSignup` declares and sends | high (not executed) | AuthPage.SignupAsWrittenLosesPassword | AuthPage.SignupCorrectedKeepsPassword |

`AuthPage.Page.Request` builds the body as written; `AuthPage.SignupBodyCorrected` is the intended body.
