# Vado agent dashboard: a Dafny model of its rules

Vado's dashboard is the web application real-estate agents use to manage tour
requests for the properties they list. Most of it is database calls and UI.
This project models the deterministic rules inside it and proves what they
promise:

- **Tour-request lifecycle.** The two implementations of approve and deny
  both update one row without checking its current status. The model also
  covers the actions the calendar dialog offers for each status, the checks
  in the approval and denial dialogs, and the conversion of approved and
  completed requests into one-hour calendar events.
- **Analytics.** This covers counting by status and by day in a JavaScript
  `Map` (insertion-ordered), percentages that sum to 100, the top-10
  property ranking, the completion rate, the chart's rounded daily average
  and the chart's shortened address labels.
- **Credentials and access.** This covers the four password rules and the
  strength meter, the reset-email pattern, the ordered checks of the
  sign-up and update-password forms, the `@vadoapp.com` agent rule, the
  middleware's public-route gate and the OAuth callback's redirect table.
- **Profile cards.** This covers the duplicate-free specialization list of
  at most 10 entries, licence-expiry classification, the years display and
  the five-star rating row.
- **Small state holders.** This covers the CRM provider's connection flag
  and the provider registry, the theme preference kept in `localStorage`
  with the `dark` class, the default user settings, and the field mapping
  of a Realtor listing import.

The model follows some conventions:

- Database replies, the clock (`now`) and browser facts (`hasWindow`,
  `prefersDark`) are parameters.
- A table the code updates in place is a class holding a `map` of rows.
- Components whose handlers update state fields step by step are classes
  with methods.
- Expressions are functions.
- JavaScript string and `Map` behaviour is written out in the helper
  modules `Text`, `JsMap` and `JsArray`: `startsWith`, `split`, `trim`,
  `parseInt`, insertion order, `filter` and a stable descending sort.

The stored status is the datatype `Entities.Status`. It has one
constructor for each word the code writes or compares: pending, approved,
denied, declined, cancelled, expired and completed. Any other string is
`Other`.

Where the design description and the code disagree, the model follows the
code:

- Neither approve nor deny checks that the request is still pending
  (`TourRequestService.NoStatusGuard`).
- "completed" is written and queried but is not in the declared status
  union. The colour tables key on "declined", a word no service writes, so
  a denied request is grey (`TourDetailsModal.DeniedIsGrey`,
  `AnalyticsService.DeniedIsUnknownGrey`).
- The middleware's doc comment promises an `is_agent` check on protected
  routes. The code only checks that a user is signed in (`Middleware.Gate`).
- The callback sends a newly created agent profile to the request's origin
  and ignores `x-forwarded-host`
  (`AuthCallback.NewProfileIgnoresForwardedHost`).

## Model

| member | source | states |
|---|---|---|
| Entities.Parse | src/lib/supabase.ts:15-30 | reading a stored status string loses nothing: its name is the string read |
| Entities.ParseName | src/lib/supabase.ts:15-20 | every canonical status survives a trip through its stored string |
| Entities.CompletedAndDeclinedUndeclared | src/lib/supabase.ts:15-20 | the declared union is pending, approved, denied, cancelled and expired; "completed" and "declined" are outside it |
| Entities.OrElse | src/services/tourCalendar.service.ts:124 | `status \|\| fallback`: the fallback exactly for a null or empty status, the stored value otherwise |
| Entities.Apply | src/services/tourRequest.service.ts:107-112 | an update writes exactly the fields whose keys it carries; the requester, property, agent, dates, slot and message stay the same |
| Entities.TourRequestTable.UpdateSingle | src/services/tourRequest.service.ts:107-117 | a client error or a missing id leaves the table unchanged and reports the error ("no rows" for a missing id); otherwise only that row is updated and returned |
| Entities.TourRequestTable.UpdateWhere | src/components/calendar/TourDetailsModal.tsx:69-74 | an update without `.single()`: a missing id is not an error and leaves the table unchanged |
| TourRequestService.Approved | src/services/tourRequest.service.ts:98-105 | the approved row has status "approved" and the new `updated_at`; the message changes only for a non-empty message; `responded_at` and the request's identity are kept |
| TourRequestService.Denied | src/services/tourRequest.service.ts:131-137 | the denied row has status "denied", the reason as its message and the new `updated_at`; everything else is kept |
| TourRequestService.ApproveTourRequest | src/services/tourRequest.service.ts:92-120 | on success the returned row is `Approved(old row)` and only that row changes; an error is rethrown with the table unchanged; success exactly when the id exists |
| TourRequestService.DenyTourRequest | src/services/tourRequest.service.ts:125-148 | as approve, with `Denied(old row, reason)` |
| TourRequestService.PendingIds | src/services/tourRequest.service.ts:47-51 | the ids counted are exactly the rows with this agent id and status "pending" |
| TourRequestService.GetPendingCount | src/services/tourRequest.service.ts:44-59 | the error is thrown; otherwise the result is the number of the agent's pending rows, or 0 when the reply carries no count |
| TourRequestService.LeavingPending | src/services/tourRequest.service.ts:47-51 | replacing a row by a non-pending one lowers the agent's pending count by one exactly when that row was pending for the agent |
| TourRequestService.DecisionsLeavePending | src/services/tourRequest.service.ts:92-148 | approving or denying any request removes it from its agent's pending count and leaves every other count unchanged |
| TourRequestService.NoStatusGuard | src/services/tourRequest.service.ts:98-105 | a denied request is approved all the same, and an approved one denied, although the lifecycle allows neither step |
| Supabase.AgentTourRequests | src/lib/supabase.ts:64-104 | on a query error the reply is `{ data: null, error }`; otherwise it keeps exactly the rows whose property is listed by the agent, and rows without a property are dropped |
| Supabase.AgentTourRequestsInOrder | src/lib/supabase.ts:98-103 | the filter keeps the fetched order: filtering a concatenation is concatenating the filtered parts |
| Supabase.ApprovedAt | src/lib/supabase.ts:111-115 | the approved row has status "approved" and `responded_at = now`; the message and `updated_at` are untouched |
| Supabase.ReasonOrNull | src/lib/supabase.ts:131 | `reason \|\| null`: null exactly for an absent or empty reason |
| Supabase.DeniedAt | src/lib/supabase.ts:128-133 | the denied row has status "denied", `responded_at = now` and the reason, or null, as its message |
| Supabase.AsReply | src/lib/supabase.ts:118-120 | the `{ data, error }` pair carries data exactly when it carries no error |
| Supabase.ApproveTourRequest | src/lib/supabase.ts:109-121 | an error comes back with null data and the table unchanged; otherwise the data is `ApprovedAt(old row)` and only that row changes |
| Supabase.DenyTourRequest | src/lib/supabase.ts:126-139 | as approve, with `DeniedAt(old row, reason)` |
| Supabase.PendingRequestsCountBounds | src/lib/supabase.ts:144-148 | the count is 0 on error; otherwise it counts the fetched rows that are the agent's and pending, never more than the agent's rows |
| Supabase.FilterTwice | src/lib/supabase.ts:145-147 | filtering by the agent and then by status is filtering by both at once |
| TourCalendar.StartHour | src/services/tourCalendar.service.ts:69-96 | morning starts at 9, afternoon at 14, evening at 17, any other slot or no slot at 10 |
| TourCalendar.PropertyAddress | src/services/tourCalendar.service.ts:57-58 | the joined address, or "Unknown Property" when it is missing or empty |
| TourCalendar.ClientName | src/services/tourCalendar.service.ts:59 | the requester's full name, or "Unknown Client" when it is missing or empty |
| TourCalendar.ConvertTourToEvent | src/services/tourCalendar.service.ts:56-130 | the event ends one hour after it starts; the start is the requested day at the slot's hour, or `now`; the title is "Tour: " + address; the id and request id are the request id; the status defaults to "approved"; blue for completed, green otherwise, white text |
| TourCalendar.DatedEventWithinDay | src/services/tourCalendar.service.ts:65-102 | in UTC day numbering, which has no time zones, a dated event lies within its requested day, between 9:00 and 18:00 |
| TourCalendar.TourEventsForAgent | src/services/tourCalendar.service.ts:25-51 | a query error is thrown; otherwise there is one event per fetched row, in fetched order |
| TourCalendar.QueriedEvents | src/services/tourCalendar.service.ts:40-50 | every event built from the approved or completed rows of the query carries one of those two statuses, is blue exactly when completed, and lasts one hour |
| TourDetailsModal.AvailableActions | src/components/calendar/TourDetailsModal.tsx:328-348 | "Mark as Complete" exactly for an approved request, "Cancel Tour" exactly for an approved or pending one, nothing else |
| TourDetailsModal.ActionsFollowLifecycle | src/components/calendar/TourDetailsModal.tsx:328-348 | every action the dialog offers is a step the lifecycle allows |
| TourDetailsModal.LifecycleStepsOffered | src/components/calendar/TourDetailsModal.tsx:328-348 | every lifecycle step into completed or cancelled is offered |
| TourDetailsModal.BadgeStatus | src/components/calendar/TourDetailsModal.tsx:150-155 | a null status shows as "pending", any other as its stored name |
| TourDetailsModal.BadgeLabel | src/components/calendar/TourDetailsModal.tsx:150-155 | the label has the length of the status and reads "Pending" for a null status |
| TourDetailsModal.NullStatusLooksPendingButHasNoActions | src/components/calendar/TourDetailsModal.tsx:150-155 | a null status is labelled "Pending" but gets no actions, while a stored "pending" can be cancelled |
| TourDetailsModal.StatusColor | src/components/calendar/TourDetailsModal.tsx:108-123 | distinct classes for pending, approved, declined and completed; grey for anything else |
| TourDetailsModal.DeniedIsGrey | src/components/calendar/TourDetailsModal.tsx:108-123 | "denied" and "expired" get the grey of "cancelled"; only "declined" is red; the five classes differ |
| TourDetailsModal.FormatTimeSlot | src/components/calendar/TourDetailsModal.tsx:103-106 | "Not specified" for a missing or empty slot; otherwise the slot with only its first character upper-cased, with the same length |
| TourDetailsModal.FormatDate | src/components/calendar/TourDetailsModal.tsx:92-101 | "Not set" exactly for a null date |
| TourDetailsModal.HandleStatusUpdate | src/components/calendar/TourDetailsModal.tsx:62-90 | nothing happens with no request loaded; otherwise only that row's status changes, and the alert reports success or failure |
| ApprovalModal.SubmitCheck | src/components/tour-requests/ApprovalModal.tsx:34-43 | a blank or white-space message is refused with its message; otherwise the call gets the untrimmed message and the date, or none for an empty date |
| ApprovalModal.ApprovalForm.constructor | src/components/tour-requests/ApprovalModal.tsx:24-27 | empty fields, not loading, no error |
| ApprovalModal.ApprovalForm.Render | src/components/tour-requests/ApprovalModal.tsx:29-126 | nothing while closed; while open, both buttons are disabled exactly while loading, with the matching button text |
| ApprovalModal.ApprovalForm.Submit | src/components/tour-requests/ApprovalModal.tsx:31-43 | a refused message sets the error and calls nothing; otherwise loading starts, the error clears and the call is made |
| ApprovalModal.ApprovalForm.Settle | src/components/tour-requests/ApprovalModal.tsx:43-52 | success clears both fields and closes; a failure keeps them and shows the thrown message or the fallback; loading ends either way |
| ApprovalModal.ApprovalForm.Close | src/components/tour-requests/ApprovalModal.tsx:55-62 | ignored while loading; otherwise the fields and the error clear and the dialog closes |
| DenialModal.FinalReason | src/components/tour-requests/DenialModal.tsx:41-42 | the custom text exactly when "Other (specify below)" is selected, else the selected reason |
| DenialModal.SubmitCheck | src/components/tour-requests/DenialModal.tsx:44-53 | a blank final reason is refused; otherwise the untrimmed final reason is sent |
| DenialModal.ReasonChoices | src/components/tour-requests/DenialModal.tsx:16-22 | each of the four fixed reasons is accepted as is; no selection, or "Other" with a blank text, is refused |
| DenialModal.DenialForm.constructor | src/components/tour-requests/DenialModal.tsx:31-34 | empty fields, not loading, no error |
| DenialModal.DenialForm.Render | src/components/tour-requests/DenialModal.tsx:36-151 | nothing while closed; a radio is checked exactly when the selection is a listed reason, and it is the selected one; the custom field shows exactly for "Other"; buttons are disabled exactly while loading |
| DenialModal.DenialForm.Submit | src/components/tour-requests/DenialModal.tsx:38-53 | a refused reason sets the error and calls nothing; otherwise loading starts and the final reason is sent |
| DenialModal.DenialForm.Settle | src/components/tour-requests/DenialModal.tsx:53-62 | success clears both reasons and closes; a failure keeps them and shows the error; loading ends |
| DenialModal.DenialForm.Close | src/components/tour-requests/DenialModal.tsx:65-72 | ignored while loading; otherwise both reasons and the error clear and the dialog closes |
| Settled.CaughtText | src/components/tour-requests/ApprovalModal.tsx:49 | the thrown error's message, or the fallback for a value that is not an `Error` |
| AnalyticsService.SumValuesSet | src/services/analytics.service.ts:229 | setting a key changes the sum of the map's counts by the new value minus the old |
| AnalyticsService.TallySum | src/services/analytics.service.ts:227-231 | counting n keys into a map adds n to the sum of its counts |
| AnalyticsService.GetTally | src/services/analytics.service.ts:227-231 | after counting, each key's count is its old count plus its number of occurrences, and a key is present exactly when it was before or was counted |
| AnalyticsService.KeysTally | src/services/analytics.service.ts:227-231 | counting keeps the existing keys first, in order, and keeps keys distinct |
| AnalyticsService.KeysOfTally | src/services/analytics.service.ts:227-231 | a key is in the counted map exactly when it was there or was counted |
| AnalyticsService.StatusKey | src/services/analytics.service.ts:228 | a null or empty status counts as "unknown", any other under its name |
| AnalyticsService.StatusKeys | src/services/analytics.service.ts:227-228 | one key per row, in row order |
| AnalyticsService.CountByStatus | src/services/analytics.service.ts:224-231 | the loop's map is the tally of the rows' keys, and its total is the row count |
| AnalyticsService.StatusCounts | src/services/analytics.service.ts:224-231 | the counts sum to the row count, keys are distinct, each count is its key's number of occurrences, and the keys are exactly the statuses seen |
| AnalyticsService.FirstEntry | src/services/analytics.service.ts:244-245 | in a map with distinct keys, looking up an entry's key gives its count |
| AnalyticsService.StatusColor | src/services/analytics.service.ts:234-249 | a status missing from the colour table gets the grey "#9ca3af" |
| AnalyticsService.DeniedIsUnknownGrey | src/services/analytics.service.ts:234-249 | "denied" and "expired" get the colour of "unknown"; only "declined" is red |
| AnalyticsService.Slice | src/services/analytics.service.ts:245-250 | a slice keeps the count, its percentage is count/total*100 (0 for no rows), its label is the key with its first character upper-cased, and its colour is the key's |
| AnalyticsService.Slices | src/services/analytics.service.ts:244-250 | one slice per map entry, in map order |
| AnalyticsService.GetStatusDistribution | src/services/analytics.service.ts:207-252 | a query error is thrown; otherwise the slices of the counted statuses, sorted by count |
| AnalyticsService.PercentSumOfCounts | src/services/analytics.service.ts:248 | the percentages add up to the sum of the counts over the total, times 100 |
| AnalyticsService.SlicesCount | src/services/analytics.service.ts:244-250 | the slices' counts add up to the map's counts |
| AnalyticsService.StatusDistributionCounts | src/services/analytics.service.ts:244-251 | one slice per distinct status, sorted by count with the highest first, and the counts sum to the row count |
| AnalyticsService.PermutedSlices | src/services/analytics.service.ts:251 | sorting keeps each slice's percentage tied to its count |
| AnalyticsService.StatusDistributionPercentages | src/services/analytics.service.ts:248 | with at least one row, the percentages sum to 100 on exact reals (in doubles only up to rounding) |
| AnalyticsService.DayKey | src/services/analytics.service.ts:76 | the day key is the prefix of the timestamp before the first "T": it holds no "T" and is followed by a "T" or by the end |
| AnalyticsService.DayKeys | src/services/analytics.service.ts:75-76 | one day key per row, in row order |
| AnalyticsService.ZeroBucketsSum | src/services/analytics.service.ts:67-72 | the window's buckets all start at zero |
| AnalyticsService.ZeroBucketsKeys | src/services/analytics.service.ts:67-72 | the buckets' keys are the window's days, in order |
| AnalyticsService.ZeroBucketsGet | src/services/analytics.service.ts:67-72 | a day has a bucket exactly when it is in the window, and it reads 0 |
| AnalyticsService.Points | src/services/analytics.service.ts:82-94 | one trend point per map entry, in map order |
| AnalyticsService.TourRequestsTrend | src/services/analytics.service.ts:64-94 | the loops produce the points of the window's buckets with every row counted into its day |
| AnalyticsService.TrendShape | src/services/analytics.service.ts:66-79 | the window's days come first in order, days are distinct, the counts sum to the row count, each day's count is its number of rows, and out-of-window days get buckets of their own |
| AnalyticsService.Interpolated | src/services/analytics.service.ts:136 | a nullable column inside the template literal is its text, or "null" when the column is null |
| AnalyticsService.Performance | src/services/analytics.service.ts:136-143 | the entry carries the property id, the full address starting with the street address, 0 views, and the reported count or 0 when it is missing; a property without city, state or zip code reads "…, null, null null" |
| AnalyticsService.Performances | src/services/analytics.service.ts:122-145 | one entry per property, in order |
| AnalyticsService.PropertyPerformanceOf | src/services/analytics.service.ts:101-151 | an error is thrown; otherwise min(10, n) entries, sorted by tour requests with the most first, forming a sub-multiset of the properties' entries, so no property appears more often than it is listed |
| AnalyticsService.RankingIsTop | src/services/analytics.service.ts:148-150 | every property left out of the ranking has no more tour requests than any property in it |
| AnalyticsService.ConversionMetricsOf | src/services/analytics.service.ts:157-201 | errors are thrown in query order; views and the conversion rate are 0; missing counts read 0; the completion rate is completed/total*100, 0 for no requests, and between 0 and 100 when completed does not exceed total |
| TourRequestsChart.RoundQuotient | src/components/analytics/TourRequestsChart.tsx:76 | `Math.round(n / d)`: the nearest integer to the quotient, a half rounding up |
| TourRequestsChart.Summarize | src/components/analytics/TourRequestsChart.tsx:64-76 | empty data shows the no-data message before any division; otherwise the total is the sum of the counts and the average is their rounded mean |
| TourRequestsChart.AverageBounds | src/components/analytics/TourRequestsChart.tsx:75-76 | with non-negative counts, the average lies between 0 and the largest daily count |
| PropertyPerformanceChart.ShortAddress | src/components/analytics/PropertyPerformanceChart.tsx:77-83 | the label is the part before the first comma, cut to 30 characters plus "..." when longer, so never over 33 characters; the whole-address fallback is never taken |
| PropertyPerformanceChart.ShortAddressOfAddress | src/components/analytics/PropertyPerformanceChart.tsx:77-83 | the label is a prefix of the address, or such a prefix plus "..."; a short address without a comma is kept whole |
| PropertyPerformanceChart.ChartData | src/components/analytics/PropertyPerformanceChart.tsx:76-89 | one item per entry, the entry itself carried over unchanged, with its short address |
| PasswordRules.Validate | src/components/auth/SignUpForm.tsx:29-34 | each rule holds exactly when the password has at least 8 characters, an A-Z letter, a digit, or one of the listed symbols |
| PasswordRules.Strength | src/components/auth/SignUpForm.tsx:43 | the strength is the number of rules met, at most 4 |
| PasswordRules.ValidIffFullStrength | src/components/auth/SignUpForm.tsx:36-43 | a password is valid exactly when its strength is 4 |
| PasswordRules.MeterReadings | src/components/auth/UpdatePasswordForm.tsx:38-58 | the meter reads "Strong" in green exactly for a valid password, nothing for strength 0, and "Weak" in red for 1 or 2 |
| PasswordRules.MatchHints | src/components/auth/SignUpForm.tsx:39-40 | the match and mismatch hints never show together, neither shows for an empty confirmation, and one shows otherwise |
| PasswordRules.StrongExample | src/components/auth/SignUpForm.tsx:29-36 | a password with an upper-case letter, digits and a symbol passes all four rules |
| SignUpForm.AgentEmailExamples | src/components/auth/SignUpForm.tsx:136 | the agent-domain test is case-sensitive and looks only at the end of the address |
| SignUpForm.SignUpCheck | src/components/auth/SignUpForm.tsx:84-102 | the checks run in order, each message stated both ways: "fill in all fields" exactly when a field is empty, the terms message exactly when all are filled but unchecked, the requirements message exactly when filled, accepted and the password invalid, the mismatch message exactly when filled, accepted, valid and unequal; the form passes exactly when all hold |
| SignUpForm.WeakBeforeMismatch | src/components/auth/SignUpForm.tsx:94-102 | for any filled, accepted form, a weak password is reported before a mismatch |
| SignUpForm.Interpret | src/components/auth/SignUpForm.tsx:121-184 | an "already registered" error and a user with no identities both mean the account exists; other errors pass through; a thrown non-`Error` shows "Failed to sign up"; a user is created exactly otherwise |
| SignUpForm.SignUpFormState.constructor | src/components/auth/SignUpForm.tsx:15-23 | empty fields, unchecked, no messages |
| SignUpForm.SignUpFormState.Submit | src/components/auth/SignUpForm.tsx:81-119 | a failed check sets its message and calls nothing; otherwise loading starts, the error clears and `signUp` gets the email, password and names |
| SignUpForm.SignUpFormState.Settle | src/components/auth/SignUpForm.tsx:121-186 | a created user gets a profile whose `is_agent` is the `@vadoapp.com` test, one of four success texts chosen by (agent address, no session), and a cleared form; a failure shows its message and keeps the form; loading ends |
| SignUpForm.SignUpFormState.GoogleSignUp | src/components/auth/SignUpForm.tsx:62-72 | loading starts, the error clears, and the redirect is the origin's callback route |
| SignUpForm.SignUpFormState.GoogleSettled | src/components/auth/SignUpForm.tsx:74-78 | an OAuth error is shown and loading ends; the form keeps its fields |
| UpdatePasswordForm.UpdateCheck | src/components/auth/UpdatePasswordForm.tsx:78-91 | the checks run in order (a field empty, invalid password, mismatch), and the form passes exactly when all hold |
| UpdatePasswordForm.UpdateErrorText | src/components/auth/UpdatePasswordForm.tsx:101-107 | an error about the old password is rewritten, any other passes through |
| UpdatePasswordForm.UpdatePasswordFormState.constructor | src/components/auth/UpdatePasswordForm.tsx:14-17 | empty fields, no error |
| UpdatePasswordForm.UpdatePasswordFormState.CheckSession | src/components/auth/UpdatePasswordForm.tsx:61-73 | without a session the expired-link error is shown |
| UpdatePasswordForm.UpdatePasswordFormState.Submit | src/components/auth/UpdatePasswordForm.tsx:75-98 | a failed check sets its message and sends nothing; otherwise loading starts and the new password is sent |
| UpdatePasswordForm.UpdatePasswordFormState.Settle | src/components/auth/UpdatePasswordForm.tsx:99-116 | a reply error is mapped and shown; a thrown value shows its message, or "Failed to update password" for a non-`Error`; success alerts and goes to the sign-in page; loading ends |
| UpdatePasswordForm.OnlyValidPasswordsSent | src/components/auth/UpdatePasswordForm.tsx:78-91 | a password that passes the checks has full strength and equals its confirmation |
| ResetPasswordForm.EmailShape | src/components/auth/ResetPasswordForm.tsx:26-30 | an accepted address has exactly one "@", not at either end, and no white space |
| ResetPasswordForm.EmailExamples | src/components/auth/ResetPasswordForm.tsx:26-30 | a plain address is accepted; one without a dot after "@", with an empty domain part, or with a space is refused |
| ResetPasswordForm.ResetCheck | src/components/auth/ResetPasswordForm.tsx:20-30 | an empty address is reported before the format; an address passes exactly when it matches the pattern |
| ResetPasswordForm.ResetErrorText | src/components/auth/ResetPasswordForm.tsx:40-49 | "rate limit" is tested first, then "User not found", else the message passes through |
| ResetPasswordForm.ResetPasswordFormState.constructor | src/components/auth/ResetPasswordForm.tsx:11-14 | empty address, no error, no success |
| ResetPasswordForm.ResetPasswordFormState.Submit | src/components/auth/ResetPasswordForm.tsx:17-38 | a failed check sets its message and calls nothing; otherwise loading starts and the reset call goes out with the origin's update-password link |
| ResetPasswordForm.ResetPasswordFormState.Settle | src/components/auth/ResetPasswordForm.tsx:40-56 | success exactly when the call returned no error; a reply error is mapped and shown; a thrown value shows its message, or "Failed to send reset link" for a non-`Error`; loading ends |
| ResetPasswordForm.ResetPasswordFormState.TryAgain | src/components/auth/ResetPasswordForm.tsx:76-79 | success turns off and the address clears |
| AgentSpecializations.InitialList | src/components/user-profile/AgentSpecializationsCard.tsx:24-26 | the stored list, or an empty one for null |
| AgentSpecializations.SavePayload | src/components/user-profile/AgentSpecializationsCard.tsx:36 | null exactly for an empty list, the list otherwise |
| AgentSpecializations.SaveReload | src/components/user-profile/AgentSpecializationsCard.tsx:24-36 | saving and reloading gives back the same list |
| AgentSpecializations.RemoveAt | src/components/user-profile/AgentSpecializationsCard.tsx:61-63 | removing index i drops exactly that element and keeps the others in order |
| AgentSpecializations.RemoveKeepsWellFormed | src/components/user-profile/AgentSpecializationsCard.tsx:61-63 | removal keeps the list duplicate-free and within 10 |
| AgentSpecializations.OfferedCommon | src/components/user-profile/AgentSpecializationsCard.tsx:221-231 | the buttons offer exactly the common specializations not already in the list |
| AgentSpecializations.AppendKeepsWellFormed | src/components/user-profile/AgentSpecializationsCard.tsx:53-56 | appending a new item to a list under 10 keeps it duplicate-free and within 10 |
| AgentSpecializations.SpecializationsEditor.constructor | src/components/user-profile/AgentSpecializationsCard.tsx:24-27 | the stored list and an empty input |
| AgentSpecializations.SpecializationsEditor.Add | src/components/user-profile/AgentSpecializationsCard.tsx:49-59 | a blank, duplicate or full-list add changes nothing; otherwise the trimmed input is appended and the input clears; the list stays duplicate-free and within 10 |
| AgentSpecializations.SpecializationsEditor.KeyPress | src/components/user-profile/AgentSpecializationsCard.tsx:65-70 | Enter adds exactly as the button does; other keys change nothing |
| AgentSpecializations.SpecializationsEditor.Remove | src/components/user-profile/AgentSpecializationsCard.tsx:61-63 | the list becomes `RemoveAt(list, index)` and stays well formed |
| AgentSpecializations.SpecializationsEditor.AddCommon | src/components/user-profile/AgentSpecializationsCard.tsx:221-231 | an offered common item is appended only while the list has fewer than 10 entries |
| AgentLicense.ExpiringSoonWindow | src/components/user-profile/AgentLicenseCard.tsx:70-78 | expiring soon exactly when the expiry is between 1 and 91 days away, that is, floor(days) is in 1..90 |
| AgentLicense.ExpiryFlags | src/components/user-profile/AgentLicenseCard.tsx:70-85 | expired and expiring soon never hold together; an expiry within the coming day is neither |
| AgentLicense.ExpiryColor | src/components/user-profile/AgentLicenseCard.tsx:139-145 | the error colour exactly when expired, the warning colour exactly when expiring soon, the normal colour otherwise |
| AgentLicense.YearsDisplay | src/components/user-profile/AgentLicenseCard.tsx:167-169 | "—" for null or 0; otherwise a text ending in " years" that `parseInt` reads back as the number |
| AgentLicense.ParseIntIgnoresSuffix | src/components/user-profile/AgentLicenseCard.tsx:41-43 | `parseInt` stops at the first non-digit |
| AgentLicense.LeadingDigitsBeforeSuffix | src/components/user-profile/AgentLicenseCard.tsx:41-43 | the leading digits of digits followed by a non-digit are those digits |
| AgentLicense.InitialForm | src/components/user-profile/AgentLicenseCard.tsx:24-29 | each field starts from the profile, or "" when it is missing |
| AgentLicense.SavePayload | src/components/user-profile/AgentLicenseCard.tsx:37-44 | an empty expiry is saved as null and an empty years field as null, else its `parseInt` |
| AgentLicense.SaveUnchanged | src/components/user-profile/AgentLicenseCard.tsx:24-44 | saving the form as loaded writes back the profile's own values |
| AgentStats.JsFraction | src/components/user-profile/AgentStatsCard.tsx:59 | `rating % 1` lies in [0, 1) for a non-negative rating and keeps the sign of a negative one |
| AgentStats.RenderStars | src/components/user-profile/AgentStatsCard.tsx:56-107 | the loop yields exactly 5 stars, star i being the one the layout gives |
| AgentStats.StarLayout | src/components/user-profile/AgentStatsCard.tsx:58-72 | star i is full exactly when i < floor(rating); it is half exactly at index floor(rating) when the fraction is at least 0.5; there is at most one half star |
| AgentStats.StarsOrdered | src/components/user-profile/AgentStatsCard.tsx:61-103 | stars never get fuller to the right, and every star after a half star is empty |
| AgentStats.HalvesShownPrefix | src/components/user-profile/AgentStatsCard.tsx:61-103 | the first n stars show 2·min(n, floor) half stars, plus one if the half star falls among them |
| AgentStats.StarsShowRating | src/components/user-profile/AgentStatsCard.tsx:56-107 | for a rating from 0 to 5 the row shows floor(2·rating) half stars |
| AgentStats.StarsOutOfRange | src/components/user-profile/AgentStatsCard.tsx:58-62 | a negative rating shows five empty stars, a rating of 5 or more five full ones |
| AgentStats.StatsState.constructor | src/components/user-profile/AgentStatsCard.tsx:19-24 | the counters read 0 while loading |
| AgentStats.StatsState.FetchStats | src/components/user-profile/AgentStatsCard.tsx:27-48 | no profile id: nothing changes and loading stays on; otherwise the counts are set when all three arrive and kept on failure, and loading ends |
| AgentStats.RatingOrZero | src/components/user-profile/AgentStatsCard.tsx:145 | a null rating reads 0 |
| AgentStats.ReviewCount | src/components/user-profile/AgentStatsCard.tsx:148 | a null review count shows 0 |
| AgentStats.NullRatingShowsEmptyStars | src/components/user-profile/AgentStatsCard.tsx:145 | a null rating renders five empty stars |
| CrmBase.CustomSync | src/services/crm/crmBase.service.ts:181-220 | success exactly when connected, 0 records, and the "Not connected to CRM" error exactly when disconnected |
| CrmBase.CustomCrmProvider.constructor | src/services/crm/crmBase.service.ts:90-176 | named "Custom CRM", no credentials, not connected |
| CrmBase.CustomCrmProvider.Connect | src/services/crm/crmBase.service.ts:97-101 | stores the credentials, sets the flag, returns true, and the provider is then connected |
| CrmBase.CustomCrmProvider.Disconnect | src/services/crm/crmBase.service.ts:106-109 | drops the credentials and the flag, and the provider is then disconnected |
| CrmBase.CustomCrmProvider.GetStatus | src/services/crm/crmBase.service.ts:114-128 | connected exactly when the flag is set and credentials are present; the provider's name; sync status "idle" |
| CrmBase.CustomCrmProvider.SyncProperties | src/services/crm/crmBase.service.ts:181-198 | the sync result for the provider's connection state |
| CrmBase.CustomCrmProvider.SyncContacts | src/services/crm/crmBase.service.ts:203-220 | the sync result for the provider's connection state |
| CrmBase.CrmProviderFactory.constructor | src/services/crm/crmBase.service.ts:142-224 | the registry holds just "custom" |
| CrmBase.CrmProviderFactory.Register | src/services/crm/crmBase.service.ts:149-151 | registering an id sets or replaces its factory, keeps the other entries and the order, and keeps ids distinct |
| CrmBase.CrmProviderFactory.Create | src/services/crm/crmBase.service.ts:158-161 | the registered factory, or null exactly for an unregistered id |
| CrmBase.CrmProviderFactory.RegisteredProviders | src/services/crm/crmBase.service.ts:166-168 | exactly the registered ids, in registration order, without repeats |
| CrmBase.Instantiate | src/services/crm/crmBase.service.ts:224 | the "custom" factory builds a new, disconnected Custom CRM provider |
| CrmBase.LoadedRegistry | src/services/crm/crmBase.service.ts:224 | after module load, "custom" is the only registered id and creates a provider |
| SettingsService.ParseTheme | src/services/settings.service.ts:143-147 | the stored value exactly when it is "light", "dark" or "system"; "system" otherwise |
| SettingsService.ParseThemeName | src/services/settings.service.ts:134-145 | a stored theme reads back as itself |
| SettingsService.Browser.constructor | src/services/settings.service.ts:118-121 | the browser as given, no dark class, no listener |
| SettingsService.Browser.StoredTheme | src/services/settings.service.ts:140-148 | "system" without a window or without a stored value; another theme only when it is the stored name |
| SettingsService.Browser.ApplyThemePreference | src/services/settings.service.ts:118-135 | a no-op without a window; otherwise the dark class is on exactly for dark, or system with a dark OS preference, and the theme is stored so that it reads back |
| SettingsService.Browser.InitializeTheme | src/services/settings.service.ts:153-168 | applies the stored theme and starts listening, with a window only |
| SettingsService.Browser.SystemThemeChanged | src/services/settings.service.ts:160-167 | once listening, the dark class follows the OS only while the stored theme is "system" |
| SettingsService.ThemeStaysInSync | src/services/settings.service.ts:118-168 | after initialization, a preference change and an OS change, the listener is on and the dark class agrees with the stored theme and the OS; each step keeps the invariant `Browser.InSync` (a listening browser's dark class agrees with the stored theme and the OS), which the constructor establishes, `InitializeTheme` establishes with a window, and `ApplyThemePreference` and `SystemThemeChanged` preserve |
| SettingsService.DefaultSettings | src/services/settings.service.ts:69-76 | both e-mail flags on, daily digest, "system" theme, "overview" view |
| SettingsService.DefaultThemeIsFallback | src/services/settings.service.ts:74-147 | the default theme is the one an empty store falls back to |
| SettingsService.GetUserSettings | src/services/settings.service.ts:35-57 | the fetched row; the defaults are inserted exactly for "no rows"; any other error gives null |
| SettingsService.CreatedSettings | src/services/settings.service.ts:80-85 | the inserted row, or null exactly on error |
| PropertyService.TextOr | src/services/property.service.ts:173-182 | a missing or empty text takes the fallback |
| PropertyService.NumberOr | src/services/property.service.ts:177-184 | a missing or zero number takes the fallback |
| PropertyService.NumberOrNull | src/services/property.service.ts:185-186 | a missing or zero number becomes null |
| PropertyService.ImportFromRealtor | src/services/property.service.ts:167-190 | the listing agent is the given agent; texts default to "", numbers to 0, the type to "single_family", year built and lot size to null |
| PropertyService.ImportListingOf | src/services/property.service.ts:171-187 | a record with no defaulted field is what its own listing imports to |
| PropertyService.ImportEmpty | src/services/property.service.ts:171-187 | an empty listing imports as all defaults |
| Middleware.AnyPrefix | src/middleware.ts:18-20 | some route is a prefix of the path |
| Middleware.Gate | src/middleware.ts:17-35 | the request passes exactly when the path is public or a user is signed in; otherwise it goes to /signin with the path as `redirectedFrom`; no `is_agent` check |
| Middleware.PrefixMatch | src/middleware.ts:17-20 | the test is a prefix match: "/signup-x" and "/auth/callback/x" are public, "/" and "/sign" are not |
| Middleware.RedirectTargetPasses | src/middleware.ts:17-32 | the sign-in page the gate redirects to is itself public |
| AuthCallback.NewProfileName | src/app/auth/callback/route.ts:57 | the metadata name, else the e-mail's local part, else "Agent"; never empty |
| AuthCallback.NewProfile | src/app/auth/callback/route.ts:52-61 | the new profile's `is_agent` is the `@vadoapp.com` test; the avatar is kept only when non-empty |
| AuthCallback.AppRedirect | src/app/auth/callback/route.ts:102-109 | https and the forwarded host when the header is set outside development, the origin otherwise; the path is `next` or "/" |
| AuthCallback.Callback | src/app/auth/callback/route.ts:13-114 | the whole redirect table with its effects: no code gives `no_code` alone; otherwise the code is exchanged first; an exchange error gives `auth_callback_error` with its message; a user error or no user gives `user_fetch_error`; a lookup error other than "no rows" gives `profile_fetch_error`; a missing profile is inserted, then an insert error other than 23505 gives `profile_creation_error`, a vado address goes to origin + next, and anyone else is signed out with `not_agent`; an existing non-agent profile without a vado address is signed out with `not_agent`; otherwise the app redirect |
| AuthCallback.AppNeedsAgent | src/app/auth/callback/route.ts:73-109 | the app is reached only after a good exchange and user lookup, by an agent profile or an `@vadoapp.com` address, at `next` |
| AuthCallback.NotAgentSignsOut | src/app/auth/callback/route.ts:77-98 | every `not_agent` answer is preceded by a sign-out |
| AuthCallback.SignOutMeansNotAgent | src/app/auth/callback/route.ts:77-98 | a sign-out happens only with the `not_agent` answer |
| AuthCallback.InsertOnlyWhenMissing | src/app/auth/callback/route.ts:45-71 | a profile is inserted only when the lookup found no row, with the agent flag given by the address |
| AuthCallback.NewProfileIgnoresForwardedHost | src/app/auth/callback/route.ts:74-109 | a newly created agent profile is sent to the origin, never to the forwarded host |
| AuthCallback.ErrorMessage | src/app/auth/callback/route.ts:24-98 | a message is sent exactly with `auth_callback_error` (the exchange error's text) and `not_agent` (the fixed notice) |
| AuthCallback.Url | src/app/auth/callback/route.ts:24-113 | an app redirect is base + path; an error redirect is exactly the origin's /signin?error= with the code, followed by `&message=` and the encoded text only when the error carries a message |

## Left out

- Database I/O, the realtime channels and `console` logging are not
  modelled. Fetched rows, counts and errors are parameters, and writes are
  changes to a `map` of rows or returned effects.
- The clock is the parameter `now`. Timestamps are integer milliseconds and
  requested dates are day numbers. Date parsing, `toISOString`, local time
  (`setHours`) and time zones are not modelled.
- TourCalendar.DatedEventWithinDay: holds in UTC day numbering only. The
  browser parses a date-only `requested_date` as UTC midnight and
  `setHours` then acts in local time, so west of UTC a tour starts at the
  slot hour of the previous local day.
- TourCalendar.ConvertTourToEvent: the undated fallback reads `new Date()`
  twice; the model reads the clock once, so that event lasts exactly one
  hour.
- Display formatting is not modelled: `toLocaleDateString` (in
  `formatDate`, `formatExpiryDate` and the trend's `displayDate`) and
  `toFixed`.
- `Text.ToUpper` upper-cases ASCII letters only; Unicode case mapping is
  not modelled.
- `Text.ParseInt` skips leading white space and reads an optional sign and
  decimal digits. Radix prefixes and digits beyond decimal are not
  modelled.
- Strings are sequences of Unicode scalar values, while JavaScript's
  `length`, `slice` and `charAt` count UTF-16 code units. A character
  outside the Basic Multilingual Plane counts 1 in the model and 2 in the
  browser. This affects the 8-character password rule, the 30-character
  cut of `PropertyPerformanceChart.ShortAddress` and `charAt(0)`.
- JavaScript numbers are modelled as exact reals, not IEEE doubles.
  AnalyticsService.StatusDistributionPercentages: the percentage sum is 100
  only up to floating-point rounding (three statuses of one row each give
  99.99999999999999 in doubles).
- AuthCallback.Url: URL encoding of the error text is the parameter
  `encode`. The middleware's redirect URL is not built; the decision carries
  the path.
- The middleware's `config.matcher`, which exempts `_next/static`,
  `_next/image`, `favicon.ico` and image files from the gate, is not
  modelled: `Middleware.Gate` is the decision for a path the matcher lets
  through.
- Regular expressions are not modelled. Each one is written as predicates
  over its character classes.
- Concurrency is not modelled. The `Promise.all` fan-outs of the analytics
  service and the statistics card are sequential, and approve/deny races
  are not considered.
- TourDetailsModal.HandleStatusUpdate: the `updating` flag, the refetch and
  the `onUpdate` callback are not modelled. The model covers only the guard,
  the row update and the alert.
- AnalyticsService.StatusDistributionCounts: this proves the result is
  sorted and a permutation of the slices. It does not prove that equal
  counts keep their map order (sort stability).
- `updateUserSettings` is not modelled: it is a single update call with no
  decision in it.
- The licence card's display fallbacks (`|| "—"` for the number and state)
  are not modelled.
- PropertyService.NumberOr: a `NaN` from the Realtor API, which is also
  falsy, is not modelled; numbers are reals.
- The router and `alert` calls of the forms come back as returned values.
  Page navigation is not modelled.
- The approval page passes a scheduled date as a third argument, which
  `approveTourRequest` ignores. The model has no parameter for it.
