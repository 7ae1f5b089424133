# A verified model of the web-app's notification, challenge, badge, quote and goal logic

This project models the logic of a habit-and-motivation web app. The app has an Express back end, a Supabase reminder script and React pages. The Dafny model covers these parts:

- **Back end** (`backend/server.ts`). It has two stores, both in memory here:
  - the `scheduled_notifications` and `notification_logs` tables, behind the schedule, clear and immediate-send routes;
  - the `UserProfile` collection, behind the profile GET and PUT routes and the picture upload and fetch routes.

  Every route is a method that answers with its HTTP status. A store call that throws is a boolean parameter.
- **Reminder tick** (`supabase/scripts/sendWhatsAppReminders.js`). It reads the configuration and derives the `HH:MM` of the local time. It selects the profiles that list that time and have a non-null number. Then it makes one WhatsApp send attempt per selected profile. Message delivery is an oracle parameter.
- **Profile page and notifications page.**
  - The 24-hour to 12-hour time display, and the hour, minute and AM/PM selects that write a time back.
  - Phone-number validation and filtering.
  - The bounded list of daily times.
  - The notification-type switches.
  - The checks and storage of "Save", and "Clear all data".
- **Challenge details page.**
  - Resuming from the stored progress row, day-by-day task completion, challenge start, and the badge awarded at the end.
  - The category x duration card map and today's task.
- **Badges page.**
  - The 18 generated challenge badges and the earned-date merge.
  - The earned/available split.
- **Quotes.**
  - The 120-quote catalogue, the category view and the quote of the day.
  - The shared quote store, with its favourites.
- **Goal tracker.** Adding, toggling and deleting goals, and the completion percentage.

JavaScript's own semantics are defined once, in module `Js`. This covers truthiness, `trim`, `parseInt`, `%`, number-to-string, `padStart`, `toLowerCase`, `replace` and `filter`. Every other module builds on it.

## Model

| member | source | states |
|---|---|---|
| Server.Kept | backend/server.ts:131-136 | The rows a clear keeps are exactly the table's rows scheduled at or after the cutoff |
| Server.Deleted | backend/server.ts:131-136 | The rows a clear deletes are exactly the table's rows scheduled strictly before the cutoff |
| Server.ClearSplits | backend/server.ts:131-136 | Kept and deleted rows partition the table: the counts add up and the multisets union to the table |
| Server.ClearIdempotent | backend/server.ts:131-136 | A second clear with the same cutoff keeps everything and deletes nothing |
| Server.KeptIncreasing | backend/server.ts:131-136 | Deleting rows keeps the remaining serial ids in increasing order |
| Server.NotificationDb.Schedule | backend/server.ts:104-120 | If all three fields are truthy and the store works, one 'pending' row with a fresh id is appended and returned with 201. If a field is missing, the answer is 400 and nothing changes; if the store fails, 500 and nothing changes. The returned id was not in the table before |
| Server.NotificationDb.ClearBefore | backend/server.ts:124-140 | Without a cutoff the answer is 400 and the table is unchanged. Otherwise the table becomes the kept rows, and the reported count is the number deleted. Id order is preserved |
| Server.NotificationDb.SendImmediate | backend/server.ts:80-100 | A missing field gives 400 and no log row. Otherwise exactly one log row is appended: no notification id, 'sent', 'Message sent immediately' |
| Server.GetProfile | backend/server.ts:144-166 | An unknown id gives 404. A known id gives its fields under the front end's names. The avatar link is present iff a picture is stored. Notifications are reported on iff the number and the time list are both non-empty |
| Server.GetPicture | backend/server.ts:63-76 | Answers the stored bytes iff the profile exists and has a picture; otherwise 404, or 500 on a store failure |
| Server.Merge | backend/server.ts:186-192 | Each of the five fields is replaced only by a truthy value; arrays are truthy even when empty. The picture is untouched |
| Server.MergeIdempotent | backend/server.ts:186-192 | Sending the same update twice is sending it once. An update with nothing truthy in it changes nothing |
| Server.PutThenGet | backend/server.ts:144-198 | A GET after a PUT shows the new values and the same avatar. Notifications are then reported on iff the new time list is non-empty, whatever flag the client sent |
| Server.NewProfileView | src/models/UserProfile.ts:12-19 | A document holding only the schema defaults is reported with notifications off, no avatar and the five default times |
| Server.NewUserProfile | src/models/UserProfile.ts:12-19 | A new document has the given names, the five default times, no interests, an empty number and no picture |
| Server.ProfileDb.UpdateProfile | backend/server.ts:170-198 | An unknown id gives 404 and no change. Otherwise only that document is replaced by the merge, and the answer is 200 |
| Server.ProfileDb.UploadPicture | backend/server.ts:35-59 | Checks run in order: a user id (400), then a file (400), then the profile's existence (404). Only when all pass is that profile's picture replaced; every failure leaves all profiles unchanged |
| Server.UploadThenFetch | backend/server.ts:35-76 | After a successful upload, the picture route serves exactly the uploaded bytes and the profile route links to it |
| Reminders.CurrentTime | supabase/scripts/sendWhatsAppReminders.js:21-22 | The first five characters of the time string are exactly the zero-padded `HH:MM` of the local clock |
| Reminders.CurrentHour | supabase/scripts/sendWhatsAppReminders.js:22 | That text parses back to the clock's hour, as the pages read times |
| Reminders.Selected | supabase/scripts/sendWhatsAppReminders.js:25-29 | The selected rows are exactly the rows whose time list contains the current time and whose number is not null |
| Reminders.SelectionIgnoresOtherFields | supabase/scripts/sendWhatsAppReminders.js:25-29 | Rows that agree on time list and number are selected alike: `enable_notifications` is never consulted |
| Reminders.DueProfileIsSelected | supabase/scripts/sendWhatsAppReminders.js:22-29 | A profile listing the current minute, with any number, is selected, even with notifications switched off |
| Reminders.MessageFor | supabase/scripts/sendWhatsAppReminders.js:37-45 | Sender and recipient both carry the `whatsapp:` prefix, and the body is the fixed reminder text |
| Reminders.Attempts | supabase/scripts/sendWhatsAppReminders.js:36-50 | There is one attempt per selected user, in order, each with that user's message and the provider's answer to it |
| Reminders.AttemptsIgnoreOutcomes | supabase/scripts/sendWhatsAppReminders.js:40-49 | Failures are isolated: which messages are attempted does not depend on how the provider answers |
| Reminders.SendAll | supabase/scripts/sendWhatsAppReminders.js:36-50 | The loop produces exactly the attempt list |
| Reminders.RunScript | supabase/scripts/sendWhatsAppReminders.js:5-56 | Missing configuration ends the run before any query. A failed query ends it with no attempt. Otherwise the run makes exactly the attempts for the selected rows |
| TimeOfDay.Before | src/pages/ProfilePage.tsx:97 | The hours field is the longest prefix without a colon, and is followed by a colon when shorter than the text |
| TimeOfDay.MinutesField | src/pages/ProfilePage.tsx:97 | The minutes field is undefined when there is no colon, and never contains a colon |
| TimeOfDay.SplitJoin | src/pages/ProfilePage.tsx:97 | Splitting `hours + ':' + minutes` gives back both parts |
| TimeOfDay.ClockFields | src/pages/ProfilePage.tsx:96-99 | A zero-padded clock text splits into its padded hour and minute, and its hour parses to the hour |
| TimeOfDay.Hour24 | src/pages/ProfilePage.tsx:97 | `parseInt` of the hours field (also NotificationsPage.tsx:9): an empty field is NaN, and a field of digits alone is its decimal value, leading zeros included |
| TimeOfDay.MeridiemOf | src/pages/ProfilePage.tsx:98 | (also NotificationsPage.tsx:10) NaN is AM. On a real 24-hour value the meridiem with the 12-hour view converts back to that value |
| TimeOfDay.Hour12 | src/pages/ProfilePage.tsx:100-101 | The displayed 12-hour value is never 0, and lies in 1..12 for a real 24-hour value |
| TimeOfDay.Hour12Table | src/pages/ProfilePage.tsx:99-101 | 0 shows as 12, 1..12 as themselves and 13..23 as h-12. PM is shown iff h >= 12 |
| TimeOfDay.FormatProfile | src/pages/ProfilePage.tsx:96-103 | Before the first colon the display shows the 12-hour value of the parsed hour (12 for an unparsable one). It ends in PM exactly when the parsed hour is 12 or more |
| TimeOfDay.FormatNotifications | src/pages/NotificationsPage.tsx:7-14 | An unparsable hour shows as NaN, and any other as the same 12-hour value the profile page shows. It ends in PM exactly when the parsed hour is 12 or more |
| TimeOfDay.FormatClock | src/pages/ProfilePage.tsx:96-103 | On every clock text, the display is the 12-hour value, the two minute digits verbatim and AM/PM by noon. Both pages agree |
| TimeOfDay.FormatsAgree | src/pages/NotificationsPage.tsx:7-14 | The two pages' formatters agree whenever the hour parses |
| TimeOfDay.FormatsDifferOnNaN | src/pages/NotificationsPage.tsx:7-14 | On an unparsable hour the profile page shows "12:" and the notifications page "NaN:" |
| TimeOfDay.MinuteSelected | src/pages/NotificationsPage.tsx:196-201 | The minute select keeps the hours text verbatim and replaces only the minutes |
| TimeOfDay.To24 | src/pages/NotificationsPage.tsx:172-177 | A 12-hour value 1..12 converts into 0..23: below 12 with AM, 12 or more with PM |
| TimeOfDay.HourSelected | src/pages/NotificationsPage.tsx:170-181 | For a picked hour 1..12 the written hour field has two characters and parses to the picked hour converted with the row's meridiem. The minutes show as before |
| TimeOfDay.MeridiemSelected | src/pages/NotificationsPage.tsx:214-225 | When the row's 12-hour value is positive, the written hour field has two characters and parses to that value converted with the picked meridiem. The minutes show as before |
| TimeOfDay.To24RoundTrip | src/pages/ProfilePage.tsx:519-530 | A 12-hour value 1..12 with AM/PM converts to 0..23, and that displays as the same 12-hour value and meridiem |
| TimeOfDay.To24FromView | src/pages/ProfilePage.tsx:504-530 | Every 24-hour value is recovered from its own 12-hour view |
| TimeOfDay.WrittenText | src/pages/ProfilePage.tsx:527-528 | A written time has a two-character hour field that parses to the written hour, and shows the minutes as before |
| TimeOfDay.HourSelectRoundTrip | src/pages/NotificationsPage.tsx:170-181 | Picking an hour yields a two-digit hour in 0..23. The row then displays exactly the picked hour, with meridiem and minutes unchanged |
| TimeOfDay.MeridiemSelectRoundTrip | src/pages/NotificationsPage.tsx:214-225 | Picking AM/PM yields a two-digit hour in 0..23 shown with the picked meridiem. The 12-hour value and the minutes are kept |
| PhoneNumber.DigitsOf | src/pages/ProfilePage.tsx:156 | The cleaned number holds only digits, keeps every digit of the input and nothing else, and is the input itself when that is all digits |
| PhoneNumber.DigitsOfSnoc | src/pages/ProfilePage.tsx:156 | Appending a character appends it to the cleaned number exactly when it is a digit |
| PhoneNumber.IsValid | src/pages/ProfilePage.tsx:155-158 | A valid number has at least ten characters. A number of digits alone is valid iff it has 10 to 15 of them |
| PhoneNumber.SeparatedDigitsValid | src/pages/NotificationsPage.tsx:55-58 | Two digit runs joined by one separator clean to the joined runs, and are valid iff they hold 10 to 15 digits together |
| PhoneNumber.SeparatorsIgnored | src/pages/NotificationsPage.tsx:55-58 | Inserting a non-digit changes neither the digits nor validity |
| PhoneNumber.Format | src/pages/ProfilePage.tsx:160-162 | The formatted number holds exactly the digits and '+' characters of the input |
| PhoneNumber.FormatKeepsOrder | src/pages/ProfilePage.tsx:160-162 | Formatting a concatenation is concatenating the formatted parts, so order is kept |
| PhoneNumber.FormatIdempotent | src/pages/ProfilePage.tsx:160-162 | Formatting twice is formatting once |
| PhoneNumber.FormatKeepsValidity | src/pages/ProfilePage.tsx:160-167 | Formatting keeps every digit, so it never changes validity |
| TimeList.Added | src/pages/NotificationsPage.tsx:253-258 | Below ten entries, "09:00" is appended and the others are unchanged; at ten the list is unchanged |
| TimeList.Removed | src/pages/NotificationsPage.tsx:238-242 | With more than one entry, exactly the entry at the index goes and the others keep their order; a single entry stays |
| TimeList.EditsKeepBounds | src/pages/ProfilePage.tsx:587-607 | Between one and ten entries is preserved by both buttons |
| ProfilePage.PresetTimes | src/pages/ProfilePage.tsx:622-640 | Every preset holds between one and ten times |
| ProfilePage.SaveCheck | src/pages/ProfilePage.tsx:184-203 | Saving proceeds iff both trimmed names are non-empty and, with notifications on, the number is present and valid and a time exists. The name checks come first, in source order |
| ProfilePage.SavedProfileWellFormed | src/pages/ProfilePage.tsx:184-221 | Every record that passes the checks has trimmed non-empty names, and notifications on only with a valid number and a time |
| ProfilePage.ChangedAfterSave | src/pages/ProfilePage.tsx:84-94 | After a save, the unsaved-changes test fires again iff a name was typed with surrounding whitespace |
| ProfilePage.ProfileForm.constructor | src/pages/ProfilePage.tsx:23-34 | The page starts from the default profile with empty fields and times 06:00, 12:00, 18:00 |
| ProfilePage.ProfileForm.LoadUserProfile | src/pages/ProfilePage.tsx:42-65 | A stored profile is copied into state and every field; with none, nothing changes. A non-empty stored avatar becomes the preview |
| ProfilePage.ProfileForm.TrackChanges | src/pages/ProfilePage.tsx:84-94 | The indicator equals the comparison of every field with the profile |
| ProfilePage.ProfileForm.HandleSave | src/pages/ProfilePage.tsx:184-239 | A failed check changes nothing. A failed storage write sets the error status and keeps the profile; a record already written before a failed avatar write stays stored. Success stores the record with trimmed names and applies the avatar rule; it becomes the profile, and unsaved changes are cleared |
| ProfilePage.ProfileForm.Store | src/pages/ProfilePage.tsx:67-81 | 'user_profile' is written first. If that write fails, only the status changes. If the avatar write after it fails, the new record stays stored while the status is an error and the profile and avatar entry are kept. Otherwise both entries are written, the record becomes the profile and success is marked |
| ProfilePage.ProfileData | src/pages/ProfilePage.tsx:209-220 | The record keeps the profile's id, carries the names trimmed and the other form fields as given, the preview as avatar and the save time |
| ProfilePage.AvatarAfterSave | src/pages/ProfilePage.tsx:70-76 | A null preview leaves the avatar entry alone, a non-empty one is stored, an empty one removes the entry |
| ProfilePage.ProfileForm.Changed | src/pages/ProfilePage.tsx:84-94 | There are unsaved changes iff writing the form's six tracked fields into the profile would change it |
| ProfilePage.ProfileForm.HandleWhatsAppChange | src/pages/ProfilePage.tsx:164-167 | The field holds the formatted input |
| ProfilePage.ProfileForm.ToggleInterest | src/pages/ProfilePage.tsx:663-670 | Checking appends the id. Unchecking removes every copy and keeps the rest in order |
| ProfilePage.ProfileForm.SelectHour | src/pages/ProfilePage.tsx:519-530 | Only the chosen entry changes, to the hour-select text |
| ProfilePage.ProfileForm.SelectMinute | src/pages/ProfilePage.tsx:545-550 | Only the chosen entry changes, to the minute-select text |
| ProfilePage.ProfileForm.SelectMeridiem | src/pages/ProfilePage.tsx:563-574 | Only the chosen entry changes, to the AM/PM-select text |
| ProfilePage.ProfileForm.AddTime | src/pages/ProfilePage.tsx:602-607 | The time list becomes the bounded append |
| ProfilePage.ProfileForm.RemoveTime | src/pages/ProfilePage.tsx:587-591 | The time list becomes the bounded removal |
| ProfilePage.ProfileForm.ApplyPreset | src/pages/ProfilePage.tsx:622-640 | The time list becomes the preset |
| ProfilePage.ProfileForm.ClearAllData | src/pages/ProfilePage.tsx:271-289 | Without confirmation nothing changes. With it, both storage entries are removed and every field is reset: default times, notifications off |
| NotificationsPage.Set | src/pages/NotificationsPage.tsx:96-101 | Only the toggled key changes; the other two keep their values |
| NotificationsPage.SetLaws | src/pages/NotificationsPage.tsx:96-129 | Setting a key to its current value changes nothing; setting it twice keeps the second value |
| NotificationsPage.InitialTypes | src/pages/NotificationsPage.tsx:24-28 | Each key comes from the profile when present, else from the defaults true, false, false |
| NotificationsPage.ValidationMessageShown | src/pages/NotificationsPage.tsx:146-147 | The message shows iff notifications are on and the number is non-empty without 10 to 15 digits |
| NotificationsPage.ShortNumberShowsMessage | src/pages/NotificationsPage.tsx:55-58 | A non-empty number shorter than ten characters always shows the message; an empty one never does |
| NotificationsPage.NotificationSettings.constructor | src/pages/NotificationsPage.tsx:18-30 | Initial state comes from the profile: stored times or the five defaults, enable flag or off, and stored number or empty |
| NotificationsPage.NotificationSettings.HandleSave | src/pages/NotificationsPage.tsx:32-53 | Without any validation, the profile's row gets exactly the page's values; a failed update changes nothing |
| NotificationsPage.NotificationSettings.SetEnabled | src/pages/NotificationsPage.tsx:74 | The switch sets the flag |
| NotificationsPage.NotificationSettings.SetType | src/pages/NotificationsPage.tsx:96-129 | One checkbox changes only its own key |
| NotificationsPage.NotificationSettings.SetPhoneNumber | src/pages/NotificationsPage.tsx:142 | The field stores what was typed, unfiltered |
| NotificationsPage.NotificationSettings.SelectHour | src/pages/NotificationsPage.tsx:170-181 | Only the chosen entry changes, to the hour-select text |
| NotificationsPage.NotificationSettings.SelectMinute | src/pages/NotificationsPage.tsx:196-201 | Only the chosen entry changes, to the minute-select text |
| NotificationsPage.NotificationSettings.SelectMeridiem | src/pages/NotificationsPage.tsx:214-225 | Only the chosen entry changes, to the AM/PM-select text |
| NotificationsPage.NotificationSettings.AddTime | src/pages/NotificationsPage.tsx:253-258 | The time list becomes the bounded append |
| NotificationsPage.NotificationSettings.RemoveTime | src/pages/NotificationsPage.tsx:238-242 | The time list becomes the bounded removal |
| Challenge.StatusFor | src/pages/ChallengeDetailsPage.tsx:117 | 'completed' iff the new day exceeds the duration |
| Challenge.Progressed | src/pages/ChallengeDetailsPage.tsx:114-119 | The written status is 'completed' iff the new day is past the duration, with a completion time exactly then. The day and the task list are the new ones |
| Challenge.UpdateAll | src/pages/ChallengeDetailsPage.tsx:112-121 | Every matching row gets the written values, and there are as many rows as before |
| Challenge.ChallengeSession.constructor | src/pages/ChallengeDetailsPage.tsx:73-103 | With the challenge loaded, a signed-in user and exactly one progress row, the page resumes from that row's day and tasks; otherwise it starts at day 1 with no tasks. No badge is shown, the progress flag tracks whether a row exists, and resumable rows give a consistent page |
| Challenge.ChallengeSession.CompleteTask | src/pages/ChallengeDetailsPage.tsx:106-140 | With no challenge or a failed update, nothing changes. Otherwise the task is appended, the day grows by one and every row gets the new values. A badge is awarded and shown only when the new day passes the duration. Tasks stay one behind the day, and resumable rows stay resumable. One success is one AfterCompletion step |
| Challenge.ChallengeSession.StartChallenge | src/pages/ChallengeDetailsPage.tsx:194-219 | A successful insert appends an 'in_progress' day-1 row with no tasks, and the page goes to day 1 with no tasks. A failure changes nothing |
| Challenge.AfterCompletion | src/pages/ChallengeDetailsPage.tsx:106-133 | One successful completion: the day grows by one, the task is appended, every row holds the new day and tasks, and the badge is shown once the new day passes the duration |
| Challenge.ReplayFrom | src/pages/ChallengeDetailsPage.tsx:106-133 | After successive completions the day has grown once per task, the tasks are appended in order, the badge shows iff it did or the last day passed the duration, and every row holds the final day and tasks |
| Challenge.CompletionSchedule | src/pages/ChallengeDetailsPage.tsx:106-133 | After n completions from day 1 the day is n + 1 and the tasks are those completed. The badge shows and every row is 'completed' with a time exactly when n has reached the duration, and every row stays resumable |
| Challenge.TodayShown | src/pages/ChallengeDetailsPage.tsx:299 | Today's task shows exactly while the status a completion would write is still in progress |
| Challenge.StartShownAsWritten | src/pages/ChallengeDetailsPage.tsx:337 | As written, Start is never drawn on day 1 or later |
| Challenge.StartNeverShown | src/pages/ChallengeDetailsPage.tsx:337 | As written, Start never shows for a user with no row, and every completion then updates no row while the page advances and shows the badge (see Findings) |
| Challenge.StartOfferedUntilStarted | src/pages/ChallengeDetailsPage.tsx:337 | Corrected: after the start row is inserted, Start stays withdrawn through any completions, and the row holds the page's day and exactly the tasks completed |
| Challenge.TodayTask | src/pages/ChallengeDetailsPage.tsx:305 | The task is `daily_tasks[currentDay - 1]` when that index exists, else undefined |
| Challenge.TodayIsNextTask | src/pages/ChallengeDetailsPage.tsx:299-308 | With a task for every day, the shown task is the one after those completed |
| Challenge.CardNames | src/pages/ChallengeDetailsPage.tsx:21-52 | The map has an entry exactly for the six categories |
| Challenge.Href | src/pages/ChallengeDetailsPage.tsx:258 | A card gets a link, not '#', iff its category is one of six and its duration 30, 60 or 100. Every link lies under the cards folder |
| Challenge.IsSelected | src/pages/ChallengeDetailsPage.tsx:257 | A highlighted card's category is the chosen interest and a duration is chosen, non-empty, and all digits for a non-negative card duration |
| Challenge.HrefDefined | src/pages/ChallengeDetailsPage.tsx:258 | A link exists iff the category is one of six and the duration is 30, 60 or 100; otherwise it is '#'. A link names the category's folder and ends in the duration |
| Challenge.SelectedDurationUnique | src/pages/ChallengeDetailsPage.tsx:257 | At most one duration of a category is highlighted |
| Badges.SlugRoundTrip | src/pages/BadgesPage.tsx:73-77 | A slug has no spaces and turns back into the lower-cased topic. The '_' slug is the lower-cased underscore form |
| Badges.ChallengeBadge | src/pages/BadgesPage.tsx:72-79 | A generated badge is not earned, its id is `challenge-<category>-<duration>` and its name `<duration>-Day <topic> Challenge` |
| Badges.BadgeFields | src/pages/BadgesPage.tsx:72-79 | The id is `challenge-<category>-<duration>`, the category reads back as the lower-cased topic, the image path has the stated form, and the badge is unearned |
| Badges.ForTopic | src/pages/BadgesPage.tsx:71-80 | One badge per duration, in order |
| Badges.GeneratedLength | src/pages/BadgesPage.tsx:69-81 | Topics times durations badges |
| Badges.GeneratedIndex | src/pages/BadgesPage.tsx:69-81 | Topic-major order: topic t, duration d sits at position t * |durations| + d |
| Badges.GenerateChallengeBadges | src/pages/BadgesPage.tsx:69-81 | The nested loops push exactly the generated list |
| Badges.IdLetter | src/pages/BadgesPage.tsx:73 | The id's first character after the prefix is the topic's lower-cased first letter |
| Badges.SameTopicIds | src/pages/BadgesPage.tsx:73 | One topic with two durations gives two ids |
| Badges.PairIdsDistinct | src/pages/BadgesPage.tsx:73 | Different topic/duration pairs give different ids |
| Badges.GeneratedIdsDistinct | src/pages/BadgesPage.tsx:69-81 | The generated ids are pairwise distinct |
| Badges.PageListsDistinct | src/pages/BadgesPage.tsx:59-67 | The six topics have distinct first letters and the durations differ |
| Badges.ChallengeIdsDistinct | src/pages/BadgesPage.tsx:59-81 | The page generates 18 badges with pairwise distinct ids |
| Badges.EarnedAt | src/pages/BadgesPage.tsx:85 | The date comes from the first user badge with that id, when truthy; otherwise null |
| Badges.Combine | src/pages/BadgesPage.tsx:83-86 | Stored then generated badges, same length and order, each carrying its earned date |
| Badges.SplitIsPartition | src/pages/BadgesPage.tsx:100-101 | Earned and available partition the list (lengths and multisets) by truthiness of the date |
| Badges.Earned | src/pages/BadgesPage.tsx:100 | A badge is in the earned list iff it is in the list with a truthy date |
| Badges.Available | src/pages/BadgesPage.tsx:101 | A badge is in the available list iff it is in the list without a truthy date |
| Badges.EarnedIffRecorded | src/pages/BadgesPage.tsx:83-101 | A combined badge is earned iff the first matching user badge has a date |
| Badges.BadgeList.FetchBadges | src/pages/BadgesPage.tsx:39-94 | When both queries succeed, the list is the combined list: the stored badges, then the 18 generated ones. An error leaves the list unchanged. Loading ends either way |
| Quotes.NameInjective | src/data/quotes.ts:739-742 | Category names are distinct and none is "all" |
| Quotes.Catalogue | src/data/quotes.ts:3-733 | 120 entries |
| Quotes.CatalogueIds | src/data/quotes.ts:3-733 | Ids run "1".."120", each once, and no entry is a favourite |
| Quotes.ByCategory | src/data/quotes.ts:739-742 | "all" gives the catalogue. Any other name gives exactly the entries of that category |
| Quotes.DailyQuote | src/data/quotes.ts:744-749 | From year 0 on, the quote is at seed mod 120. There is none exactly when a negative seed leaves a non-zero remainder |
| Quotes.NextDayNextQuote | src/data/quotes.ts:744-749 | The next day of a month picks the next entry, wrapping at the end |
| Quotes.NegativeYearHasNoQuote | src/data/quotes.ts:744-749 | 1 January of year -1 indexes -59 and reads no quote |
| QuoteContext.FilteredQuotes | src/context/QuoteContext.tsx:33-35 | 'all' gives every quote; a category gives exactly its quotes |
| QuoteContext.Marked | src/context/QuoteContext.tsx:44-46 | Only entries with the id get the flag; length and all else are kept |
| QuoteContext.AddFavorite | src/context/QuoteContext.tsx:38-53 | An unknown id or an existing favourite changes nothing. Otherwise exactly one entry is appended: the first catalogue quote with that id, flagged. The catalogue and the daily quote are flagged |
| QuoteContext.RemoveFavorite | src/context/QuoteContext.tsx:55-68 | No favourite with the id remains and the others stay; the flag is cleared in the catalogue and the daily quote |
| QuoteContext.AddIdempotent | src/context/QuoteContext.tsx:38-53 | Adding twice is adding once |
| QuoteContext.AddKeepsIdsUnique | src/context/QuoteContext.tsx:38-53 | Adding keeps the favourites free of duplicate ids |
| QuoteContext.FilterKeepsIdsUnique | src/context/QuoteContext.tsx:57 | A filter keeps ids unique |
| QuoteContext.RemoveKeepsIdsUnique | src/context/QuoteContext.tsx:55-68 | Removing keeps the favourites free of duplicate ids |
| QuoteContext.AddThenRemove | src/context/QuoteContext.tsx:38-68 | Adding a new favourite then removing it restores the favourites |
| QuoteContext.AddKeepsFlagsBacked | src/context/QuoteContext.tsx:38-53 | Every flagged quote stays in the favourites after an add |
| QuoteContext.RemoveKeepsFlagsBacked | src/context/QuoteContext.tsx:55-68 | Every flagged quote stays in the favourites after a remove |
| QuoteContext.MarkingKeepsView | src/context/QuoteContext.tsx:33-46 | Flags never change a category view's ids, length or order |
| QuoteContext.QuoteStore.constructor | src/context/QuoteContext.tsx:19-25 | On a given day the store starts with that day's quote, the whole catalogue, the saved favourites and 'all' |
| QuoteContext.QuoteStore.Filtered | src/context/QuoteContext.tsx:33-35 | With 'all' the view is the whole list |
| QuoteContext.QuoteStore.AddToFavorites | src/context/QuoteContext.tsx:38-53 | The new state is the add |
| QuoteContext.QuoteStore.RemoveFromFavorites | src/context/QuoteContext.tsx:55-68 | The new state is the removal |
| QuoteContext.QuoteStore.SetCategory | src/context/QuoteContext.tsx:71-73 | The selection is set |
| Goals.Toggled | src/components/GoalTracker.tsx:39-45 | Only goals with the id flip `completed`; length, order and all other fields are kept |
| Goals.ToggleTwice | src/components/GoalTracker.tsx:39-45 | Toggling twice restores the list |
| Goals.Deleted | src/components/GoalTracker.tsx:47-49 | No goal with the id remains; every other goal does |
| Goals.DeleteAfterToggle | src/components/GoalTracker.tsx:39-49 | Deleting after toggling is deleting |
| Goals.CompletedCount | src/components/GoalTracker.tsx:52 | Completed <= total. It is 0 iff no goal is completed, and the total when every goal is |
| Goals.CompletedCountSnoc | src/components/GoalTracker.tsx:52 | Appending a goal raises the completed count by one exactly when that goal is completed |
| Goals.Percentage | src/components/GoalTracker.tsx:52-56 | 0 with no goals; otherwise the integer nearest 100c/t (halves up), in 0..100 |
| Goals.PercentageEnds | src/components/GoalTracker.tsx:52-56 | 100 iff at least 199 in 200 are done; 0 iff fewer than 1 in 200 |
| Goals.AddKeepsCompletedCount | src/components/GoalTracker.tsx:25-33 | A new goal never changes the completed count |
| Goals.GoalTracker.constructor | src/components/GoalTracker.tsx:6-13 | Saved goals, empty fields, closed form |
| Goals.GoalTracker.OpenForm | src/components/GoalTracker.tsx:64 | The form opens |
| Goals.GoalTracker.SetTitle | src/components/GoalTracker.tsx:105 | The title field holds what was typed |
| Goals.GoalTracker.SetDescription | src/components/GoalTracker.tsx:118 | The description field holds what was typed |
| Goals.GoalTracker.HandleAddGoal | src/components/GoalTracker.tsx:20-37 | A title that trims to nothing changes nothing. Otherwise one uncompleted goal with the untrimmed title is appended, earlier goals are kept, the fields are cleared and the form closes |
| Goals.GoalTracker.ToggleGoalCompletion | src/components/GoalTracker.tsx:39-45 | The list becomes the toggle |
| Goals.GoalTracker.DeleteGoal | src/components/GoalTracker.tsx:47-49 | The list becomes the deletion |
| Goals.GoalTracker.CompletionPercentage | src/components/GoalTracker.tsx:52-56 | The shown percentage is at most 100 |

## Left out

- PostgreSQL, MongoDB, Supabase, Twilio, multer, `localStorage` and `FileReader` are outside the model. The tables are in-memory sequences and maps, store failures are a boolean parameter, and delivery is an oracle.
- Timestamps are integers, and ISO dates and `Date.now()` ids are parameters. Malformed timestamps and ids that do not parse as MongoDB object ids (a thrown cast error, which is a 500) are not modelled separately.
- A query returns rows in table order. `process.exit(1)` is the outcome `MissingConfiguration`.
- `tests/apiEndpoints.test.ts` expects 200 for a clear without `beforeDate`. The code answers 400, and the model follows the code.
- The 30-second auto-save, `setTimeout` status resets, toasts, alerts and the loading flags (`isLoading`, `loading`) are not modelled. Handlers run as single sequential steps.
- Avatar upload and removal (`FileReader`) and the test WhatsApp message of the profile page are not modelled. The preview URL is a field that the save reads.
- `getRandomQuote` uses `Math.random` and is not modelled.
- The text and author of each quote are not modelled, because no modelled operation reads them.
- The category whitelist of the explore page is not modelled.
- The challenge query of `fetchChallengeDetails` and `fetchAllChallenges` is not modelled: the loaded challenge (or none) is a parameter of the page. The progress query is modelled; a `null` task column, which the page reads as no tasks, has no counterpart because the row's task list is a sequence. The awarded badge's lookup is the parameter `badgeFound`. Badge download is not modelled.
- ProfilePage.ProfileForm.Store: removing 'user_avatar' is taken never to fail; only the two `setItem` writes can.
- QuoteContext.QuoteStore.constructor requires a date whose quote of the day exists (every date from year 0 on). Before year 0 the provider would hold `undefined`, which the store's quote field cannot represent.
- Progress-bar widths are floating point and are not modelled.
- Goals.Percentage rounds the exact ratio 100c/t half up. JavaScript computes `c / t * 100` in floating point, which can fall just below an exact half (for example 57 of 200) and then round down.
- ProfilePage.ProfileForm.HandleSave does not itself state that the saved record is well formed. SavedProfileWellFormed states that of every record that passes the checks.
- The badge image folders (`Health_and_Wellness_Cards`, ...) differ from the folders of the challenge card map (`Health_and_Wealthness_Cards`, ...). Both are modelled as written, and the model does not claim either one is intended.

## Findings

| source | as written | input that shows it | evidently intended | confidence | as-written member | corrected member |
|---|---|---|---|---|---|---|
| src/pages/ChallengeDetailsPage.tsx:337 | The Start button is drawn when `!currentDay`, but `currentDay` starts at 1 and only grows | A signed-in user with no `user_challenges` row opens a challenge: the day is 1, Start is hidden, and each "complete" updates no row | Start is offered while the user has no progress row | medium, not executed | Challenge.StartNeverShown | Challenge.StartOfferedUntilStarted |
