# Valentine's Week storage and navigation, in Dafny

This project models the core of the Valentine's Week 2026 website. It covers
the storage layer (`js/github-api.js`) and the parts of `js/utils.js`,
`js/main.js` and `js/config.js` that the storage layer and the day navigation
depend on.

The site keeps two kinds of JSON document:

- one **day document** per day key: `day`, `messages`, `createdAt`,
  `completedAt`, `lastUpdated`;
- one shared **progress document**: `daysUnlocked`, `daysCompleted`,
  `startedAt`, `lastUpdated`.

Two backends store these documents:

- **`GitHubStorage`** keeps them as files in a remote repository. Each file
  has a revision token (`sha`).
- **`LocalStorage`** keeps them in the browser's key-value store.

On top of the documents sit read-modify-write helpers (`addMessage`,
`deleteMessage`, `updateProgress`, `completeDay`). There is also a
create-on-missing read (`readDayData`) and two display reads (`getMessages`,
`getProgress`).

The app chooses a backend once. It shows the first day that is unlocked, and
its navigation refuses days that are still locked.

Modules, in dependency order:

- `Strings` (strings.dfy): `includes`.
- `Documents` (documents.dfy): the documents, the errors, and the changes the
  helpers make to a loaded document.
- `Remote` (remote.dfy): the repository content API, as a map from path to
  (document, revision token) plus a per-request fault script.
- `RemoteSpec` (remote_spec.dfy): each remote operation as a function of the
  remote state.
- `RemoteProperties` (remote_props.dfy): properties of those functions.
- `GitHubApi` (github.dfy): the `GitHubStorage` class.
- `Browser` (browser.dfy): the browser store.
- `Config` (config.dfy): the constants, the testing flag and its shortcut.
- `Utils` (utils.dfy): the helpers of `Utils`.
- `LocalStore` (local.dfy): the `LocalStorage` class and its properties.
- `App` (main.dfy): `ValentineWeekApp`.

How the classes are specified:

- Each method of `GitHubStorage` states its result and the repository's new
  state as a function of `RemoteSpec`, applied to the state before the call.
- Each method of `LocalStorage` does the same with a function over the
  store's items.
- The lemmas about those functions are the properties the backends promise.

Modelling choices:

- **Clocks and ids.** `new Date().toISOString()` and `Date.now()` become
  parameters. One timestamp is used for each call.
- **The network.**
  - The remote repository holds a script of request fates: delivered,
    refused with a status text, or unreachable.
  - Each HTTP request uses up one entry of the script. An empty script means
    every request is delivered.
  - The service's rule for revision tokens is an explicit assumption about
    the service, stated in `Remote.Accepts`, not code of this program. An
    overwrite needs the current token; a creation needs none.
- **Errors** are told apart by message text, as the code does. A "not found"
  error is one whose text includes `not found`.
- **`ShapeError`.** A stored value without the field a helper uses (for
  instance a stored `null`) raises a JavaScript `TypeError`. The model
  represents that as `ShapeError`.

When there is no progress document, the remote `completeDay` does not list
the day as completed: `updateProgress` reads the progress file, gets "not found", and rethrows. The
day document has by then already been stamped as completed
(`RemoteProperties.CompleteDayWithoutProgress`).

The code as written has a notable consequence in `initialize` (a quirk the
model keeps):

- `initialize` treats any failed read of `data/progress.json` as "absent".
- `writeFile` then forwards no revision token when its own read failed.
- So a transient failure of the first read, followed by a successful second
  read, overwrites an existing progress document with an empty one.
- `RemoteProperties.InitializeResetsProgress` exhibits this.
- `RemoteSpec.InitializeOnlyWhenAbsent` is the variant that seeds only after
  a 404, shown for contrast. `RemoteProperties.InitializeNeverOverwrites`
  proves that it never overwrites.

## Model

| member | source | states |
|---|---|---|
| Strings.Contains | js/github-api.js:10 | `includes`: a text can include only a text no longer than itself, and every text includes the empty text |
| Strings.ContainsInside | js/github-api.js:10 | `includes` finds a text wherever it stands in a longer one (what makes the shipped token a placeholder) |
| Strings.ContainsAt | js/github-api.js:10 | a text holding `t` at some position includes `t` |
| Strings.NotContainsWithoutFirst | js/github-api.js:154 | a text that never holds the first character of `t` where `t` would fit does not include `t` (how "Failed to fetch" is told from "not found") |
| Documents.IsNotFound | js/github-api.js:63-66 | the 404 error's message includes "not found", so `readDayData` treats it as absent; a rejected `fetch` ("Failed to fetch") does not, so `readDayData` rethrows it |
| Documents.AppendMessage | js/github-api.js:185-186 | the new message list is the old list followed by exactly the new message; day, createdAt and completedAt are unchanged; lastUpdated is the call's time |
| Documents.WithoutId | js/github-api.js:211 | the filtered list is no longer than the original, and every kept message was in it and has a different id |
| Documents.WithoutIdCounts | js/github-api.js:211 | every message with the id is dropped; every other message is kept as many times as it occurred |
| Documents.WithoutIdKeepsOrder | js/github-api.js:211 | the kept messages stay in their original order |
| Documents.SubsequenceOfTail | js/github-api.js:211 | a subsequence of a list's tail is a subsequence of the list |
| Documents.SubsequenceDropFirst | js/github-api.js:211 | dropping the first element of a subsequence leaves a subsequence |
| Documents.WithoutAbsentId | js/github-api.js:211 | deleting an id that no message carries leaves the list unchanged |
| Documents.WithoutIdIdempotent | js/github-api.js:211 | deleting the same id twice is the same as deleting it once |
| Documents.DeleteById | js/github-api.js:210-213 | the document keeps only messages that were there with a different id; lastUpdated is the call's time; nothing else moves |
| Documents.MarkComplete | js/github-api.js:223-224 | completedAt is the call's time; the messages and every other field are unchanged |
| Documents.AddOnce | js/github-api.js:130-136 | the key ends up in the list; the list only grows, by the key alone, at the end; a present key adds nothing; no duplicates are introduced |
| Documents.PresentOnce | js/github-api.js:134-136 | a key present in a list without duplicates occurs exactly once |
| Documents.AbsentNone | js/github-api.js:134-136 | an absent key occurs zero times |
| Documents.ApplyStatus | js/github-api.js:130-138 | 'unlocked' adds the day to daysUnlocked only; 'completed' adds it to daysCompleted only; any other status changes only lastUpdated; the lists' members are exactly the old members plus the day; startedAt is kept |
| Documents.ApplyStatusKeepsValid | js/github-api.js:130-136 | a progress document without duplicate days keeps that property |
| Documents.ApplyStatusIdempotent | js/github-api.js:130-138 | repeating the same status update adds nothing more; only the timestamp moves |
| Documents.CompletedTwiceListedOnce | js/github-api.js:134-136 | completing a day twice lists it exactly once in daysCompleted |
| Remote.HandleGet | js/github-api.js:55-75 | a GET yields the stored file exactly when it is delivered and the path exists; a 404 exactly when it is delivered and the path is absent; one request is used up |
| Remote.HandlePut | js/github-api.js:107-120 | a PUT succeeds exactly when it is delivered and the service accepts the token; success stores the document as a new revision, and a refusal leaves every file as it was |
| Remote.Repository.Get | js/github-api.js:55-75 | the repository's answer to a GET and its new state are those of `HandleGet` |
| Remote.Repository.Put | js/github-api.js:107-120 | the repository's answer to a PUT and its new state are those of `HandlePut` |
| RemoteSpec.DayPathInjective | js/github-api.js:151 | different day keys map to different files |
| RemoteSpec.DayPathIsNotProgressPath | js/github-api.js:128 | no day file is the progress file |
| RemoteProperties.NotReadyFailsFast | js/github-api.js:19-23 | without a usable token, every operation stops before any request: readFile, writeFile and the mutating helpers fail with "GitHub not configured"; initialize returns false; the display reads give their defaults; the remote state is untouched |
| RemoteProperties.WriteFileOutcome | js/github-api.js:79-123 | writeFile forwards a token iff its own read was delivered and found the file, and then the current one; the write succeeds iff the PUT is delivered and either the file is absent or the read got through; a success stores a new revision, a failure stores nothing |
| RemoteProperties.NoBlindOverwrite | js/github-api.js:84-105 | after a failed read, a write to an existing file reaches the service without a token and is refused with the server's message, and the file is kept |
| RemoteProperties.ReadDayDataExisting | js/github-api.js:149-152 | reading a stored day returns its stored value and writes nothing |
| RemoteProperties.ReadDayDataCreates | js/github-api.js:153-163 | on "not found", the empty day document is persisted and returned |
| RemoteProperties.ReadDayDataRethrows | js/github-api.js:165 | any other read error is rethrown unchanged, and nothing is written |
| RemoteProperties.ReadDayDataNetworkFailure | js/github-api.js:165 | a network failure is one of the rethrown errors |
| RemoteProperties.ReadDayDataStored | js/github-api.js:149-167 | whatever readDayData returns is what the repository then holds for the day, and no other file changes |
| RemoteProperties.ReadDayDataReread | js/github-api.js:149-167 | reading the day again straight after gives the same document |
| RemoteProperties.AddMessageAppends | js/github-api.js:175-194 | a successful addMessage writes back the loaded document with exactly the returned message appended, and touches no other file |
| RemoteProperties.AddMessageReliable | js/github-api.js:175-194 | over a reliable link addMessage succeeds, and the stored messages become the old ones followed by the new message |
| RemoteProperties.AddStep | js/github-api.js:175-194 | one awaited addMessage over a reliable link leaves a well-formed day whose messages gained exactly the new one at the end |
| RemoteProperties.SequentialAddsKeepCallOrder | js/github-api.js:175-194 | awaited addMessage calls leave one new message per call, in call order, after the messages already stored |
| RemoteProperties.DeleteMessageFilters | js/github-api.js:208-218 | deleteMessage writes back exactly the messages whose id differs |
| RemoteProperties.DeleteAbsentIdKeepsMessages | js/github-api.js:208-218 | deleting an id that is not present leaves the messages unchanged |
| RemoteProperties.UpdateProgressReliable | js/github-api.js:126-146 | updateProgress writes back and returns the set-add of the status |
| RemoteProperties.UpdateProgressNeedsDocument | js/github-api.js:126-146 | a missing progress document is not created: updateProgress rethrows "not found" |
| RemoteProperties.CompletedTwiceOnRemote | js/github-api.js:126-146 | two completions of a day list it once and leave daysUnlocked unchanged |
| RemoteProperties.CompleteDayReliable | js/github-api.js:221-231 | completeDay stamps completedAt, keeps the messages, adds the day to daysCompleted, leaves daysUnlocked unchanged, and touches no other file |
| RemoteProperties.CompleteDayWithoutProgress | js/github-api.js:221-231 | with no progress document, the error from updateProgress propagates, after the day was already stamped |
| RemoteProperties.InitializeReliable | js/github-api.js:19-46 | over a reliable link initialize succeeds and leaves a progress document: the stored one, or an empty one if there was none |
| RemoteProperties.InitializeResetsProgress | js/github-api.js:25-43 | as written, a transient read failure followed by a successful read replaces an existing progress document with an empty one |
| RemoteProperties.InitializeNeverOverwrites | js/github-api.js:25-43 | seeding only after a 404 never changes an existing progress document |
| RemoteProperties.InitializeOnlyWhenAbsentAgrees | js/github-api.js:19-46 | where no request fails, the 404-only variant behaves exactly as the code as written |
| RemoteProperties.GetProgressFallsBack | js/github-api.js:234-247 | a failed read never reaches getProgress's caller: it gets an empty progress document and nothing is written |
| RemoteProperties.GetMessagesResult | js/github-api.js:197-205 | getMessages returns the loaded messages, or [] on any error; over a reliable link, the stored messages |
| RemoteProperties.RoseScenario | js/github-api.js:149-205 | on an empty repository: reading a day creates it, one message is added, and reading back gives just that message |
| RemoteProperties.UnreachableProgress | js/github-api.js:234-247 | with the service unreachable, getProgress gives the empty document |
| GitHubApi.GitHubStorage.constructor | js/github-api.js:4-11 | isConfigured holds iff the token does not include 'YOUR_' |
| GitHubApi.GitHubStorage.IsReady | js/github-api.js:14-16 | ready iff the token does not include 'YOUR_' |
| GitHubApi.GitHubStorage.ReadFile | js/github-api.js:49-76 | result and new remote state are those of `RemoteSpec.ReadFile` |
| GitHubApi.GitHubStorage.WriteFile | js/github-api.js:79-123 | result and new remote state are those of `RemoteSpec.WriteFile` |
| GitHubApi.GitHubStorage.Initialize | js/github-api.js:19-46 | result and new remote state are those of `RemoteSpec.Initialize` |
| GitHubApi.GitHubStorage.UpdateProgress | js/github-api.js:126-146 | result and new remote state are those of `RemoteSpec.UpdateProgress` |
| GitHubApi.GitHubStorage.ReadDayData | js/github-api.js:149-167 | result and new remote state are those of `RemoteSpec.ReadDayData` |
| GitHubApi.GitHubStorage.WriteDayData | js/github-api.js:170-172 | result and new remote state are those of `RemoteSpec.WriteDayData` |
| GitHubApi.GitHubStorage.AddMessage | js/github-api.js:175-194 | result and new remote state are those of `RemoteSpec.AddMessage` |
| GitHubApi.GitHubStorage.GetMessages | js/github-api.js:197-205 | result and new remote state are those of `RemoteSpec.GetMessages` |
| GitHubApi.GitHubStorage.DeleteMessage | js/github-api.js:208-218 | result and new remote state are those of `RemoteSpec.DeleteMessage` |
| GitHubApi.GitHubStorage.CompleteDay | js/github-api.js:221-231 | result and new remote state are those of `RemoteSpec.CompleteDay` |
| GitHubApi.GitHubStorage.GetProgress | js/github-api.js:234-247 | result and new remote state are those of `RemoteSpec.GetProgress` |
| Config.ShippedTokenIsPlaceholder | js/config.js:6 | the shipped token includes 'YOUR_' |
| Config.DayOrderDistinct | js/config.js:20 | dayOrder lists eight distinct keys |
| Config.February2026 | js/config.js:10-17 | a February 2026 date lies 20484 days plus its day of the month after 1970-01-01 |
| Config.DateOfDay | js/config.js:9-20 | day i of dayOrder has the configured date 2026-02-(7+i) |
| Config.DatesConsecutive | js/config.js:9-20 | every key k of dayOrder has a date `dates[k + 'Day']`, and day i falls on 2026-02-07 plus i days |
| Config.Settings.constructor | js/config.js:19 | testing starts false |
| Config.Settings.LoadTestingMode | js/config.js:24-31 | testing becomes true if the query parameter or the stored valentineTest is 'true', and is otherwise left as it was (never set false) |
| Config.ShiftedKeyMissesCombo | js/config.js:39 | with Control and Shift held, the letter arrives as 'V', which the test as written misses and the corrected test accepts |
| Config.ToggleComboAsWritten | js/config.js:39 | the test as written needs Shift held and yet a key other than 'V' |
| Config.ToggleCombo | js/config.js:38-39 | the shortcut needs Control and Shift held, and with both held it fires for the letter in either case |
| Config.ComboExtendsAsWritten | js/config.js:39 | the corrected test fires whenever the one as written does |
| Config.KeyWatcher.constructor | js/config.js:34 | no key is recorded as held |
| Config.KeyWatcher.KeyDown | js/config.js:35-44 | records the key as held; on Ctrl+Shift+V negates testing and stores the new value under valentineTest unless the store refuses; otherwise changes nothing else |
| Config.KeyWatcher.KeyUp | js/config.js:46-48 | records the key as released |
| Utils.GetFromLocalStorage | js/utils.js:144-152 | the parsed stored value when there is one; the default when the key is missing or its text does not parse |
| Utils.SaveToLocalStorage | js/utils.js:155-163 | returns true and stores the value, or returns false and changes nothing |
| Utils.SaveThenGet | js/utils.js:144-163 | a successful save reads back as saved; other keys are untouched; a refused save changes nothing |
| Utils.IsDayUnlockedAsWritten | js/utils.js:5-16 | as written, the test on local date `today` answers as the intended test does on `today` at or east of UTC and on the next day west of UTC |
| Utils.IsDayUnlocked | js/utils.js:5-16 | always true in testing mode; otherwise true iff the key has a configured date and today is on or after it |
| Utils.RoseOpensEarlyWestOfUtc | js/utils.js:8-15 | west of UTC, Rose Day opens as written on the local 6 February, one day before its date |
| Utils.AsWrittenAgreesEastOfUtc | js/utils.js:5-16 | at or east of UTC, the test as written is the intended one |
| Utils.AsWrittenOneDayEarlyWestOfUtc | js/utils.js:5-16 | west of UTC, the test as written opens every day exactly one day early |
| Utils.UnlockPersists | js/utils.js:5-16 | an open day stays open as the date advances |
| Utils.UnlocksInOrder | js/utils.js:5-16 | when a day is open, every earlier day of the order is open too |
| Utils.UnlockedIffDateReached | js/utils.js:5-16 | outside testing, day i of the order is open iff 2026-02-07 plus i days has come |
| Utils.DaysInOrder | js/utils.js:19-21 | eight distinct keys, each with a configured date |
| Utils.DayName | js/utils.js:56-68 | each of the eight keys gets its fixed, longer display name; any other key is shown as itself |
| Utils.DayEmoji | js/utils.js:71-83 | each of the eight keys gets its fixed emoji, never the fallback; any other key gets the fallback |
| Utils.TimeAgo | js/utils.js:175-186 | with s whole seconds: "just now" iff s < 60; n minutes with 1 <= n < 60 and n minutes <= s < n+1 minutes; the same for hours below a day and days below a week; a locale date iff s >= 604800 |
| Utils.TimeAgoBucketRanges | js/utils.js:180-185 | the minutes bucket is exactly [60, 3600), the hours bucket [3600, 86400), the days bucket [86400, 604800) |
| LocalStore.InitializeSeedsOnlyWhenMissing | js/github-api.js:252-263 | initialize always reports true; it never replaces a stored progress record, and seeds an empty one when none is stored and the store accepts it |
| LocalStore.InitializeIdempotent | js/github-api.js:252-263 | once the seed is saved, a second initialize changes nothing |
| LocalStore.MissingDayReadsEmpty | js/github-api.js:269-277 | a missing day reads as a fresh empty document that is not stored, with no messages |
| LocalStore.AddMessageAppendsLocally | js/github-api.js:283-294 | the message is returned, and the day's messages become the old ones followed by it |
| LocalStore.AddMessageSilentlyLost | js/github-api.js:279-294 | when the store refuses writes, addMessage still returns the message, and nothing is stored |
| LocalStore.DeleteMessageFiltersLocally | js/github-api.js:301-306 | the stored messages become exactly the old ones without the id (every other message kept, in its old order) |
| LocalStore.DeleteAbsentIdKeepsMessagesLocally | js/github-api.js:301-306 | deleting an id that no message carries keeps every message |
| LocalStore.UpdateProgressNeedsRecord | js/github-api.js:308-319 | without a progress record, updateProgress throws and stores nothing |
| LocalStore.CompleteTwiceListedOnce | js/github-api.js:308-319 | two completions of a day list it once, with no duplicates |
| LocalStore.CompleteDayLocally | js/github-api.js:325-330 | completeDay on one of the eight days stamps the day, keeps its messages, lists it as completed and leaves daysUnlocked as it was |
| LocalStore.DayKeysAvoidProgress | js/github-api.js:270 | no key of the eight days is the progress key |
| LocalStore.ProgressDayCollides | js/github-api.js:253 | the key space is shared: a day named 'progress' would be stored over the progress record |
| LocalStore.LocalStorage.constructor | js/github-api.js:251 | the backend works on the given store |
| LocalStore.LocalStorage.IsReady | js/github-api.js:265-267 | the local backend is always ready |
| LocalStore.LocalStorage.Initialize | js/github-api.js:252-263 | result and new items are those of `InitializeOn` |
| LocalStore.LocalStorage.ReadDayData | js/github-api.js:269-277 | the value of `ReadDayDataOn` on the current items |
| LocalStore.LocalStorage.WriteDayData | js/github-api.js:279-281 | the day's key holds the data unless the store refuses; the refusal is ignored |
| LocalStore.LocalStorage.AddMessage | js/github-api.js:283-294 | result and new items are those of `AddMessageOn` |
| LocalStore.LocalStorage.GetMessages | js/github-api.js:296-299 | the value of `GetMessagesOn` on the current items |
| LocalStore.LocalStorage.DeleteMessage | js/github-api.js:301-306 | result and new items are those of `DeleteMessageOn` |
| LocalStore.LocalStorage.UpdateProgress | js/github-api.js:308-319 | result and new items are those of `UpdateProgressOn` |
| LocalStore.LocalStorage.GetProgress | js/github-api.js:321-323 | null when no progress record is stored, otherwise the stored value |
| LocalStore.LocalStorage.CompleteDay | js/github-api.js:325-330 | result and new items are those of `CompleteDayOn` |
| App.ValentineWeekApp.constructor | js/main.js:3-18 | the remote backend is chosen iff its token is usable, otherwise a local backend on the browser store; no day is current; every day's controller starts uninitialized |
| App.ValentineWeekApp.AuthStatus | js/main.js:47-56 | "GitHub Synced" iff the backend is the remote one and it is ready, otherwise "Local Storage" |
| App.ValentineWeekApp.ShowLockedDay | js/main.js:149-164 | shows the locked view for the day and changes nothing else |
| App.ValentineWeekApp.ShowDay | js/main.js:111-147 | a locked day shows the locked view and leaves currentDay and the controllers unchanged; an open day is shown and made current; its controller runs init only while uninitialized and is marked only after init completes; a failed init leaves currentDay unchanged; every other controller is untouched |
| App.ValentineWeekApp.ShowFirstUnlockedDay | js/main.js:97-109 | shows the first open day of the order; it is made current exactly when its controller was already initialized or its init succeeds, which marks it initialized once; every other controller is untouched; when no day is open, shows the first day's locked view and changes nothing else |
| App.ValentineWeekApp.HandleNavClick | js/main.js:70-82 | a toast iff the day is locked, and then nothing changes; otherwise the day is shown and made current as by showDay, its controller initialized once, and every other controller untouched |
| App.FirstUnlockedUnique | js/main.js:100-105 | there is at most one first open day |
| App.FirstUnlockedByDate | js/main.js:97-109 | outside testing nothing is open before 2026-02-07, and from that date on Rose Day is the first open day |
| App.FirstUnlockedAsWritten | js/main.js:97-109 | with the unlock test as written, the open days on a local date are this model's open days on that date at or east of UTC and on the next date west of UTC; west of UTC Rose Day is first open from 2026-02-06 |
| App.TestingOpensRose | js/main.js:97-109 | in testing mode the first open day is Rose Day |
| App.ShippedConfigStoresLocally | js/main.js:10-18 | with the shipped configuration the token is unusable, so the local backend is chosen |

## Left out

- HTTP and encoding are not modelled: `fetch`, headers, base64, and JSON
  parsing and printing. A stored file is a parsed `Value`. Text that does
  not parse is `Browser.Item.Unparsable`.
- GitHubApi.GitHubStorage.WriteFile: does not model that `btoa` (js/github-api.js:95)
  throws on any character above U+00FF. In the code, a remote write of a
  document holding such a character (a message with an emoji, say) throws
  before the PUT is sent and changes nothing; in the model the PUT is sent.
- Browser.AfterSave: the store either takes every write or refuses every
  write (the `full` flag). A real quota refusal depends on the size of the
  value, so the code can store one value and refuse the next. For instance
  the local `completeDay` can stamp the day and then lose the progress
  update; the model does not produce that mix.
- The commit message `writeFile` sends is not modelled. Neither is the
  response body of a successful PUT.
- Console logging is not modelled. It does not affect results.
- Concurrency is not modelled: interleaved async calls, and the gap between
  the `sha` read and the PUT. Each helper is one sequential step, and the
  app's `showDay` is not awaited by `handleNavClick`.
- Message ids are not proved unique. They come from `Date.now()`, which is a
  parameter here.
- Timestamps: one time is used for each call, where the code reads the clock
  several times.
- A stored value of the wrong kind is always `ShapeError`. That covers a
  non-day value at a day key and a non-progress value at the progress key.
  In JavaScript, setting a field on an object of the wrong shape succeeds,
  so the code would write such an object back. An example is
  `LocalStorage.completeDay('progress')`, whose key is the progress key
  (`LocalStore.ProgressDayCollides`).
- Arbitrary JSON values are not modelled. A stored value is a day document,
  a progress document, a boolean or `null`.
- `getDayName` and `getDayEmoji` with inherited property names (such as
  `constructor`) are not modelled.
- `getDaysUntil`, `formatDate` and `getCurrentDate` are left out (floating-point
  and locale date arithmetic). So are the unlock message of `showLockedDay`
  and the locale-date branch of `formatTimeAgo`.
- Utils.TimeAgo: gives the bucket and its count, not the rendered text
  (`'5m ago'`).
- DOM work is left out: spinner, toasts, particles, `debounce`,
  `copyToClipboard`, the online/offline listeners, `setInterval`, the Ctrl+M
  shortcut, and `location.reload`. The day views are reduced to
  `App.View`.
- The day controllers (`js/day-*.js`) are not part of this model. A
  controller is its `initialized` flag and whether its `init` succeeds, which
  is a parameter. The controllers reject a trimmed-empty message before
  calling `addMessage`; the model does not rely on that.
- The testing button of `setupTestingToggle` (js/main.js:166-181) is not
  modelled. It flips and stores the flag as the keyboard shortcut does.
- App.ValentineWeekApp.constructor: also creates the day controllers, which
  the code does in `initialize` after the backend's `initialize`. The
  backend's `initialize` result is not consulted by the app.
- Config.Settings.LoadTestingMode: a stored `valentineTest` counts as
  `'true'` when it is the boolean `true`. Other text that parses to `true`
  (with surrounding spaces) is not distinguished.
- The time zone is a parameter of `Utils.IsDayUnlockedAsWritten` (west of
  UTC or not). The local date `today` is a day number.
- App.ValentineWeekApp.ShowDay: gates on the corrected `Utils.IsDayUnlocked`,
  not on the test as written that js/main.js:126 calls. At or east of UTC the
  two agree. West of UTC, on the eve of a day's date, the code opens the day
  where this method shows its locked view. The code's behaviour there is
  this contract with `today + 1` (`Utils.AsWrittenOneDayEarlyWestOfUtc`).
- App.ValentineWeekApp.ShowFirstUnlockedDay: gates on the corrected test,
  not on the one js/main.js:101 calls. West of UTC, on local 2026-02-06
  outside testing, the code shows Rose Day where this method shows Rose
  Day's locked view. `App.FirstUnlockedAsWritten` states which day the test
  as written opens first.
- App.ValentineWeekApp.HandleNavClick: gates on the corrected test, not on
  the one js/main.js:72 calls. West of UTC, on the eve of a day's date, the
  code navigates to the day where this method raises the toast.
- App.FirstUnlockedByDate: is stated for the corrected test. With the test
  as written, west of UTC Rose Day is already first open on 2026-02-06
  (`App.FirstUnlockedAsWritten`).

## Findings

| source | as written | input that shows it | evidently intended | confidence | as-written member | corrected member |
|---|---|---|---|---|---|---|
| js/utils.js:8-15 | `new Date('2026-02-07')` is midnight UTC, and `setHours(0,0,0,0)` then takes local midnight of the local date at that instant, which is 6 February wherever the offset from UTC is negative | Rose Day, local date 2026-02-06, any time zone west of UTC: unlocked | a day opens on its configured local date | not executed | Utils.RoseOpensEarlyWestOfUtc | Utils.IsDayUnlocked |
| js/config.js:39 | the shortcut compares `e.key` with `'v'`, but with Shift held the browser reports `'V'` | Control and Shift held, key `'V'`: the toggle does not fire | Ctrl+Shift+V toggles testing mode | not executed | Config.ShiftedKeyMissesCombo | Config.KeyWatcher.KeyDown |
