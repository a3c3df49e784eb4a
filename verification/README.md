# Daily checklist and streak ledger of the telc B2 boot-camp bot

The bot (`bot.py`) coaches one learner through a twelve-week exam
curriculum. Its only piece of real state is the per-user record kept in a
JSON file. That record holds a three-item daily checklist: the morning
block, the afternoon block and sleep by 23:00. Around the checklist sit a
streak of completed days, a running total of completed days, a monetary
penalty and four skill ratings. This project models that record and the
handlers that change it. It also models the small lookups the views use
(weekday names, the daily schedule table, the curriculum's week keys, the
streak badges and the error-log window), and proves the rules the code
keeps.

Modules:

- `Wrappers` (`wrappers.dfy`): `Option` and `Result`.
- `Catalog` (`catalog.dfy`): pure lookups. The English-to-Persian weekday
  dictionary, `get_daily_schedule` with its fallback text, the key set of
  `BOOTCAMP_SCHEDULE`, the streak badge thresholds and `errors[-10:]`. The
  contents of the tables (schedule text, topics, tasks) are abstracted;
  only their keys are modelled.
- `Ledger` (`ledger.dfy`): the user record as a value (`Record`), the
  transitions as functions on records (`RolledOver`, `Toggled`,
  `ChecklistReset`, `Named`), the lemmas about them, and the class
  `UserRecord`. That class holds one loaded record and performs the
  transitions in place. Its skill ratings are an array, updated entry by
  entry in a loop. Skills are integer tenths: the cap of 10 is 100 and the
  step of 0.1 is 1.
- `Callbacks` (`callbacks.dfy`): the inline-button tokens and how
  `button_handler` reads them, including `str.replace` semantics for the
  `check_` prefix.
- `Store` (`store.dfy`): the class `UserStore`. It replaces the JSON file
  with a `map<string, Record>`. Its handler methods load a user's record
  into a `UserRecord`, change it and write it back, as the source does with
  the file.

The clock is a parameter: every operation that reads today's date takes
`today`, an opaque date string, compared only for equality. User ids are
the string keys of the map (the source's `str(user_id)`).

Three behaviours of the code shape the model:

- Only `show_checklist` rolls the checklist over to a new day. A button
  press does not; the credit check compares the stored checklist date with
  today. So completing a checklist left from another day credits nothing
  (`StaleChecklistEarnsNothing`).
- No handler writes `current_week`. The week menu emits `set_week_<n>`
  tokens, but `button_handler` has no branch for them. So every record
  stays in week 1 (`SetWeekIsUnhandled`, `Wf`, `StoredWeeksHavePlans`).
- An unknown checklist key raises a `KeyError` before anything is saved.
  The model returns `Err(UnknownItem(key))` and leaves the store unchanged.
  An unknown user id in any handler is `Err(UnknownUser(id))`, also with
  the store unchanged.

## Model

The rows below name the members whose contracts state the rules. The
functions those contracts are about compute the behaviour itself:
`Ledger.NewRecord` is bot.py:46-59, `Ledger.Named` bot.py:341-343,
`Ledger.RolledOver` bot.py:405-412, `Ledger.StatusOf` bot.py:428-441,
`Ledger.Toggled` bot.py:461-482, `Ledger.ChecklistReset` bot.py:519-522,
`Catalog.DailySchedule` bot.py:191-298, `Catalog.DayMapping`
bot.py:355-360, `Catalog.TierOf` bot.py:537, `Callbacks.Parse`
bot.py:461-462 and 519, and `Callbacks.ItemByKey` bot.py:463.

| member | source | states |
|---|---|---|
| `Store.UserStore.constructor` | bot.py:25-33 | a missing data file loads as an empty mapping; the empty store is valid |
| `Store.UserStore.InitUser` | bot.py:40-62 | an existing id leaves the map unchanged and returns its record; a new id adds exactly that id with the default record; every stored record stays well formed |
| `Ledger.NewRecordFacts` | bot.py:46-59 | the default record is unnamed, in week 1, with zero streak, total and penalty, nothing ticked, no checklist day and no credited day, started today, skills exactly 6/7/5/4 and so within the cap |
| `Store.UserStore.HandleText` | bot.py:333-373 | an unknown id fails with the KeyError and changes nothing; an unnamed user's text becomes the name; for a named user the checklist label rolls the record over to today (as `show_checklist` does, bot.py:408-412) and replies with its status, and every other text leaves the store unchanged |
| `Ledger.NameRegistration` | bot.py:341-343 | an empty name becomes the text verbatim; a non-empty name leaves the record unchanged |
| `Ledger.UserRecord.RegisterName` | bot.py:341-343 | in place: reports whether the name was empty and leaves the record equal to the registration function's result |
| `Store.UserStore.ShowChecklist` | bot.py:399-441 | an unknown id fails and changes nothing; otherwise the user's record is rolled over to today and the reply is the status of the rolled-over checklist |
| `Ledger.RolloverStartsDay` | bot.py:405-412 | afterwards the checklist belongs to today; a new day starts unticked; the same day is left alone; nothing but the checklist and its date changes, so the streak survives into the new day |
| `Ledger.RolloverIdempotent` | bot.py:405-412 | opening the checklist twice on one day changes nothing the second time |
| `Ledger.UserRecord.Rollover` | bot.py:405-412 | in place: the record becomes the rolled-over record |
| `Ledger.Checklist.Flip` | bot.py:463 | the named item is negated and the other two are kept |
| `Ledger.Checklist.Completed` | bot.py:428 | the count is at most 3; it is 3 exactly when every item is ticked and 0 exactly when none is |
| `Ledger.StatusRegimes` | bot.py:428-441 | the four status lines correspond one-to-one to all ticked, exactly two, exactly one, nothing ticked |
| `Store.UserStore.PressButton` | bot.py:452-522 | unknown id or unknown item key fails and changes nothing; a `check_` token stores the toggled record and shows its status; `reset_checklist` stores the reset record; any other token changes nothing |
| `Ledger.UserRecord.Toggle` | bot.py:461-482 | in place: the record becomes the toggled record |
| `Ledger.UserRecord.RaiseSkills` | bot.py:476-478 | the loop over the skills replaces every rating by its raised value |
| `Ledger.ToggleFlipsOnlyItem` | bot.py:461-463 | a toggle flips exactly the named item and keeps name, week, checklist day, error log and start date |
| `Ledger.ToggleCredit` | bot.py:469-478 | the streak is credited exactly when the toggle completes a checklist of today not yet credited today; then streak and total rise by one, today is stamped and every skill is raised; otherwise total, stamp and skills are unchanged, and the streak is unchanged unless the toggle clears the checklist |
| `Ledger.TogglePenalty` | bot.py:480-482 | a toggle that leaves nothing ticked adds exactly 50000 and zeroes the streak, with no per-day guard; any other toggle leaves the penalty |
| `Ledger.TogglePartial` | bot.py:465-482 | with one or two items ticked afterwards, only the checklist changes |
| `Ledger.StaleChecklistEarnsNothing` | bot.py:469 | on a checklist whose stored day is not today, a toggle never raises the total or the streak |
| `Ledger.RaiseAll` | bot.py:476-478 | the number of skills is kept; a skill below 10 gains exactly 0.1, a skill at or above 10 stays; no skill falls and none within the cap passes 10 |
| `Ledger.RaiseSkillBounds` | bot.py:477-478 | a credit never lowers a skill, never lifts one past 10, and adds exactly 0.1 below 10 |
| `Ledger.RaiseTimesReachesCap` | bot.py:476-478 | after n credits a skill at or below 10 is exactly min(10, s + 0.1 n) |
| `Ledger.ResetLeavesLedgerAlone` | bot.py:519-522 | the reset unticks everything and changes nothing else: penalty, streak, total, both dates and skills stay |
| `Ledger.UserRecord.Reset` | bot.py:519-522 | in place: the record becomes the reset record |
| `Ledger.UserRecord.Load` | bot.py:457-459 | the loaded object holds exactly the stored record |
| `Ledger.CountersNeverDecrease` | bot.py:405-522 | over any events on any days the total, the penalty and every skill never decrease, and week, start date and error log never change |
| `Ledger.RunKeepsWf` | bot.py:469-482 | every sequence of events keeps the week at 1 and every skill within 0..10 |
| `Ledger.CreditTakenOnce` | bot.py:469-473 | within one day the total plus the unspent credit is constant, and the streak plus the unspent credit never grows |
| `Ledger.AtMostOneCreditPerDay` | bot.py:469-473 | any events on one day raise the streak and the total by at most one, and by nothing once the day is credited |
| `Ledger.UntickingFullDayPenalizesOnce` | bot.py:461-482 | unticking a complete checklist item by item, in any order, charges exactly one penalty, breaks the streak and credits nothing |
| `Ledger.CompletedDayScenario` | bot.py:405-482 | a new user who opens the checklist and ticks all three gets streak 1, total 1 and every skill +0.1; unticking and re-ticking sleep the same day keeps the streak at 1 |
| `Ledger.WfHasWeekPlan` | bot.py:66-187 | a well-formed record's week has a curriculum entry |
| `Store.StoredWeeksHavePlans` | bot.py:574-575 | every stored user is in week 1, so the week-plan lookup here and at bot.py:364 never misses |
| `Catalog.WeekPlanKeys` | bot.py:66-187 | the curriculum table has an entry exactly for weeks 1 to 12 |
| `Catalog.ScheduleForEveryDay` | bot.py:191-298 | each of the seven Persian weekday names finds that day's schedule |
| `Catalog.ScheduleFallback` | bot.py:298 | a day name gets the fallback text exactly when it is none of the seven Persian weekday names |
| `Catalog.DayMappingDomain` | bot.py:355-360 | the weekday dictionary is defined exactly on the seven English weekday names |
| `Catalog.TodayHasSchedule` | bot.py:353-361 | every weekday the clock reports maps to its Persian name, and that name has its own schedule, never the fallback |
| `Catalog.TierBands` | bot.py:537 | fire for a streak of 7 or more, star for 3 to 6, sparkle below 3 |
| `Catalog.TierMonotone` | bot.py:537 | a longer streak never earns a lower badge |
| `Catalog.RecentErrors` | bot.py:630 | the window has min(10, n) entries and is the suffix of the log |
| `Catalog.RecentErrorsSlide` | bot.py:630 | `errors[-10:]` is a sliding window: for a log one entry longer it is the shorter log's window with that entry appended, its oldest entry dropped when it was already full |
| `Catalog.ErrorLog` | bot.py:621-631 | the placeholder is shown exactly for an empty log; otherwise the listing is exactly the `errors[-10:]` window and ends with the newest error |
| `Callbacks.ItemKeyRoundTrip` | bot.py:463 | each item is found under its own checklist key and under no other key |
| `Callbacks.RemoveAll` | bot.py:462 | removing occurrences never lengthens the token |
| `Callbacks.RemoveAllAbsent` | bot.py:462 | a string in which the pattern does not occur comes back unchanged |
| `Callbacks.RemoveAllLeading` | bot.py:462 | a leading `check_` is removed and the rest is processed on its own |
| `Callbacks.CheckTokenParses` | bot.py:421-423 | each checklist button's token parses to a press on that item's key, which looks up to that item |
| `Callbacks.ResetTokenParses` | bot.py:424 | the reset button's token parses to the reset branch |
| `Callbacks.SetWeekIsUnhandled` | bot.py:638-639 | every `set_week_` token falls through the handler, so the week never changes |

## Left out

- Telegram transport: updates, replies, message edits, callback
  answers, keyboards and `main`. These are network I/O through a foreign
  library. The handlers return a small `Reply` or `Status` instead of
  message text.
- JSON persistence (`load_user_data`, `save_user_data`): the file is the
  `users` map. File I/O, the swallowed parse errors and the lost-update race
  between concurrent handlers are not modelled.
- The clock and time zone: `today` is a parameter.
- Floating-point skills: ratings are integer tenths. Rounding drift of
  repeated `+ 0.1` on floats is not modelled, so the model and the code
  agree on the cap value 10 but not on when a skill reaches it.
- Ledger.RaiseTimesReachesCap: states that a skill reaches 10 after
  exactly 40/30/50/60 credits from 6/7/5/4. With floats, 6.0 plus forty
  additions of 0.1 is 9.999999999999986, so the code needs 41/31/51/61
  credits, and in between `show_stats` shows `int(level)` = 9 stars
  (bot.py:545).
- Message texts, emoji, Persian strings and the contents of the schedule
  and curriculum tables. Only the table keys and the schedule fallback
  text are modelled.
- The views that only read and render: `show_stats` (its badge thresholds
  are `TierOf`; the progress percentage is left out), `show_week_plan`,
  `show_help`, and the mock-test menu, whose buttons have no handler.
- The record fields `mock_tests` and `completed_weeks`. They are
  initialised empty and never read or written again.
- Store.UserStore.HandleText: the menu labels other than the checklist
  label are reported as `Routed` without telling them apart; their views
  (today's schedule, `show_stats`, `show_week_plan`,
  `show_mock_test_menu`, `show_errors`, `set_week_menu`, `show_help`)
  never save the record (bot.py:350-397).
- The week setter: there is no code behind the `set_week_` buttons to
  model.
