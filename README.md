# BARS and its Telegram bot, modelled in Dafny

BARS is an asynchronous Python client for the "БАРС" school portal. It
fetches the diary, schedules, homework, marks, account, school and widget
data as JSON and turns each answer into dataclass records. Each record type
has a `de_json` class method that first rewrites the caller's dict in place
(renames, `int()`/`float()` coercions, decoding of nested lists slot by
slot). It then drops undeclared keys and calls the dataclass constructor. A
Telegram bot built on the client keeps one record per user in a JSON file.
It answers commands (`/get_diary`, `/get_total_marks`, …), typed messages
that complete a pending operation, and inline-keyboard buttons.

This project models:

- the record decoders (`BARS/_base.py`, `_marks.py`, `_diary.py`,
  `_schedule.py`, `_homework.py`, `_account.py`, `_school.py`, `_misc.py`);
- how `BClientAsync` classifies a portal answer before decoding it;
- the bot's rules: user record, Markdown escaping, school year, week
  processing, day navigation, subject lookup, greeting, the week commands,
  total and summary marks, birthdays and events, error handling, message
  dispatch and button callbacks.

Python values are the datatype `Values.Value`. A decoded dataclass instance
is `Rec(kind, attrs)`. Errors Python raises are `Values.Error`, carried by
`Result`.

Each `de_json` that mutates its argument has two parts:

- a function `XStep(data)`. It gives the result together with the caller's
  dict afterwards, including the partial mutation left by a failure;
- a method `XDeJson(d: WireDict)` that performs the same steps on a mutable
  dict. It is proved to leave `d` exactly as `XStep` says.

The bot's `user` dict is the class `General.UserRecord`. Commands and
handlers update its `fields` in place. Network answers, the clock, and the
portal's HTML cleaning are parameters of the operations that use them.

## Model

| member | source | states |
|---|---|---|
| Coerce.PyInt | BARS/_marks.py:34 | `int(v)`: an int stays, a bool becomes 0/1, a float is truncated toward zero, text converts exactly when its stripped form is an optionally signed digit string and then gives the integer that numeral denotes; null, lists and dicts are refused, and every refusal is `BadInt(v)` |
| Coerce.PyFloat | BARS/_marks.py:68 | `float(v)`: ints and floats keep their value, a bool becomes 1.0/0.0, text converts exactly when its stripped form is a decimal numeral and then gives the number that numeral denotes, other kinds are refused with `BadFloat(v)` |
| Coerce.Trunc | BARS/_marks.py:34 | `int()` of a float truncates toward zero: the result is within one of the input, on the side of zero |
| Coerce.DigitsOfShowNat | TelegramBot/src/commands.py:173 | the digits `str(n)` prints for a natural number have the value `n` |
| Coerce.ParseShowInt | TelegramBot/src/commands.py:205-207 | `int(str(n)) == n` for every integer, so an integer key written as text reads back as that integer |
| Strings.ContainsAt | TelegramBot/src/utils/handlers_utils.py:57 | the substring test `p in s` holds exactly when `p` occurs in `s` at some position |
| Strings.LowerChar | TelegramBot/src/utils/handlers_utils.py:57 | `lower()` of one character maps each capital of ASCII, Latin-1, Greek Α-Ω and Cyrillic Ѐ-Я and Ґ to its small letter, keeps every other character, and never yields a capital |
| Strings.Lower | TelegramBot/src/utils/handlers_utils.py:57 | `s.lower()` lowers each character in place, as `LowerChar` does |
| Strings.LowerIdempotent | TelegramBot/src/utils/handlers_utils.py:52-57 | lowering twice is lowering once |
| Strings.Words | TelegramBot/src/utils/handlers_utils.py:35 | `s.split()` yields only non-empty words without whitespace |
| Strings.WordsOfWord | TelegramBot/src/utils/handlers_utils.py:35 | a single word splits into itself |
| Strings.WordsOfJoined | TelegramBot/src/utils/handlers_utils.py:35 | a word, a space and a rest split into that word followed by the words of the rest |
| Strings.Join | TelegramBot/src/commands.py:174 | `sep.join(xs)` is empty for no parts and the part itself for one part |
| Strings.JoinLength | TelegramBot/src/commands.py:174 | the joined text is as long as all the parts plus one separator between each two |
| Strings.JoinSnoc | TelegramBot/src/commands.py:174 | joining one more part appends the separator and that part |
| Strings.DropLast | TelegramBot/src/utils/commands_utils.py:139-140 | `s[:-k]` for `k` ≥ 1 drops the last `k` characters, or everything when the text is shorter |
| Strings.RemoveChar | BARS/_client_async.py:230 | `s.replace(c, "")` leaves no `c` and is shorter by exactly the number of `c` in `s` |
| Strings.RemoveAbsentChar | BARS/_client_async.py:230 | removing a character that does not occur changes nothing |
| Base.DeJson | BARS/_base.py:30-46 | `ClientObject.de_json` splits a copy of the dict into the declared keys and the unknown ones, without touching the caller's dict |
| Base.PartitionExact | BARS/_base.py:37-43 | every key lands in exactly one of the two maps with its value unchanged; the kept keys are the declared ones, and nothing is logged exactly when all keys are declared |
| Base.KeptIdempotent | BARS/_base.py:37-46 | filtering the filtered dict again changes nothing and logs nothing |
| Base.Construct | BARS/_misc.py:35 | `cls(**kw)` fails on undeclared keywords, then on missing required fields, and otherwise builds the record with the given values and the defaults for the rest |
| Base.Decode | BARS/_misc.py:33-35 | the generic tail of every decoder: it succeeds exactly when every required field is present; extra keys never make it fail, a missing field names all missing fields, and defaults fill the absent optional fields |
| Base.Finish | BARS/_misc.py:33-35 | the generic tail as a method returns the decoded record and the unknown keys it logs |
| Base.DecodeAllRequired | BARS/_account.py:32-34 | for a dataclass without defaults the generic tail needs every declared field |
| Base.Plain | BARS/_account.py:32-34 | a decoder with no pre-processing leaves the caller's dict as it was |
| Base.AsItem | BARS/_marks.py:70-71 | a list element that is a dict is decoded and its slot shows the decoder's mutations; any other element fails with NotADict and is left as it was |
| Base.FirstFailure | BARS/_marks.py:70-71 | the index of the first element the element decoder refuses: all earlier ones succeed |
| Base.MapEach | BARS/_marks.py:70-71 | the slot-by-slot loop: slots before the first failure hold decoded records, the failing slot shows its own mutations, later slots are untouched, and the error is the failing element's |
| Base.MapAt | BARS/_marks.py:70-71 | `for i, x in enumerate(data[key])`: a missing key is a KeyError, an empty text or dict is a loop with nothing to do, another non-list is refused, and a list is rewritten as `MapEach` says |
| Base.MapInPlace | BARS/_marks.py:70-71 | the same loop on the caller's mutable dict leaves it exactly as `MapAt` describes |
| Base.MapSlots | BARS/_marks.py:70-71 | the element loop with its `while`, proved equal to `MapEach` |
| Base.Rename | BARS/_marks.py:135-136 | `data[to] = data[from]; del data[from]`: a missing source key is a KeyError; otherwise the source key is gone, the target holds its value, and all other keys are unchanged |
| Base.RenameInPlace | BARS/_marks.py:135-136 | the rename on the caller's dict, as `Rename` says |
| Base.ApplyAt | BARS/_marks.py:141 | `data[key] = X.de_json(data[key])`: a missing key is a KeyError, a failure stores the nested dict's mutations, and a success stores the record |
| Base.ApplyInPlace | BARS/_marks.py:141 | the same on the caller's dict, as `ApplyAt` says |
| Base.Abort | BARS/_marks.py:135-141 | a decoder stopped by a failing statement reports that statement's error and keeps what it had changed |
| Marks.MarkStep | BARS/_marks.py:34-38 | `Mark.de_json`: a missing `mark` is a KeyError, a refused `int()` is BadInt, and otherwise the coerced mark is written into the caller's dict before the generic tail |
| Marks.MarkIsInt | BARS/_marks.py:16-38 | a mark decodes exactly when its three fields are present and `int()` accepts it, and then holds the date, the description and the integer |
| Marks.MarkDeJson | BARS/_marks.py:21-38 | the decoder on the caller's dict matches `MarkStep` |
| Marks.SummaryMarksDisciplineStep | BARS/_marks.py:68-75 | `float()` on the average first, then the marks decoded in place, then the generic tail |
| Marks.SummaryMarksDisciplineDeJson | BARS/_marks.py:55-75 | the decoder on the caller's dict matches its step function |
| Marks.SummaryMarksDisciplineMarksInOrder | BARS/_marks.py:70-71 | a decoded discipline keeps its marks' number and order, each slot the decoded wire mark |
| Marks.SubperiodStep | BARS/_marks.py:103-105 | `Subperiod.de_json` needs `code` and `name` and leaves the caller's dict alone |
| Marks.SummaryMarksStep | BARS/_marks.py:135-145 | the rename of `discipline_marks`, then the discipline list, then the nested subperiod; each failure stops it with the mutations so far |
| Marks.SummaryMarksRenameVisible | BARS/_marks.py:135-136 | whatever follows, the caller's dict has lost `discipline_marks` and gained `disciplines` |
| Marks.SummaryMarksDeJson | BARS/_marks.py:122-145 | the decoder on the caller's dict matches its step function |
| Marks.IntItem | BARS/_marks.py:174 | one period mark through `int()`: it converts exactly when `int()` accepts it, and a refused entry stays as it was |
| Marks.TotalMarksDisciplineStep | BARS/_marks.py:173-178 | every period mark goes through `int()` in place before the generic tail |
| Marks.PeriodMarksCoerced | BARS/_marks.py:173-174 | period marks keep their number and order; those before the first refusal are converted in the caller's list, and that refusal fails the decoder, leaving the rest as received |
| Marks.TotalMarksDisciplineDeJson | BARS/_marks.py:160-178 | the decoder on the caller's dict matches its step function |
| Marks.TotalMarksStep | BARS/_marks.py:206-217 | the rename, then the disciplines, then the subperiods, each decoded in place |
| Marks.TotalMarksDeJson | BARS/_marks.py:193-217 | the decoder on the caller's dict matches its step function |
| Marks.AttendaceDataStep | BARS/_marks.py:253-255 | the six counters are all required and passed through unconverted; a missing one names all missing ones |
| Marks.SeriesItemStep | BARS/_marks.py:287-292 | `pointWidth` moves to `point_width` in the caller's dict; a missing `pointWidth` is a KeyError |
| Marks.SeriesItemWidth | BARS/_marks.py:287-288 | the decoded width is the wire `pointWidth` even when the wire also carried `point_width` |
| Marks.SeriesItemDeJson | BARS/_marks.py:274-292 | the decoder on the caller's dict matches its step function |
| Marks.ProgressDataStep | BARS/_marks.py:324-329 | each chart series is decoded in place before the generic tail |
| Marks.ProgressDataDeJson | BARS/_marks.py:311-329 | the decoder on the caller's dict matches its step function |
| Diary.DiaryLessonStep | BARS/_diary.py:72-74 | every declared lesson field is required, values pass unconverted and extra keys are dropped |
| Diary.DiaryLessonNeedsHomework | BARS/_diary.py:40 | a lesson without `homework` is refused, although the field is left out of the documented attributes |
| Diary.DiaryDayStep | BARS/_diary.py:106-114 | the lessons are decoded in place; a missing `lessons` key is caught and replaced by an empty list |
| Diary.DiaryDayMissingLessons | BARS/_diary.py:89-110 | a day without lessons decodes exactly when it has a date, with no lessons and both flags False unless given |
| Diary.DiaryDayLessonsInOrder | BARS/_diary.py:107-108 | the decoded day holds its lessons in wire order, each exactly the declared keys of its wire dict |
| Diary.DiaryDayDeJson | BARS/_diary.py:93-114 | the decoder on the caller's dict matches its step function |
| Schedule.ScheduleLessonStep | BARS/_schedule.py:53-55 | the generic tail on the lesson with its defaults, leaving the dict alone |
| Schedule.ScheduleLessonDefaults | BARS/_schedule.py:26-37 | only the four required fields decide success, and an absent optional field reads as None |
| Schedule.ScheduleDayStep | BARS/_schedule.py:86-93 | the lessons are decoded in place inside the `try`, and a missing `lessons` key stores an empty list |
| Schedule.ScheduleLessonNoKeyError | BARS/_schedule.py:53-55 | decoding a lesson element never raises KeyError |
| Schedule.ScheduleDayOnlyMissingLessonsCaught | BARS/_schedule.py:86-90 | the `except KeyError` fires exactly for the missing `lessons` key, so a failing lesson still fails the day |
| Schedule.ScheduleDayMissingLessons | BARS/_schedule.py:86-90 | a day without `lessons` decodes exactly when it has a date, with an empty lesson list |
| Schedule.ScheduleDayFlagsDefault | BARS/_schedule.py:69-70 | `is_weekend` and `is_vacation` are False when the wire leaves them out |
| Schedule.ScheduleDayDeJson | BARS/_schedule.py:73-93 | the decoder on the caller's dict matches its step function |
| Schedule.ScheduleMonthStep | BARS/_schedule.py:121-126 | each day is decoded in place, in order, before the generic tail |
| Schedule.ScheduleMonthNeedsDaysAndIndex | BARS/_schedule.py:104-126 | a week without `days` is a KeyError and one without `index` fails construction |
| Schedule.ScheduleMonthDeJson | BARS/_schedule.py:108-126 | the decoder on the caller's dict matches its step function |
| Homework.WithSnakeCopies | BARS/_homework.py:53-58 | `data.update({...})` adds the four snake_case copies of the camelCase values and removes nothing |
| Homework.HomeworkLessonStep | BARS/_homework.py:53-62 | the first missing camelCase key is a KeyError with the dict unchanged; otherwise the copies are added and the generic tail follows |
| Homework.HomeworkLessonAlwaysWarns | BARS/_homework.py:53-60 | the camelCase originals stay in the dict and are reported as unknown for every lesson |
| Homework.CamelUndeclared | BARS/_homework.py:25-37 | none of the four camelCase keys is a declared field |
| Homework.HomeworkLessonNextTimeNotRenamed | BARS/_homework.py:34-62 | `next_homework_time_to_complete` gets no camelCase copy, so a lesson lacking it is refused |
| Homework.HomeworkLessonDeJson | BARS/_homework.py:40-62 | the decoder on the caller's dict matches its step function |
| Homework.HomeworkDayStep | BARS/_homework.py:92-97 | the homework lessons are decoded in place, in order |
| Homework.HomeworkDayNeedsHomeworks | BARS/_homework.py:74-97 | unlike a diary day, a homework day without `homeworks` is a KeyError; all three fields are required |
| Homework.HomeworkDayDeJson | BARS/_homework.py:79-97 | the decoder on the caller's dict matches its step function |
| Account.UnlockedDiscilpineStep | BARS/_account.py:32-34 | an unlocked discipline decodes exactly when `id` and `name` are present, to just those two |
| Account.AccountInfoStep | BARS/_account.py:69-77 | `pupil_id` moves to `pupilid` in the caller's dict, then the disciplines are decoded in place |
| Account.AccountInfoPupilId | BARS/_account.py:69-70 | a decoded account carries the wire `pupil_id` as `pupilid` and `charts_urls` as received, and the caller's dict has lost `pupil_id` |
| Account.AccountInfoDeJson | BARS/_account.py:56-77 | the decoder on the caller's dict matches its step function |
| Account.PupilInfoStep | BARS/_account.py:114-116 | the fourteen profile fields are required and passed through |
| School.EmployeeStep | BARS/_school.py:40-42 | every employee field is required, nothing converted |
| School.SchoolInfoStep | BARS/_school.py:86-91 | the staff list is decoded in place before the generic tail |
| School.SchoolInfoStaffInOrder | BARS/_school.py:86-87 | the staff keep their number and order, each the declared keys of its wire dict, and both counters pass through unconverted |
| School.SchoolInfoDeJson | BARS/_school.py:73-91 | the decoder on the caller's dict matches its step function |
| School.PupilStep | BARS/_school.py:121-123 | `fullname`, `male` and `photo` are required |
| School.ClassInfoStep | BARS/_school.py:163-168 | the pupil list is decoded in place before the generic tail |
| School.ClassInfoPupilsRequired | BARS/_school.py:140-168 | a class without `pupils` is a KeyError and `study_level` passes through unconverted |
| School.ClassInfoDeJson | BARS/_school.py:150-168 | the decoder on the caller's dict matches its step function |
| Misc.EventStep | BARS/_misc.py:33-35 | an event decodes exactly when `date`, `date_str` and `theme` are present, to just those three, leaving the dict alone |
| Client.FaultOf | BARS/_client_async.py:116-120 | the session fault code is Unauthorized, any other code a service fault quoting code and `faultstring`, and a missing `faultstring` a KeyError |
| Client.GuardedAgreesOnDicts | BARS/_client_async.py:115 | the guarded and unguarded fault tests agree on dicts; the guarded one never fires on anything else, while the unguarded one fails on scalars |
| Client.Elements | BARS/_client_async.py:123 | iterating an answer: a list gives its items, an empty text or dict gives none, anything else is not a list |
| Client.Collected | BARS/_client_async.py:122-125 | every element decoded in order, or the first failing element's error |
| Client.Collect | BARS/_client_async.py:122-125 | the append loop returns exactly `Collected` |
| Client.CollectInPlace | BARS/_client_async.py:520-522 | the overwrite-in-place loop returns exactly `Collected` |
| Client.GetDiary | BARS/_client_async.py:110-125 | `get_diary`: not JSON, then a fault, then the days decoded in order |
| Client.GetWeekSchedule | BARS/_client_async.py:145-160 | `get_week_schedule` with the same classification and the schedule day decoder |
| Client.GetDays | BARS/_client_async.py:110-125 | the shared shape of the two week endpoints |
| Client.DaysInOrder | BARS/_client_async.py:115-125 | a successful week is a non-fault dict with `days`, decoded to exactly the listed days in order |
| Client.GetMonthSchedule | BARS/_client_async.py:180-195 | `get_month_schedule` decodes each element of the answer as a month |
| Client.ReportLinkShape | BARS/_client_async.py:218-232 | the report link exists exactly for a text answer; it starts with the portal address, and the rest has no quote and is shorter than the path by exactly the number of quotes in it |
| Client.ReportLinkOfQuotedPath | BARS/_client_async.py:229-230 | a quoted quote-free path comes back unchanged after the address |
| Client.RecordEndpointDecodes | BARS/_client_async.py:252-264 | a non-fault dict goes to the endpoint's decoder, and a non-dict answer never yields a record |
| Client.GetHomework | BARS/_client_async.py:508-524 | `get_homework`: a list is decoded in place, another non-fault shape is refused |
| Client.GetBirthdays | BARS/_client_async.py:540-556 | `get_birthdays`: a list is decoded in place, another non-fault shape gives an empty list |
| Client.GetEvents | BARS/_client_async.py:572-588 | `get_events` with the event decoder |
| Client.GetWidget | BARS/_client_async.py:540-556 | the shared shape of the two widget endpoints |
| Client.HomeworkStricterThanWidgets | BARS/_client_async.py:519-556 | for the same non-list, non-fault answer the homework endpoint fails while the widgets return an empty list |
| Client.FaultsComeFirst | BARS/_client_async.py:115-120 | every endpoint reports a fault dict before anything else, as Unauthorized exactly for the session code |
| Client.NotJsonEverywhere | BARS/_client_async.py:110-113 | a body that is not JSON is an InternalError at every endpoint |
| General.EscapeIsOnePass | TelegramBot/src/general.py:43-49 | the seven chained replaces equal one pass that puts a backslash before each of the seven characters |
| General.FoldIsOnePass | TelegramBot/src/general.py:43-49 | a chain of single-character replaces over distinct targets, none a backslash, is one pass |
| General.EscapeLength | TelegramBot/src/general.py:43-49 | the escaped text is longer by exactly the number of escaped characters |
| General.EscapeKeepsTargets | TelegramBot/src/general.py:43-49 | escaping keeps every target character |
| General.EscapeNotIdempotent | TelegramBot/src/general.py:38-49 | escaping already escaped text with a target in it changes it again, hence the warning against reuse |
| General.UnescapeEscape | TelegramBot/src/general.py:43-49 | the original text reads back from its escaped form |
| General.SchoolStartYear | TelegramBot/src/general.py:52-58 | the start year is the clock's year or the one before |
| General.SchoolYearContains | TelegramBot/src/general.py:52-58 | from September on the start year is the clock's year, and before September it is the year before, so the month lies between September of the start year and August of the next |
| Templates.UserDict | TelegramBot/src/templates.py:4-12 | the new-user record has exactly the seven template keys, all None |
| BotText.AppendAll | TelegramBot/src/commands.py:172-174 | `text += part` for each part gives the initial text followed by the parts in order |
| BotText.Weekday | TelegramBot/src/commands.py:74 | `date.weekday()` is in 0..6 |
| BotText.WeekdayNext | TelegramBot/src/commands.py:74-75 | the next day's weekday is one more, wrapping after Sunday |
| BotText.ReformatShape | TelegramBot/src/utils/commands_utils.py:33 | `%Y-%m-%d` to `%d.%m.%Y` succeeds exactly when the text matches `strptime`'s four-digit year, month field (`1[0-2]`, `0[1-9]` or `[1-9]`) and day field (`3[0-1]`, `[1-2]` and a digit, `0[1-9]`, `[1-9]` or a space and `[1-9]`) with nothing left over, and the date exists (year 1 onwards, day within its month, leap years included); it gives a `DD.MM.YYYY` text and is otherwise a ValueError naming the text |
| BotText.ReformatRearranges | TelegramBot/src/utils/commands_utils.py:33 | a zero-padded `YYYY-MM-DD` date that exists keeps its digits: day, month and year are only rearranged |
| BotText.ReformatUnpadded | TelegramBot/src/utils/commands_utils.py:33 | `2024-1-5` is accepted with its one-digit month and day and printed as `05.01.2024` |
| BotText.ReformatRefusesMonth13 | TelegramBot/src/utils/commands_utils.py:33 | month 13 does not match the month field and is a ValueError |
| BotText.ReformatRefusesFeb29 | TelegramBot/src/utils/commands_utils.py:33 | 29 February 2023 matches the fields but is not a day, so it is a ValueError |
| BotText.UnformatReformat | TelegramBot/src/utils/handlers_utils.py:137 | the stored dotted date parses back, with `%d.%m.%Y`, to the day the portal sent |
| CommandsUtils.MaterialsText | TelegramBot/src/utils/commands_utils.py:86-95 | the materials block is empty exactly when there are no materials |
| CommandsUtils.TimeText | TelegramBot/src/utils/commands_utils.py:139-140 | a present time of at least three characters loses its last three; None shows as empty |
| CommandsUtils.RowOf | TelegramBot/src/utils/commands_utils.py:39-47 | every stored entry carries the day's dotted date |
| CommandsUtils.FormSendText | TelegramBot/src/utils/commands_utils.py:9-22 | the loop appending one filled template per lesson builds the bold date followed by every lesson's template, in order |
| CommandsUtils.Processed | TelegramBot/src/utils/commands_utils.py:29 | `days[:-2]` drops the last two days, or all of them when there are fewer |
| CommandsUtils.WeekErrorSticks | TelegramBot/src/utils/commands_utils.py:29-33 | once a day cannot be dated, later days do not change the outcome |
| CommandsUtils.ProcessWeek | TelegramBot/src/utils/commands_utils.py:25-48 | the shared loop of the three `proccess_*` functions computes `WeekOf` |
| CommandsUtils.ProcessDays | TelegramBot/src/utils/commands_utils.py:29-47 | the day loop stops at the first day that cannot be dated |
| CommandsUtils.ProcessDay | TelegramBot/src/utils/commands_utils.py:30-47 | one iteration extends the week by exactly one processed day |
| CommandsUtils.AppendRows | TelegramBot/src/utils/commands_utils.py:38-47 | the inner loop appends one entry per lesson, in order |
| CommandsUtils.ProccessDiary | TelegramBot/src/utils/commands_utils.py:25-48 | `proccess_diary` is the shared loop with the diary view |
| CommandsUtils.ProccessHomework | TelegramBot/src/utils/commands_utils.py:70-98 | `proccess_homework` is the shared loop with the homework view and the base address |
| CommandsUtils.ProccessSchedule | TelegramBot/src/utils/commands_utils.py:118-144 | `proccess_schedule` is the shared loop with the schedule view |
| CommandsUtils.WeekKeys | TelegramBot/src/utils/commands_utils.py:37 | only processed days get a table, under keys 0..k-1 |
| CommandsUtils.WeekStores | TelegramBot/src/utils/commands_utils.py:37-47 | day `i`'s table holds one entry per lesson in order, all with that day's date, and later days do not overwrite it |
| CommandsUtils.WeekFails | TelegramBot/src/utils/commands_utils.py:33 | the week fails exactly when some processed day cannot be dated |
| CommandsUtils.WeekText | TelegramBot/src/utils/commands_utils.py:34-35 | the reply is empty when no processed day has the requested date, and otherwise is the message of the last processed day with that date |
| CommandsUtils.DaysWithoutLessonsFail | TelegramBot/src/utils/commands_utils.py:78-126 | in the homework and schedule views a processed day without lessons fails the whole week |
| CommandsUtils.TimeDropsSeconds | TelegramBot/src/utils/commands_utils.py:139-140 | every `hh:mm:ss` time shows as its `hh:mm` |
| HandlersUtils.Navigate | TelegramBot/src/utils/handlers_utils.py:134-147 | inside 0..4 the index moves by the step; past Friday the bot reloads from Friday plus 3 days and lands on 0; before Monday it reloads from Monday minus 3 days and lands on 4 |
| HandlersUtils.LandingIsSchoolDay | TelegramBot/src/utils/handlers_utils.py:134-149 | whatever the stored index and step, the bot lands on 0..4 |
| HandlersUtils.ButtonsWalkTheWeek | TelegramBot/src/utils/handlers_utils.py:134-147 | next and previous walk Monday to Friday and wrap into the neighbouring week at both ends |
| HandlersUtils.FirstDate | TelegramBot/src/utils/handlers_utils.py:153 | `data[str(i)][0]['date']`: a missing day is a KeyError, an empty one an IndexError |
| HandlersUtils.RenderDay | TelegramBot/src/utils/handlers_utils.py:153-155 | the `+=` loop over the stored entries gives `FirstDate`'s error for a missing or empty day, and otherwise the first entry's date in bold followed by every entry's template in order |
| HandlersUtils.StoredDayShowsAsSent | TelegramBot/src/utils/handlers_utils.py:153-155 | a stored day with lessons renders to the message the week command sent for it |
| HandlersUtils.NavigationShowsProcessedDay | TelegramBot/src/utils/handlers_utils.py:153-156 | navigating to any processed day with lessons shows exactly what `proccess_*` would have sent |
| HandlersUtils.StepDay | TelegramBot/src/utils/handlers_utils.py:121-156 | one press of next/previous on the stored week updates index and tables as `Stepped` says |
| HandlersUtils.SteppedKeepsSchoolDay | TelegramBot/src/utils/handlers_utils.py:134-149 | the stored index stays in 0..4 |
| HandlersUtils.SteppedInsideWeek | TelegramBot/src/utils/handlers_utils.py:134-149 | inside the week nothing is fetched and the index moves by the step; the tables change only through a reload |
| HandlersUtils.FirstMatch | TelegramBot/src/utils/handlers_utils.py:56-60 | the first discipline whose lowered name contains the lowered text |
| HandlersUtils.SubjectOf | TelegramBot/src/utils/handlers_utils.py:52-63 | "все" in any case asks for all subjects; otherwise the first matching discipline is asked for, and the text is refused exactly when none matches |
| HandlersUtils.FindSubject | TelegramBot/src/utils/handlers_utils.py:52-63 | the `for … else` loop with `break` computes `SubjectOf` |
| HandlersUtils.SubjectIgnoresCase | TelegramBot/src/utils/handlers_utils.py:52-57 | the lowered text picks the same subject |
| HandlersUtils.EmptyTextPicksFirst | TelegramBot/src/utils/handlers_utils.py:56-58 | an empty text is in every name, so it picks the first discipline |
| HandlersUtils.GreetingUsesFirstName | TelegramBot/src/utils/handlers_utils.py:35-36 | for "Surname Name …" the greeting names the second word |
| HandlersUtils.GreetingNeedsTwoWords | TelegramBot/src/utils/handlers_utils.py:35 | a one-word full name makes the greeting an IndexError |
| HandlersUtils.ProcessSessionId | TelegramBot/src/utils/handlers_utils.py:20-39 | `process_sessionid` on the user record, as `SessionIdOutcome` says |
| HandlersUtils.SessionIdStoredOnGreeting | TelegramBot/src/utils/handlers_utils.py:31-39 | the ids are stored exactly when the greeting goes out, which needs both answers and a two-word name; a failure stores nothing |
| Commands.TargetDayIsSchoolDay | TelegramBot/src/commands.py:73-75 | the delta is added first; a weekday stays, a weekend day becomes the next Monday, and only weekend days are skipped |
| Commands.ShiftToSchoolDay | TelegramBot/src/commands.py:73-76 | the shifted day and its `current_weekday` in 0..4 |
| Commands.WeekOpensOnSchoolDay | TelegramBot/src/commands.py:73-82 | a stored week's `current_weekday` is the shifted day's weekday, in 0..4 |
| Commands.OpenWeek | TelegramBot/src/commands.py:72-83 | on success the `*_week` entry holds the processed week and its weekday and the reply is the day's text; an error leaves the entry alone |
| Commands.StartKeepsKnownUsers | TelegramBot/src/commands.py:36-39 | `/start` adds the user if new, with all template keys None, and leaves every known record untouched |
| Commands.StartIdempotent | TelegramBot/src/commands.py:36-39 | sending `/start` twice is sending it once |
| Commands.ShownMarks | TelegramBot/src/commands.py:173 | one text per mark, in order, each `str(mark)` |
| Commands.SummaryMarksText | TelegramBot/src/commands.py:171-174 | the reply is the blocks of the disciplines, concatenated in order |
| Commands.SummaryAppend | TelegramBot/src/commands.py:172-174 | one more discipline appends exactly its block |
| Commands.MarksLineInOrder | TelegramBot/src/commands.py:173-174 | the marks line is the marks space-joined in order |
| Commands.FirstWithCode | TelegramBot/src/commands.py:198-201 | the position the inner loop breaks at holds the code |
| Commands.FirstWithCodeIsFirst | TelegramBot/src/commands.py:198-201 | no earlier period mark has the code |
| Commands.FirstUnmarked | TelegramBot/src/commands.py:197-204 | the first discipline without a mark for the code |
| Commands.MarkedBeforeGap | TelegramBot/src/commands.py:197-204 | every discipline before it has a mark |
| Commands.GapIsFirst | TelegramBot/src/commands.py:197-204 | any unmarked discipline is at or after it |
| Commands.MarkLines | TelegramBot/src/commands.py:199-200 | one line per marked discipline before the first gap |
| Commands.FindMark | TelegramBot/src/commands.py:198-201 | the inner loop with `break` finds `FirstWithCode` |
| Commands.PageText | TelegramBot/src/commands.py:195-204 | the loop over disciplines, with its `for … else` early end, builds `Page` |
| Commands.TotalMarksPages | TelegramBot/src/commands.py:194-205 | the `zip` loop builds `Pages` |
| Commands.SubperiodCodeOf | TelegramBot/src/commands.py:194 | the codes are `1_1` to `1_4` |
| Commands.PagesPairSubperiodsWithCodes | TelegramBot/src/commands.py:194-205 | there are as many pages as subperiods but at most four, and page `i` is built with code `1_(i+1)` |
| Commands.MarkLineIsNotNoMarks | TelegramBot/src/commands.py:200-203 | a discipline's line is never the `Оценок нет` line |
| Commands.NoMarksIffUnmarked | TelegramBot/src/commands.py:197-204 | a page says `Оценок нет` exactly when some discipline has no mark for the code |
| Commands.PageLinesInOrder | TelegramBot/src/commands.py:197-204 | lines follow the disciplines in order, each the first matching mark; `Оценок нет` is the last line and the rest are skipped |
| Commands.StoredPagesAt | TelegramBot/src/commands.py:205-207 | page `i` is stored under the key `str(i)` |
| Commands.StoredPagesMissing | TelegramBot/src/commands.py:205-207 | no other key is stored |
| Commands.GetTotalMarks | TelegramBot/src/commands.py:183-208 | the pages replace `total_marks` in the record; a failed fetch leaves it alone |
| Commands.BirthdaysText | TelegramBot/src/commands.py:298-301 | the header, chosen by emptiness, followed by one entry per birthday |
| Commands.EventsText | TelegramBot/src/commands.py:317-320 | the header, chosen by emptiness, followed by one entry per event |
| Commands.BirthdaysHeaderIffAny | TelegramBot/src/commands.py:298 | the reply starts with the list header exactly when there is a birthday, and is the bare notice otherwise |
| Commands.EventsHeaderIffAny | TelegramBot/src/commands.py:317 | the reply starts with the list header exactly when there is an event, and is the bare notice otherwise |
| Commands.BirthdayNameReadsBack | TelegramBot/src/commands.py:301 | the printed name is escaped and reads back as the name |
| Handlers.RepairUser | TelegramBot/src/handlers.py:24-26 | the key loop adds each missing template key as None and keeps the rest |
| Handlers.RepairCompletesRecord | TelegramBot/src/handlers.py:24-26 | afterwards every template key is present, the old keys keep their values, and only template keys are added, as None |
| Handlers.RepairIdempotent | TelegramBot/src/handlers.py:24-26 | repairing twice is repairing once, and a complete record is unchanged |
| Handlers.HandleException | TelegramBot/src/handlers.py:19-41 | a KeyError repairs the record, any other error leaves it alone, and the reply follows the error's class |
| Handlers.ErrorReplyKnown | TelegramBot/src/handlers.py:29-37 | each fixed reply belongs to exactly one error class (KeyError, Unauthorized, InternalError, the bot's own error), and every other error's reply starts with the unknown-error prefix |
| Handlers.HandleMessage | TelegramBot/src/handlers.py:44-57 | `handle_message` on the record, as `MessageOutcome` says, with the result of the data request after a chosen subject as an input |
| Handlers.MessageClearsOperation | TelegramBot/src/handlers.py:56-57 | a handled message leaves `current_operation` None; a raised error stores nothing |
| Handlers.MessageDispatch | TelegramBot/src/handlers.py:48-56 | only `sessionid`, `attendancedata` and `progressdata` are dispatched; any other value only clears the operation, and only `sessionid` stores other keys |
| Handlers.UnknownSubjectEndsOperation | TelegramBot/src/handlers.py:51-56 | an unknown subject is refused with a reply before any data request, and the operation still ends |
| Handlers.ChosenSubjectNeedsData | TelegramBot/src/utils/handlers_utils.py:65-80 | a chosen subject ends the operation exactly when `pupilid` is stored and the data request succeeds; a missing `pupilid` raises KeyError, a failed request raises its error, and either leaves the record as it was |
| Handlers.CallbackAction | TelegramBot/src/handlers.py:66-114 | step buttons step by ±1, and a subperiod action comes only from that subperiod's button |
| Handlers.CallbackDispatch | TelegramBot/src/handlers.py:66-82 | each `about_sid` and next/previous string reaches its own handler and no other |
| Handlers.SubperiodButtonsShowTheirPage | TelegramBot/src/handlers.py:83-114 | button `n` shows subperiod `n` |
| Handlers.OtherSubperiods | TelegramBot/src/handlers.py:86-89 | three buttons: the subperiods other than `n`, in order |
| Handlers.OtherSubperiodsAreTheRest | TelegramBot/src/handlers.py:83-114 | subperiod `m` is offered exactly when it is not the one shown |
| Handlers.SubperiodShowsStoredPage | TelegramBot/src/handlers.py:83-114 | after the pages are stored, button `n` shows page `str(n-1)` with the other three buttons, or is a KeyError when there is no such page |
| Handlers.TotalMarksRoundTrip | TelegramBot/src/handlers.py:83-114 | after a successful `/get_total_marks`, button `n` shows the page built for subperiod `n` with code `1_n` |

## Left out

- HTTP, cookies and the `async with` client lifetime are left out. Each endpoint takes the answer body as a parameter, as JSON or as "not JSON". The synchronous client is not part of this model.
- The bot's file database and the Telegram API are left out: reading and writing `db.json`, replying, editing messages and keyboards. The record is `UserRecord.fields`, and replies are returned values.
- Logging is left out. `Base.DeJson` and `Base.Finish` return the unknown keys that would be logged.
- `Coerce.PyFloat` maps floats to reals. The model has no binary rounding, NaN or infinities, so `float()` accepts only decimal numerals.
- `Coerce.PyInt`, `Coerce.PyFloat`: whitespace stripping and digit parsing cover ASCII digits only. Python also accepts other Unicode digits and underscores between digits.
- Strings.LowerChar, Strings.Lower: only the capitals of ASCII, Latin-1, Greek Α-Ω, Cyrillic Ѐ-Я and Ґ are lowered. Other Unicode capitals, the final-sigma rule, and lowerings that change the length (such as `İ`, which lowers to two characters) are not modelled, because the bot's subject names and commands use these alphabets only.
- BotText.Reformat, BotText.ReformatShape: `strptime`'s `\d` also matches non-ASCII decimal digits, but the model reads ASCII digits only. Its two ValueErrors (a text that does not match the format, and a day that does not exist) are both `BadDate` naming the text. A year before 1000 is printed with four digits, as `strftime('%Y')` does in current Python; some older C libraries print it without leading zeros.
- Days are proleptic ordinals. `datetime.now()` becomes the `date` parameter, and `date.isoformat()` becomes the `isoOf` parameter.
- `remove_html_tags` on the portal's days is the `clean` parameter.
- The birthday record type's decoder is a parameter of `Client.GetBirthdays`.
- The JSON store turns integer keys into text. Week tables use the keys 0..4 in the model, and total-marks pages are stored under `str(i)` as they are after a reload. Stored rows hold the rendered strings.
- `HandlersUtils.StepDay`: the reload that fetches a neighbouring week is a parameter.
- `HandlersUtils.StepDay`: the model does not capture how the re-read record overwrites `current_weekday`.
- `Base.MapSlots` writes the list back once after the loop, not slot by slot. The list is reachable only through the caller's dict, so the result is the same.
- Iterating a non-list is modelled as `NotAList`. Python would iterate text character by character or dict keys, which then fail in the element decoder.
- After the subject choice, the attendance and progress handlers fetch and format data. The model reads `pupilid` and takes how the request and the formatting end as an input, but it does not compute the reply text. The floating-point percentage, `round`, and the errors they can raise (a zero total, an empty series) are only reflected through that input.
- The summary's average mark is the text already printed for it.
- The unknown-error reply takes `str(context.error)` as the `shown` parameter.
- The school and class info commands are not part of this model, and neither are their templates.
- The session id that a week command reads belongs to the `fetch` parameter.
- The callback step actions are dispatched by `Handlers.CallbackAction` to the `HandlersUtils.StepDay` rules. They are not joined into one method.
- `get_total_marks` reads `mark['subperiod_code']` from period marks, which the client's decoder turns into integers. Each side is modelled on its own input and the two are not linked.
- Several bot checks raise TelegramBotError when an update has no message, user or callback query. They are modelled only as the reply to `BotError`, because the model has no update object.
