# Britto's reminder engine in Dafny

Britto is a command-line program that reads a TOML configuration of
birthdays and events, then prints a line for each one whose next
occurrence falls within a lookahead window of a number of days. This project models the engine of
`britto.go` and proves its properties:

- the configuration records;
- `parseDate`, which reads "DD/MM" or "DD/MM/YYYY" text;
- `processReminders`, which for each reminder:
  - parses the date and logs a failure, if any;
  - picks the range that applies;
  - tries this year's date and then next year's;
  - announces the first one not in the past and within the range, through its
    `printReminder` closure;
- the two calls in `main`, one for birthdays and one for events.

The model has these files:

- `wrappers.dfy`: `Option`.
- `decimal.dfy`:
  - Go's `strconv.Itoa` and `strconv.Atoi`, including the 64-bit range check of `Atoi`;
  - the zero-padded digits of the time layouts.
- `text.dfy`:
  - Go's `len`, which counts UTF-8 bytes;
  - `strings.ReplaceAll`.
- `calendar.dfy`, the part of Go's `time` package the engine uses on UTC midnights:
  - proleptic Gregorian dates and their day counts from 1 January of year 1;
  - `Time.Before` and `Time.Sub`, as integer comparison and difference of day counts;
  - `time.Date`'s normalisation of an out-of-range day;
  - `time.Parse` with the layouts `"02/01"` and `"02/01/2006"`.
- `britto.dfy`, the engine itself:
  - the records and default values;
  - `ParseDate`;
  - the candidate test `Hit` and the two-candidate scan `Scan`;
  - `Announce`, the decisions of `printReminder`;
  - the per-reminder and per-list output functions;
  - the imperative methods `PrintReminder`, `AnnounceOccurrence`,
    `ProcessReminder`, `ProcessReminders` and `Run`. Each has the loops and
    branches of the Go code and is proved equal to the corresponding output function.
- `properties.dfy`: what the engine promises, stated against `NextOccurrence`.
  `NextOccurrence` is an independent description of the occurrence a
  reminder is judged by: this year's date unless it has passed, then next year's.
- `scenarios.dfy`: concrete runs for one reminder or a short batch, with the
  default templates. Each holds for every year, except `BirthdayInFiveDays`,
  which holds for every year after the birth year 1985.

Everything `processReminders` prints is modelled as one sequence of `Line`
values, in program order. There are three kinds:
- the log line of a reminder whose date fails (`DateFailure`);
- the primary line of an announcement (`Announcement`), which records the
  template chosen and the four values substituted into it;
- the message line after it (`MessageLine`).

The moment "now" is a parameter: a valid `Date`, standing for
`time.Now().Truncate(24 * time.Hour)`.

Three consequences of the code of `parseDate` shape what is proved about dates:
- `parseDate` drops the error of `time.Parse` (britto.go:141-149). When the
  parse fails, the code skips the year step and reaches its final
  `return date, year, nil` with the zero time, 1 January of year 1, and year 0.
  So a 5- or 10-byte text that is no valid date is not an error: the reminder
  is processed like any other (`ParseDate`, `MonthFirstReadAsNewYear`), unless
  it is a one-time event given in the 5-byte form, which fails with the
  missing-year error (britto.go:159-160) as every such event does.
- Both layouts read the day first. The example events of the default
  configuration, `"12/31"` and `"12/31/2024"` (britto.go:77, 82), have a
  second field above 12, so they are read as the zero time with year 0
  (`DefaultEventsReadAsNewYear`). Month-first text whose two fields are both
  at most 12 is a valid date with day and month exchanged
  (`MonthFirstSmallFieldsSwapped`). The example birthdays, `"01/01/2000"` and
  `"07/01/2000"`, are day first and are read as written (`DefaultBirthdaysParse`).
- The year error of `strconv.Atoi` (britto.go:150-153, `YearNotNumeric`)
  cannot occur: `time.Parse` has already required four digits there
  (`Decimal.AtoiOfDigits`).

## Model

| member | source | states |
|---|---|---|
| Britto.ParseDate | britto.go:130-164 | It fails exactly when the text is empty (no date), when its length in bytes is neither 5 nor 10 (bad format), or when a one-time event has a 5-byte date (missing year). A valid DD/MM gives that day in now's year, through time.Date, and now's year. A valid DD/MM/YYYY gives that date, and the year that Atoi reads from its last four characters. Any other text of 5 or 10 bytes gives the zero time and year 0, with no error. |
| Britto.EffectiveRange | britto.go:174-178 | The reminder's own range when it is set, else the category default. |
| Britto.Hit | britto.go:216-221 | A candidate is taken exactly when its offset from now, in days, lies in 0..rangeDays; on midnights the test for a date before now adds nothing to that. A taken candidate carries that date and that offset. |
| Britto.Scan | britto.go:214-225 | A match is this year's or next year's candidate, with its offset in 0..rangeDays. This year's candidate wins whenever it is within range. There is no match exactly when neither candidate is within range. |
| Britto.DuePhrase | britto.go:181-188 | The due phrase is the configured DueToday for 0 days and DueTomorrow for 1 day. For any other day count, a DueIn text in which the placeholder does not occur is printed unchanged. |
| Properties.DueInReplaced | britto.go:187 | For any configured DueIn that holds the placeholder once, after a prefix without '{', a day count other than 0 and 1 is written in place of the placeholder and the rest of the text is kept. |
| Britto.Announce | britto.go:180-212 | printReminder gives one line, or two when the message (the reminder's own, else the category default) is non-empty. The due phrase is that of the day count. For a birthday, the template is Birthday0 exactly when the age is 0, and Atoi reads the age back from the text. For an event, the Reminder template is used, and Atoi reads the day count back. The long date layout is used for birthdays, the short one for events. The second line is the message. |
| Britto.PrintReminder | britto.go:180-212 | The closure's assignments to due, msg and tmpl, and then its output, are exactly Announce. |
| Britto.OccurrenceLines | britto.go:214-225 | The year loop prints nothing exactly when no candidate matches. It prints at most two lines and never a log line. Its first line announces the reminder by name, with the due phrase of the match's offset. |
| Britto.ReminderLines | britto.go:168-225 | One reminder prints at most two lines. Its output starts with a log line exactly when its date fails, and that line is then its only one. |
| Britto.Process | britto.go:166-227 | A list of n reminders prints at most 2n lines. When every date of the list parses, nothing is logged. |
| Britto.AnnounceOccurrence | britto.go:214-225 | The loop over yearsAhead 0 and 1 prints for the first candidate that is not before now and whose offset is within 0..rangeDays, then breaks. Its output equals OccurrenceLines, the value of Scan. |
| Britto.ProcessReminder | britto.go:168-225 | One pass of the loop body: a date that fails gives one log line and stops. Otherwise, the effective range is chosen and the occurrence loop runs. The result equals ReminderLines. |
| Britto.ProcessReminders | britto.go:166-227 | The output is the output for each reminder, concatenated in list order (Process). |
| Britto.Run | britto.go:283-285 | main's output is the birthday pass, with "Birthday reminder", followed by the event pass, with "Reminder". Each pass uses its own category range and the configured templates. |
| Calendar.DaysIn | britto.go:148 | A month length is between 28 and 31 days. It is 29 exactly for February of a leap year. |
| Calendar.ParseDayMonth | britto.go:141 | time.Parse("02/01") accepts a day and month of year 0, a leap year. Printing with the same layout gives back exactly the text read. Accepted text is 5 bytes long. |
| Calendar.ParseDayMonthYear | britto.go:148 | time.Parse("02/01/2006") accepts a date with a year from 0 to 9999. Printing with the same layout gives back the text read. Accepted text is 10 bytes long, and its last four characters are the year's digits. |
| Calendar.ParseOfFormatDayMonth | britto.go:141 | Every valid day and month of year 0, printed with "02/01", is read back unchanged. |
| Calendar.ParseOfFormatDayMonthYear | britto.go:148 | Every valid date of years 0 to 9999, printed with "02/01/2006", is read back unchanged. |
| Calendar.MakeDate | britto.go:215 | time.Date always gives a valid date. It keeps any date that is already valid. |
| Calendar.MakeDateDayNumber | britto.go:215 | time.Date's result lies d - 1 days after the first of the month, which is first moved into 1..12 by whole years. |
| Calendar.NormalizeDay | britto.go:144 | Carrying an out-of-range day into the neighbouring months always gives a valid date. |
| Calendar.NormalizeDayNumber | britto.go:144 | The carried date lies d - 1 days after the first of the given month. |
| Calendar.LeapDayInCommonYear | britto.go:144 | time.Date turns 29 February of a common year into 1 March. |
| Calendar.BeforeIsCalendarOrder | britto.go:216 | On valid dates, Time.Before, modelled as `Calendar.Before`, a comparison of day counts, is the calendar order of year, then month, then day. |
| Calendar.YearStartFormula | britto.go:220 | The day count `Calendar.DayNumber` gives 1 January of year y is the closed Gregorian formula 365(y-1) + (y-1)/4 - (y-1)/100 + (y-1)/400. |
| Calendar.YearStartStep | britto.go:220 | Each year adds its own length, 365 or 366 days, to the day count. |
| Calendar.NextMonthStart | britto.go:220 | In `Calendar.DayNumber`, the first of the next month lies DaysIn days after the first of this month, also across the new year. |
| Calendar.DayOfYearBounds | britto.go:220 | A valid date's offset within its year lies between 0 and the year's length minus one. |
| Text.ByteLen | britto.go:139 | len counts at least one byte per character. The count equals the number of characters exactly when every character is ASCII. |
| Text.ReplaceAll | britto.go:187 | With a non-empty pattern, a replacement as long as the pattern keeps the length of the text, and replacing the pattern by itself gives the text back. |
| Text.ReplaceAllAbsent | britto.go:187 | strings.ReplaceAll leaves a text in which a non-empty pattern does not occur unchanged. |
| Text.ReplaceAllAfter | britto.go:187 | When nothing before the first occurrence of the pattern can start the pattern, ReplaceAll keeps that prefix and replaces the occurrence, then continues after it. |
| Decimal.Itoa | britto.go:201 | The text starts with a digit exactly for non-negative numbers, and with '-' exactly for negative ones. |
| Decimal.Atoi | britto.go:150 | Atoi accepts only values in Go's 64-bit range. A text that starts with a digit, when accepted, is read as non-negative. |
| Decimal.AtoiOfItoa | britto.go:201 | Atoi reads back every 64-bit integer that Itoa writes. |
| Decimal.AtoiOfDigits | britto.go:150 | Atoi reads a string of one to four digits as its plain decimal value, so the year read never errs. |
| Decimal.DigitsValueOfZeroPad | britto.go:141 | Reading back a zero-padded number that fits its width gives the number. |
| Decimal.ZeroPadOfDigitsValue | britto.go:141 | Printing the value of a digit string, zero-padded to the string's width, gives the string back. |
| Properties.NextOccurrence | britto.go:214-219 | The occurrence a reminder is judged by is a valid date: this year's, or next year's when this year's has passed. |
| Properties.NextYearLater | britto.go:214-215 | Next year's candidate always lies after this year's, whatever the month and day, including the 29 February carry. |
| Properties.NextYearAfter | britto.go:214-218 | Next year's candidate is never before now, so the loop never skips both candidates as past. |
| Properties.NextOccurrenceNotPast | britto.go:214-220 | The occurrence considered is not before now and its offset is not negative. Its offset is 0 exactly when it is today. It is this year's date unless that one has passed. |
| Properties.ScanIsNextOccurrence | britto.go:214-225 | The year loop finds a match exactly when the offset of NextOccurrence is at most the range, and then it finds that occurrence and its offset. If this year's date is upcoming but too far, next year's, which lies later, is too far as well. |
| Properties.ReminderOutcome | britto.go:167-225 | A reminder whose date fails gives exactly its log line. Any other reminder is announced for NextOccurrence, with that offset, exactly when the offset is within its effective range. Otherwise it gives nothing. |
| Properties.NegativeRangeNeverAnnounced | britto.go:221 | A reminder whose effective range is negative is never announced. It only logs a failure, if its date fails. |
| Properties.AnnouncedAtMostOnce | britto.go:222-223 | A reminder prints at most two lines, thanks to the break. Every line after the first is a message line, and a single line is never a message line. |
| Properties.ProcessAppend | britto.go:167 | The output for a list that is the concatenation of two lists is the output for the first followed by the output for the second. |
| Properties.ProcessLast | britto.go:167 | The last reminder of a list is processed after all the others. |
| Properties.ProcessSingle | britto.go:167 | A one-reminder list prints that reminder's lines. |
| Properties.FailedReminderSkipped | britto.go:169-172 | A reminder whose date fails contributes its log line only. The reminders before and after it print what they would print without it. |
| Properties.MessagesFollowAppend | britto.go:209-211 | The property "every primary line is followed by a message line" is kept by concatenation. |
| Properties.ReminderMessagesFollow | britto.go:190-193 | With a non-empty category message, every announcement of a reminder is followed by a message line. |
| Properties.ProcessMessagesFollow | britto.go:166-227 | With a non-empty category message, every announcement in a list's output is followed by a message line. |
| Properties.RunMessagesFollow | britto.go:283-285 | Both of main's category messages are non-empty, so each announcement of a run is followed by a message line. |
| Properties.DefaultDueIn | britto.go:181-188 | With the default template (britto.go:52-54), the due phrase is "today" for 0 days, "tomorrow" for 1 day, and "in <d> days" for any other day count d. |
| Properties.MakeDateKeepsYear | britto.go:144 | Rebuilding a day and month from time.Parse in year y stays in year y. It keeps the date, except that 29 February of a common year becomes 1 March. |
| Properties.NextOccurrenceYear | britto.go:214-219 | For a day and month read from text, the occurrence lies in now's year, or in the next year once this year's date has passed. |
| Properties.YearlessBirthdayAge | britto.go:195-200 | A birthday without a year is announced with age 0, and the Birthday0 template, exactly when this year's date is still to come. Otherwise it gets age 1. |
| Properties.LeapDayShortText | britto.go:141 | "29/02" is accepted by time.Parse("02/01"), because year 0 is a leap year. |
| Properties.LeapDayLongText | britto.go:148 | "29/02/2000" is accepted by time.Parse("02/01/2006"). |
| Properties.LeapDayWithoutYear | britto.go:139-145 | In a common year, "29/02" is read as 1 March of now's year. |
| Properties.LeapDayBirthDate | britto.go:146-219 | "29/02/2000" keeps its date. In a common year, the occurrence of 29 February is 1 March of that year while that day has not passed. |
| Properties.OneTimeFlagOnlyForShortDates | britto.go:159-161 | The one-time flag changes the result only for 5-byte text, which it turns into the missing-year error. |
| Properties.MonthFirstShortText | britto.go:141 | "12/31" is rejected by time.Parse("02/01"), since 31 is not a month. |
| Properties.MonthFirstLongText | britto.go:148 | "12/31/2024" is rejected by time.Parse("02/01/2006"). |
| Properties.MonthFirstReadAsNewYear | britto.go:139-161 | Text whose second field is above 12, "12/31" and "12/31/2024", is read without an error as the zero time with year 0. The one-time flag leaves the 10-byte form so and turns the 5-byte form into the missing-year error. |
| Properties.MonthFirstSmallFieldsSwapped | britto.go:139-145 | Month-first text whose fields are both at most 12, "05/06" meant as 6 May, is read without an error as 5 June of now's year. |
| Properties.SmallFieldsText | britto.go:141 | "05/06" is accepted by time.Parse("02/01") as 5 June. |
| Properties.FirstBirthdayText | britto.go:148 | "01/01/2000" is accepted by time.Parse("02/01/2006") as 1 January 2000. |
| Properties.SecondBirthdayText | britto.go:148 | "07/01/2000" is accepted by time.Parse("02/01/2006") as 7 January 2000. |
| Properties.LongDateParsed | britto.go:146-163 | Text accepted by "02/01/2006" is read by parseDate as that date with its own year, with or without the one-time flag. |
| Properties.DefaultBirthdaysParse | britto.go:62-72 | The two birthdays of the default configuration are read as 1 January 2000 and 7 January 2000, each with year 2000. |
| Properties.DefaultEventsReadAsNewYear | britto.go:73-84 | The two events of the default configuration are read as the zero time with year 0. |
| Scenarios.BirthdayInFiveDays | britto.go:180-225 | A birthday from 1985, five days ahead with a range of 10, is announced with the Birthday template. Its age is the year minus 1985, then comes "in 5 days", its date in the long layout and the message "Birthday reminder". |
| Scenarios.BirthdayToday | britto.go:195-200 | A yearless birthday that falls today has age 0, the Birthday0 template and "today". |
| Scenarios.EventAcrossNewYear | britto.go:214-224 | On 31 December, "01/01" has already passed this year. So next year's date, one day ahead, is announced with "tomorrow" and a day count of 1. |
| Scenarios.EventBeyondRange | britto.go:221 | An event 20 days ahead with the event range of 15 prints nothing. |
| Scenarios.OwnRangeOverridesDefault | britto.go:174-178 | The same event with a range of its own, 25, is announced with "in 20 days" and its own message. |
| Scenarios.OneTimeEventWithoutYearSkipped | britto.go:159-172 | A one-time event without a year is logged with the missing-year error, and the next event of the batch is still announced. |

## Left out

- Loading the configuration (`loadConfig`), writing the default one (`saveDefaultConfig`), the `-config` flag, the configuration directory and every `log.Fatalf`: these are file-system and process I/O. Fields missing from the TOML file keep Go's zero values, because loading does not merge defaults. That is outside the model.
- `time.Now()` and `Truncate`: "now" is a parameter. The model takes it as a UTC midnight. `now.Year()` is read in the local time zone, which at the turn of the year can differ from the UTC date. Time zones are not modelled.
- `Time.Sub(...).Hours() / 24` goes through floating point. Between two midnights it is an exact multiple of 24 hours, so the model uses the exact difference of day counts.
- `formatTemplate` and `text/template`: a primary line is the template it selects plus the four values it substitutes. The rendered text, and the fatal error for a malformed template, are not modelled.
- `Time.Format` with the configured layouts: a printed date is the pair of layout and date (`FormattedDate`).
- `fmt.Println` and `log.Printf`: standard output and the log are merged into one sequence of lines, in program order. Log prefixes and exact message wording are not modelled. A failure carries the `DateError` that names it.
- `time.Parse` is modelled only for the two layouts the engine uses and only for the features these need. Text `time.Parse` rejects is `None`, whatever Go's error message would be.
- Britto.Announce: Atoi is shown to read the age or day count back from the printed text only when the value is within Go's 64-bit range. The model's integers are unbounded and the model does not wrap around as Go's `int` would.
