/**
 * The reminder engine of britto.go: the configuration records, parseDate,
 * processReminders (the reminder loop, the choice between this year's and
 * next year's occurrence, and the decisions of its printReminder closure),
 * and the two passes main makes over birthdays and events.
 *
 * Everything processReminders prints is appended, in program order, to one
 * sequence of Line values: the log line of a reminder whose date fails, the
 * primary line of an announced reminder (the template it selects and the four
 * values it substitutes into it) and the message line after it.
 */
module Britto {
  import opened Wrappers
  import opened Decimal
  import opened Text
  import opened Calendar

  /** One [[Birthday]] or [[Reminder]] entry of the configuration. */
  datatype Reminder = Reminder(
    name: string,
    date: string,
    message: string,
    oneTimeEvent: bool,
    reminderRange: Option<int>)

  /** The default lookahead, in days, of each category. */
  datatype ReminderRange = ReminderRange(birthdays: int, events: int)

  datatype TemplateConfig = TemplateConfig(
    dueToday: string,
    dueTomorrow: string,
    dueIn: string,
    dateFormatShort: string,
    dateFormat: string,
    birthday0: string,
    birthday: string,
    reminder: string)

  datatype Config = Config(
    birthdays: seq<Reminder>,
    reminders: seq<Reminder>,
    reminderRange: ReminderRange,
    template: TemplateConfig)

  /** The placeholder of DueIn that is replaced by the number of days. */
  const AGE_OR_DAYS: string := "{{.AgeOrDays}}"

  const DEFAULT_TEMPLATE: TemplateConfig := TemplateConfig(
    "today",
    "tomorrow",
    "in {{.AgeOrDays}} days",
    "01/06",
    "02/01/2006",
    "[{{.Name}}]'s birthday is {{.Due}}! {{.Date}}\n",
    "[{{.Name}}] is turning {{.AgeOrDays}} years old {{.Due}}! {{.Date}}",
    "[{{.Name}}] is due {{.Due}}! {{.Date}} - {{.Due}}")

  /** The configuration written when none exists. */
  const DEFAULT_CONFIG: Config := Config(
    [ Reminder("Example Person", "01/01/2000", "", false, None),
      Reminder("Example Person 2", "07/01/2000",
               "Example Person's birthday is on 07/01/2000. Remember to buy a present", false, None) ],
    [ Reminder("Example Event", "12/31", "Don't forget about the Example Event!", false, None),
      Reminder("Example Event 2", "12/31/2024", "", true, None) ],
    ReminderRange(10, 15),
    DEFAULT_TEMPLATE)

  /** The errors parseDate reports. */
  datatype DateError =
    | DateNotProvided     // "date not provided"
    | YearNotNumeric      // "failed to parse year: ..."
    | InvalidDateFormat   // "invalid date format"
    | MissingYear         // "one-time event requires year specification"

  /** What parseDate returns: the date and the year, or an error. */
  datatype ParsedDate = Parsed(date: Date, year: int) | Failed(error: DateError)

  /**
   * parseDate. The text is told apart by its length in bytes only: 5 bytes is
   * DD/MM, 10 bytes is DD/MM/YYYY. An error of time.Parse is dropped, so a
   * malformed text of either length yields the zero time and year 0, unless
   * it is a one-time event in the 5-byte form, which fails with the missing
   * year as every such event does.
   */
  function ParseDate(dateStr: string, now: Date, oneTimeEvent: bool): (r: ParsedDate)
    ensures r.Failed? <==>
      dateStr == "" || (ByteLen(dateStr) != 5 && ByteLen(dateStr) != 10) || (oneTimeEvent && ByteLen(dateStr) == 5)
    ensures r == Failed(DateNotProvided) <==> dateStr == ""
    ensures r == Failed(InvalidDateFormat) <==> dateStr != "" && ByteLen(dateStr) != 5 && ByteLen(dateStr) != 10
    ensures r == Failed(MissingYear) <==> dateStr != "" && oneTimeEvent && ByteLen(dateStr) == 5
    ensures r.Parsed? ==> ValidDate(r.date)
    // A well-formed DD/MM: that day and month, rebuilt in now's year, and now's year.
    ensures r.Parsed? && ParseDayMonth(dateStr).Some? ==>
      var t := ParseDayMonth(dateStr).value;
      r.year == now.year && r.date == MakeDate(now.year, t.month, t.day)
    // A well-formed DD/MM/YYYY: that date, and the integer the last four characters spell.
    ensures r.Parsed? && ParseDayMonthYear(dateStr).Some? ==>
      r.date == ParseDayMonthYear(dateStr).value && Atoi(dateStr[6..]) == Some(r.year) && r.year == r.date.year
    // A malformed text of an accepted length: the zero time and year 0, and no error.
    ensures r.Parsed? && ParseDayMonth(dateStr).None? && ParseDayMonthYear(dateStr).None? ==>
      r == Parsed(ZERO_TIME, 0)
  {
    if dateStr == "" then
      Failed(DateNotProvided)
    else if ByteLen(dateStr) == 5 then
      var parsed := match ParseDayMonth(dateStr)
        case Some(t) => Parsed(MakeDate(now.year, t.month, t.day), now.year)
        case None => Parsed(ZERO_TIME, 0);
      if oneTimeEvent then Failed(MissingYear) else parsed
    else if ByteLen(dateStr) == 10 then
      match ParseDayMonthYear(dateStr)
      case None => Parsed(ZERO_TIME, 0)
      case Some(t) =>
        AtoiOfDigits(dateStr[6..]);
        match Atoi(dateStr[6..])
        case None => Failed(YearNotNumeric)
        case Some(year) => Parsed(t, year)
    else
      Failed(InvalidDateFormat)
  }

  /** The lookahead of one reminder: its own ReminderRange when set, else the category's. */
  function EffectiveRange(reminder: Reminder, defaultRange: int): (rangeDays: int)
    ensures reminder.reminderRange.Some? ==> rangeDays == reminder.reminderRange.value
    ensures reminder.reminderRange.None? ==> rangeDays == defaultRange
  {
    match reminder.reminderRange
    case Some(n) => n
    case None => defaultRange
  }

  /** The occurrence the selection loop settles on, and its distance from now in days. */
  datatype Occurrence = Occurrence(daysUntil: int, date: Date)

  /**
   * The test applied to one candidate: a candidate strictly before now is
   * skipped, and one whose day offset lies in 0..rangeDays is taken.
   */
  function Hit(now: Date, nextDate: Date, rangeDays: int): (r: Option<Occurrence>)
    requires ValidDate(now) && ValidDate(nextDate)
    // The test for being in the past is subsumed by the lower bound of the offset.
    ensures r.Some? <==> 0 <= DayNumber(nextDate) - DayNumber(now) <= rangeDays
    ensures r.Some? ==> r.value.date == nextDate && r.value.daysUntil == DayNumber(nextDate) - DayNumber(now)
  {
    if Before(nextDate, now) then None
    else
      var daysUntilDate := DayNumber(nextDate) - DayNumber(now);
      if daysUntilDate <= rangeDays && daysUntilDate >= 0 then Some(Occurrence(daysUntilDate, nextDate))
      else None
  }

  /**
   * The loop over yearsAhead in {0, 1}: the first candidate, this year's
   * date and then next year's, that Hit takes.
   */
  function Scan(now: Date, month: int, day: int, rangeDays: int): (r: Option<Occurrence>)
    requires ValidDate(now)
    ensures r.Some? ==>
      (r.value.date == MakeDate(now.year, month, day) || r.value.date == MakeDate(now.year + 1, month, day))
      && r.value.daysUntil == DayNumber(r.value.date) - DayNumber(now)
      && 0 <= r.value.daysUntil <= rangeDays
    // This year's date wins whenever it is within range.
    ensures 0 <= DayNumber(MakeDate(now.year, month, day)) - DayNumber(now) <= rangeDays ==>
      r.Some? && r.value.date == MakeDate(now.year, month, day)
    ensures r.None? <==>
      !(0 <= DayNumber(MakeDate(now.year, month, day)) - DayNumber(now) <= rangeDays)
      && !(0 <= DayNumber(MakeDate(now.year + 1, month, day)) - DayNumber(now) <= rangeDays)
  {
    match Hit(now, MakeDate(now.year, month, day), rangeDays)
    case Some(o) => Some(o)
    case None => Hit(now, MakeDate(now.year + 1, month, day), rangeDays)
  }

  /** Which of the three templates a primary line uses. */
  datatype TemplateId = UseBirthday0 | UseBirthday | UseReminder

  /** A date and the Go layout it is printed with; the printing is the time package's. */
  datatype FormattedDate = FormattedDate(layout: string, date: Date)

  /** One line of output. */
  datatype Line =
    | DateFailure(name: string, error: DateError)
    | Announcement(template: TemplateId, name: string, ageOrDays: string, due: string, date: FormattedDate)
    | MessageLine(text: string)

  /** The due phrase: DueToday, DueTomorrow, or DueIn with the placeholder replaced by the day count. */
  function DuePhrase(daysUntilDate: int, t: TemplateConfig): (due: string)
    ensures daysUntilDate == 0 ==> due == t.dueToday
    ensures daysUntilDate == 1 ==> due == t.dueTomorrow
    // A DueIn without the placeholder is printed as it stands.
    ensures daysUntilDate != 0 && daysUntilDate != 1
      && (forall i :: 0 <= i < |t.dueIn| ==> !Occurs(t.dueIn, AGE_OR_DAYS, i))
      ==> due == t.dueIn
  {
    if daysUntilDate == 0 then t.dueToday
    else if daysUntilDate == 1 then t.dueTomorrow
    else
      ReplaceAllAbsent(t.dueIn, AGE_OR_DAYS, Itoa(daysUntilDate));
      ReplaceAll(t.dueIn, AGE_OR_DAYS, Itoa(daysUntilDate))
  }

  /**
   * printReminder: the primary line, then the message line (the reminder's
   * own Message, else the category default) unless that message is empty.
   */
  function Announce(
    reminder: Reminder, daysUntilDate: int, nextDate: Date, year: int,
    defaultMsg: string, isBirthday: bool, t: TemplateConfig): (lines: seq<Line>)
    ensures |lines| == (if reminder.message == "" && defaultMsg == "" then 1 else 2)
    ensures lines[0].Announcement? && lines[0].name == reminder.name
    ensures lines[0].due == DuePhrase(daysUntilDate, t)
    ensures isBirthday ==>
      (lines[0].template == UseBirthday0 <==> nextDate.year == year)
      && lines[0].template != UseReminder
      && (INT64_MIN <= nextDate.year - year <= INT64_MAX ==> Atoi(lines[0].ageOrDays) == Some(nextDate.year - year))
      && lines[0].date == FormattedDate(t.dateFormat, nextDate)
    ensures !isBirthday ==>
      lines[0].template == UseReminder
      && (INT64_MIN <= daysUntilDate <= INT64_MAX ==> Atoi(lines[0].ageOrDays) == Some(daysUntilDate))
      && lines[0].date == FormattedDate(t.dateFormatShort, nextDate)
    ensures |lines| == 2 ==> lines[1] == MessageLine(if reminder.message != "" then reminder.message else defaultMsg)
  {
    var due := DuePhrase(daysUntilDate, t);
    var msg := if reminder.message == "" then defaultMsg else reminder.message;
    var age := nextDate.year - year;
    var shown := if isBirthday then age else daysUntilDate;
    var primary :=
      if isBirthday then
        Announcement(if age == 0 then UseBirthday0 else UseBirthday,
                     reminder.name, Itoa(age), due, FormattedDate(t.dateFormat, nextDate))
      else
        Announcement(UseReminder, reminder.name, Itoa(daysUntilDate), due, FormattedDate(t.dateFormatShort, nextDate));
    var lines := [primary] + if msg != "" then [MessageLine(msg)] else [];
    if INT64_MIN <= shown <= INT64_MAX then
      AtoiOfItoa(shown);
      lines
    else
      lines
  }

  /** The printReminder closure: it settles due, msg and the template, then prints. */
  method PrintReminder(
    reminder: Reminder, daysUntilDate: int, nextDate: Date, year: int,
    defaultMsg: string, isBirthday: bool, templateCfg: TemplateConfig) returns (lines: seq<Line>)
    ensures lines == Announce(reminder, daysUntilDate, nextDate, year, defaultMsg, isBirthday, templateCfg)
  {
    var due: string;
    if daysUntilDate == 0 {
      due := templateCfg.dueToday;
    } else if daysUntilDate == 1 {
      due := templateCfg.dueTomorrow;
    } else {
      due := ReplaceAll(templateCfg.dueIn, AGE_OR_DAYS, Itoa(daysUntilDate));
    }

    var msg := reminder.message;
    if msg == "" {
      msg := defaultMsg;
    }

    if isBirthday {
      var age := nextDate.year - year;
      var tmpl := UseBirthday;
      if age == 0 {
        tmpl := UseBirthday0;
      }
      lines := [Announcement(tmpl, reminder.name, Itoa(age), due, FormattedDate(templateCfg.dateFormat, nextDate))];
    } else {
      lines := [Announcement(UseReminder, reminder.name, Itoa(daysUntilDate), due,
                             FormattedDate(templateCfg.dateFormatShort, nextDate))];
    }

    if msg != "" {
      lines := lines + [MessageLine(msg)];
    }
  }

  /** What the loop over yearsAhead prints for a reminder whose date parsed. */
  function OccurrenceLines(
    reminder: Reminder, now: Date, date: Date, year: int, rangeDays: int,
    defaultMsg: string, isBirthday: bool, t: TemplateConfig): (lines: seq<Line>)
    requires ValidDate(now)
    ensures lines == [] <==> Scan(now, date.month, date.day, rangeDays).None?
    ensures |lines| <= 2 && forall i :: 0 <= i < |lines| ==> !lines[i].DateFailure?
    ensures lines != [] ==>
      var o := Scan(now, date.month, date.day, rangeDays).value;
      lines[0].Announcement? && lines[0].name == reminder.name && lines[0].due == DuePhrase(o.daysUntil, t)
  {
    match Scan(now, date.month, date.day, rangeDays)
    case None => []
    case Some(o) => Announce(reminder, o.daysUntil, o.date, year, defaultMsg, isBirthday, t)
  }

  /** Everything processReminders prints for one reminder. */
  function ReminderLines(
    reminder: Reminder, now: Date, defaultMsg: string, isBirthday: bool,
    defaultRange: int, t: TemplateConfig): (lines: seq<Line>)
    requires ValidDate(now)
    ensures |lines| <= 2
    // The log line comes exactly from a date that fails, and it is the only line then.
    ensures ParseDate(reminder.date, now, reminder.oneTimeEvent).Failed? <==> lines != [] && lines[0].DateFailure?
    ensures ParseDate(reminder.date, now, reminder.oneTimeEvent).Failed? ==> |lines| == 1
  {
    match ParseDate(reminder.date, now, reminder.oneTimeEvent)
    case Failed(e) => [DateFailure(reminder.name, e)]
    case Parsed(date, year) =>
      OccurrenceLines(reminder, now, date, year, EffectiveRange(reminder, defaultRange), defaultMsg, isBirthday, t)
  }

  /** Everything processReminders prints for a list of reminders, in list order. */
  function Process(
    reminders: seq<Reminder>, now: Date, defaultMsg: string, isBirthday: bool,
    defaultRange: int, t: TemplateConfig): (out: seq<Line>)
    requires ValidDate(now)
    ensures |out| <= 2 * |reminders|
    // Without a date that fails, nothing is logged.
    ensures (forall r :: r in reminders ==> ParseDate(r.date, now, r.oneTimeEvent).Parsed?) ==>
      forall i :: 0 <= i < |out| ==> !out[i].DateFailure?
  {
    if reminders == [] then []
    else
      var init := reminders[..|reminders| - 1];
      assert forall r :: r in init ==> r in reminders;
      Process(init, now, defaultMsg, isBirthday, defaultRange, t)
      + ReminderLines(reminders[|reminders| - 1], now, defaultMsg, isBirthday, defaultRange, t)
  }

  /**
   * The inner loop of processReminders over yearsAhead in {0, 1}: it prints
   * for the first candidate that is not before now and whose offset is within
   * rangeDays, then stops.
   */
  method AnnounceOccurrence(
    reminder: Reminder, now: Date, date: Date, year: int, rangeDays: int,
    defaultMsg: string, isBirthday: bool, templateCfg: TemplateConfig) returns (lines: seq<Line>)
    requires ValidDate(now)
    ensures lines == OccurrenceLines(reminder, now, date, year, rangeDays, defaultMsg, isBirthday, templateCfg)
  {
    lines := [];
    for yearsAhead := 0 to 2
      invariant lines == []
      invariant yearsAhead >= 1 ==> Hit(now, MakeDate(now.year, date.month, date.day), rangeDays) == None
      invariant yearsAhead >= 2 ==> Hit(now, MakeDate(now.year + 1, date.month, date.day), rangeDays) == None
    {
      var nextDate := MakeDate(now.year + yearsAhead, date.month, date.day);
      if Before(nextDate, now) {
        assert Hit(now, nextDate, rangeDays) == None;
        continue;
      }
      var daysUntilDate := DayNumber(nextDate) - DayNumber(now);
      if daysUntilDate <= rangeDays && daysUntilDate >= 0 {
        assert Scan(now, date.month, date.day, rangeDays) == Some(Occurrence(daysUntilDate, nextDate)) by {
          assert Hit(now, nextDate, rangeDays) == Some(Occurrence(daysUntilDate, nextDate));
          if yearsAhead == 0 {
            assert nextDate == MakeDate(now.year, date.month, date.day);
          } else {
            assert nextDate == MakeDate(now.year + 1, date.month, date.day);
          }
        }
        lines := PrintReminder(reminder, daysUntilDate, nextDate, year, defaultMsg, isBirthday, templateCfg);
        break;
      }
      assert Hit(now, nextDate, rangeDays) == None;
    }
  }

  /**
   * The body of the loop of processReminders for one reminder. The continue
   * after a failed date is the early return here.
   */
  method ProcessReminder(
    reminder: Reminder, now: Date, defaultMsg: string, isBirthday: bool,
    defaultRange: int, templateCfg: TemplateConfig) returns (lines: seq<Line>)
    requires ValidDate(now)
    ensures lines == ReminderLines(reminder, now, defaultMsg, isBirthday, defaultRange, templateCfg)
  {
    var parsed := ParseDate(reminder.date, now, reminder.oneTimeEvent);
    if parsed.Failed? {
      lines := [DateFailure(reminder.name, parsed.error)];
      return;
    }

    var rangeDays := defaultRange;
    if reminder.reminderRange.Some? {
      rangeDays := reminder.reminderRange.value;
    }

    lines := AnnounceOccurrence(reminder, now, parsed.date, parsed.year, rangeDays, defaultMsg, isBirthday, templateCfg);
  }

  /** processReminders, with its output collected instead of printed. */
  method ProcessReminders(
    reminders: seq<Reminder>, now: Date, defaultMsg: string, isBirthday: bool,
    defaultRange: int, templateCfg: TemplateConfig) returns (out: seq<Line>)
    requires ValidDate(now)
    ensures out == Process(reminders, now, defaultMsg, isBirthday, defaultRange, templateCfg)
  {
    out := [];
    for i := 0 to |reminders|
      invariant out == Process(reminders[..i], now, defaultMsg, isBirthday, defaultRange, templateCfg)
    {
      assert reminders[..i + 1][..i] == reminders[..i];
      var lines := ProcessReminder(reminders[i], now, defaultMsg, isBirthday, defaultRange, templateCfg);
      out := out + lines;
    }
    assert reminders[..|reminders|] == reminders;
  }

  /** The two passes of main: birthdays, then the other reminders. */
  method Run(config: Config, now: Date) returns (out: seq<Line>)
    requires ValidDate(now)
    ensures out ==
      Process(config.birthdays, now, "Birthday reminder", true, config.reminderRange.birthdays, config.template)
      + Process(config.reminders, now, "Reminder", false, config.reminderRange.events, config.template)
  {
    var birthdayLines := ProcessReminders(
      config.birthdays, now, "Birthday reminder", true, config.reminderRange.birthdays, config.template);
    var eventLines := ProcessReminders(
      config.reminders, now, "Reminder", false, config.reminderRange.events, config.template);
    out := birthdayLines + eventLines;
  }
}
