/**
 * What processReminders promises, stated against an independent description
 * of the occurrence it settles on, and the concatenation structure of its
 * output.
 */
module Properties {
  import opened Wrappers
  import opened Decimal
  import opened Text
  import opened Calendar
  import opened Britto

  /** The occurrence a reminder is judged by: this year's, unless it has already passed. */
  function NextOccurrence(now: Date, month: int, day: int): (c: Date)
    requires ValidDate(now)
    ensures ValidDate(c)
  {
    var thisYear := MakeDate(now.year, month, day);
    if Before(thisYear, now) then MakeDate(now.year + 1, month, day) else thisYear
  }

  /** The distance in days from now to a date (the whole of Time.Sub divided by 24 hours). */
  function DaysFrom(now: Date, t: Date): int
    requires ValidDate(now) && ValidDate(t)
  {
    DayNumber(t) - DayNumber(now)
  }

  /** Next year's candidate follows this year's, whatever the day and month. */
  lemma NextYearLater(y: int, month: int, day: int)
    requires 1 <= month <= 12
    ensures DayNumber(MakeDate(y, month, day)) < DayNumber(MakeDate(y + 1, month, day))
  {
    MakeDateDayNumber(y, month, day);
    MakeDateDayNumber(y + 1, month, day);
    assert (month - 1) / 12 == 0 && (month - 1) % 12 + 1 == month;
    YearStartStep(y);
  }

  /** Every day of year y lies before the first of any month of year y + 1 on. */
  lemma NextYearAfter(now: Date, month: int, day: int)
    requires ValidDate(now) && 1 <= month <= 12 && 1 <= day
    ensures !Before(MakeDate(now.year + 1, month, day), now)
  {
    DayOfYearBounds(now);
    YearStartStep(now.year);
    MakeDateDayNumber(now.year + 1, month, day);
    assert (month - 1) / 12 == 0 && (month - 1) % 12 + 1 == month;
  }

  /**
   * The occurrence considered is never before now, so its offset is never
   * negative; this year's is considered unless it has passed, and the offset
   * is 0 exactly when the occurrence is today.
   */
  lemma NextOccurrenceNotPast(now: Date, month: int, day: int)
    requires ValidDate(now) && 1 <= month <= 12 && 1 <= day
    ensures !Before(NextOccurrence(now, month, day), now)
    ensures DaysFrom(now, NextOccurrence(now, month, day)) >= 0
    ensures DaysFrom(now, NextOccurrence(now, month, day)) == 0 <==> NextOccurrence(now, month, day) == now
    ensures NextOccurrence(now, month, day) ==
      (if Before(MakeDate(now.year, month, day), now) then MakeDate(now.year + 1, month, day)
       else MakeDate(now.year, month, day))
  {
    NextYearAfter(now, month, day);
    var c := NextOccurrence(now, month, day);
    BeforeIsCalendarOrder(c, now);
    BeforeIsCalendarOrder(now, c);
  }

  /**
   * The inner loop announces the occurrence considered exactly when its offset
   * is at most rangeDays: when this year's date is upcoming but too far away,
   * next year's, which lies later still, is too far away as well.
   */
  lemma {:induction false} ScanIsNextOccurrence(now: Date, month: int, day: int, rangeDays: int)
    requires ValidDate(now) && 1 <= month <= 12 && 1 <= day
    ensures
      var c := NextOccurrence(now, month, day);
      Scan(now, month, day, rangeDays) ==
        if DaysFrom(now, c) <= rangeDays then Some(Occurrence(DaysFrom(now, c), c)) else None
  {
    var thisYear := MakeDate(now.year, month, day);
    var nextYear := MakeDate(now.year + 1, month, day);
    NextYearLater(now.year, month, day);
    NextYearAfter(now, month, day);
    if Before(thisYear, now) {
      assert Hit(now, thisYear, rangeDays) == None;
    } else if DaysFrom(now, thisYear) > rangeDays {
      assert Hit(now, thisYear, rangeDays) == None;
      assert Hit(now, nextYear, rangeDays) == None;
    }
  }

  /**
   * One reminder: a date that fails is logged with its error and nothing
   * else; any other reminder is announced for its next occurrence exactly
   * when the offset of that occurrence is at most its effective range.
   */
  lemma ReminderOutcome(
    reminder: Reminder, now: Date, defaultMsg: string, isBirthday: bool,
    defaultRange: int, t: TemplateConfig)
    requires ValidDate(now)
    ensures
      var lines := ReminderLines(reminder, now, defaultMsg, isBirthday, defaultRange, t);
      match ParseDate(reminder.date, now, reminder.oneTimeEvent)
      case Failed(e) => lines == [DateFailure(reminder.name, e)]
      case Parsed(date, year) =>
        var c := NextOccurrence(now, date.month, date.day);
        lines ==
          if DaysFrom(now, c) <= EffectiveRange(reminder, defaultRange)
          then Announce(reminder, DaysFrom(now, c), c, year, defaultMsg, isBirthday, t)
          else []
  {
    match ParseDate(reminder.date, now, reminder.oneTimeEvent)
    case Failed(e) =>
    case Parsed(date, year) =>
      ScanIsNextOccurrence(now, date.month, date.day, EffectiveRange(reminder, defaultRange));
  }

  /** A reminder whose effective range is negative is never announced. */
  lemma NegativeRangeNeverAnnounced(
    reminder: Reminder, now: Date, defaultMsg: string, isBirthday: bool,
    defaultRange: int, t: TemplateConfig)
    requires ValidDate(now) && EffectiveRange(reminder, defaultRange) < 0
    ensures
      var lines := ReminderLines(reminder, now, defaultMsg, isBirthday, defaultRange, t);
      lines == [] || (|lines| == 1 && lines[0].DateFailure?)
  {
    ReminderOutcome(reminder, now, defaultMsg, isBirthday, defaultRange, t);
    var p := ParseDate(reminder.date, now, reminder.oneTimeEvent);
    if p.Parsed? {
      NextOccurrenceNotPast(now, p.date.month, p.date.day);
    }
  }

  /**
   * Each reminder is announced at most once: its output is empty, one log
   * line, or one primary line optionally followed by one message line.
   */
  lemma AnnouncedAtMostOnce(
    reminder: Reminder, now: Date, defaultMsg: string, isBirthday: bool,
    defaultRange: int, t: TemplateConfig)
    requires ValidDate(now)
    ensures
      var lines := ReminderLines(reminder, now, defaultMsg, isBirthday, defaultRange, t);
      |lines| <= 2
      && (forall i :: 0 < i < |lines| ==> lines[i].MessageLine?)
      && (|lines| == 1 ==> !lines[0].MessageLine?)
  {
    ReminderOutcome(reminder, now, defaultMsg, isBirthday, defaultRange, t);
  }

  /** The output for a list of reminders is the output for each part, in order. */
  lemma {:induction false} ProcessAppend(
    a: seq<Reminder>, b: seq<Reminder>, now: Date, defaultMsg: string, isBirthday: bool,
    defaultRange: int, t: TemplateConfig)
    requires ValidDate(now)
    ensures Process(a + b, now, defaultMsg, isBirthday, defaultRange, t)
      == Process(a, now, defaultMsg, isBirthday, defaultRange, t)
       + Process(b, now, defaultMsg, isBirthday, defaultRange, t)
    decreases |b|
  {
    if b == [] {
      assert a + b == a;
    } else {
      var init := b[..|b| - 1];
      assert b == init + [b[|b| - 1]];
      assert a + b == (a + init) + [b[|b| - 1]];
      ProcessAppend(a, init, now, defaultMsg, isBirthday, defaultRange, t);
      ProcessLast(a + b, a + init, b[|b| - 1], now, defaultMsg, isBirthday, defaultRange, t);
      ProcessLast(b, init, b[|b| - 1], now, defaultMsg, isBirthday, defaultRange, t);
      var x := Process(a, now, defaultMsg, isBirthday, defaultRange, t);
      var y := Process(init, now, defaultMsg, isBirthday, defaultRange, t);
      var z := ReminderLines(b[|b| - 1], now, defaultMsg, isBirthday, defaultRange, t);
      AppendAssociative(x, y, z);
    }
  }

  lemma AppendAssociative(x: seq<Line>, y: seq<Line>, z: seq<Line>)
    ensures (x + y) + z == x + (y + z)
  {
  }

  /** The last reminder of a list is processed after all the others. */
  lemma ProcessLast(
    rs: seq<Reminder>, init: seq<Reminder>, last: Reminder, now: Date, defaultMsg: string,
    isBirthday: bool, defaultRange: int, t: TemplateConfig)
    requires ValidDate(now) && rs == init + [last]
    ensures Process(rs, now, defaultMsg, isBirthday, defaultRange, t)
      == Process(init, now, defaultMsg, isBirthday, defaultRange, t)
       + ReminderLines(last, now, defaultMsg, isBirthday, defaultRange, t)
  {
    assert rs[..|rs| - 1] == init;
  }

  /** The output for one reminder alone is its own lines. */
  lemma ProcessSingle(
    r: Reminder, now: Date, defaultMsg: string, isBirthday: bool,
    defaultRange: int, t: TemplateConfig)
    requires ValidDate(now)
    ensures Process([r], now, defaultMsg, isBirthday, defaultRange, t)
      == ReminderLines(r, now, defaultMsg, isBirthday, defaultRange, t)
  {
    assert [r][..0] == [];
  }

  /**
   * A reminder whose date fails contributes its log line and nothing else;
   * the reminders before and after it are processed as if it were absent.
   */
  lemma FailedReminderSkipped(
    before: seq<Reminder>, bad: Reminder, after: seq<Reminder>, now: Date,
    defaultMsg: string, isBirthday: bool, defaultRange: int, t: TemplateConfig)
    requires ValidDate(now) && ParseDate(bad.date, now, bad.oneTimeEvent).Failed?
    ensures Process(before + [bad] + after, now, defaultMsg, isBirthday, defaultRange, t)
      == Process(before, now, defaultMsg, isBirthday, defaultRange, t)
       + [DateFailure(bad.name, ParseDate(bad.date, now, bad.oneTimeEvent).error)]
       + Process(after, now, defaultMsg, isBirthday, defaultRange, t)
  {
    ProcessAppend(before + [bad], after, now, defaultMsg, isBirthday, defaultRange, t);
    ProcessAppend(before, [bad], now, defaultMsg, isBirthday, defaultRange, t);
    ProcessSingle(bad, now, defaultMsg, isBirthday, defaultRange, t);
  }

  /** Every primary line is immediately followed by a message line. */
  predicate MessagesFollow(lines: seq<Line>) {
    forall i :: 0 <= i < |lines| && lines[i].Announcement? ==> i + 1 < |lines| && lines[i + 1].MessageLine?
  }

  lemma MessagesFollowAppend(a: seq<Line>, b: seq<Line>)
    requires MessagesFollow(a) && MessagesFollow(b)
    ensures MessagesFollow(a + b)
  {
    forall i | 0 <= i < |a + b| && (a + b)[i].Announcement?
      ensures i + 1 < |a + b| && (a + b)[i + 1].MessageLine?
    {
      if i < |a| {
        assert a[i].Announcement?;
      } else {
        assert b[i - |a|].Announcement?;
      }
    }
  }

  /** With a non-empty default message, a reminder's announcement carries a message line. */
  lemma ReminderMessagesFollow(
    reminder: Reminder, now: Date, defaultMsg: string, isBirthday: bool,
    defaultRange: int, t: TemplateConfig)
    requires ValidDate(now) && defaultMsg != ""
    ensures MessagesFollow(ReminderLines(reminder, now, defaultMsg, isBirthday, defaultRange, t))
  {
  }

  /** With a non-empty default message, every announcement of a list carries a message line. */
  lemma {:induction false} ProcessMessagesFollow(
    rs: seq<Reminder>, now: Date, defaultMsg: string, isBirthday: bool,
    defaultRange: int, t: TemplateConfig)
    requires ValidDate(now) && defaultMsg != ""
    ensures MessagesFollow(Process(rs, now, defaultMsg, isBirthday, defaultRange, t))
  {
    if rs != [] {
      var last := rs[|rs| - 1];
      ProcessMessagesFollow(rs[..|rs| - 1], now, defaultMsg, isBirthday, defaultRange, t);
      ReminderMessagesFollow(last, now, defaultMsg, isBirthday, defaultRange, t);
      MessagesFollowAppend(
        Process(rs[..|rs| - 1], now, defaultMsg, isBirthday, defaultRange, t),
        ReminderLines(last, now, defaultMsg, isBirthday, defaultRange, t));
    }
  }

  /** In main's two passes both defaults are non-empty, so a message line follows every announcement. */
  lemma RunMessagesFollow(config: Config, now: Date)
    requires ValidDate(now)
    ensures MessagesFollow(
      Process(config.birthdays, now, "Birthday reminder", true, config.reminderRange.birthdays, config.template)
      + Process(config.reminders, now, "Reminder", false, config.reminderRange.events, config.template))
  {
    ProcessMessagesFollow(config.birthdays, now, "Birthday reminder", true, config.reminderRange.birthdays, config.template);
    ProcessMessagesFollow(config.reminders, now, "Reminder", false, config.reminderRange.events, config.template);
    MessagesFollowAppend(
      Process(config.birthdays, now, "Birthday reminder", true, config.reminderRange.birthdays, config.template),
      Process(config.reminders, now, "Reminder", false, config.reminderRange.events, config.template));
  }

  /** With the default template the due phrase is "today", "tomorrow", or "in <d> days" for any other d. */
  lemma DefaultDueIn(d: int)
    ensures DuePhrase(d, DEFAULT_TEMPLATE) ==
      if d == 0 then "today" else if d == 1 then "tomorrow" else "in " + Itoa(d) + " days"
  {
    if d != 0 && d != 1 {
      var rep := Itoa(d);
      assert DEFAULT_TEMPLATE.dueIn == "in " + AGE_OR_DAYS + " days";
      ReplaceAllAfter("in ", AGE_OR_DAYS, " days", rep);
      ReplaceAllAbsent(" days", AGE_OR_DAYS, rep);
    }
  }

  /**
   * With any configured DueIn holding the placeholder once, after a prefix
   * without '{', the due phrase of a day count other than 0 and 1 is that
   * text with the count written in place of the placeholder.
   */
  lemma DueInReplaced(d: int, t: TemplateConfig, x: string, y: string)
    requires d != 0 && d != 1 && t.dueIn == x + AGE_OR_DAYS + y
    requires forall i :: 0 <= i < |x| ==> x[i] != '{'
    requires forall i :: 0 <= i < |y| ==> !Occurs(y, AGE_OR_DAYS, i)
    ensures DuePhrase(d, t) == x + Itoa(d) + y
  {
    ReplaceAllAfter(x, AGE_OR_DAYS, y, Itoa(d));
    ReplaceAllAbsent(y, AGE_OR_DAYS, Itoa(d));
  }

  /** A day that exists in its month of year 0, the leap year time.Parse uses, never leaves year y. */
  lemma MakeDateKeepsYear(y: int, m: int, d: int)
    requires 1 <= m <= 12 && 1 <= d <= DaysIn(m, 0)
    ensures MakeDate(y, m, d).year == y
    ensures d <= DaysIn(m, y) ==> MakeDate(y, m, d) == Date(y, m, d)
    ensures d > DaysIn(m, y) ==> MakeDate(y, m, d) == Date(y, 3, 1)
  {
    if d > DaysIn(m, y) {
      LeapDayInCommonYear(y);
    }
  }

  /** Of a day that exists in year 0, the next occurrence lies in now's year or, once passed, in the next. */
  lemma NextOccurrenceYear(now: Date, month: int, day: int)
    requires ValidDate(now) && 1 <= month <= 12 && 1 <= day <= DaysIn(month, 0)
    ensures NextOccurrence(now, month, day).year ==
      if Before(MakeDate(now.year, month, day), now) then now.year + 1 else now.year
  {
    MakeDateKeepsYear(now.year, month, day);
    MakeDateKeepsYear(now.year + 1, month, day);
  }

  /**
   * A birthday given without a year gets year = now's year, so its age is 0
   * (the Birthday0 template) when this year's date is still to come and 1
   * when it has passed and next year's is announced.
   */
  lemma YearlessBirthdayAge(
    reminder: Reminder, now: Date, defaultMsg: string, defaultRange: int, t: TemplateConfig)
    requires ValidDate(now) && !reminder.oneTimeEvent && ParseDayMonth(reminder.date).Some?
    requires ReminderLines(reminder, now, defaultMsg, true, defaultRange, t) != []
    ensures
      var lines := ReminderLines(reminder, now, defaultMsg, true, defaultRange, t);
      var date := ParseDate(reminder.date, now, false).date;
      var upcoming := !Before(MakeDate(now.year, date.month, date.day), now);
      (lines[0].template == UseBirthday0 <==> upcoming)
      && Atoi(lines[0].ageOrDays) == Some(if upcoming then 0 else 1)
  {
    var p := ParseDate(reminder.date, now, false);
    assert p.Parsed? && p.year == now.year;
    var date := p.date;
    assert date.day <= DaysIn(date.month, 0);
    var c := NextOccurrence(now, date.month, date.day);
    NextOccurrenceYear(now, date.month, date.day);
    ReminderOutcome(reminder, now, defaultMsg, true, defaultRange, t);
    assert ReminderLines(reminder, now, defaultMsg, true, defaultRange, t)
      == Announce(reminder, DaysFrom(now, c), c, now.year, defaultMsg, true, t);
  }

  lemma LeapDayShortText()
    ensures ParseDayMonth("29/02") == Some(Date(0, 2, 29)) && ByteLen("29/02") == 5
  {
    var s := "29/02";
    var day, month := s[0..2], s[3..5];
    assert day == [s[0], s[1]] == "29";
    assert month == [s[3], s[4]] == "02";
    assert DayMonthShape(s);
    DigitsValueTwo(day);
    DigitsValueTwo(month);
    assert DaysIn(2, 0) == 29;
    DayMonthAccepted(s, 29, 2);
  }

  lemma LeapDayLongText()
    ensures ParseDayMonthYear("29/02/2000") == Some(Date(2000, 2, 29)) && ByteLen("29/02/2000") == 10
  {
    var s := "29/02/2000";
    var day, month, year := s[0..2], s[3..5], s[6..10];
    assert day == [s[0], s[1]] == "29";
    assert month == [s[3], s[4]] == "02";
    assert year == [s[6], s[7], s[8], s[9]] == "2000";
    assert DayMonthYearShape(s);
    DigitsValueTwo(day);
    DigitsValueTwo(month);
    DigitsValueFour(year);
    assert DaysIn(2, 2000) == 29;
    DayMonthYearAccepted(s, 29, 2, 2000);
  }

  /** "29/02" in a common year is read, through time.Date, as 1 March of that year. */
  lemma LeapDayWithoutYear(now: Date)
    requires ValidDate(now) && !IsLeap(now.year)
    ensures ParseDate("29/02", now, false) == Parsed(Date(now.year, 3, 1), now.year)
  {
    LeapDayShortText();
    LeapDayInCommonYear(now.year);
  }

  /** A birthday on 29 February 2000 keeps that date, and in a common year it falls on 1 March. */
  lemma LeapDayBirthDate(now: Date)
    requires ValidDate(now) && !IsLeap(now.year)
    ensures ParseDate("29/02/2000", now, false) == Parsed(Date(2000, 2, 29), 2000)
    ensures !Before(Date(now.year, 3, 1), now) ==> NextOccurrence(now, 2, 29) == Date(now.year, 3, 1)
  {
    LeapDayLongText();
    LeapDayInCommonYear(now.year);
  }

  /** The one-time flag matters only for the five-byte form, which it turns into an error. */
  lemma OneTimeFlagOnlyForShortDates(dateStr: string, now: Date)
    ensures ByteLen(dateStr) != 5 ==> ParseDate(dateStr, now, true) == ParseDate(dateStr, now, false)
    ensures dateStr != "" && ByteLen(dateStr) == 5 ==> ParseDate(dateStr, now, true) == Failed(MissingYear)
  {
  }

  lemma MonthFirstShortText()
    ensures ParseDayMonth("12/31") == None && ByteLen("12/31") == 5
  {
    var s := "12/31";
    var day, month := s[0..2], s[3..5];
    assert day == [s[0], s[1]] == "12";
    assert month == [s[3], s[4]] == "31";
    assert DayMonthShape(s);
    DigitsValueTwo(month);
  }

  lemma SmallFieldsText()
    ensures ParseDayMonth("05/06") == Some(Date(0, 6, 5)) && ByteLen("05/06") == 5
  {
    var s := "05/06";
    var day, month := s[0..2], s[3..5];
    assert day == [s[0], s[1]] == "05";
    assert month == [s[3], s[4]] == "06";
    assert DayMonthShape(s);
    DigitsValueTwo(day);
    DigitsValueTwo(month);
    assert DaysIn(6, 0) == 30;
    DayMonthAccepted(s, 5, 6);
  }

  lemma MonthFirstLongText()
    ensures ParseDayMonthYear("12/31/2024") == None && ByteLen("12/31/2024") == 10
  {
    var s := "12/31/2024";
    var month := s[3..5];
    assert month == [s[3], s[4]] == "31";
    DigitsValueTwo(month);
    assert forall i :: 0 <= i < |s| ==> s[i] < 0x80 as char;
  }

  /**
   * A date written month first whose second field exceeds 12 is no day and
   * month at all: the five- and ten-byte forms are read, without an error, as
   * 1 January of year 1 with year 0, except that the one-time flag turns the
   * five-byte form into the missing-year error.
   */
  lemma MonthFirstReadAsNewYear(now: Date)
    ensures ParseDate("12/31", now, false) == Parsed(ZERO_TIME, 0)
    ensures ParseDate("12/31", now, true) == Failed(MissingYear)
    ensures ParseDate("12/31/2024", now, false) == Parsed(ZERO_TIME, 0)
    ensures ParseDate("12/31/2024", now, true) == Parsed(ZERO_TIME, 0)
  {
    MonthFirstShortText();
    MonthFirstLongText();
  }

  /**
   * A date written month first whose fields are both at most 12 is a valid
   * day and month the other way round: "05/06", meant as 6 May, is 5 June.
   */
  lemma MonthFirstSmallFieldsSwapped(now: Date)
    requires ValidDate(now)
    ensures ParseDate("05/06", now, false) == Parsed(Date(now.year, 6, 5), now.year)
  {
    SmallFieldsText();
    assert MakeDate(now.year, 6, 5) == Date(now.year, 6, 5);
  }

  /** The two events of the default configuration are those month-first dates. */
  lemma DefaultEventsReadAsNewYear(now: Date)
    ensures ParseDate(DEFAULT_CONFIG.reminders[0].date, now, DEFAULT_CONFIG.reminders[0].oneTimeEvent)
      == Parsed(ZERO_TIME, 0)
    ensures ParseDate(DEFAULT_CONFIG.reminders[1].date, now, DEFAULT_CONFIG.reminders[1].oneTimeEvent)
      == Parsed(ZERO_TIME, 0)
  {
    MonthFirstReadAsNewYear(now);
  }

  lemma FirstBirthdayText()
    ensures ParseDayMonthYear("01/01/2000") == Some(Date(2000, 1, 1)) && ByteLen("01/01/2000") == 10
  {
    var s := "01/01/2000";
    var day, month, year := s[0..2], s[3..5], s[6..10];
    assert day == [s[0], s[1]] == "01";
    assert month == [s[3], s[4]] == "01";
    assert year == [s[6], s[7], s[8], s[9]] == "2000";
    assert DayMonthYearShape(s);
    DigitsValueTwo(day);
    DigitsValueTwo(month);
    DigitsValueFour(year);
    DayMonthYearAccepted(s, 1, 1, 2000);
  }

  lemma SecondBirthdayText()
    ensures ParseDayMonthYear("07/01/2000") == Some(Date(2000, 1, 7)) && ByteLen("07/01/2000") == 10
  {
    var s := "07/01/2000";
    var day, month, year := s[0..2], s[3..5], s[6..10];
    assert day == [s[0], s[1]] == "07";
    assert month == [s[3], s[4]] == "01";
    assert year == [s[6], s[7], s[8], s[9]] == "2000";
    assert DayMonthYearShape(s);
    DigitsValueTwo(day);
    DigitsValueTwo(month);
    DigitsValueFour(year);
    DayMonthYearAccepted(s, 7, 1, 2000);
  }

  /** A text accepted as DD/MM/YYYY is read by parseDate as that date and its year, whatever the flag. */
  lemma LongDateParsed(s: string, now: Date, oneTimeEvent: bool, t: Date)
    requires ParseDayMonthYear(s) == Some(t) && ByteLen(s) == 10
    ensures ParseDate(s, now, oneTimeEvent) == Parsed(t, t.year)
  {
  }

  /**
   * The two birthdays of the default configuration are day-first dates and are
   * read as written: 1 January 2000 and 7 January 2000, each with year 2000.
   */
  lemma DefaultBirthdaysParse(now: Date)
    ensures ParseDate(DEFAULT_CONFIG.birthdays[0].date, now, DEFAULT_CONFIG.birthdays[0].oneTimeEvent)
      == Parsed(Date(2000, 1, 1), 2000)
    ensures ParseDate(DEFAULT_CONFIG.birthdays[1].date, now, DEFAULT_CONFIG.birthdays[1].oneTimeEvent)
      == Parsed(Date(2000, 1, 7), 2000)
  {
    FirstBirthdayText();
    LongDateParsed("01/01/2000", now, false, Date(2000, 1, 1));
    SecondBirthdayText();
    LongDateParsed("07/01/2000", now, false, Date(2000, 1, 7));
  }
}
