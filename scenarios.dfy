/**
 * Concrete runs of the reminder engine with the default templates: what one
 * reminder prints on a given day.
 */
module Scenarios {
  import opened Wrappers
  import opened Decimal
  import opened Text
  import opened Calendar
  import opened Britto
  import opened Properties

  /** A reminder whose date parses and whose next occurrence is in range prints the printReminder lines for it. */
  lemma ReminderAnnounced(
    reminder: Reminder, now: Date, defaultMsg: string, isBirthday: bool, defaultRange: int,
    t: TemplateConfig, date: Date, year: int, c: Date)
    requires ValidDate(now)
    requires ParseDate(reminder.date, now, reminder.oneTimeEvent) == Parsed(date, year)
    requires NextOccurrence(now, date.month, date.day) == c
    requires DaysFrom(now, c) <= EffectiveRange(reminder, defaultRange)
    ensures ReminderLines(reminder, now, defaultMsg, isBirthday, defaultRange, t)
      == Announce(reminder, DaysFrom(now, c), c, year, defaultMsg, isBirthday, t)
  {
    ReminderOutcome(reminder, now, defaultMsg, isBirthday, defaultRange, t);
  }

  /** A reminder whose date parses and whose next occurrence is out of range prints nothing. */
  lemma ReminderSilent(
    reminder: Reminder, now: Date, defaultMsg: string, isBirthday: bool, defaultRange: int,
    t: TemplateConfig, date: Date, year: int, c: Date)
    requires ValidDate(now)
    requires ParseDate(reminder.date, now, reminder.oneTimeEvent) == Parsed(date, year)
    requires NextOccurrence(now, date.month, date.day) == c
    requires DaysFrom(now, c) > EffectiveRange(reminder, defaultRange)
    ensures ReminderLines(reminder, now, defaultMsg, isBirthday, defaultRange, t) == []
  {
    ReminderOutcome(reminder, now, defaultMsg, isBirthday, defaultRange, t);
  }

  /** Of two reminders, a first whose date fails prints its log line, and the second prints its own lines. */
  lemma FailureThenReminder(
    bad: Reminder, next: Reminder, now: Date, defaultMsg: string, isBirthday: bool,
    defaultRange: int, t: TemplateConfig)
    requires ValidDate(now) && ParseDate(bad.date, now, bad.oneTimeEvent).Failed?
    ensures Process([bad, next], now, defaultMsg, isBirthday, defaultRange, t)
      == [DateFailure(bad.name, ParseDate(bad.date, now, bad.oneTimeEvent).error)]
       + ReminderLines(next, now, defaultMsg, isBirthday, defaultRange, t)
  {
    ProcessLast([bad, next], [bad], next, now, defaultMsg, isBirthday, defaultRange, t);
    ProcessSingle(bad, now, defaultMsg, isBirthday, defaultRange, t);
    ReminderOutcome(bad, now, defaultMsg, isBirthday, defaultRange, t);
  }

  /** The lines of a birthday with no message of its own, announced under the category message. */
  lemma BirthdayAnnouncement(
    reminder: Reminder, daysUntil: int, c: Date, year: int, defaultMsg: string, t: TemplateConfig)
    requires reminder.message == "" && defaultMsg != ""
    ensures Announce(reminder, daysUntil, c, year, defaultMsg, true, t)
      == [ Announcement(if c.year == year then UseBirthday0 else UseBirthday, reminder.name,
                        Itoa(c.year - year), DuePhrase(daysUntil, t), FormattedDate(t.dateFormat, c)),
           MessageLine(defaultMsg) ]
  {
  }

  /** The lines of an event, announced under its own message or, failing that, the category's. */
  lemma EventAnnouncement(
    reminder: Reminder, daysUntil: int, c: Date, year: int, defaultMsg: string, t: TemplateConfig)
    requires defaultMsg != ""
    ensures Announce(reminder, daysUntil, c, year, defaultMsg, false, t)
      == [ Announcement(UseReminder, reminder.name, Itoa(daysUntil), DuePhrase(daysUntil, t),
                        FormattedDate(t.dateFormatShort, c)),
           MessageLine(if reminder.message != "" then reminder.message else defaultMsg) ]
  {
  }

  lemma BirthDateText()
    ensures ParseDayMonthYear("25/12/1985") == Some(Date(1985, 12, 25)) && ByteLen("25/12/1985") == 10
  {
    var s := "25/12/1985";
    var day, month, year := s[0..2], s[3..5], s[6..10];
    assert day == [s[0], s[1]] == "25";
    assert month == [s[3], s[4]] == "12";
    assert year == [s[6], s[7], s[8], s[9]] == "1985";
    assert DayMonthYearShape(s);
    DigitsValueTwo(day);
    DigitsValueTwo(month);
    DigitsValueFour(year);
    assert DaysIn(12, 1985) == 31;
    DayMonthYearAccepted(s, 25, 12, 1985);
  }

  /**
   * In any year after 1985, a birthday five days ahead, within the birthday
   * range of 10: the age it reaches, "in 5 days", and the default message.
   */
  lemma BirthdayInFiveDays(y: int)
    requires y > 1985
    ensures
      ReminderLines(Reminder("Ada", "25/12/1985", "", false, None), Date(y, 12, 20),
                    "Birthday reminder", true, 10, DEFAULT_TEMPLATE)
      == [ Announcement(UseBirthday, "Ada", Itoa(y - 1985), "in 5 days", FormattedDate("02/01/2006", Date(y, 12, 25))),
           MessageLine("Birthday reminder") ]
  {
    var r := Reminder("Ada", "25/12/1985", "", false, None);
    var now := Date(y, 12, 20);
    var c := Date(y, 12, 25);
    BirthDateText();
    assert ParseDate(r.date, now, false) == Parsed(Date(1985, 12, 25), 1985);
    assert MakeDate(y, 12, 25) == c;
    assert DaysFrom(now, c) == 5;
    assert NextOccurrence(now, 12, 25) == c;
    ReminderAnnounced(r, now, "Birthday reminder", true, 10, DEFAULT_TEMPLATE, Date(1985, 12, 25), 1985, c);
    BirthdayAnnouncement(r, 5, c, 1985, "Birthday reminder", DEFAULT_TEMPLATE);
    DefaultDueIn(5);
    FiveDaysText();
  }

  lemma ItoaSmall()
    ensures Itoa(0) == "0" && Itoa(1) == "1"
  {
  }

  lemma FiveDaysText()
    ensures "in " + Itoa(5) + " days" == "in 5 days"
  {
    assert Itoa(5) == "5";
  }

  lemma TodayText()
    ensures ParseDayMonth("20/12") == Some(Date(0, 12, 20)) && ByteLen("20/12") == 5
  {
    var s := "20/12";
    var day, month := s[0..2], s[3..5];
    assert day == [s[0], s[1]] == "20";
    assert month == [s[3], s[4]] == "12";
    assert DayMonthShape(s);
    DigitsValueTwo(day);
    DigitsValueTwo(month);
    assert DaysIn(12, 0) == 31;
    DayMonthAccepted(s, 20, 12);
  }

  /** A birthday without a year that falls on today: age 0, so the Birthday0 template, and "today". */
  lemma BirthdayToday(y: int)
    ensures
      ReminderLines(Reminder("Bo", "20/12", "", false, None), Date(y, 12, 20),
                    "Birthday reminder", true, 10, DEFAULT_TEMPLATE)
      == [ Announcement(UseBirthday0, "Bo", "0", "today", FormattedDate("02/01/2006", Date(y, 12, 20))),
           MessageLine("Birthday reminder") ]
  {
    var r := Reminder("Bo", "20/12", "", false, None);
    var now := Date(y, 12, 20);
    TodayText();
    assert MakeDate(y, 12, 20) == now;
    assert ParseDate(r.date, now, false) == Parsed(now, y);
    assert NextOccurrence(now, 12, 20) == now;
    ReminderAnnounced(r, now, "Birthday reminder", true, 10, DEFAULT_TEMPLATE, now, y, now);
    BirthdayAnnouncement(r, 0, now, y, "Birthday reminder", DEFAULT_TEMPLATE);
    ItoaSmall();
  }

  lemma NewYearText()
    ensures ParseDayMonth("01/01") == Some(Date(0, 1, 1)) && ByteLen("01/01") == 5
  {
    var s := "01/01";
    var day, month := s[0..2], s[3..5];
    assert day == [s[0], s[1]] == "01";
    assert month == [s[3], s[4]] == "01";
    assert DayMonthShape(s);
    DigitsValueTwo(day);
    DigitsValueTwo(month);
    DayMonthAccepted(s, 1, 1);
  }

  lemma NewYearParsed(now: Date)
    ensures ParseDate("01/01", now, false) == Parsed(Date(now.year, 1, 1), now.year)
  {
    NewYearText();
    assert MakeDate(now.year, 1, 1) == Date(now.year, 1, 1);
  }

  /** Seen from 31 December, the next 1 January is the next day. */
  lemma NewYearFollowsDecember(y: int)
    ensures NextOccurrence(Date(y, 12, 31), 1, 1) == Date(y + 1, 1, 1)
    ensures DaysFrom(Date(y, 12, 31), Date(y + 1, 1, 1)) == 1
  {
    var now := Date(y, 12, 31);
    assert MakeDate(y, 1, 1) == Date(y, 1, 1);
    assert Before(Date(y, 1, 1), now);
    assert MakeDate(y + 1, 1, 1) == Date(y + 1, 1, 1);
    NextMonthStart(y, 12);
    assert DaysIn(12, y) == 31;
  }

  /**
   * On 31 December of any year this year's 1 January has passed, so next year's, one day
   * ahead, is announced: "tomorrow", with the day count and the default event message.
   */
  lemma EventAcrossNewYear(y: int)
    ensures
      ReminderLines(Reminder("New Year", "01/01", "", false, None), Date(y, 12, 31),
                    "Reminder", false, 15, DEFAULT_TEMPLATE)
      == [ Announcement(UseReminder, "New Year", "1", "tomorrow", FormattedDate("01/06", Date(y + 1, 1, 1))),
           MessageLine("Reminder") ]
  {
    var r := Reminder("New Year", "01/01", "", false, None);
    var now := Date(y, 12, 31);
    var c := Date(y + 1, 1, 1);
    NewYearParsed(now);
    NewYearFollowsDecember(y);
    ReminderAnnounced(r, now, "Reminder", false, 15, DEFAULT_TEMPLATE, Date(y, 1, 1), y, c);
    EventAnnouncement(r, 1, c, y, "Reminder", DEFAULT_TEMPLATE);
    ItoaSmall();
  }

  lemma ExamText()
    ensures ParseDayMonth("21/12") == Some(Date(0, 12, 21)) && ByteLen("21/12") == 5
  {
    var s := "21/12";
    var day, month := s[0..2], s[3..5];
    assert day == [s[0], s[1]] == "21";
    assert month == [s[3], s[4]] == "12";
    assert DayMonthShape(s);
    DigitsValueTwo(day);
    DigitsValueTwo(month);
    assert DaysIn(12, 0) == 31;
    DayMonthAccepted(s, 21, 12);
  }

  lemma TwentyDaysText()
    ensures Itoa(20) == "20" && "in " + Itoa(20) + " days" == "in 20 days"
  {
    assert Itoa(20) == "20";
  }

  /** An event 20 days ahead is beyond the event range of 15 and prints nothing. */
  lemma EventBeyondRange(y: int)
    ensures
      ReminderLines(Reminder("Exam", "21/12", "", false, None), Date(y, 12, 1),
                    "Reminder", false, 15, DEFAULT_TEMPLATE) == []
  {
    var r := Reminder("Exam", "21/12", "", false, None);
    var now := Date(y, 12, 1);
    var c := Date(y, 12, 21);
    ExamText();
    assert MakeDate(y, 12, 21) == c;
    assert ParseDate(r.date, now, false) == Parsed(c, y);
    assert DaysFrom(now, c) == 20;
    assert NextOccurrence(now, 12, 21) == c;
    ReminderSilent(r, now, "Reminder", false, 15, DEFAULT_TEMPLATE, c, y, c);
  }

  /** The same event with a range of its own, 25, replacing the default is announced, with its own message. */
  lemma OwnRangeOverridesDefault(y: int)
    ensures
      ReminderLines(Reminder("Exam", "21/12", "Revise", false, Some(25)), Date(y, 12, 1),
                    "Reminder", false, 15, DEFAULT_TEMPLATE)
      == [ Announcement(UseReminder, "Exam", "20", "in 20 days", FormattedDate("01/06", Date(y, 12, 21))),
           MessageLine("Revise") ]
  {
    var r := Reminder("Exam", "21/12", "Revise", false, Some(25));
    var now := Date(y, 12, 1);
    var c := Date(y, 12, 21);
    ExamText();
    assert MakeDate(y, 12, 21) == c;
    assert ParseDate(r.date, now, false) == Parsed(c, y);
    assert DaysFrom(now, c) == 20;
    assert NextOccurrence(now, 12, 21) == c;
    ReminderAnnounced(r, now, "Reminder", false, 15, DEFAULT_TEMPLATE, c, y, c);
    EventAnnouncement(r, 20, c, y, "Reminder", DEFAULT_TEMPLATE);
    DefaultDueIn(20);
    TwentyDaysText();
  }

  /**
   * A batch of two events: a one-time event given without a year is logged
   * as such, and the event after it is still announced.
   */
  lemma OneTimeEventWithoutYearSkipped(y: int)
    ensures
      Process([ Reminder("Launch", "31/12", "", true, None),
                Reminder("Exam", "21/12", "Revise", false, Some(25)) ],
              Date(y, 12, 1), "Reminder", false, 15, DEFAULT_TEMPLATE)
      == [ DateFailure("Launch", MissingYear),
           Announcement(UseReminder, "Exam", "20", "in 20 days", FormattedDate("01/06", Date(y, 12, 21))),
           MessageLine("Revise") ]
  {
    var bad := Reminder("Launch", "31/12", "", true, None);
    var exam := Reminder("Exam", "21/12", "Revise", false, Some(25));
    var now := Date(y, 12, 1);
    assert forall i :: 0 <= i < |bad.date| ==> bad.date[i] < 0x80 as char;
    assert ParseDate(bad.date, now, true) == Failed(MissingYear);
    FailureThenReminder(bad, exam, now, "Reminder", false, 15, DEFAULT_TEMPLATE);
    OwnRangeOverridesDefault(y);
  }
}
