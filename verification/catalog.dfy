/**
 * The static lookups of bot.py: the weekday name mapping, the daily
 * schedule table with its fallback, the key set of the twelve-week
 * curriculum, the streak tiers shown in the statistics view and the
 * ten-entry window of the error log.  Table contents (schedule text,
 * curriculum topics) are abstracted away; only their keys are modelled.
 */
module Catalog {
  import opened Wrappers

  datatype Weekday = Saturday | Sunday | Monday | Tuesday | Wednesday | Thursday | Friday

  /** The name `strftime('%A')` gives for a weekday. */
  function EnglishName(d: Weekday): string
  {
    match d
    case Saturday => "Saturday"
    case Sunday => "Sunday"
    case Monday => "Monday"
    case Tuesday => "Tuesday"
    case Wednesday => "Wednesday"
    case Thursday => "Thursday"
    case Friday => "Friday"
  }

  /** The Persian name of a weekday (Tuesday and Thursday contain a zero-width non-joiner). */
  function PersianName(d: Weekday): string
  {
    match d
    case Saturday => "\U{0634}\U{0646}\U{0628}\U{0647}"
    case Sunday => "\U{06CC}\U{06A9}\U{0634}\U{0646}\U{0628}\U{0647}"
    case Monday => "\U{062F}\U{0648}\U{0634}\U{0646}\U{0628}\U{0647}"
    case Tuesday => "\U{0633}\U{0647}\U{200C}\U{0634}\U{0646}\U{0628}\U{0647}"
    case Wednesday => "\U{0686}\U{0647}\U{0627}\U{0631}\U{0634}\U{0646}\U{0628}\U{0647}"
    case Thursday => "\U{067E}\U{0646}\U{062C}\U{200C}\U{0634}\U{0646}\U{0628}\U{0647}"
    case Friday => "\U{062C}\U{0645}\U{0639}\U{0647}"
  }

  /** The English-to-Persian weekday dictionary of the "today's schedule" view. */
  const DayMap: map<string, string> := map[
    EnglishName(Saturday) := PersianName(Saturday),
    EnglishName(Sunday) := PersianName(Sunday),
    EnglishName(Monday) := PersianName(Monday),
    EnglishName(Tuesday) := PersianName(Tuesday),
    EnglishName(Wednesday) := PersianName(Wednesday),
    EnglishName(Thursday) := PersianName(Thursday),
    EnglishName(Friday) := PersianName(Friday)
  ]

  /** Looking a name up in the weekday dictionary; `None` is the KeyError. */
  function DayMapping(english: string): Option<string>
  {
    if english in DayMap then Some(DayMap[english]) else None
  }

  /** The placeholder text returned for a day without a schedule ("no schedule defined"). */
  const NotDefinedText: string :=
    "\U{0628}\U{0631}\U{0646}\U{0627}\U{0645}\U{0647}\U{200C}\U{0627}\U{06CC} \U{062A}\U{0639}\U{0631}\U{06CC}\U{0641} \U{0646}\U{0634}\U{062F}\U{0647}"

  /** A schedule lookup result: the entry written for a weekday, or the fallback text. */
  datatype ScheduleText = ScheduleFor(day: Weekday) | Fallback(text: string)

  /** The keys of the schedule table, each standing for the entry written for its day. */
  const Schedules: map<string, Weekday> := map[
    PersianName(Sunday) := Sunday,
    PersianName(Monday) := Monday,
    PersianName(Tuesday) := Tuesday,
    PersianName(Wednesday) := Wednesday,
    PersianName(Thursday) := Thursday,
    PersianName(Friday) := Friday,
    PersianName(Saturday) := Saturday
  ]

  /** `get_daily_schedule`: a dictionary lookup with a fallback string. */
  function DailySchedule(dayName: string): ScheduleText
  {
    if dayName in Schedules then ScheduleFor(Schedules[dayName]) else Fallback(NotDefinedText)
  }

  /** The schedule table has an entry for every weekday, and it is that day's entry. */
  lemma ScheduleForEveryDay(d: Weekday)
    ensures DailySchedule(PersianName(d)) == ScheduleFor(d)
  {
  }

  /** Exactly the names that are not one of the seven Persian weekdays get the fallback text. */
  lemma ScheduleFallback(dayName: string)
    ensures DailySchedule(dayName).Fallback? <==> forall d :: PersianName(d) != dayName
    ensures DailySchedule(dayName).Fallback? ==> DailySchedule(dayName).text == NotDefinedText
  {
    if !DailySchedule(dayName).Fallback? {
      ScheduleForEveryDay(Schedules[dayName]);
    }
  }

  /** The weekday dictionary is defined on exactly the seven English weekday names. */
  lemma DayMappingDomain(english: string)
    ensures DayMapping(english).Some? <==> exists d :: EnglishName(d) == english
  {
    if DayMapping(english).Some? {
      assert english in DayMap;
      if english == "Saturday" { assert EnglishName(Saturday) == english; }
      else if english == "Sunday" { assert EnglishName(Sunday) == english; }
      else if english == "Monday" { assert EnglishName(Monday) == english; }
      else if english == "Tuesday" { assert EnglishName(Tuesday) == english; }
      else if english == "Wednesday" { assert EnglishName(Wednesday) == english; }
      else if english == "Thursday" { assert EnglishName(Thursday) == english; }
      else { assert EnglishName(Friday) == english; }
    }
  }

  /**
   * The "today's schedule" view: whichever weekday the clock reports, the
   * dictionary maps it to that day's Persian name, and the schedule table
   * holds that day's entry, so the fallback text is never shown there.
   */
  lemma TodayHasSchedule(d: Weekday)
    ensures DayMapping(EnglishName(d)) == Some(PersianName(d))
    ensures DailySchedule(DayMapping(EnglishName(d)).value) == ScheduleFor(d)
  {
    ScheduleForEveryDay(d);
  }

  /** The week numbers that key the twelve-week curriculum table. */
  const BootcampWeeks: set<int> := {1, 2, 3, 4, 5, 6, 7, 8, 9, 10, 11, 12}

  /** Whether `BOOTCAMP_SCHEDULE.get(week)` finds an entry (rather than `None`). */
  predicate HasWeekPlan(week: int)
  {
    week in BootcampWeeks
  }

  /** The curriculum has a plan for a week exactly when the week lies in 1..12. */
  lemma WeekPlanKeys(week: int)
    ensures HasWeekPlan(week) <==> 1 <= week <= 12
  {
  }

  /** The three badges of the statistics view: fire, star and sparkle. */
  datatype StreakTier = Sparkle | Star | Fire

  /** Badge for a streak: fire from seven days, star from three, sparkle below. */
  function TierOf(streak: int): StreakTier
  {
    if streak >= 7 then Fire else if streak >= 3 then Star else Sparkle
  }

  function TierRank(t: StreakTier): nat
  {
    match t
    case Sparkle => 0
    case Star => 1
    case Fire => 2
  }

  /** A longer streak never earns a lower badge. */
  lemma TierMonotone(a: int, b: int)
    requires a <= b
    ensures TierRank(TierOf(a)) <= TierRank(TierOf(b))
  {
  }

  /** The badge bands: each tier is exactly one range of streak lengths. */
  lemma TierBands(streak: int)
    ensures TierOf(streak) == Fire <==> 7 <= streak
    ensures TierOf(streak) == Star <==> 3 <= streak < 7
    ensures TierOf(streak) == Sparkle <==> streak < 3
  {
  }

  /** How many logged errors the error-log view lists. */
  const ErrorWindow: nat := 10

  /** `errors[-10:]`: the most recent entries, at most ten, oldest first. */
  function RecentErrors(errors: seq<string>): (r: seq<string>)
    ensures |r| == if |errors| < ErrorWindow then |errors| else ErrorWindow
    ensures r == errors[|errors| - |r|..]
  {
    if |errors| <= ErrorWindow then errors else errors[|errors| - ErrorWindow..]
  }

  /**
   * The window slides: the window of a log one entry longer is the window of
   * the shorter log with the extra entry appended and, when that window was
   * already full, its oldest entry dropped.
   */
  lemma RecentErrorsSlide(errors: seq<string>, e: string)
    ensures RecentErrors(errors + [e]) ==
      (if |RecentErrors(errors)| == ErrorWindow then RecentErrors(errors)[1..] else RecentErrors(errors)) + [e]
  {
    var w := RecentErrors(errors);
    var n := |errors|;
    if n < ErrorWindow {
      assert RecentErrors(errors + [e]) == errors + [e];
    } else {
      assert w == errors[n - ErrorWindow..];
      assert RecentErrors(errors + [e]) == (errors + [e])[n + 1 - ErrorWindow..];
      assert (errors + [e])[n + 1 - ErrorWindow..] == errors[n + 1 - ErrorWindow..] + [e];
    }
  }

  /** What the error-log view shows: a placeholder for an empty log, else the window. */
  datatype ErrorLogView = NoErrors | Listing(entries: seq<string>)

  function ErrorLog(errors: seq<string>): (v: ErrorLogView)
    ensures v == NoErrors <==> errors == []
    ensures v.Listing? ==> v.entries == RecentErrors(errors)
    ensures v.Listing? ==> v.entries != [] && v.entries[|v.entries| - 1] == errors[|errors| - 1]
  {
    if errors == [] then NoErrors else Listing(RecentErrors(errors))
  }
}
