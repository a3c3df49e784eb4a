/**
 * The per-user daily checklist and streak ledger of bot.py.
 *
 * A user record is a value (`Record`); the transitions the handlers apply
 * to it are specified as functions on records (`RolledOver`, `Toggled`,
 * `ChecklistReset`, `Named`), and the class `UserRecord` holds a record
 * loaded for one request and performs those transitions in place, the way
 * the handlers mutate the loaded dictionary.  Skill ratings are kept in
 * integer tenths, so the cap of 10 is 100 and the step of 0.1 is 1.
 */
module Ledger {
  import opened Wrappers
  import Catalog

  /** A calendar day as the bot formats it; the ledger only compares days for equality. */
  type Date = string

  /** The three daily checklist items: morning block, afternoon block, sleep by 23:00. */
  datatype Item = Block1 | Block2 | Sleep

  datatype Checklist = Checklist(block1: bool, block2: bool, sleep: bool)
  {
    function Get(item: Item): bool
    {
      match item
      case Block1 => block1
      case Block2 => block2
      case Sleep => sleep
    }

    /** `checklist[item] = not checklist[item]` */
    function Flip(item: Item): (c: Checklist)
      ensures c.Get(item) == !Get(item)
      ensures forall other :: other != item ==> c.Get(other) == Get(other)
    {
      match item
      case Block1 => this.(block1 := !block1)
      case Block2 => this.(block2 := !block2)
      case Sleep => this.(sleep := !sleep)
    }

    /** `sum(checklist.values())`: how many items are ticked. */
    function Completed(): (n: nat)
      ensures n <= 3
      ensures n == 3 <==> forall item :: Get(item)
      ensures n == 0 <==> forall item :: !Get(item)
    {
      assert Get(Block1) == block1 && Get(Block2) == block2 && Get(Sleep) == sleep;
      (if block1 then 1 else 0) + (if block2 then 1 else 0) + (if sleep then 1 else 0)
    }
  }

  /** The checklist with nothing ticked. */
  const Cleared: Checklist := Checklist(false, false, false)

  /** The status line of the checklist views, chosen by the number of ticked items. */
  datatype Status = AllDone | TwoDone | OneDone | NoneDone

  function StatusOf(c: Checklist): Status
  {
    var n := c.Completed();
    if n == 3 then AllDone else if n == 2 then TwoDone else if n == 1 then OneDone else NoneDone
  }

  /** Each status names exactly one shape of the checklist. */
  lemma StatusRegimes(c: Checklist)
    ensures StatusOf(c) == AllDone <==> forall item :: c.Get(item)
    ensures StatusOf(c) == NoneDone <==> c == Cleared
    ensures StatusOf(c) == TwoDone <==> exists item :: !c.Get(item) && forall other :: other != item ==> c.Get(other)
    ensures StatusOf(c) == OneDone <==> exists item :: c.Get(item) && forall other :: other != item ==> !c.Get(other)
  {
    assert c.Get(Block1) == c.block1 && c.Get(Block2) == c.block2 && c.Get(Sleep) == c.sleep;
    if StatusOf(c) == TwoDone {
      if !c.block1 { assert !c.Get(Block1); }
      else if !c.block2 { assert !c.Get(Block2); }
      else { assert !c.Get(Sleep); }
    }
    if StatusOf(c) == OneDone {
      if c.block1 { assert c.Get(Block1); }
      else if c.block2 { assert c.Get(Block2); }
      else { assert c.Get(Sleep); }
    }
  }

  /** The amount added to the penalty each time the checklist drops to nothing ticked. */
  const PenaltyUnit: nat := 50000
  /** The skill ceiling, 10, in tenths. */
  const SkillCap: int := 100
  /** The week every record starts in; no handler changes it. */
  const InitialWeek: int := 1
  /** Reading 6, listening 7, writing 5, speaking 4, in tenths. */
  const InitialSkills: seq<int> := [60, 70, 50, 40]

  /**
   * One user's record.  `lastStreakUpdate` is absent from a fresh record in
   * the source, which reads it with `.get`, so it starts as `None`.
   */
  datatype Record = Record(
    name: string,
    currentWeek: int,
    streak: nat,
    totalDays: nat,
    checklist: Checklist,
    penalty: nat,
    errors: seq<string>,
    skills: seq<int>,
    lastChecklistDate: Option<Date>,
    lastStreakUpdate: Option<Date>,
    startDate: Date)

  /** The record `init_user` creates on `today`. */
  function NewRecord(today: Date): Record
  {
    Record("", InitialWeek, 0, 0, Cleared, 0, [], InitialSkills, None, None, today)
  }

  /** What every stored record satisfies: week 1, the four skills, each within 0..10. */
  predicate Wf(r: Record)
  {
    r.currentWeek == InitialWeek && |r.skills| == |InitialSkills| &&
    forall k :: 0 <= k < |r.skills| ==> 0 <= r.skills[k] <= SkillCap
  }

  /**
   * A fresh record is well formed, unnamed, empty and unticked, with skills
   * 6/7/5/4, no checklist day and no credited day yet.
   */
  lemma NewRecordFacts(today: Date)
    ensures Wf(NewRecord(today))
    ensures var r := NewRecord(today);
      r.name == "" && r.currentWeek == 1 && r.streak == 0 && r.totalDays == 0 && r.penalty == 0 &&
      (forall item :: !r.checklist.Get(item)) && r.lastChecklistDate == None && r.startDate == today &&
      r.skills == [60, 70, 50, 40] && r.lastStreakUpdate == None
  {
  }

  /** A record's week always has an entry in the curriculum table. */
  lemma WfHasWeekPlan(r: Record)
    requires Wf(r)
    ensures Catalog.HasWeekPlan(r.currentWeek)
  {
    Catalog.WeekPlanKeys(r.currentWeek);
  }

  function Min(a: int, b: int): int
  {
    if a < b then a else b
  }

  /** One skill after a credited day: `min(10, s + 0.1)` when below 10, else unchanged. */
  function RaiseSkill(s: int): int
  {
    if s < SkillCap then Min(SkillCap, s + 1) else s
  }

  /**
   * Every skill after a credited day: a skill below 10 gains exactly one
   * tenth, a skill at or above 10 stays, so none falls and none passes 10.
   */
  function RaiseAll(skills: seq<int>): (r: seq<int>)
    ensures |r| == |skills|
    ensures forall k :: 0 <= k < |r| && skills[k] < SkillCap ==> r[k] == skills[k] + 1
    ensures forall k :: 0 <= k < |r| && skills[k] >= SkillCap ==> r[k] == skills[k]
    ensures forall k :: 0 <= k < |r| ==> skills[k] <= r[k]
    ensures forall k :: 0 <= k < |r| && skills[k] <= SkillCap ==> r[k] <= SkillCap
  {
    seq(|skills|, k requires 0 <= k < |skills| => RaiseSkill(skills[k]))
  }

  /** A credit never lowers a skill and never lifts one past the cap. */
  lemma RaiseSkillBounds(s: int)
    ensures RaiseSkill(s) >= s
    ensures s <= SkillCap ==> RaiseSkill(s) <= SkillCap
    ensures s < SkillCap ==> RaiseSkill(s) == s + 1
  {
  }

  /** A skill after `n` credited days. */
  function RaiseTimes(s: int, n: nat): int
    decreases n
  {
    if n == 0 then s else RaiseTimes(RaiseSkill(s), n - 1)
  }

  /** Repeated credits lift a skill one tenth at a time and settle at exactly 10. */
  lemma {:induction false} RaiseTimesReachesCap(s: int, n: nat)
    requires s <= SkillCap
    ensures RaiseTimes(s, n) == Min(SkillCap, s + n)
    decreases n
  {
    if n > 0 {
      RaiseTimesReachesCap(RaiseSkill(s), n - 1);
    }
  }

  /**
   * `show_checklist`'s rollover: on a day other than the stored checklist
   * day, untick everything and stamp today.
   */
  function RolledOver(r: Record, today: Date): Record
  {
    if r.lastChecklistDate != Some(today) then
      r.(checklist := Cleared, lastChecklistDate := Some(today))
    else
      r
  }

  /**
   * The `check_` branch of `button_handler`: flip one item, then credit the
   * streak on a complete checklist of today that was not yet credited today,
   * or charge the penalty and break the streak when nothing is left ticked.
   */
  function Toggled(r: Record, item: Item, today: Date): Record
  {
    var c := r.checklist.Flip(item);
    var completed := c.Completed();
    if completed == 3 && r.lastChecklistDate == Some(today) then
      if r.lastStreakUpdate != Some(today) then
        r.(checklist := c, streak := r.streak + 1, totalDays := r.totalDays + 1,
           lastStreakUpdate := Some(today), skills := RaiseAll(r.skills))
      else
        r.(checklist := c)
    else if completed == 0 && c == Cleared then
      r.(checklist := c, penalty := r.penalty + PenaltyUnit, streak := 0)
    else
      r.(checklist := c)
  }

  /** The `reset_checklist` branch: untick everything. */
  function ChecklistReset(r: Record): Record
  {
    r.(checklist := Cleared)
  }

  /** The registration branch of `handle_message`: an empty name becomes the text. */
  function Named(r: Record, text: string): Record
  {
    if r.name == "" then r.(name := text) else r
  }

  /** Whether a toggle to `item` on `today` earns the day's credit. */
  predicate CreditDue(r: Record, item: Item, today: Date)
  {
    (forall other :: r.checklist.Flip(item).Get(other)) &&
    r.lastChecklistDate == Some(today) && r.lastStreakUpdate != Some(today)
  }

  /**
   * After the rollover the checklist belongs to today; a new day starts
   * unticked, the same day is left alone, and nothing but the checklist and
   * its date ever changes (the streak survives into the new day).
   */
  lemma RolloverStartsDay(r: Record, today: Date)
    ensures RolledOver(r, today).lastChecklistDate == Some(today)
    ensures r.lastChecklistDate != Some(today) ==> RolledOver(r, today).checklist == Cleared
    ensures r.lastChecklistDate == Some(today) ==> RolledOver(r, today) == r
    ensures RolledOver(r, today).(checklist := r.checklist, lastChecklistDate := r.lastChecklistDate) == r
  {
  }

  /** Opening the checklist twice on one day changes nothing the second time. */
  lemma RolloverIdempotent(r: Record, today: Date)
    ensures RolledOver(RolledOver(r, today), today) == RolledOver(r, today)
  {
  }

  /** A toggle flips exactly the named item and leaves the profile and checklist day alone. */
  lemma ToggleFlipsOnlyItem(r: Record, item: Item, today: Date)
    ensures var r' := Toggled(r, item, today);
      r'.checklist.Get(item) == !r.checklist.Get(item) &&
      (forall other :: other != item ==> r'.checklist.Get(other) == r.checklist.Get(other)) &&
      r'.name == r.name && r'.currentWeek == r.currentWeek && r'.lastChecklistDate == r.lastChecklistDate &&
      r'.errors == r.errors && r'.startDate == r.startDate
  {
  }

  /**
   * The streak is credited exactly when the toggle completes today's
   * checklist and today was not yet credited; a credit adds one day to the
   * streak and to the total, stamps today and raises every skill; without
   * it the total, the stamp and the skills stay as they were, and the streak
   * too unless the toggle clears the checklist.
   */
  lemma ToggleCredit(r: Record, item: Item, today: Date)
    ensures var r' := Toggled(r, item, today);
      CreditDue(r, item, today) ==>
        r'.streak == r.streak + 1 && r'.totalDays == r.totalDays + 1 &&
        r'.lastStreakUpdate == Some(today) && r'.skills == RaiseAll(r.skills) && r'.penalty == r.penalty
    ensures var r' := Toggled(r, item, today);
      !CreditDue(r, item, today) ==>
        r'.totalDays == r.totalDays && r'.lastStreakUpdate == r.lastStreakUpdate && r'.skills == r.skills &&
        r'.streak <= r.streak
    ensures var r' := Toggled(r, item, today);
      !CreditDue(r, item, today) && r'.checklist != Cleared ==> r'.streak == r.streak
  {
    var c := r.checklist.Flip(item);
    if c.Completed() == 3 {
      assert forall other :: c.Get(other);
    }
  }

  /**
   * A toggle that leaves nothing ticked adds one penalty unit and zeroes the
   * streak, every time and on any day; any other toggle leaves the penalty.
   */
  lemma TogglePenalty(r: Record, item: Item, today: Date)
    ensures var r' := Toggled(r, item, today);
      r'.checklist == Cleared ==> r'.penalty == r.penalty + PenaltyUnit && r'.streak == 0
    ensures var r' := Toggled(r, item, today);
      r'.checklist != Cleared ==> r'.penalty == r.penalty
  {
  }

  /** With one or two items ticked afterwards, the ledger does not move. */
  lemma TogglePartial(r: Record, item: Item, today: Date)
    requires 1 <= r.checklist.Flip(item).Completed() <= 2
    ensures Toggled(r, item, today) == r.(checklist := r.checklist.Flip(item))
  {
  }

  /**
   * The toggle does not roll the checklist over: on a checklist left from
   * another day, completing it credits nothing.
   */
  lemma StaleChecklistEarnsNothing(r: Record, item: Item, today: Date)
    requires r.lastChecklistDate != Some(today)
    ensures Toggled(r, item, today).totalDays == r.totalDays
    ensures Toggled(r, item, today).streak <= r.streak
  {
  }

  /** The explicit reset unticks everything and, unlike a toggle to zero, charges nothing. */
  lemma ResetLeavesLedgerAlone(r: Record)
    ensures ChecklistReset(r).checklist == Cleared
    ensures ChecklistReset(r).(checklist := r.checklist) == r
  {
  }

  /** The first text a user sends becomes their name; later texts leave it. */
  lemma NameRegistration(r: Record, text: string)
    ensures r.name == "" ==> Named(r, text) == r.(name := text)
    ensures r.name != "" ==> Named(r, text) == r
  {
  }

  /** What a user can do to their record: open the checklist, press an item, press reset, send text. */
  datatype Event = OpenChecklist(today: Date) | Press(item: Item, today: Date) | PressReset | SendText(text: string)

  function Step(r: Record, e: Event): Record
  {
    match e
    case OpenChecklist(today) => RolledOver(r, today)
    case Press(item, today) => Toggled(r, item, today)
    case PressReset => ChecklistReset(r)
    case SendText(text) => Named(r, text)
  }

  /** The record after a sequence of events, first event first. */
  function Run(r: Record, events: seq<Event>): Record
    decreases |events|
  {
    if events == [] then r else Run(Step(r, events[0]), events[1..])
  }

  /** Running a sequence of events is running its first event, then the rest. */
  lemma {:induction false} RunAppend(r: Record, events: seq<Event>, e: Event)
    ensures Run(r, events + [e]) == Step(Run(r, events), e)
    decreases |events|
  {
    if events == [] {
      assert [e][1..] == [];
    } else {
      assert (events + [e])[1..] == events[1..] + [e];
      RunAppend(Step(r, events[0]), events[1..], e);
    }
  }

  /** Whether an event happens on `today` (events that read no clock happen on any day). */
  predicate OnDay(e: Event, today: Date)
  {
    match e
    case OpenChecklist(d) => d == today
    case Press(_, d) => d == today
    case PressReset => true
    case SendText(_) => true
  }

  lemma StepKeepsCounters(r: Record, e: Event)
    ensures var r' := Step(r, e);
      r'.totalDays >= r.totalDays && r'.penalty >= r.penalty &&
      |r'.skills| == |r.skills| && (forall k :: 0 <= k < |r.skills| ==> r'.skills[k] >= r.skills[k]) &&
      r'.currentWeek == r.currentWeek && r'.startDate == r.startDate && r'.errors == r.errors
  {
    forall k | 0 <= k < |r.skills| { RaiseSkillBounds(r.skills[k]); }
  }

  /**
   * Over any sequence of events on any days, the total of credited days, the
   * penalty and every skill never go down, and the week, start date and
   * error log are never touched.
   */
  lemma {:induction false} CountersNeverDecrease(r: Record, events: seq<Event>)
    ensures var r' := Run(r, events);
      r'.totalDays >= r.totalDays && r'.penalty >= r.penalty &&
      |r'.skills| == |r.skills| && (forall k :: 0 <= k < |r.skills| ==> r'.skills[k] >= r.skills[k]) &&
      r'.currentWeek == r.currentWeek && r'.startDate == r.startDate && r'.errors == r.errors
    decreases |events|
  {
    if events != [] {
      StepKeepsCounters(r, events[0]);
      CountersNeverDecrease(Step(r, events[0]), events[1..]);
    }
  }

  lemma StepKeepsWf(r: Record, e: Event)
    requires Wf(r)
    ensures Wf(Step(r, e))
  {
    forall k | 0 <= k < |r.skills| { RaiseSkillBounds(r.skills[k]); }
  }

  /** Every event keeps a record well formed: the week stays 1 and no skill passes 10. */
  lemma {:induction false} RunKeepsWf(r: Record, events: seq<Event>)
    requires Wf(r)
    ensures Wf(Run(r, events))
    decreases |events|
  {
    if events != [] {
      StepKeepsWf(r, events[0]);
      RunKeepsWf(Step(r, events[0]), events[1..]);
    }
  }

  /** 1 while today's credit is still available, 0 once it has been taken. */
  function Unspent(r: Record, today: Date): nat
  {
    if r.lastStreakUpdate == Some(today) then 0 else 1
  }

  lemma StepSpendsCredit(r: Record, e: Event, today: Date)
    requires OnDay(e, today)
    ensures Step(r, e).totalDays + Unspent(Step(r, e), today) == r.totalDays + Unspent(r, today)
    ensures Step(r, e).streak + Unspent(Step(r, e), today) <= r.streak + Unspent(r, today)
  {
    if e.Press? {
      ToggleCredit(r, e.item, today);
    }
  }

  /**
   * Within one day, the day's credit is taken at most once: the total of
   * credited days grows exactly when the credit is taken, and the streak
   * can only grow by taking it.
   */
  lemma {:induction false} CreditTakenOnce(r: Record, events: seq<Event>, today: Date)
    requires forall k :: 0 <= k < |events| ==> OnDay(events[k], today)
    ensures Run(r, events).totalDays + Unspent(Run(r, events), today) == r.totalDays + Unspent(r, today)
    ensures Run(r, events).streak + Unspent(Run(r, events), today) <= r.streak + Unspent(r, today)
    decreases |events|
  {
    if events != [] {
      StepSpendsCredit(r, events[0], today);
      CreditTakenOnce(Step(r, events[0]), events[1..], today);
    }
  }

  /**
   * Any sequence of events on one day raises the streak and the total by at
   * most one, and by nothing if the day was already credited.
   */
  lemma AtMostOneCreditPerDay(r: Record, events: seq<Event>, today: Date)
    requires forall k :: 0 <= k < |events| ==> OnDay(events[k], today)
    ensures Run(r, events).streak <= r.streak + 1
    ensures Run(r, events).totalDays <= r.totalDays + 1
    ensures r.lastStreakUpdate == Some(today) ==>
      Run(r, events).streak <= r.streak && Run(r, events).totalDays == r.totalDays
  {
    CreditTakenOnce(r, events, today);
    CountersNeverDecrease(r, events);
  }

  /**
   * Unticking a complete checklist one item at a time, in any order, crosses
   * zero once: exactly one penalty unit, the streak broken, no credit.
   */
  lemma UntickingFullDayPenalizesOnce(r: Record, a: Item, b: Item, c: Item, today: Date)
    requires forall item :: r.checklist.Get(item)
    requires a != b && b != c && a != c
    ensures var r' := Run(r, [Press(a, today), Press(b, today), Press(c, today)]);
      r'.penalty == r.penalty + PenaltyUnit && r'.streak == 0 && r'.checklist == Cleared &&
      r'.totalDays == r.totalDays
  {
    assert r.checklist.Get(Block1) && r.checklist.Get(Block2) && r.checklist.Get(Sleep);
    var r1 := Toggled(r, a, today);
    var r2 := Toggled(r1, b, today);
    var r3 := Toggled(r2, c, today);
    assert r1.checklist.Completed() == 2;
    assert r2.checklist.Completed() == 1;
    RunAppend(r, [], Press(a, today));
    RunAppend(r, [Press(a, today)], Press(b, today));
    assert [Press(a, today)] + [Press(b, today)] == [Press(a, today), Press(b, today)];
    RunAppend(r, [Press(a, today), Press(b, today)], Press(c, today));
    assert [Press(a, today), Press(b, today)] + [Press(c, today)] == [Press(a, today), Press(b, today), Press(c, today)];
  }

  /**
   * A new user opens the checklist on day `d`, ticks the three items and so
   * completes the day; unticking and re-ticking sleep the same day leaves the
   * streak at one.
   */
  lemma CompletedDayScenario(d: Date)
    ensures var r1 := Run(NewRecord(d), [OpenChecklist(d), Press(Block1, d), Press(Block2, d), Press(Sleep, d)]);
      r1.streak == 1 && r1.totalDays == 1 && r1.skills == [61, 71, 51, 41] && r1.penalty == 0 &&
      var r2 := Run(r1, [Press(Sleep, d), Press(Sleep, d)]);
      r2.streak == 1 && r2.totalDays == 1 && r2.checklist == r1.checklist
  {
    var r0 := NewRecord(d);
    var a := RolledOver(r0, d);
    var b := Toggled(a, Block1, d);
    var c := Toggled(b, Block2, d);
    var r1 := Toggled(c, Sleep, d);
    assert RaiseAll(InitialSkills) == [61, 71, 51, 41];
    RunAppend(r0, [], OpenChecklist(d));
    RunAppend(r0, [OpenChecklist(d)], Press(Block1, d));
    assert [OpenChecklist(d)] + [Press(Block1, d)] == [OpenChecklist(d), Press(Block1, d)];
    RunAppend(r0, [OpenChecklist(d), Press(Block1, d)], Press(Block2, d));
    assert [OpenChecklist(d), Press(Block1, d)] + [Press(Block2, d)] == [OpenChecklist(d), Press(Block1, d), Press(Block2, d)];
    RunAppend(r0, [OpenChecklist(d), Press(Block1, d), Press(Block2, d)], Press(Sleep, d));
    assert [OpenChecklist(d), Press(Block1, d), Press(Block2, d)] + [Press(Sleep, d)]
        == [OpenChecklist(d), Press(Block1, d), Press(Block2, d), Press(Sleep, d)];
    RunAppend(r1, [], Press(Sleep, d));
    RunAppend(r1, [Press(Sleep, d)], Press(Sleep, d));
    assert [Press(Sleep, d)] + [Press(Sleep, d)] == [Press(Sleep, d), Press(Sleep, d)];
  }

  /**
   * A record loaded for one request.  Its fields are the record's fields;
   * the skill ratings are one array, updated entry by entry.
   */
  class UserRecord {
    var name: string
    var currentWeek: int
    var streak: nat
    var totalDays: nat
    var checklist: Checklist
    var penalty: nat
    var errors: seq<string>
    const skills: array<int>
    var lastChecklistDate: Option<Date>
    var lastStreakUpdate: Option<Date>
    var startDate: Date

    /** The record these fields hold. */
    function Value(): Record
      reads this, skills
    {
      Record(name, currentWeek, streak, totalDays, checklist, penalty, errors, skills[..],
             lastChecklistDate, lastStreakUpdate, startDate)
    }

    constructor Load(r: Record)
      ensures Value() == r && fresh(skills)
    {
      var a := new int[|r.skills|](k requires 0 <= k < |r.skills| => r.skills[k]);
      assert a[..] == r.skills;
      name, currentWeek, streak, totalDays := r.name, r.currentWeek, r.streak, r.totalDays;
      checklist, penalty, errors, skills := r.checklist, r.penalty, r.errors, a;
      lastChecklistDate, lastStreakUpdate, startDate := r.lastChecklistDate, r.lastStreakUpdate, r.startDate;
    }

    /** The day rollover `show_checklist` performs before displaying. */
    method Rollover(today: Date)
      modifies this
      ensures Value() == RolledOver(old(Value()), today)
    {
      if lastChecklistDate != Some(today) {
        checklist := Cleared;
        lastChecklistDate := Some(today);
      }
    }

    /** A press on one checklist item. */
    method Toggle(item: Item, today: Date)
      modifies this, skills
      ensures Value() == Toggled(old(Value()), item, today)
    {
      checklist := checklist.Flip(item);
      var completed := checklist.Completed();
      if completed == 3 && lastChecklistDate == Some(today) {
        if lastStreakUpdate != Some(today) {
          streak := streak + 1;
          totalDays := totalDays + 1;
          lastStreakUpdate := Some(today);
          RaiseSkills();
        }
      } else if completed == 0 && checklist == Cleared {
        penalty := penalty + PenaltyUnit;
        streak := 0;
      }
    }

    /** The loop over `skills` that a credited day runs. */
    method RaiseSkills()
      modifies skills
      ensures skills[..] == RaiseAll(old(skills[..]))
    {
      var k := 0;
      while k < skills.Length
        invariant 0 <= k <= skills.Length
        invariant forall j :: 0 <= j < k ==> skills[j] == RaiseSkill(old(skills[j]))
        invariant forall j :: k <= j < skills.Length ==> skills[j] == old(skills[j])
      {
        if skills[k] < SkillCap {
          skills[k] := Min(SkillCap, skills[k] + 1);
        }
        k := k + 1;
      }
    }

    /** A press on the reset button. */
    method Reset()
      modifies this
      ensures Value() == ChecklistReset(old(Value()))
    {
      checklist := Cleared;
    }

    /** A text message from a user who may not have given a name yet. */
    method RegisterName(text: string) returns (registered: bool)
      modifies this
      ensures registered <==> old(name) == ""
      ensures Value() == Named(old(Value()), text)
    {
      registered := name == "";
      if registered {
        name := text;
      }
    }
  }
}
