/**
 * The user record store and the handlers that read and write it.  The JSON
 * file of bot.py is an in-memory map from user id to record; each handler
 * loads the user's record into a `UserRecord`, changes it in place and puts
 * the result back, as the source loads the file, mutates the dictionary
 * and saves the file.
 */
module Store {
  import opened Wrappers
  import opened Ledger
  import Catalog
  import Callbacks

  /** The lookups that raise a KeyError in the handlers. */
  datatype Failure = UnknownUser(id: string) | UnknownItem(key: string)

  /** The menu label that opens the checklist: a check mark, then "checklist" in Persian. */
  const ChecklistLabel: string := "\U{2705} \U{0686}\U{06A9}\U{200C}\U{0644}\U{06CC}\U{0633}\U{062A}"

  /** What a text message leads to: the name registered, the checklist opened, or another view. */
  datatype TextReply = Registered | ChecklistOpened(status: Status) | Routed

  /** What a button press shows: the refreshed checklist, the reset notice, or nothing. */
  datatype Reply = ChecklistShown(status: Status) | ChecklistCleared | NoReply

  /** Every record in the map is well formed. */
  ghost predicate AllWf(users: map<string, Record>)
  {
    forall id :: id in users ==> Wf(users[id])
  }

  class UserStore {
    var users: map<string, Record>

    /** Every stored record is well formed. */
    ghost predicate Valid()
      reads this
    {
      AllWf(users)
    }

    /** A store over a missing data file, which loads as an empty mapping. */
    constructor ()
      ensures Valid() && users == map[]
    {
      users := map[];
    }

    /**
     * `init_user`: create the default record for an unknown id, and return
     * the stored record either way.
     */
    method InitUser(id: string, today: Date) returns (r: Record)
      requires Valid()
      modifies this
      ensures Valid()
      ensures id in old(users) ==> users == old(users) && r == old(users)[id]
      ensures id !in old(users) ==> users == old(users)[id := NewRecord(today)] && r == NewRecord(today)
    {
      if id !in users {
        NewRecordFacts(today);
        users := users[id := NewRecord(today)];
      }
      r := users[id];
    }

    /**
     * `handle_message`: a user without a name registers the text as their
     * name.  For a named user the checklist label opens the checklist, which
     * rolls it over to `today`; every other text routes to a view that never
     * saves the record, or is ignored.
     */
    method HandleText(id: string, text: string, today: Date) returns (res: Result<TextReply, Failure>)
      requires Valid()
      modifies this
      ensures Valid()
      ensures id !in old(users) ==> res == Err(UnknownUser(id)) && users == old(users)
      ensures id in old(users) && old(users)[id].name == "" ==>
        res == Ok(Registered) && users == old(users)[id := Named(old(users)[id], text)]
      ensures id in old(users) && old(users)[id].name != "" && text == ChecklistLabel ==>
        users == old(users)[id := RolledOver(old(users)[id], today)] &&
        res == Ok(ChecklistOpened(StatusOf(users[id].checklist)))
      ensures id in old(users) && old(users)[id].name != "" && text != ChecklistLabel ==>
        users == old(users) && res == Ok(Routed)
    {
      if id !in users {
        return Err(UnknownUser(id));
      }
      var u := new UserRecord.Load(users[id]);
      var registered := u.RegisterName(text);
      if registered {
        StepKeepsWf(users[id], SendText(text));
        users := users[id := u.Value()];
        return Ok(Registered);
      }
      if text == ChecklistLabel {
        var shown := ShowChecklist(id, today);
        res := Ok(ChecklistOpened(shown.value));
      } else {
        res := Ok(Routed);
      }
    }

    /** `show_checklist`: roll the checklist over to today and report its status. */
    method ShowChecklist(id: string, today: Date) returns (res: Result<Status, Failure>)
      requires Valid()
      modifies this
      ensures Valid()
      ensures id !in old(users) ==> res == Err(UnknownUser(id)) && users == old(users)
      ensures id in old(users) ==>
        users == old(users)[id := RolledOver(old(users)[id], today)] &&
        res == Ok(StatusOf(users[id].checklist))
    {
      if id !in users {
        return Err(UnknownUser(id));
      }
      var u := new UserRecord.Load(users[id]);
      u.Rollover(today);
      StepKeepsWf(users[id], OpenChecklist(today));
      users := users[id := u.Value()];
      res := Ok(StatusOf(u.checklist));
    }

    /** `button_handler`: dispatch on the callback token of a pressed button. */
    method PressButton(id: string, data: string, today: Date) returns (res: Result<Reply, Failure>)
      requires Valid()
      modifies this
      ensures Valid()
      ensures id !in old(users) ==> res == Err(UnknownUser(id)) && users == old(users)
      ensures id in old(users) ==>
        match Callbacks.Parse(data)
        case Check(key) =>
          (Callbacks.ItemByKey(key) == None ==> res == Err(UnknownItem(key)) && users == old(users)) &&
          (Callbacks.ItemByKey(key).Some? ==>
            var r' := Toggled(old(users)[id], Callbacks.ItemByKey(key).value, today);
            users == old(users)[id := r'] && res == Ok(ChecklistShown(StatusOf(r'.checklist))))
        case ResetChecklist =>
          users == old(users)[id := ChecklistReset(old(users)[id])] && res == Ok(ChecklistCleared)
        case Unhandled(_) =>
          users == old(users) && res == Ok(NoReply)
    {
      if id !in users {
        return Err(UnknownUser(id));
      }
      var cb := Callbacks.Parse(data);
      if cb.Check? {
        var item := Callbacks.ItemByKey(cb.key);
        if item == None {
          return Err(UnknownItem(cb.key));
        }
        var u := new UserRecord.Load(users[id]);
        u.Toggle(item.value, today);
        StepKeepsWf(users[id], Press(item.value, today));
        users := users[id := u.Value()];
        res := Ok(ChecklistShown(StatusOf(u.checklist)));
      } else if cb.ResetChecklist? {
        var u := new UserRecord.Load(users[id]);
        u.Reset();
        StepKeepsWf(users[id], PressReset);
        users := users[id := u.Value()];
        res := Ok(ChecklistCleared);
      } else {
        res := Ok(NoReply);
      }
    }
  }

  /**
   * In a valid store every user's week has a curriculum entry, so the
   * week-plan and today's-schedule views never look up a missing week.
   */
  lemma StoredWeeksHavePlans(users: map<string, Record>, id: string)
    requires AllWf(users)
    requires id in users
    ensures users[id].currentWeek == 1
    ensures Catalog.HasWeekPlan(users[id].currentWeek)
  {
    WfHasWeekPlan(users[id]);
  }
}
