/**
 * The callback tokens of the inline keyboards and how `button_handler`
 * reads them: a token starting with `check_` names a checklist item (the
 * prefix is removed with `str.replace`), `reset_checklist` is the reset
 * button, and every other token falls through without an effect.
 */
module Callbacks {
  import opened Wrappers
  import opened Ledger

  const CheckPrefix: string := "check_"
  const ResetToken: string := "reset_checklist"
  const SetWeekPrefix: string := "set_week_"

  /** The key of an item in the stored checklist dictionary. */
  function ItemKey(item: Item): string
  {
    match item
    case Block1 => "block1"
    case Block2 => "block2"
    case Sleep => "sleep"
  }

  /** Looking a key up in the checklist dictionary; `None` is the KeyError. */
  function ItemByKey(key: string): Option<Item>
  {
    if key == "block1" then Some(Block1)
    else if key == "block2" then Some(Block2)
    else if key == "sleep" then Some(Sleep)
    else None
  }

  /** Every item is found under its own key, and only there. */
  lemma ItemKeyRoundTrip(item: Item, key: string)
    ensures ItemByKey(ItemKey(item)) == Some(item)
    ensures ItemByKey(key) == Some(item) ==> ItemKey(item) == key
  {
  }

  /** `s.replace(pat, "")`: every non-overlapping occurrence, scanned left to right, removed. */
  function RemoveAll(s: string, pat: string): (r: string)
    requires pat != []
    ensures |r| <= |s|
    decreases |s|
  {
    if |s| < |pat| then s
    else if s[..|pat|] == pat then RemoveAll(s[|pat|..], pat)
    else [s[0]] + RemoveAll(s[1..], pat)
  }

  /** A string with the pattern in front loses it, and what follows is treated alone. */
  lemma RemoveAllLeading(pat: string, t: string)
    requires pat != []
    ensures RemoveAll(pat + t, pat) == RemoveAll(t, pat)
  {
    assert (pat + t)[..|pat|] == pat;
    assert (pat + t)[|pat|..] == t;
  }

  /** Whether `pat` occurs in `s` starting at index `i`. */
  predicate OccursAt(pat: string, s: string, i: int)
  {
    0 <= i && i + |pat| <= |s| && s[i..i + |pat|] == pat
  }

  /** Whether `pat` occurs anywhere in `s`. */
  ghost predicate Occurs(pat: string, s: string)
  {
    exists i :: OccursAt(pat, s, i)
  }

  /** A string in which the pattern does not occur comes back unchanged. */
  lemma {:induction false} RemoveAllAbsent(s: string, pat: string)
    requires pat != []
    requires !Occurs(pat, s)
    ensures RemoveAll(s, pat) == s
    decreases |s|
  {
    if |s| >= |pat| {
      assert !OccursAt(pat, s, 0);
      assert s[..|pat|] == s[0..|pat|];
      var t := s[1..];
      forall i | OccursAt(pat, t, i)
        ensures false
      {
        assert t[i..i + |pat|] == s[i + 1..i + 1 + |pat|];
        assert OccursAt(pat, s, i + 1);
      }
      RemoveAllAbsent(t, pat);
      assert [s[0]] + t == s;
    }
  }

  /** A string no longer than the pattern and different from it does not contain it. */
  lemma ShortAbsent(pat: string, s: string)
    requires |s| <= |pat| && s != pat
    ensures !Occurs(pat, s)
  {
  }

  datatype Callback = Check(key: string) | ResetChecklist | Unhandled(data: string)

  /** How `button_handler` dispatches on `query.data`. */
  function Parse(data: string): Callback
  {
    if |data| >= |CheckPrefix| && data[..|CheckPrefix|] == CheckPrefix then Check(RemoveAll(data, CheckPrefix))
    else if data == ResetToken then ResetChecklist
    else Unhandled(data)
  }

  /** The token a checklist button carries. */
  function CheckToken(item: Item): string
  {
    CheckPrefix + ItemKey(item)
  }

  /** The token of each checklist button parses back to a press on that item. */
  lemma CheckTokenParses(item: Item)
    ensures Parse(CheckToken(item)) == Check(ItemKey(item))
    ensures ItemByKey(Parse(CheckToken(item)).key) == Some(item)
  {
    var t := CheckToken(item);
    assert t[..|CheckPrefix|] == CheckPrefix;
    RemoveAllLeading(CheckPrefix, ItemKey(item));
    var k := ItemKey(item);
    ShortAbsent(CheckPrefix, k);
    RemoveAllAbsent(k, CheckPrefix);
  }

  /** The reset button's token parses to the reset. */
  lemma ResetTokenParses()
    ensures Parse(ResetToken) == ResetChecklist
  {
    assert ResetToken[..|CheckPrefix|] != CheckPrefix by { assert ResetToken[0] != CheckPrefix[0]; }
  }

  /**
   * The week-selection buttons carry `set_week_<n>` tokens, but no branch of
   * the handler takes them: the user's week cannot be changed.
   */
  lemma SetWeekIsUnhandled(suffix: string)
    ensures Parse(SetWeekPrefix + suffix) == Unhandled(SetWeekPrefix + suffix)
  {
    var t := SetWeekPrefix + suffix;
    assert t[0] == 's';
    assert t[..|CheckPrefix|] != CheckPrefix by { assert t[..|CheckPrefix|][0] != CheckPrefix[0]; }
    assert t != ResetToken by { assert ResetToken[0] == 'r'; }
  }
}
