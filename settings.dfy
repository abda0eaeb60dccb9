/** The settings editor: a record of categories (general, borrowing,
    membership, fines, notifications, security), each a record of named fields,
    changed one field at a time, with list editors for the membership plans and
    the fine-reminder days, a reset to the defaults and a restore from a file. */
module Settings {
  import opened Common
  import opened Views
  import opened Sorting

  datatype Plan = Plan(name: string, maxBooks: int, price: real)

  /** A field value as the editor stores it. */
  datatype Value =
    | Num(n: real)
    | Text(s: string)
    | Flag(b: bool)
    | Days(days: seq<int>)
    | Plans(plans: seq<Plan>)
    | Texts(items: seq<string>)

  type Category = map<string, Value>
  type SettingsRecord = map<string, Category>

  /** The record the editor starts with. */
  function InitialSettings(): SettingsRecord {
    map[
      "general" := map[
        "libraryName" := Text("Central Public Library"),
        "libraryEmail" := Text("contact@library.com"),
        "libraryPhone" := Text("+1 (234) 567-8900"),
        "address" := Text("123 Library Street, Knowledge City"),
        "openingHours" := Text("9:00 AM - 8:00 PM"),
        "maxBooksPerMember" := Num(5.0),
        "loanPeriod" := Num(14.0),
        "autoRenewal" := Flag(true)],
      "borrowing" := map[
        "lateFeePerDay" := Num(1.0),
        "maxLateDays" := Num(30.0),
        "reservationHoldDays" := Num(3.0),
        "maxReservations" := Num(3.0),
        "allowRenewals" := Flag(true),
        "renewalDays" := Num(7.0),
        "gracePeriod" := Num(2.0)],
      "membership" := map[
        "membershipPlans" := Plans([Plan("Basic", 3, 0.0), Plan("Standard", 5, 49.0), Plan("Premium", 10, 99.0)]),
        "studentDiscount" := Num(20.0),
        "seniorDiscount" := Num(15.0),
        "annualDiscount" := Num(10.0)],
      "fines" := map[
        "finePerDay" := Num(0.5),
        "maxFineAmount" := Num(25.0),
        "damageFee" := Num(15.0),
        "lostBookFee" := Text("Book Price + Processing"),
        "fineReminderDays" := Days([3, 7, 14]),
        "autoWaiveSmallFines" := Flag(true),
        "smallFineThreshold" := Num(2.0)],
      "notifications" := map[
        "dueReminderDays" := Num(2.0),
        "reservationReady" := Flag(true),
        "newBookAlert" := Flag(true),
        "newsletterSubscription" := Flag(true),
        "emailNotifications" := Flag(true),
        "smsNotifications" := Flag(false),
        "pushNotifications" := Flag(true)],
      "security" := map[
        "sessionTimeout" := Num(30.0),
        "requirePasswordChange" := Num(90.0),
        "twoFactorAuth" := Flag(false),
        "ipWhitelist" := Texts([]),
        "failedAttemptsLock" := Num(5.0),
        "lockoutDuration" := Num(15.0)]
    ]
  }

  /** The record the reset button writes; the editor spells it out a second time. */
  function DefaultSettings(): SettingsRecord {
    map[
      "general" := map[
        "libraryName" := Text("Central Public Library"),
        "libraryEmail" := Text("contact@library.com"),
        "libraryPhone" := Text("+1 (234) 567-8900"),
        "address" := Text("123 Library Street, Knowledge City"),
        "openingHours" := Text("9:00 AM - 8:00 PM"),
        "maxBooksPerMember" := Num(5.0),
        "loanPeriod" := Num(14.0),
        "autoRenewal" := Flag(true)],
      "borrowing" := map[
        "lateFeePerDay" := Num(1.0),
        "maxLateDays" := Num(30.0),
        "reservationHoldDays" := Num(3.0),
        "maxReservations" := Num(3.0),
        "allowRenewals" := Flag(true),
        "renewalDays" := Num(7.0),
        "gracePeriod" := Num(2.0)],
      "membership" := map[
        "membershipPlans" := Plans([Plan("Basic", 3, 0.0), Plan("Standard", 5, 49.0), Plan("Premium", 10, 99.0)]),
        "studentDiscount" := Num(20.0),
        "seniorDiscount" := Num(15.0),
        "annualDiscount" := Num(10.0)],
      "fines" := map[
        "finePerDay" := Num(0.5),
        "maxFineAmount" := Num(25.0),
        "damageFee" := Num(15.0),
        "lostBookFee" := Text("Book Price + Processing"),
        "fineReminderDays" := Days([3, 7, 14]),
        "autoWaiveSmallFines" := Flag(true),
        "smallFineThreshold" := Num(2.0)],
      "notifications" := map[
        "dueReminderDays" := Num(2.0),
        "reservationReady" := Flag(true),
        "newBookAlert" := Flag(true),
        "newsletterSubscription" := Flag(true),
        "emailNotifications" := Flag(true),
        "smsNotifications" := Flag(false),
        "pushNotifications" := Flag(true)],
      "security" := map[
        "sessionTimeout" := Num(30.0),
        "requirePasswordChange" := Num(90.0),
        "twoFactorAuth" := Flag(false),
        "ipWhitelist" := Texts([]),
        "failedAttemptsLock" := Num(5.0),
        "lockoutDuration" := Num(15.0)]
    ]
  }

  /** Resetting gives back exactly the record the editor started with. */
  lemma ResetMatchesInitial()
    ensures DefaultSettings() == InitialSettings()
  {
  }

  /** One field of one category replaced; a category that is absent is created
      holding that field alone. */
  function SettingChanged(s: SettingsRecord, category: string, field: string, value: Value): (r: SettingsRecord)
    ensures category in r && field in r[category] && r[category][field] == value
    ensures forall c :: c in r <==> c in s || c == category
    ensures forall c :: c in s && c != category ==> r[c] == s[c]
    ensures forall f :: f in r[category] <==> f == field || (category in s && f in s[category])
    ensures forall f :: category in s && f in s[category] && f != field ==> r[category][f] == s[category][f]
  {
    var current := if category in s then s[category] else map[];
    s[category := current[field := value]]
  }

  /** What a generic field's input hands over: number inputs are read with
      `parseFloat(…) || 0` (a failed parse is `None`), checkboxes by their
      checked state, everything else as the typed text. */
  datatype FieldInput = NumberInput(parsed: Option<real>) | CheckboxInput(checked: bool) | TextInput(text: string)

  function InputValue(input: FieldInput): (v: Value)
    ensures input.NumberInput? ==> v.Num? && (input.parsed.None? ==> v.n == 0.0)
    ensures input.NumberInput? && input.parsed.Some? ==> v.n == input.parsed.value
    ensures input.CheckboxInput? <==> v.Flag?
    ensures input.CheckboxInput? ==> v.b == input.checked
    ensures input.TextInput? <==> v.Text?
    ensures input.TextInput? ==> v.s == input.text
  {
    match input
    case NumberInput(parsed) => Num(parsed.GetOr(0.0))
    case CheckboxInput(checked) => Flag(checked)
    case TextInput(text) => Text(text)
  }

  // ---------------------------------------------------------------------------
  // Membership plans
  // ---------------------------------------------------------------------------

  predicate HasPlans(s: SettingsRecord) {
    "membership" in s && "membershipPlans" in s["membership"] && s["membership"]["membershipPlans"].Plans?
  }

  function PlansOf(s: SettingsRecord): seq<Plan>
    requires HasPlans(s)
  {
    s["membership"]["membershipPlans"].plans
  }

  /** One edit of a plan row: a new name, the max-books input read with
      `parseInt(…) || 0`, or the price input read with `parseFloat(…) || 0`. */
  datatype PlanEdit = Rename(name: string) | SetMaxBooks(books: Option<int>) | SetPrice(amount: Option<real>)

  /** The plan at `index` with the edited field replaced; the list keeps its
      length and every other plan. */
  function PlansEdited(plans: seq<Plan>, index: nat, edit: PlanEdit): (r: seq<Plan>)
    requires index < |plans|
    ensures |r| == |plans|
    ensures forall j :: 0 <= j < |plans| && j != index ==> r[j] == plans[j]
    ensures r[index].name == (if edit.Rename? then edit.name else plans[index].name)
    ensures r[index].maxBooks == (if edit.SetMaxBooks? then edit.books.GetOr(0) else plans[index].maxBooks)
    ensures r[index].price == (if edit.SetPrice? then edit.amount.GetOr(0.0) else plans[index].price)
  {
    var p := plans[index];
    var p' := match edit
      case Rename(name) => p.(name := name)
      case SetMaxBooks(books) => p.(maxBooks := books.GetOr(0))
      case SetPrice(amount) => p.(price := amount.GetOr(0.0));
    plans[index := p']
  }

  /** The name the add button gives the new plan: "Plan " and the new count. */
  function NewPlan(count: nat): (p: Plan)
    ensures p.name == "Plan " + NatToString(count + 1) && p.maxBooks == 3 && p.price == 0.0
  {
    Plan("Plan " + NatToString(count + 1), 3, 0.0)
  }

  /** The remove button drops the plan at `index` only while more than one plan
      is left. */
  function PlansAfterRemove(plans: seq<Plan>, index: int): (r: seq<Plan>)
    ensures |plans| > 1 && 0 <= index < |plans| ==> r == plans[..index] + plans[index + 1..]
    ensures !(|plans| > 1 && 0 <= index < |plans|) ==> r == plans
  {
    if |plans| > 1 then RemoveAt(plans, index) else plans
  }

  /** The plan list is never emptied by removals. */
  lemma {:induction false} RemoveKeepsAPlan(plans: seq<Plan>, indices: seq<int>)
    requires |plans| >= 1
    ensures |RemoveAll(plans, indices)| >= 1
    decreases |indices|
  {
    if indices != [] {
      RemoveKeepsAPlan(plans, indices[..|indices| - 1]);
    }
  }

  /** A run of remove clicks, in order. */
  function RemoveAll(plans: seq<Plan>, indices: seq<int>): seq<Plan>
    decreases |indices|
  {
    if indices == [] then plans
    else PlansAfterRemove(RemoveAll(plans, indices[..|indices| - 1]), indices[|indices| - 1])
  }

  // ---------------------------------------------------------------------------
  // Reminder days and the due-date reminder checkbox
  // ---------------------------------------------------------------------------

  predicate HasReminderDays(s: SettingsRecord) {
    "fines" in s && "fineReminderDays" in s["fines"] && s["fines"]["fineReminderDays"].Days?
  }

  function ReminderDaysOf(s: SettingsRecord): seq<int>
    requires HasReminderDays(s)
  {
    s["fines"]["fineReminderDays"].days
  }

  function Ascending(d: int): int { d }

  /** The add button: the prompt's answer read with `parseInt` (a cancelled or
      unreadable answer is `None`); a positive day is added and the list sorted
      ascending, anything else leaves the list as it was. */
  function DaysAfterAdd(days: seq<int>, parsed: Option<int>): (r: seq<int>)
    ensures !(parsed.Some? && parsed.value > 0) ==> r == days
    ensures parsed.Some? && parsed.value > 0 ==>
      SortedBy(r, Ascending) && multiset(r) == multiset(days) + multiset{parsed.value}
  {
    if parsed.Some? && parsed.value > 0 then
      var r := SortBy(days + [parsed.value], Ascending);
      SortBySorted(days + [parsed.value], Ascending);
      SortByPermutes(days + [parsed.value], Ascending);
      r
    else days
  }

  /** The due-date reminder checkbox shows checked while the day count is positive. */
  predicate DueReminderChecked(s: SettingsRecord) {
    "notifications" in s && "dueReminderDays" in s["notifications"]
    && s["notifications"]["dueReminderDays"].Num? && s["notifications"]["dueReminderDays"].n > 0.0
  }

  function DueReminderValue(checked: bool): Value {
    Num(if checked then 2.0 else 0.0)
  }

  /** Ticking the checkbox stores 2 days and unticking stores 0, so the box then
      shows what was clicked; no other field moves. */
  lemma DueReminderToggle(s: SettingsRecord, checked: bool)
    ensures DueReminderChecked(SettingChanged(s, "notifications", "dueReminderDays", DueReminderValue(checked))) == checked
  {
  }

  /** The editor page holding the settings record. */
  class SettingsPage {
    var settings: SettingsRecord

    constructor ()
      ensures settings == InitialSettings()
    {
      settings := InitialSettings();
    }

    method HandleSettingChange(category: string, field: string, value: Value)
      modifies this
      ensures settings == SettingChanged(old(settings), category, field, value)
    {
      settings := SettingChanged(settings, category, field, value);
    }

    /** A generic field's change event: the input is converted, then stored. */
    method RenderedFieldChange(category: string, field: string, input: FieldInput)
      modifies this
      ensures settings == SettingChanged(old(settings), category, field, InputValue(input))
    {
      HandleSettingChange(category, field, InputValue(input));
    }

    method HandleMembershipPlanChange(index: nat, edit: PlanEdit)
      requires HasPlans(settings) && index < |PlansOf(settings)|
      modifies this
      ensures settings == SettingChanged(old(settings), "membership", "membershipPlans",
                                         Plans(PlansEdited(old(PlansOf(settings)), index, edit)))
    {
      var updatedPlans := PlansOf(settings);
      var p := updatedPlans[index];
      match edit {
        case Rename(name) => p := p.(name := name);
        case SetMaxBooks(books) => p := p.(maxBooks := books.GetOr(0));
        case SetPrice(amount) => p := p.(price := amount.GetOr(0.0));
      }
      updatedPlans := updatedPlans[index := p];
      HandleSettingChange("membership", "membershipPlans", Plans(updatedPlans));
    }

    method AddMembershipPlan()
      requires HasPlans(settings)
      modifies this
      ensures HasPlans(settings)
      ensures settings == SettingChanged(old(settings), "membership", "membershipPlans",
                                         Plans(old(PlansOf(settings)) + [NewPlan(|old(PlansOf(settings))|)]))
    {
      var plans := PlansOf(settings);
      HandleSettingChange("membership", "membershipPlans", Plans(plans + [NewPlan(|plans|)]));
    }

    method RemoveMembershipPlan(index: int)
      requires HasPlans(settings)
      modifies this
      ensures |old(PlansOf(settings))| > 1 ==>
        settings == SettingChanged(old(settings), "membership", "membershipPlans",
                                   Plans(PlansAfterRemove(old(PlansOf(settings)), index)))
      ensures |old(PlansOf(settings))| <= 1 ==> settings == old(settings)
    {
      var plans := PlansOf(settings);
      if |plans| > 1 {
        HandleSettingChange("membership", "membershipPlans", Plans(RemoveAt(plans, index)));
      }
    }

    /** The × next to a reminder day. */
    method RemoveReminderDay(index: int)
      requires HasReminderDays(settings)
      modifies this
      ensures settings == SettingChanged(old(settings), "fines", "fineReminderDays",
                                         Days(RemoveAt(old(ReminderDaysOf(settings)), index)))
    {
      HandleSettingChange("fines", "fineReminderDays", Days(RemoveAt(ReminderDaysOf(settings), index)));
    }

    method AddReminderDay(parsed: Option<int>)
      requires HasReminderDays(settings)
      modifies this
      ensures !(parsed.Some? && parsed.value > 0) ==> settings == old(settings)
      ensures parsed.Some? && parsed.value > 0 ==>
        settings == SettingChanged(old(settings), "fines", "fineReminderDays",
                                   Days(DaysAfterAdd(old(ReminderDaysOf(settings)), parsed)))
    {
      if parsed.Some? && parsed.value > 0 {
        HandleSettingChange("fines", "fineReminderDays", Days(DaysAfterAdd(ReminderDaysOf(settings), parsed)));
      }
    }

    method ToggleDueReminder(checked: bool)
      modifies this
      ensures settings == SettingChanged(old(settings), "notifications", "dueReminderDays", DueReminderValue(checked))
      ensures DueReminderChecked(settings) == checked
    {
      HandleSettingChange("notifications", "dueReminderDays", DueReminderValue(checked));
      DueReminderToggle(old(settings), checked);
    }

    /** Reset needs the confirmation; without it nothing changes. */
    method ResetToDefaults(confirmed: bool)
      modifies this
      ensures confirmed ==> settings == InitialSettings()
      ensures !confirmed ==> settings == old(settings)
    {
      if confirmed {
        settings := DefaultSettings();
        ResetMatchesInitial();
      }
    }

    /** Restore from a backup file; `None` is a file that did not parse, which
        leaves the settings untouched. A parsed file replaces them whole. */
    method Restore(parsed: Option<SettingsRecord>)
      modifies this
      ensures parsed.None? ==> settings == old(settings)
      ensures parsed.Some? ==> settings == parsed.value
    {
      if parsed.Some? {
        settings := parsed.value;
      }
    }
  }
}
