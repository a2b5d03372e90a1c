/**
 * The recurring reminder engine: one evaluation per calendar day, events upserted under a unique
 * key, so that evaluating a day again changes nothing.
 */
module Reminders {
  import opened Common
  import opened BillingCycle

  datatype Frequency = Daily | Weekly | Monthly | Yearly

  datatype Template = Template(
    id: Id, start: Date, end: Option<Date>, frequency: Frequency,
    isActive: bool, reminderEnabled: bool, reminderOffsetDays: Option<nat>)

  datatype DueInstallment = DueInstallment(id: Id, nextDueDate: Date, isActive: bool)

  /** The two unique constraints of the event table, as one key type. */
  datatype Key =
    | ForTemplate(templateId: Id, occurrence: Date, offsetDays: nat)
    | ForInstallment(installmentId: Id, occurrence: Date, offsetDays: nat)

  datatype Event = Event(reminderDate: Date, isCompleted: bool)

  const INSTALLMENT_REMINDER_OFFSET_DAYS: nat := 3
  const VALID_REMINDER_OFFSET_DAYS: set<nat> := {0, 1, 3, 7}

  ghost predicate WellFormed(templates: seq<Template>, installments: seq<DueInstallment>) {
    && (forall t :: t in templates ==> TemplateOk(t))
    && (forall i :: i in installments ==> IsReal(i.nextDueDate))
  }

  /** What the template service stores: real dates and one of the allowed offsets. */
  predicate TemplateOk(t: Template) {
    && IsReal(t.start)
    && (t.end.Some? ==> IsReal(t.end.value))
    && (t.reminderOffsetDays.Some? ==> t.reminderOffsetDays.value in VALID_REMINDER_OFFSET_DAYS)
  }

  predicate Selected(t: Template) {
    t.isActive && t.reminderEnabled && t.frequency == Monthly && t.reminderOffsetDays.Some?
  }

  /** The event key a template contributes to the evaluation of `day`, if any. */
  function TemplateFires(t: Template, day: Date): Option<Key>
    requires TemplateOk(t) && IsReal(day)
  {
    if !Selected(t) then None
    else
      var next := NextMonthlyOccurrence(t.start, t.end, day);
      if next.None? || SubtractDays(next.value, t.reminderOffsetDays.value) != day then None
      else Some(ForTemplate(t.id, next.value, t.reminderOffsetDays.value))
  }

  function InstallmentFires(i: DueInstallment, day: Date): Option<Key>
    requires IsReal(i.nextDueDate)
  {
    if !i.isActive || SubtractDays(i.nextDueDate, INSTALLMENT_REMINDER_OFFSET_DAYS) != day then None
    else Some(ForInstallment(i.id, i.nextDueDate, INSTALLMENT_REMINDER_OFFSET_DAYS))
  }

  /** The keys the first `n` templates fire on `day`. */
  ghost function TemplateKeys(templates: seq<Template>, n: nat, day: Date): set<Key>
    requires n <= |templates| && WellFormed(templates, []) && IsReal(day)
  {
    if n == 0 then {}
    else TemplateKeys(templates, n - 1, day) + OneKey(TemplateFires(templates[n - 1], day))
  }

  ghost function InstallmentKeys(installments: seq<DueInstallment>, n: nat, day: Date): set<Key>
    requires n <= |installments| && WellFormed([], installments) && IsReal(day)
  {
    if n == 0 then {}
    else InstallmentKeys(installments, n - 1, day) + OneKey(InstallmentFires(installments[n - 1], day))
  }

  function OneKey(key: Option<Key>): set<Key> {
    if key.Some? then {key.value} else {}
  }

  ghost function FiredKeys(templates: seq<Template>, installments: seq<DueInstallment>, day: Date): set<Key>
    requires WellFormed(templates, installments) && IsReal(day)
  {
    TemplateKeys(templates, |templates|, day) + InstallmentKeys(installments, |installments|, day)
  }

  lemma {:induction false} TemplateKeysExact(templates: seq<Template>, n: nat, day: Date, key: Key)
    requires n <= |templates| && WellFormed(templates, []) && IsReal(day)
    ensures key in TemplateKeys(templates, n, day) <==> exists j :: 0 <= j < n && TemplateFires(templates[j], day) == Some(key)
  {
    if n > 0 {
      TemplateKeysExact(templates, n - 1, day, key);
      assert TemplateKeys(templates, n, day) == TemplateKeys(templates, n - 1, day) + OneKey(TemplateFires(templates[n - 1], day));
    }
  }

  lemma KeyAdded(keys: set<Key>, fires: Option<Key>, key: Key)
    ensures key in keys + OneKey(fires) <==> key in keys || fires == Some(key)
  {
  }

  lemma {:induction false} InstallmentKeysExact(installments: seq<DueInstallment>, n: nat, day: Date, key: Key)
    requires n <= |installments| && WellFormed([], installments) && IsReal(day)
    ensures key in InstallmentKeys(installments, n, day) <==> exists j :: 0 <= j < n && InstallmentFires(installments[j], day) == Some(key)
  {
    if n > 0 {
      InstallmentKeysExact(installments, n - 1, day, key);
      KeyAdded(InstallmentKeys(installments, n - 1, day), InstallmentFires(installments[n - 1], day), key);
    }
  }

  /** Insert unless present: an upsert with an empty update. */
  function Upsert(events: map<Key, Event>, key: Key, day: Date): map<Key, Event> {
    if key in events then events else events[key := Event(day, false)]
  }

  /** `after` is `before` plus one fresh event, dated `day`, for each of `keys` that was missing. */
  ghost predicate Recorded(before: map<Key, Event>, after: map<Key, Event>, keys: set<Key>, day: Date) {
    && after.Keys == before.Keys + keys
    && (forall key :: key in before ==> after[key] == before[key])
    && (forall key :: key in after && key !in before ==> after[key] == Event(day, false))
  }

  class Engine {
    var events: map<Key, Event>

    constructor ()
      ensures events == map[]
    {
      events := map[];
    }

    /** Record one fired key; the row that is already there wins. */
    method Fire(key: Option<Key>, day: Date, fired: seq<Key>, ghost before: map<Key, Event>, ghost keys: set<Key>) returns (now: seq<Key>)
      requires Recorded(before, events, keys, day)
      requires forall k :: k in fired <==> k in keys
      modifies this
      ensures Recorded(before, events, keys + OneKey(key), day)
      ensures forall k :: k in now <==> k in keys + OneKey(key)
    {
      now := fired;
      if key.Some? {
        events := Upsert(events, key.value, day);
        now := fired + [key.value];
      }
    }

    /** One evaluation of every active template and every active installment. */
    method EvaluateReminders(templates: seq<Template>, installments: seq<DueInstallment>, day: Date) returns (fired: seq<Key>)
      requires WellFormed(templates, installments) && IsReal(day)
      modifies this
      ensures Recorded(old(events), events, FiredKeys(templates, installments, day), day)
      ensures forall key :: key in fired <==> key in FiredKeys(templates, installments, day)
    {
      fired := [];
      ghost var before := events;
      for n := 0 to |templates|
        invariant Recorded(before, events, TemplateKeys(templates, n, day), day)
        invariant forall key :: key in fired <==> key in TemplateKeys(templates, n, day)
      {
        fired := Fire(TemplateFires(templates[n], day), day, fired, before, TemplateKeys(templates, n, day));
      }
      ghost var keys := TemplateKeys(templates, |templates|, day);
      for n := 0 to |installments|
        invariant keys == TemplateKeys(templates, |templates|, day) + InstallmentKeys(installments, n, day)
        invariant Recorded(before, events, keys, day)
        invariant forall key :: key in fired <==> key in keys
      {
        fired := Fire(InstallmentFires(installments[n], day), day, fired, before, keys);
        keys := keys + OneKey(InstallmentFires(installments[n], day));
      }
    }
  }

  // ---------------------------------------------------------------- whole runs

  /** `states` is the event table before, between and after evaluating `days` in turn. */
  ghost predicate IsRun(states: seq<map<Key, Event>>, templates: seq<Template>, installments: seq<DueInstallment>, days: seq<Date>)
    requires WellFormed(templates, installments)
  {
    && |states| == |days| + 1
    && (forall d :: d in days ==> IsReal(d))
    && forall n :: 0 <= n < |days| ==> Recorded(states[n], states[n + 1], FiredKeys(templates, installments, days[n]), days[n])
  }

  ghost predicate FiredBy(templates: seq<Template>, installments: seq<DueInstallment>, day: Date, key: Key)
    requires WellFormed(templates, installments)
  {
    IsReal(day) && key in FiredKeys(templates, installments, day)
  }

  /** Exactly the keys fired on some evaluated day, each dated one of the days that fire it. */
  lemma {:induction false} RunCollects(states: seq<map<Key, Event>>, templates: seq<Template>, installments: seq<DueInstallment>,
                                       days: seq<Date>, n: nat, key: Key)
    requires WellFormed(templates, installments) && IsRun(states, templates, installments, days)
    requires states[0] == map[] && n <= |days|
    ensures key in states[n] ==> states[n][key].reminderDate in days && FiredBy(templates, installments, states[n][key].reminderDate, key)
    ensures (exists j :: 0 <= j < n && FiredBy(templates, installments, days[j], key)) ==> key in states[n]
  {
    if n > 0 {
      RunCollects(states, templates, installments, days, n - 1, key);
      assert Recorded(states[n - 1], states[n], FiredKeys(templates, installments, days[n - 1]), days[n - 1]);
    }
  }

  /** On the reminder day of an occurrence, that occurrence is the next one: they are 28 days apart. */
  lemma NextOnReminderDay(t: Template, k: nat)
    requires TemplateOk(t) && Selected(t) && Within(Occurrence(t.start, k), t.end)
    ensures NextMonthlyOccurrence(t.start, t.end, SubtractDays(Occurrence(t.start, k), t.reminderOffsetDays.value))
            == Some(Occurrence(t.start, k))
  {
    var day := SubtractDays(Occurrence(t.start, k), t.reminderOffsetDays.value);
    var index := NextIndex(t.start, day);
    CloseOccurrenceIsNext(t.start, day, index, k);
    NextWithin(t.start, t.end, day);
  }

  /** A day fires an occurrence exactly when it is the occurrence's reminder day. */
  lemma FiresOnReminderDay(t: Template, day: Date, k: nat)
    requires TemplateOk(t) && Selected(t) && IsReal(day)
    requires Within(Occurrence(t.start, k), t.end)
    ensures var occurrence := Occurrence(t.start, k);
      TemplateFires(t, day) == Some(ForTemplate(t.id, occurrence, t.reminderOffsetDays.value))
      <==> SubtractDays(occurrence, t.reminderOffsetDays.value) == day
  {
    NextOnReminderDay(t, k);
  }

  /** Whatever fires for a template is one of its occurrences inside start..end. */
  lemma FiredIsOccurrence(t: Template, day: Date) returns (k: nat)
    requires TemplateOk(t) && IsReal(day) && TemplateFires(t, day).Some?
    ensures Selected(t)
    ensures TemplateFires(t, day).value == ForTemplate(t.id, Occurrence(t.start, k), t.reminderOffsetDays.value)
    ensures Within(Occurrence(t.start, k), t.end)
  {
    NextMonthlyOccurrenceIsLeast(t.start, t.end, day);
    var next := NextMonthlyOccurrence(t.start, t.end, day);
    k :| next.value == Occurrence(t.start, k) && IsOccurrenceFrom(t.start, t.end, day, k);
  }

  /**
   * The event the specification expects, of an active monthly template that reminds: an occurrence in
   * range whose reminder day is in the interval.
   */
  ghost predicate Expected(t: Template, from: Date, to: Date, key: Key, k: nat)
    requires TemplateOk(t)
  {
    && t.isActive && t.reminderEnabled && t.frequency == Monthly && t.reminderOffsetDays.Some?
    && (var occurrence := Occurrence(t.start, k);
        var reminderDay := SubtractDays(occurrence, t.reminderOffsetDays.value);
        && key == ForTemplate(t.id, occurrence, t.reminderOffsetDays.value)
        && Within(occurrence, t.end)
        && NotAfter(from, reminderDay) && NotAfter(reminderDay, to))
  }

  /**
   * Evaluating every day of an interval, in any order and any positive number of times, stores
   * for a template exactly one event per occurrence whose reminder day lies in the interval, dated
   * that day, and nothing else; and none for a template that is inactive or does not remind.
   */
  lemma RemindersAreExact(states: seq<map<Key, Event>>, templates: seq<Template>, installments: seq<DueInstallment>,
                          days: seq<Date>, from: Date, to: Date, t: Template, key: Key)
    requires WellFormed(templates, installments) && IsRun(states, templates, installments, days) && states[0] == map[]
    requires forall d :: d in days <==> IsReal(d) && NotAfter(from, d) && NotAfter(d, to)
    requires t in templates && key.ForTemplate? && key.templateId == t.id
    requires forall u :: u in templates && u.id == t.id ==> u == t
    ensures key in states[|days|] <==> exists k: nat :: Expected(t, from, to, key, k)
    ensures key in states[|days|] ==>
      states[|days|][key].reminderDate == SubtractDays(key.occurrence, key.offsetDays)
  {
    RunCollects(states, templates, installments, days, |days|, key);
    if key in states[|days|] {
      var d := states[|days|][key].reminderDate;
      OnlyTemplateFires(templates, installments, d, t, key);
      var k := FiredIsOccurrence(t, d);
      FiresOnReminderDay(t, d, k);
      assert Expected(t, from, to, key, k);
    }
    if k: nat :| Expected(t, from, to, key, k) {
      var d := SubtractDays(key.occurrence, key.offsetDays);
      FiresOnReminderDay(t, d, k);
      assert d in days;
      var j :| 0 <= j < |days| && days[j] == d;
      TemplateKeysExact(templates, |templates|, d, key);
      assert FiredBy(templates, installments, days[j], key);
    }
  }

  lemma OnlyTemplateFires(templates: seq<Template>, installments: seq<DueInstallment>, day: Date, t: Template, key: Key)
    requires WellFormed(templates, installments) && t in templates
    requires key.ForTemplate? && key.templateId == t.id
    requires forall u :: u in templates && u.id == t.id ==> u == t
    requires FiredBy(templates, installments, day, key)
    ensures TemplateFires(t, day) == Some(key)
  {
    TemplateKeysExact(templates, |templates|, day, key);
    InstallmentKeysExact(installments, |installments|, day, key);
  }

  /** Installment reminders: stored for an active bill's due date exactly when its lead day was evaluated. */
  lemma InstallmentRemindersAreExact(states: seq<map<Key, Event>>, templates: seq<Template>, installments: seq<DueInstallment>,
                                     days: seq<Date>, i: DueInstallment, key: Key)
    requires WellFormed(templates, installments) && IsRun(states, templates, installments, days) && states[0] == map[]
    requires i in installments && key.ForInstallment? && key.installmentId == i.id
    requires forall j :: j in installments && j.id == i.id ==> j == i
    ensures key in states[|days|]
      <==> i.isActive && key == ForInstallment(i.id, i.nextDueDate, 3) && SubtractDays(i.nextDueDate, 3) in days
    ensures key in states[|days|] ==> states[|days|][key].reminderDate == SubtractDays(key.occurrence, key.offsetDays)
  {
    RunCollects(states, templates, installments, days, |days|, key);
    var lead := SubtractDays(i.nextDueDate, 3);
    if key in states[|days|] {
      var d := states[|days|][key].reminderDate;
      TemplateKeysExact(templates, |templates|, d, key);
      InstallmentKeysExact(installments, |installments|, d, key);
    }
    if i.isActive && key == ForInstallment(i.id, i.nextDueDate, 3) && lead in days {
      InstallmentKeysExact(installments, |installments|, lead, key);
      var j :| 0 <= j < |days| && days[j] == lead;
      assert FiredBy(templates, installments, days[j], key);
    }
  }
}
