/**
 * The notification settings page (src/pages/NotificationsPage.tsx): the
 * enable switch, the three notification-type checkboxes, the raw phone
 * number, the list of daily times, and the 'profiles' rows that "Save"
 * updates. Every handler is one sequential step; the save has no checks.
 */
module NotificationsPage {
  import opened Js
  import opened TimeOfDay
  import PhoneNumber
  import TimeList

  const DefaultTimes: seq<string> := ["04:00", "05:00", "06:00", "07:00", "10:00"]

  /** The three checkboxes of "Notification Types". */
  datatype NotificationKind = DailyMotivation | Reminders | Alerts

  datatype NotificationTypes = NotificationTypes(dailyMotivation: bool, reminders: bool, alerts: bool)

  function Get(t: NotificationTypes, k: NotificationKind): bool {
    match k
    case DailyMotivation => t.dailyMotivation
    case Reminders => t.reminders
    case Alerts => t.alerts
  }

  /** `{ ...notificationTypes, [k]: v }` */
  function Set(t: NotificationTypes, k: NotificationKind, v: bool): (r: NotificationTypes)
    ensures Get(r, k) == v
    ensures forall other :: other != k ==> Get(r, other) == Get(t, other)
  {
    match k
    case DailyMotivation => t.(dailyMotivation := v)
    case Reminders => t.(reminders := v)
    case Alerts => t.(alerts := v)
  }

  /** Setting a key to the value it already holds changes nothing; setting it twice keeps
      only the second value. */
  lemma SetLaws(t: NotificationTypes, k: NotificationKind, v: bool, w: bool)
    ensures Set(t, k, Get(t, k)) == t
    ensures Set(Set(t, k, v), k, w) == Set(t, k, w)
  {
  }

  /** The optional `notification_types` object of the signed-in profile. */
  datatype StoredTypes = StoredTypes(dailyMotivation: Option<bool>, reminders: Option<bool>,
                                     alerts: Option<bool>)

  /** The fields of the signed-in profile (`useAuth().profile`) the page reads. */
  datatype AuthProfile = AuthProfile(
    id: string,
    notificationTimes: Option<seq<string>>,
    enableNotifications: Option<bool>,
    notificationTypes: Option<StoredTypes>,
    whatsappNumber: Option<string>)

  /** The columns "Save" writes to a 'profiles' row. */
  datatype Settings = Settings(
    notificationTimes: seq<string>,
    enableNotifications: bool,
    notificationTypes: NotificationTypes,
    whatsappNumber: string)

  /** `x ?? d` on an optional boolean. */
  function OrElse(x: Option<bool>, d: bool): bool {
    if x.Some? then x.value else d
  }

  /** The initial `notificationTypes`: each key from the profile, else true, false, false. */
  function InitialTypes(p: Option<AuthProfile>): (r: NotificationTypes)
    ensures p.None? || p.value.notificationTypes.None? ==> r == NotificationTypes(true, false, false)
    ensures p.Some? && p.value.notificationTypes.Some? ==>
              var s := p.value.notificationTypes.value;
              && (s.dailyMotivation.Some? ==> r.dailyMotivation == s.dailyMotivation.value)
              && (s.reminders.Some? ==> r.reminders == s.reminders.value)
              && (s.alerts.Some? ==> r.alerts == s.alerts.value)
              && (s.dailyMotivation.None? ==> r.dailyMotivation)
              && (s.reminders.None? ==> !r.reminders)
              && (s.alerts.None? ==> !r.alerts)
  {
    if p.None? || p.value.notificationTypes.None? then NotificationTypes(true, false, false)
    else
      var s := p.value.notificationTypes.value;
      NotificationTypes(OrElse(s.dailyMotivation, true), OrElse(s.reminders, false),
                        OrElse(s.alerts, false))
  }

  /** The red "Please enter a valid phone number." line: drawn inside the enabled section
      when the number is non-empty and does not validate. */
  function ValidationMessageShown(enable: bool, phone: string): (shown: bool)
    ensures shown <==> enable && phone != [] && !(10 <= |PhoneNumber.DigitsOf(phone)| <= 15)
  {
    enable && !PhoneNumber.IsValid(phone) && |phone| > 0
  }

  /** A number with fewer than ten characters can never pass, so typing one shows the
      message; an empty field never does. */
  lemma ShortNumberShowsMessage(phone: string)
    requires 0 < |phone| < 10
    ensures ValidationMessageShown(true, phone)
    ensures !ValidationMessageShown(true, "")
  {
  }

  class NotificationSettings {
    var notificationTimes: seq<string>
    var enableNotifications: bool
    var notificationTypes: NotificationTypes
    var phoneNumber: string
    /** The id `.eq('id', profile?.id)` selects; None is an absent profile. */
    var profileId: Option<string>
    /** The 'profiles' table, as far as the page writes it. */
    var rows: map<string, Settings>

    /** The initial state built from the signed-in profile (arrays are truthy even when
        empty, so a stored empty time list is kept). */
    constructor (p: Option<AuthProfile>, rows: map<string, Settings>)
      ensures notificationTimes ==
                if p.Some? && p.value.notificationTimes.Some? then p.value.notificationTimes.value
                else DefaultTimes
      ensures enableNotifications == (p.Some? && OrElse(p.value.enableNotifications, false))
      ensures notificationTypes == InitialTypes(p)
      ensures phoneNumber == if p.Some? && p.value.whatsappNumber.Some? then p.value.whatsappNumber.value
                             else ""
      ensures profileId == (if p.Some? then Some(p.value.id) else None)
      ensures this.rows == rows
    {
      notificationTimes :=
        if p.Some? && p.value.notificationTimes.Some? then p.value.notificationTimes.value
        else DefaultTimes;
      enableNotifications := p.Some? && OrElse(p.value.enableNotifications, false);
      notificationTypes := InitialTypes(p);
      phoneNumber := if p.Some? && p.value.whatsappNumber.Some? then p.value.whatsappNumber.value
                     else "";
      profileId := if p.Some? then Some(p.value.id) else None;
      this.rows := rows;
    }

    /** The values "Save" sends. */
    function Current(): Settings
      reads this
    {
      Settings(notificationTimes, enableNotifications, notificationTypes, phoneNumber)
    }

    /** `handleSave`: update the row of the profile id with the page's values, without any
        validation of number or times. A failed update changes nothing; an id with no row
        matches nothing. Returns whether the success toast is shown. */
    method HandleSave(updateOk: bool) returns (ok: bool)
      modifies this`rows
      ensures ok == updateOk
      ensures !updateOk || profileId.None? || profileId.value !in old(rows) ==> rows == old(rows)
      ensures updateOk && profileId.Some? && profileId.value in old(rows) ==>
                rows == old(rows)[profileId.value := Current()]
    {
      if !updateOk {
        return false;
      }
      if profileId.Some? && profileId.value in rows {
        rows := rows[profileId.value := Current()];
      }
      return true;
    }

    method SetEnabled(checked: bool)
      modifies this`enableNotifications
      ensures enableNotifications == checked
    {
      enableNotifications := checked;
    }

    /** One of the three type checkboxes. */
    method SetType(kind: NotificationKind, checked: bool)
      modifies this`notificationTypes
      ensures notificationTypes == Set(old(notificationTypes), kind, checked)
    {
      notificationTypes := Set(notificationTypes, kind, checked);
    }

    /** The phone field stores what was typed, unfiltered. */
    method SetPhoneNumber(typed: string)
      modifies this`phoneNumber
      ensures phoneNumber == typed
    {
      phoneNumber := typed;
    }

    /** The hour select of time `index` (options 1..12). */
    method SelectHour(index: nat, newHour12: int)
      requires index < |notificationTimes| && 1 <= newHour12 <= 12
      modifies this`notificationTimes
      ensures notificationTimes ==
                old(notificationTimes)[index := HourSelected(old(notificationTimes)[index], newHour12)]
    {
      var newTimes := notificationTimes;
      newTimes := newTimes[index := HourSelected(notificationTimes[index], newHour12)];
      notificationTimes := newTimes;
    }

    /** The minute select of time `index` (options "00".."59"). */
    method SelectMinute(index: nat, newMinutes: string)
      requires index < |notificationTimes| && ':' !in newMinutes
      modifies this`notificationTimes
      ensures notificationTimes ==
                old(notificationTimes)[index := MinuteSelected(old(notificationTimes)[index], newMinutes)]
    {
      var newTimes := notificationTimes;
      newTimes := newTimes[index := MinuteSelected(notificationTimes[index], newMinutes)];
      notificationTimes := newTimes;
    }

    /** The AM/PM select of time `index`. */
    method SelectMeridiem(index: nat, newMeridiem: Meridiem)
      requires index < |notificationTimes|
      modifies this`notificationTimes
      ensures notificationTimes ==
                old(notificationTimes)[index := MeridiemSelected(old(notificationTimes)[index], newMeridiem)]
    {
      var newTimes := notificationTimes;
      newTimes := newTimes[index := MeridiemSelected(notificationTimes[index], newMeridiem)];
      notificationTimes := newTimes;
    }

    method AddTime()
      modifies this`notificationTimes
      ensures notificationTimes == TimeList.Added(old(notificationTimes))
    {
      if |notificationTimes| < TimeList.MaxTimes {
        notificationTimes := notificationTimes + [TimeList.NewTime];
      }
    }

    method RemoveTime(index: nat)
      requires index < |notificationTimes|
      modifies this`notificationTimes
      ensures notificationTimes == TimeList.Removed(old(notificationTimes), index)
    {
      if |notificationTimes| > 1 {
        notificationTimes := notificationTimes[..index] + notificationTimes[index + 1..];
      }
    }
  }
}
