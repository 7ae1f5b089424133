/**
 * The reminder tick (supabase/scripts/sendWhatsAppReminders.js): read the
 * configuration, derive the local `HH:MM`, select the profiles whose time list
 * holds it and whose number is not null, and make one WhatsApp send attempt per
 * selected profile, in result order. The clock, the profile query and the
 * message provider are parameters: `deliver(k, m)` says whether the provider
 * accepts the k-th attempt, message `m`.
 */
module Reminders {
  import opened Js
  import opened TimeOfDay

  /** The five environment variables the script reads. */
  datatype Config = Config(
    supabaseUrl: Option<string>,
    serviceRoleKey: Option<string>,
    accountSid: Option<string>,
    authToken: Option<string>,
    whatsappNumber: Option<string>)

  /** Every variable is set to a non-empty value; otherwise the script exits with status 1. */
  predicate ConfigComplete(c: Config) {
    && Truthy(c.supabaseUrl) && Truthy(c.serviceRoleKey) && Truthy(c.accountSid)
    && Truthy(c.authToken) && Truthy(c.whatsappNumber)
  }

  /** A 'profiles' row. `enableNotifications` is part of the row but not of the query. */
  datatype ProfileRow = ProfileRow(
    id: string,
    whatsappNumber: Option<string>,
    notificationTimes: Option<seq<string>>,
    enableNotifications: bool)

  /** The local wall-clock time of `new Date()`. */
  datatype LocalTime = LocalTime(hours: nat, minutes: nat, seconds: nat, zone: string)

  predicate ValidTime(t: LocalTime) {
    t.hours < 24 && t.minutes < 60 && t.seconds < 60
  }

  /** `Date#toTimeString()`: "HH:MM:SS GMT+hhmm (Zone Name)". */
  function TimeString(t: LocalTime): string {
    Clock(t.hours, t.minutes) + ":" + PadStart2(NatToString(t.seconds)) + " " + t.zone
  }

  lemma TwoDigits(n: nat)
    requires n < 100
    ensures |PadStart2(NatToString(n))| == 2
  {
    if n >= 10 {
      assert NatToString(n) == NatToString(n / 10) + [DigitChar(n % 10)];
    }
  }

  lemma ClockLength(h: nat, m: nat)
    requires h < 100 && m < 100
    ensures |Clock(h, m)| == 5
  {
    TwoDigits(h);
    TwoDigits(m);
  }

  /** `now.toTimeString().slice(0, 5)`: five characters, the zero-padded hour and minute
      as the pages write them. */
  function CurrentTime(t: LocalTime): (r: string)
    requires ValidTime(t)
    ensures |r| == 5 && r == Clock(t.hours, t.minutes)
  {
    var c := Clock(t.hours, t.minutes);
    ClockLength(t.hours, t.minutes);
    var s := c + (":" + PadStart2(NatToString(t.seconds)) + " " + t.zone);
    assert s == TimeString(t);
    assert s[..5] == c;
    TimeString(t)[..5]
  }

  /** The current time parses back to the clock's hour on both pages. */
  lemma CurrentHour(t: LocalTime)
    requires ValidTime(t)
    ensures Hour24(CurrentTime(t)) == Some(t.hours as int)
  {
    ClockFields(t.hours, t.minutes);
  }

  /** The query's filter: the time list contains the current time and the number is not
      null. An empty number is not null. */
  predicate Due(currentTime: string, row: ProfileRow) {
    && row.notificationTimes.Some? && currentTime in row.notificationTimes.value
    && row.whatsappNumber.Some?
  }

  function DueAt(currentTime: string): ProfileRow -> bool {
    row => Due(currentTime, row)
  }

  /** The rows the query returns, in table order. */
  function Selected(rows: seq<ProfileRow>, currentTime: string): (r: seq<ProfileRow>)
    ensures forall i :: 0 <= i < |r| ==> r[i] in rows && Due(currentTime, r[i])
    ensures forall i :: 0 <= i < |rows| && Due(currentTime, rows[i]) ==> rows[i] in r
  {
    Filter(rows, DueAt(currentTime))
  }

  /** Nothing but the time list and the number is consulted: rows that agree on those two
      fields are selected alike, whatever their `enable_notifications`. */
  lemma {:induction false} SelectionIgnoresOtherFields(a: seq<ProfileRow>, b: seq<ProfileRow>,
                                                      currentTime: string)
    requires |a| == |b|
    requires forall i :: 0 <= i < |a| ==>
               a[i].notificationTimes == b[i].notificationTimes
               && a[i].whatsappNumber == b[i].whatsappNumber
    ensures |Selected(a, currentTime)| == |Selected(b, currentTime)|
    ensures forall i :: 0 <= i < |Selected(a, currentTime)| ==>
              Selected(a, currentTime)[i].whatsappNumber == Selected(b, currentTime)[i].whatsappNumber
  {
    if a != [] {
      SelectionIgnoresOtherFields(a[1..], b[1..], currentTime);
      var sa, sb := Selected(a[1..], currentTime), Selected(b[1..], currentTime);
      if Due(currentTime, a[0]) {
        assert Selected(a, currentTime) == [a[0]] + sa;
        assert Selected(b, currentTime) == [b[0]] + sb;
      } else {
        assert Selected(a, currentTime) == sa;
        assert Selected(b, currentTime) == sb;
      }
    }
  }

  const ReminderText: string :=
    "Reminder: Don't forget to check your challenge today! Keep up the good work!"

  datatype Message = Message(from: string, to: string, body: string)

  /** The message for one selected row. */
  function MessageFor(sender: string, row: ProfileRow): (m: Message)
    requires row.whatsappNumber.Some?
    ensures m.from == "whatsapp:" + sender && m.to == "whatsapp:" + row.whatsappNumber.value
    ensures m.body == ReminderText
  {
    Message("whatsapp:" + sender, "whatsapp:" + row.whatsappNumber.value, ReminderText)
  }

  /** One send attempt and whether the provider accepted it ("Sent reminder to ..." or
      "Failed to send message to ..."). */
  datatype Attempt = Attempt(message: Message, delivered: bool)

  /** The attempts the loop makes over `users`, the k-th one reported to the oracle as
      attempt number `first + k`. */
  function Attempts(users: seq<ProfileRow>, sender: string, deliver: (nat, Message) -> bool,
                    first: nat): (r: seq<Attempt>)
    requires forall i :: 0 <= i < |users| ==> users[i].whatsappNumber.Some?
    ensures |r| == |users|
    ensures forall i :: 0 <= i < |users| ==> r[i].message == MessageFor(sender, users[i])
    ensures forall i :: 0 <= i < |users| ==> r[i].delivered == deliver(first + i, r[i].message)
    decreases |users|
  {
    if users == [] then []
    else
      var m := MessageFor(sender, users[0]);
      [Attempt(m, deliver(first, m))] + Attempts(users[1..], sender, deliver, first + 1)
  }

  /** Failures are isolated: which messages are attempted does not depend on how the
      provider answers, only the delivered flags do. */
  lemma AttemptsIgnoreOutcomes(users: seq<ProfileRow>, sender: string,
                               d1: (nat, Message) -> bool, d2: (nat, Message) -> bool)
    requires forall i :: 0 <= i < |users| ==> users[i].whatsappNumber.Some?
    ensures var a1 := Attempts(users, sender, d1, 0);
            var a2 := Attempts(users, sender, d2, 0);
            |a1| == |a2| && forall i :: 0 <= i < |a1| ==> a1[i].message == a2[i].message
  {
  }

  /** How the script ended. */
  datatype Outcome = MissingConfiguration | QueryFailed | Finished(attempts: seq<Attempt>)

  /** The whole run: the configuration check at start-up (exit status 1), then
      `sendReminders`: the query (an error is logged and ends the run with no attempt),
      then one attempt per selected row, each failure caught and logged. */
  method RunScript(config: Config, now: LocalTime, rows: seq<ProfileRow>, queryOk: bool,
                   deliver: (nat, Message) -> bool)
    returns (outcome: Outcome)
    requires ValidTime(now)
    ensures !ConfigComplete(config) ==> outcome == MissingConfiguration
    ensures ConfigComplete(config) && !queryOk ==> outcome == QueryFailed
    ensures ConfigComplete(config) && queryOk ==>
              outcome == Finished(Attempts(Selected(rows, CurrentTime(now)),
                                           config.whatsappNumber.value, deliver, 0))
  {
    if !ConfigComplete(config) {
      return MissingConfiguration;
    }
    var currentTime := CurrentTime(now);
    if !queryOk {
      return QueryFailed;
    }
    var users := Selected(rows, currentTime);
    var attempts := SendAll(users, config.whatsappNumber.value, deliver);
    return Finished(attempts);
  }

  /** The `for` loop of `sendReminders`: one attempt per user, in order; a rejected send is
      caught and the loop goes on with the next user. */
  method SendAll(users: seq<ProfileRow>, sender: string, deliver: (nat, Message) -> bool)
    returns (attempts: seq<Attempt>)
    requires forall i :: 0 <= i < |users| ==> users[i].whatsappNumber.Some?
    ensures attempts == Attempts(users, sender, deliver, 0)
  {
    attempts := [];
    var k := 0;
    while k < |users|
      invariant 0 <= k <= |users| && |attempts| == k
      invariant forall i :: 0 <= i < k ==>
                  attempts[i] == Attempt(MessageFor(sender, users[i]),
                                         deliver(i, MessageFor(sender, users[i])))
    {
      var message := MessageFor(sender, users[k]);
      var delivered := deliver(k, message);
      attempts := attempts + [Attempt(message, delivered)];
      k := k + 1;
    }
    ghost var spec := Attempts(users, sender, deliver, 0);
    assert forall i :: 0 <= i < k ==> attempts[i] == spec[i];
  }

  /** A profile that lists the current minute, written as the pages write it, with any
      number at all, is selected, even with notifications switched off. */
  lemma DueProfileIsSelected(rows: seq<ProfileRow>, now: LocalTime, i: nat)
    requires ValidTime(now) && i < |rows|
    requires rows[i].notificationTimes.Some? && rows[i].whatsappNumber.Some?
    requires Clock(now.hours, now.minutes) in rows[i].notificationTimes.value
    ensures rows[i] in Selected(rows, CurrentTime(now))
  {
  }
}
