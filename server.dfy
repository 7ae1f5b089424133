/**
 * The Express back end (backend/server.ts). Its two stores are in memory here:
 * the PostgreSQL tables `scheduled_notifications` and `notification_logs`
 * (class NotificationDb) and the MongoDB `UserProfile` collection (class
 * ProfileDb). Each handler becomes a method that answers with the HTTP status
 * code, plus the body value the client reads. `dbOk == false` stands for a
 * store call that throws, which the handlers turn into a 500.
 */
module Server {
  import opened Js

  /** Timestamps (`scheduled_time`, `beforeDate`) as PostgreSQL orders them. */
  type Timestamp = int

  datatype ScheduledRow = ScheduledRow(
    id: nat, userId: string, message: string, scheduledTime: Timestamp, status: string)

  datatype LogRow = LogRow(notificationId: Option<nat>, sentAt: Timestamp, status: string,
                           response: string)

  const BadRequest := 400
  const NotFound := 404
  const ServerError := 500

  // ---------------------------------------------------------------------------
  // DELETE ... WHERE scheduled_time < $1
  // ---------------------------------------------------------------------------

  function KeepFrom(before: Timestamp): ScheduledRow -> bool {
    (x: ScheduledRow) => x.scheduledTime >= before
  }

  function DeleteBefore(before: Timestamp): ScheduledRow -> bool {
    (x: ScheduledRow) => x.scheduledTime < before
  }

  /** The rows a clear with cutoff `before` keeps. */
  function Kept(rows: seq<ScheduledRow>, before: Timestamp): (r: seq<ScheduledRow>)
    ensures forall i :: 0 <= i < |r| ==> r[i] in rows && r[i].scheduledTime >= before
    ensures forall i :: 0 <= i < |rows| && rows[i].scheduledTime >= before ==> rows[i] in r
  {
    Filter(rows, KeepFrom(before))
  }

  /** The rows a clear with cutoff `before` deletes. */
  function Deleted(rows: seq<ScheduledRow>, before: Timestamp): (r: seq<ScheduledRow>)
    ensures forall i :: 0 <= i < |r| ==> r[i] in rows && r[i].scheduledTime < before
    ensures forall i :: 0 <= i < |rows| && rows[i].scheduledTime < before ==> rows[i] in r
  {
    Filter(rows, DeleteBefore(before))
  }

  /** Kept and deleted rows split the table: every row lands in exactly one of them, so
      the number kept plus the number deleted is the number there was. */
  lemma ClearSplits(rows: seq<ScheduledRow>, before: Timestamp)
    ensures |Kept(rows, before)| + |Deleted(rows, before)| == |rows|
    ensures multiset(Kept(rows, before)) + multiset(Deleted(rows, before)) == multiset(rows)
  {
    FilterSplit(rows, KeepFrom(before), DeleteBefore(before));
  }

  /** Clearing again with the same cutoff keeps everything and deletes nothing. */
  lemma ClearIdempotent(rows: seq<ScheduledRow>, before: Timestamp)
    ensures Kept(Kept(rows, before), before) == Kept(rows, before)
    ensures Deleted(Kept(rows, before), before) == []
  {
    FilterIdempotent(rows, KeepFrom(before));
    var k := Kept(rows, before);
    FilterSplit(k, KeepFrom(before), DeleteBefore(before));
  }

  /** Row ids in increasing order: the serial column only grows. */
  predicate IdsIncreasing(rows: seq<ScheduledRow>) {
    forall i, j :: 0 <= i < j < |rows| ==> rows[i].id < rows[j].id
  }

  lemma {:induction false} KeptIncreasing(rows: seq<ScheduledRow>, before: Timestamp)
    requires IdsIncreasing(rows)
    ensures IdsIncreasing(Kept(rows, before))
  {
    if rows != [] {
      KeptIncreasing(rows[1..], before);
      var tail := Kept(rows[1..], before);
      KeptAbove(rows, before);
      if KeepFrom(before)(rows[0]) {
        assert Kept(rows, before) == [rows[0]] + tail;
        ConsIncreasing(rows[0], tail);
      } else {
        assert Kept(rows, before) == tail;
      }
    }
  }

  /** Every row kept from the tail has a larger id than the head. */
  lemma KeptAbove(rows: seq<ScheduledRow>, before: Timestamp)
    requires IdsIncreasing(rows) && rows != []
    ensures forall j :: 0 <= j < |Kept(rows[1..], before)| ==> rows[0].id < Kept(rows[1..], before)[j].id
  {
    var tail := Kept(rows[1..], before);
    forall j | 0 <= j < |tail|
      ensures rows[0].id < tail[j].id
    {
      var k :| 0 <= k < |rows[1..]| && rows[1..][k] == tail[j];
      assert rows[k + 1] == tail[j];
    }
  }

  lemma ConsIncreasing(x: ScheduledRow, rows: seq<ScheduledRow>)
    requires IdsIncreasing(rows) && forall j :: 0 <= j < |rows| ==> x.id < rows[j].id
    ensures IdsIncreasing([x] + rows)
  {
    var r := [x] + rows;
    forall i, j | 0 <= i < j < |r|
      ensures r[i].id < r[j].id
    {
      assert r[j] == rows[j - 1];
      if i > 0 {
        assert r[i] == rows[i - 1];
      }
    }
  }

  class NotificationDb {
    var scheduled: seq<ScheduledRow>
    var logs: seq<LogRow>
    /** The next value of the `id` serial. */
    var nextId: nat

    /** Every id already handed out is below the serial, in insertion order. */
    predicate Valid()
      reads this
    {
      IdsIncreasing(scheduled) && forall i :: 0 <= i < |scheduled| ==> scheduled[i].id < nextId
    }

    constructor ()
      ensures Valid() && scheduled == [] && logs == [] && nextId == 1
    {
      scheduled, logs, nextId := [], [], 1;
    }

    /** POST /api/schedule-whatsapp-notification: with all three fields truthy, insert one
        'pending' row and answer 201 with its id; otherwise 400 and no row. */
    method Schedule(userId: Option<string>, message: Option<string>,
                    scheduledTime: Option<Timestamp>, dbOk: bool)
      returns (status: int, notificationId: Option<nat>)
      requires Valid()
      modifies this`scheduled, this`nextId
      ensures Valid()
      ensures !Truthy(userId) || !Truthy(message) || scheduledTime.None? ==>
                status == BadRequest && notificationId.None?
                && scheduled == old(scheduled) && nextId == old(nextId)
      ensures Truthy(userId) && Truthy(message) && scheduledTime.Some? && !dbOk ==>
                status == ServerError && notificationId.None?
                && scheduled == old(scheduled) && nextId == old(nextId)
      ensures Truthy(userId) && Truthy(message) && scheduledTime.Some? && dbOk ==>
                && status == 201 && notificationId == Some(old(nextId))
                && scheduled == old(scheduled) + [ScheduledRow(old(nextId), userId.value, message.value,
                                                               scheduledTime.value, "pending")]
                && nextId == old(nextId) + 1
      ensures notificationId.Some? ==>
                forall i :: 0 <= i < |old(scheduled)| ==> old(scheduled)[i].id != notificationId.value
    {
      if !Truthy(userId) || !Truthy(message) || scheduledTime.None? {
        return BadRequest, None;
      }
      if !dbOk {
        return ServerError, None;
      }
      var row := ScheduledRow(nextId, userId.value, message.value, scheduledTime.value, "pending");
      scheduled := scheduled + [row];
      notificationId := Some(nextId);
      nextId := nextId + 1;
      status := 201;
    }

    /** POST /api/clear-scheduled-notifications: without `beforeDate` answer 400; otherwise
        delete the rows scheduled strictly before it and report how many went. */
    method ClearBefore(beforeDate: Option<Timestamp>, dbOk: bool)
      returns (status: int, deletedCount: Option<nat>)
      requires Valid()
      modifies this`scheduled
      ensures Valid()
      ensures beforeDate.None? || !dbOk ==>
                && status == (if beforeDate.None? then BadRequest else ServerError)
                && deletedCount.None? && scheduled == old(scheduled)
      ensures beforeDate.Some? && dbOk ==>
                && status == 200
                && scheduled == Kept(old(scheduled), beforeDate.value)
                && deletedCount == Some(|Deleted(old(scheduled), beforeDate.value)|)
    {
      if beforeDate.None? {
        return BadRequest, None;
      }
      if !dbOk {
        return ServerError, None;
      }
      var before := beforeDate.value;
      ClearSplits(scheduled, before);
      KeptIncreasing(scheduled, before);
      var kept := Kept(scheduled, before);
      deletedCount := Some(|scheduled| - |kept|);
      scheduled := kept;
      status := 200;
    }

    /** POST /api/send-whatsapp: with all three fields truthy, append one 'sent' log row
        that names no notification, whatever happens to the message; otherwise 400. */
    method SendImmediate(userId: Option<string>, message: Option<string>, phone: Option<string>,
                         now: Timestamp, dbOk: bool)
      returns (status: int)
      modifies this`logs
      ensures !Truthy(userId) || !Truthy(message) || !Truthy(phone) ==>
                status == BadRequest && logs == old(logs)
      ensures Truthy(userId) && Truthy(message) && Truthy(phone) && !dbOk ==>
                status == ServerError && logs == old(logs)
      ensures Truthy(userId) && Truthy(message) && Truthy(phone) && dbOk ==>
                status == 200
                && logs == old(logs) + [LogRow(None, now, "sent", "Message sent immediately")]
    {
      if !Truthy(userId) || !Truthy(message) || !Truthy(phone) {
        return BadRequest;
      }
      if !dbOk {
        return ServerError;
      }
      logs := logs + [LogRow(None, now, "sent", "Message sent immediately")];
      status := 200;
    }
  }

  // ---------------------------------------------------------------------------
  // The UserProfile collection
  // ---------------------------------------------------------------------------

  type Bytes = seq<bv8>

  /** A stored `UserProfile` document. */
  datatype UserProfile = UserProfile(
    username: string,
    fullName: string,
    notificationTimes: seq<string>,
    selectedInterests: seq<string>,
    whatsappNumber: string,
    profilePic: Option<Bytes>)

  const DefaultNotificationTimes: seq<string> := ["04:00", "05:00", "06:00", "07:00", "10:00"]

  /** A document created with only the required fields: the schema supplies the rest
      (the five default times, no interests, an empty number and no picture). */
  function NewUserProfile(username: string, fullName: string): (r: UserProfile)
    ensures r.username == username && r.fullName == fullName
    ensures r.notificationTimes == DefaultNotificationTimes && |r.notificationTimes| == 5
    ensures r.selectedInterests == [] && r.whatsappNumber == "" && r.profilePic.None?
  {
    UserProfile(username, fullName, DefaultNotificationTimes, [], "", None)
  }

  /** The JSON record GET /api/profile/:userId answers with. */
  datatype ProfileView = ProfileView(
    id: string,
    username: string,
    fullName: string,
    whatsappNumber: string,
    notificationTimes: seq<string>,
    selectedInterests: seq<string>,
    avatarUrl: Option<string>,
    enableNotifications: bool)

  datatype Reply<T> = Ok(value: T) | Error(status: int)

  const PicturePath: string := "/api/profile/picture/"

  /** GET /api/profile/:userId: 404 for an unknown id, otherwise the document in the field
      names of the front end, with an avatar link exactly when a picture is stored and
      notifications reported on exactly when a number and at least one time exist. */
  function GetProfile(profiles: map<string, UserProfile>, userId: string, dbOk: bool)
    : (r: Reply<ProfileView>)
    ensures !dbOk ==> r == Error(ServerError)
    ensures dbOk && userId !in profiles ==> r == Error(NotFound)
    ensures dbOk && userId in profiles ==>
              var p := profiles[userId];
              && r.Ok? && r.value.id == userId
              && r.value.username == p.username && r.value.fullName == p.fullName
              && r.value.whatsappNumber == p.whatsappNumber
              && r.value.notificationTimes == p.notificationTimes
              && r.value.selectedInterests == p.selectedInterests
              && (r.value.avatarUrl.Some? <==> p.profilePic.Some?)
              && (r.value.enableNotifications <==> p.whatsappNumber != "" && |p.notificationTimes| > 0)
  {
    if !dbOk then Error(ServerError)
    else if userId !in profiles then Error(NotFound)
    else
      var p := profiles[userId];
      Ok(ProfileView(userId, p.username, p.fullName, p.whatsappNumber, p.notificationTimes,
                     p.selectedInterests,
                     if p.profilePic.Some? then Some(PicturePath + userId) else None,
                     p.whatsappNumber != "" && |p.notificationTimes| > 0))
  }

  /** GET /api/profile/picture/:userId: the stored bytes (sent as image/jpeg), or 404 when
      there is no such profile or it has no picture. */
  function GetPicture(profiles: map<string, UserProfile>, userId: string, dbOk: bool)
    : (r: Reply<Bytes>)
    ensures r.Ok? <==> dbOk && userId in profiles && profiles[userId].profilePic.Some?
    ensures r.Ok? ==> r.value == profiles[userId].profilePic.value
    ensures r.Error? ==> r.status == (if dbOk then NotFound else ServerError)
  {
    if !dbOk then Error(ServerError)
    else if userId !in profiles || profiles[userId].profilePic.None? then Error(NotFound)
    else Ok(profiles[userId].profilePic.value)
  }

  /** The body of PUT /api/profile/:userId. */
  datatype ProfileUpdate = ProfileUpdate(
    username: Option<string>,
    fullName: Option<string>,
    whatsappNumber: Option<string>,
    notificationTimes: Option<seq<string>>,
    selectedInterests: Option<seq<string>>)

  /** `a || b` for a string field. */
  function OrString(a: Option<string>, b: string): string {
    if Truthy(a) then a.value else b
  }

  /** `a || b` for an array field: any array, even an empty one, is truthy. */
  function OrList(a: Option<seq<string>>, b: seq<string>): seq<string> {
    if a.Some? then a.value else b
  }

  /** The document after a PUT: each of the five fields replaced only by a truthy value;
      the picture is never touched. */
  function Merge(p: UserProfile, u: ProfileUpdate): (r: UserProfile)
    ensures r.username == (if Truthy(u.username) then u.username.value else p.username)
    ensures r.fullName == (if Truthy(u.fullName) then u.fullName.value else p.fullName)
    ensures r.whatsappNumber ==
              (if Truthy(u.whatsappNumber) then u.whatsappNumber.value else p.whatsappNumber)
    ensures r.notificationTimes ==
              (if u.notificationTimes.Some? then u.notificationTimes.value else p.notificationTimes)
    ensures r.selectedInterests ==
              (if u.selectedInterests.Some? then u.selectedInterests.value else p.selectedInterests)
    ensures r.profilePic == p.profilePic
  {
    p.(username := OrString(u.username, p.username),
       fullName := OrString(u.fullName, p.fullName),
       whatsappNumber := OrString(u.whatsappNumber, p.whatsappNumber),
       notificationTimes := OrList(u.notificationTimes, p.notificationTimes),
       selectedInterests := OrList(u.selectedInterests, p.selectedInterests))
  }

  /** Sending the same update twice is sending it once; an update with nothing truthy in
      it changes nothing. */
  lemma MergeIdempotent(p: UserProfile, u: ProfileUpdate)
    ensures Merge(Merge(p, u), u) == Merge(p, u)
    ensures (&& !Truthy(u.username) && !Truthy(u.fullName) && !Truthy(u.whatsappNumber)
             && u.notificationTimes.None? && u.selectedInterests.None?) ==> Merge(p, u) == p
  {
  }

  /** A PUT followed by a GET shows the new values; notifications are then reported on
      exactly when the merged number and time list are both non-empty, whatever
      `enable_notifications` the client holds. */
  lemma PutThenGet(profiles: map<string, UserProfile>, userId: string, u: ProfileUpdate)
    requires userId in profiles
    ensures var after := profiles[userId := Merge(profiles[userId], u)];
            var v := GetProfile(after, userId, true);
            && v.Ok?
            && (Truthy(u.username) ==> v.value.username == u.username.value)
            && (Truthy(u.fullName) ==> v.value.fullName == u.fullName.value)
            && (Truthy(u.whatsappNumber) ==> v.value.whatsappNumber == u.whatsappNumber.value)
            && (u.notificationTimes.Some? ==> v.value.notificationTimes == u.notificationTimes.value)
            && (Truthy(u.whatsappNumber) && u.notificationTimes.Some? ==>
                  (v.value.enableNotifications <==> |u.notificationTimes.value| > 0))
            && v.value.avatarUrl == GetProfile(profiles, userId, true).value.avatarUrl
  {
  }

  /** A document fresh from the schema defaults is reported with notifications off and no
      avatar, whatever its names. */
  lemma NewProfileView(profiles: map<string, UserProfile>, userId: string,
                       username: string, fullName: string)
    ensures var v := GetProfile(profiles[userId := NewUserProfile(username, fullName)], userId, true);
            && v.Ok? && !v.value.enableNotifications && v.value.avatarUrl.None?
            && v.value.notificationTimes == DefaultNotificationTimes
  {
  }

  class ProfileDb {
    var profiles: map<string, UserProfile>

    constructor (profiles: map<string, UserProfile>)
      ensures this.profiles == profiles
    {
      this.profiles := profiles;
    }

    /** PUT /api/profile/:userId: 404 and nothing changed for an unknown id; otherwise merge
        the update into that document alone. `enable_notifications` is not a field of the
        document, so it is never written. */
    method UpdateProfile(userId: string, u: ProfileUpdate, dbOk: bool) returns (status: int)
      modifies this
      ensures !dbOk ==> status == ServerError && profiles == old(profiles)
      ensures dbOk && userId !in old(profiles) ==> status == NotFound && profiles == old(profiles)
      ensures dbOk && userId in old(profiles) ==>
                status == 200 && profiles == old(profiles)[userId := Merge(old(profiles)[userId], u)]
    {
      if !dbOk {
        return ServerError;
      }
      if userId !in profiles {
        return NotFound;
      }
      profiles := profiles[userId := Merge(profiles[userId], u)];
      status := 200;
    }

    /** POST /api/profile/picture: checks, in this order, a truthy `userId` (400), a file
        (400) and a stored profile (404); only then is that profile's picture replaced. */
    method UploadPicture(userId: Option<string>, file: Option<Bytes>, dbOk: bool)
      returns (status: int)
      modifies this
      ensures !Truthy(userId) ==> status == BadRequest && profiles == old(profiles)
      ensures Truthy(userId) && file.None? ==> status == BadRequest && profiles == old(profiles)
      ensures Truthy(userId) && file.Some? && !dbOk ==>
                status == ServerError && profiles == old(profiles)
      ensures Truthy(userId) && file.Some? && dbOk && userId.value !in old(profiles) ==>
                status == NotFound && profiles == old(profiles)
      ensures Truthy(userId) && file.Some? && dbOk && userId.value in old(profiles) ==>
                && status == 200
                && profiles == old(profiles)[userId.value :=
                                 old(profiles)[userId.value].(profilePic := file)]
    {
      if !Truthy(userId) {
        return BadRequest;
      }
      if file.None? {
        return BadRequest;
      }
      if !dbOk {
        return ServerError;
      }
      var id := userId.value;
      if id !in profiles {
        return NotFound;
      }
      profiles := profiles[id := profiles[id].(profilePic := file)];
      status := 200;
    }
  }

  /** An upload that succeeds is what the picture route then serves, and the profile route
      then links to it. */
  lemma UploadThenFetch(profiles: map<string, UserProfile>, userId: string, file: Bytes)
    requires userId in profiles
    ensures var after := profiles[userId := profiles[userId].(profilePic := Some(file))];
            && GetPicture(after, userId, true) == Ok(file)
            && GetProfile(after, userId, true).value.avatarUrl == Some(PicturePath + userId)
  {
  }
}
