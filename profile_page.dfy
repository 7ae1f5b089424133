/**
 * The state of the profile page (src/pages/ProfilePage.tsx): the form fields,
 * the last saved profile, and the two localStorage entries it writes
 * ('user_profile' and 'user_avatar'). Every handler is one sequential step.
 */
module ProfilePage {
  import opened Js
  import opened TimeOfDay
  import PhoneNumber
  import TimeList

  const DefaultTimes: seq<string> := ["06:00", "12:00", "18:00"]

  /** The profile record held in component state and stored as JSON under 'user_profile'. */
  datatype Profile = Profile(
    id: string,
    username: string,
    fullName: string,
    avatarUrl: Option<string>,
    whatsappNumber: string,
    notificationTimes: seq<string>,
    enableNotifications: bool,
    selectedInterests: seq<string>,
    updatedAt: Option<string>)

  const DefaultProfile: Profile :=
    Profile("user-123", "", "", None, "", DefaultTimes, false, [], None)

  /** `saveStatus`: '', 'success' or 'error'. */
  datatype SaveStatus = Idle | Success | Failure

  /** Why `handleSave` stopped, or that it saved. */
  datatype SaveResult =
    | UsernameRequired | FullNameRequired | NumberInvalid | NoTimes
    | Saved | StorageFailed

  /** The four preset buttons of the notification-time section. */
  datatype Preset = MorningNoonEvening | TwiceDaily | EveryThreeHours | OnceDaily

  function PresetTimes(p: Preset): (r: seq<string>)
    ensures TimeList.InBounds(r)
  {
    match p
    case MorningNoonEvening => DefaultTimes
    case TwiceDaily => ["07:00", "19:00"]
    case EveryThreeHours => ["06:00", "09:00", "12:00", "15:00", "18:00"]
    case OnceDaily => ["08:00"]
  }

  /** The checks of `handleSave`, in the order it runs them. */
  function SaveCheck(username: string, fullName: string, enable: bool,
                     number: string, times: seq<string>): (r: SaveResult)
    ensures r != StorageFailed
    ensures r == Saved <==>
              && Trim(username) != "" && Trim(fullName) != ""
              && (enable ==> number != "" && PhoneNumber.IsValid(number) && |times| > 0)
    ensures Trim(username) == "" ==> r == UsernameRequired
    ensures Trim(username) != "" && Trim(fullName) == "" ==> r == FullNameRequired
  {
    if Trim(username) == "" then UsernameRequired
    else if Trim(fullName) == "" then FullNameRequired
    else if enable && (number == "" || !PhoneNumber.IsValid(number)) then NumberInvalid
    else if enable && |times| == 0 then NoTimes
    else Saved
  }

  /** A profile the reminder pipeline can use: names present and trimmed, and notifications
      enabled only with a valid number and at least one time. */
  predicate WellFormed(p: Profile) {
    && p.username != "" && Trim(p.username) == p.username
    && p.fullName != "" && Trim(p.fullName) == p.fullName
    && (p.enableNotifications ==>
          p.whatsappNumber != "" && PhoneNumber.IsValid(p.whatsappNumber) && |p.notificationTimes| > 0)
  }

  /** The record `handleSave` builds: the old profile with the form's values, names trimmed. */
  function ProfileData(base: Profile, username: string, fullName: string, number: string,
                       times: seq<string>, interests: seq<string>, enable: bool,
                       preview: Option<string>, now: string): (r: Profile)
    ensures r.id == base.id && r.avatarUrl == preview && r.updatedAt == Some(now)
    ensures r.username == Trim(username)
    ensures r.fullName == Trim(fullName)
    ensures r.whatsappNumber == number && r.notificationTimes == times
    ensures r.selectedInterests == interests && r.enableNotifications == enable
  {
    base.(username := Trim(username), fullName := Trim(fullName), whatsappNumber := number,
          notificationTimes := times, selectedInterests := interests,
          enableNotifications := enable, avatarUrl := preview, updatedAt := Some(now))
  }

  /** `saveToLocalStorage(profileData, previewUrl)` on 'user_avatar': a null preview leaves the
      entry alone, an empty one removes it, any other is stored. */
  function AvatarAfterSave(preview: Option<string>, stored: Option<string>): (r: Option<string>)
    ensures preview.None? ==> r == stored
    ensures WritesAvatar(preview) ==> r == preview
    ensures preview == Some("") ==> r.None?
    ensures r.Some? ==> r.value != "" || r == stored
  {
    if preview.None? then stored else if preview.value != "" then preview else None
  }

  /** Whether `saveToLocalStorage` calls setItem on 'user_avatar' (a non-empty preview). */
  predicate WritesAvatar(preview: Option<string>) {
    preview.Some? && preview.value != ""
  }

  /** Both writes `saveToLocalStorage` attempts succeed: the profile, and the avatar when
      there is one to write. */
  predicate StorageSucceeds(preview: Option<string>, profileWriteOk: bool, avatarWriteOk: bool) {
    profileWriteOk && (avatarWriteOk || !WritesAvatar(preview))
  }

  /** Every record that passes the checks is well formed. */
  lemma SavedProfileWellFormed(base: Profile, username: string, fullName: string, number: string,
                               times: seq<string>, interests: seq<string>, enable: bool,
                               preview: Option<string>, now: string)
    requires SaveCheck(username, fullName, enable, number, times) == Saved
    ensures WellFormed(ProfileData(base, username, fullName, number, times, interests, enable, preview, now))
  {
    TrimIdempotent(username);
    TrimIdempotent(fullName);
  }

  class ProfileForm {
    var profile: Profile
    var username: string
    var fullName: string
    var whatsappNumber: string
    var notificationTimes: seq<string>
    var selectedInterests: seq<string>
    var enableNotifications: bool
    var previewUrl: Option<string>
    var saveStatus: SaveStatus
    var hasUnsavedChanges: bool
    /** localStorage 'user_profile' (parsed) and 'user_avatar'. */
    var storedProfile: Option<Profile>
    var storedAvatar: Option<string>

    /** The page's initial state, over whatever localStorage already holds. */
    constructor (storedProfile: Option<Profile>, storedAvatar: Option<string>)
      ensures profile == DefaultProfile
      ensures username == "" && fullName == "" && whatsappNumber == ""
      ensures notificationTimes == DefaultTimes && selectedInterests == []
      ensures !enableNotifications && previewUrl.None? && saveStatus == Idle && !hasUnsavedChanges
      ensures this.storedProfile == storedProfile && this.storedAvatar == storedAvatar
    {
      profile := DefaultProfile;
      username, fullName, whatsappNumber := "", "", "";
      notificationTimes, selectedInterests := DefaultTimes, [];
      enableNotifications, previewUrl := false, None;
      saveStatus, hasUnsavedChanges := Idle, false;
      this.storedProfile, this.storedAvatar := storedProfile, storedAvatar;
    }

    /** `loadUserProfile`: copy the stored profile, if any, into the state and the form. */
    method LoadUserProfile()
      modifies this
      ensures storedProfile == old(storedProfile) && storedAvatar == old(storedAvatar)
      ensures old(storedProfile).Some? ==>
                var p := old(storedProfile).value;
                && profile == p && username == p.username && fullName == p.fullName
                && whatsappNumber == p.whatsappNumber && notificationTimes == p.notificationTimes
                && selectedInterests == p.selectedInterests
                && enableNotifications == p.enableNotifications
      ensures old(storedProfile).None? ==>
                && profile == old(profile) && username == old(username) && fullName == old(fullName)
                && whatsappNumber == old(whatsappNumber)
                && notificationTimes == old(notificationTimes)
                && selectedInterests == old(selectedInterests)
                && enableNotifications == old(enableNotifications)
      ensures previewUrl == if old(storedAvatar).Some? && old(storedAvatar).value != ""
                            then old(storedAvatar) else old(previewUrl)
      ensures saveStatus == old(saveStatus) && hasUnsavedChanges == old(hasUnsavedChanges)
    {
      if storedProfile.Some? {
        var p := storedProfile.value;
        profile := p;
        username := p.username;
        fullName := p.fullName;
        whatsappNumber := p.whatsappNumber;
        notificationTimes := p.notificationTimes;
        selectedInterests := p.selectedInterests;
        enableNotifications := p.enableNotifications;
      }
      if storedAvatar.Some? && storedAvatar.value != "" {
        previewUrl := storedAvatar;
      }
    }

    /** The unsaved-changes test the page re-runs after every change. */
    function Changed(): (r: bool)
      reads this
      ensures !r <==> FormInto(profile) == profile
    {
      || username != profile.username
      || fullName != profile.fullName
      || whatsappNumber != profile.whatsappNumber
      || notificationTimes != profile.notificationTimes
      || selectedInterests != profile.selectedInterests
      || enableNotifications != profile.enableNotifications
    }

    /** The record `handleSave` builds from the current profile and the form. */
    function FormRecord(now: string): Profile
      reads this
    {
      ProfileData(profile, username, fullName, whatsappNumber, notificationTimes,
                  selectedInterests, enableNotifications, previewUrl, now)
    }

    /** The profile with the form's six tracked fields written into it. */
    function FormInto(p: Profile): Profile
      reads this
    {
      p.(username := username, fullName := fullName, whatsappNumber := whatsappNumber,
         notificationTimes := notificationTimes, selectedInterests := selectedInterests,
         enableNotifications := enableNotifications)
    }

    method TrackChanges()
      modifies this`hasUnsavedChanges
      ensures hasUnsavedChanges == Changed()
    {
      hasUnsavedChanges := Changed();
    }

    /** `handleSave`: run the checks in order; on success build the trimmed record, write it
        (and the avatar) to storage, and make it the current profile. A failed check changes
        nothing. A failed storage write sets the error status and leaves the profile alone, but
        a record already written to 'user_profile' stays there when the avatar write after it
        fails. The form fields never change. The saved record is well formed by
        SavedProfileWellFormed. */
    method HandleSave(now: string, profileWriteOk: bool, avatarWriteOk: bool) returns (result: SaveResult)
      modifies this`profile, this`saveStatus, this`hasUnsavedChanges
      modifies this`storedProfile, this`storedAvatar
      ensures var check := SaveCheck(old(username), old(fullName), old(enableNotifications),
                                     old(whatsappNumber), old(notificationTimes));
              result == if check != Saved then check
                        else if StorageSucceeds(old(previewUrl), profileWriteOk, avatarWriteOk) then Saved
                        else StorageFailed
      ensures result != Saved && result != StorageFailed ==>
                && profile == old(profile) && saveStatus == old(saveStatus)
                && hasUnsavedChanges == old(hasUnsavedChanges)
                && storedProfile == old(storedProfile) && storedAvatar == old(storedAvatar)
      ensures result == StorageFailed ==>
                && profile == old(profile) && saveStatus == Failure
                && hasUnsavedChanges == old(hasUnsavedChanges)
                && storedProfile == (if profileWriteOk then Some(old(FormRecord(now)))
                                     else old(storedProfile))
                && storedAvatar == old(storedAvatar)
      ensures result == Saved ==>
                && profile == old(FormRecord(now))
                && storedProfile == Some(profile)
                && storedAvatar == AvatarAfterSave(old(previewUrl), old(storedAvatar))
                && saveStatus == Success && !hasUnsavedChanges
    {
      result := SaveCheck(username, fullName, enableNotifications, whatsappNumber, notificationTimes);
      if result != Saved {
        return;
      }
      result := Store(FormRecord(now), profileWriteOk, avatarWriteOk);
    }

    /** `saveToLocalStorage` followed by the state updates of `handleSave`, for a record that
        passed the checks. 'user_profile' is written first; the avatar write comes after it,
        so its failure leaves the new record stored while the page reports the error and
        keeps its old profile. Removing the avatar is taken never to fail. */
    method Store(data: Profile, profileWriteOk: bool, avatarWriteOk: bool) returns (result: SaveResult)
      modifies this`profile, this`saveStatus, this`hasUnsavedChanges
      modifies this`storedProfile, this`storedAvatar
      ensures result == if StorageSucceeds(previewUrl, profileWriteOk, avatarWriteOk)
                        then Saved else StorageFailed
      ensures !profileWriteOk ==>
                && profile == old(profile) && saveStatus == Failure
                && hasUnsavedChanges == old(hasUnsavedChanges)
                && storedProfile == old(storedProfile) && storedAvatar == old(storedAvatar)
      ensures profileWriteOk && WritesAvatar(previewUrl) && !avatarWriteOk ==>
                && profile == old(profile) && saveStatus == Failure
                && hasUnsavedChanges == old(hasUnsavedChanges)
                && storedProfile == Some(data) && storedAvatar == old(storedAvatar)
      ensures result == Saved ==>
                && profile == data && storedProfile == Some(data)
                && storedAvatar == AvatarAfterSave(previewUrl, old(storedAvatar))
                && saveStatus == Success && !hasUnsavedChanges
    {
      if !profileWriteOk {
        saveStatus := Failure;
        return StorageFailed;
      }
      storedProfile := Some(data);
      if WritesAvatar(previewUrl) && !avatarWriteOk {
        saveStatus := Failure;
        return StorageFailed;
      }
      storedAvatar := AvatarAfterSave(previewUrl, storedAvatar);
      profile := data;
      saveStatus := Success;
      hasUnsavedChanges := false;
      return Saved;
    }

    /** `handleWhatsAppChange`: the field keeps only the digits and '+' of what was typed. */
    method HandleWhatsAppChange(typed: string)
      modifies this`whatsappNumber
      ensures whatsappNumber == PhoneNumber.Format(typed)
    {
      whatsappNumber := PhoneNumber.Format(typed);
    }

    /** The interest checkboxes: checking appends the id, unchecking removes every copy of it. */
    method ToggleInterest(id: string, checked: bool)
      modifies this`selectedInterests
      ensures checked ==> selectedInterests == old(selectedInterests) + [id]
      ensures !checked ==> selectedInterests == Filter(old(selectedInterests), x => x != id)
    {
      if checked {
        selectedInterests := selectedInterests + [id];
      } else {
        selectedInterests := Filter(selectedInterests, x => x != id);
      }
    }

    /** The hour select of time `index`. */
    method SelectHour(index: nat, newHour12: int)
      requires index < |notificationTimes| && 1 <= newHour12 <= 12
      modifies this`notificationTimes
      ensures notificationTimes ==
                old(notificationTimes)[index := HourSelected(old(notificationTimes)[index], newHour12)]
    {
      var newTimes := notificationTimes;
      newTimes := newTimes[index := HourSelected(notificationTimes[index], newHour12)];
      notificationTimes := newTimes;
    }

    /** The minute select of time `index` (options "00".."59"). */
    method SelectMinute(index: nat, newMinutes: string)
      requires index < |notificationTimes| && ':' !in newMinutes
      modifies this`notificationTimes
      ensures notificationTimes ==
                old(notificationTimes)[index := MinuteSelected(old(notificationTimes)[index], newMinutes)]
    {
      var newTimes := notificationTimes;
      newTimes := newTimes[index := MinuteSelected(notificationTimes[index], newMinutes)];
      notificationTimes := newTimes;
    }

    /** The AM/PM select of time `index`. */
    method SelectMeridiem(index: nat, newMeridiem: Meridiem)
      requires index < |notificationTimes|
      modifies this`notificationTimes
      ensures notificationTimes ==
                old(notificationTimes)[index := MeridiemSelected(old(notificationTimes)[index], newMeridiem)]
    {
      var newTimes := notificationTimes;
      newTimes := newTimes[index := MeridiemSelected(notificationTimes[index], newMeridiem)];
      notificationTimes := newTimes;
    }

    method AddTime()
      modifies this`notificationTimes
      ensures notificationTimes == TimeList.Added(old(notificationTimes))
    {
      if |notificationTimes| < TimeList.MaxTimes {
        notificationTimes := notificationTimes + [TimeList.NewTime];
      }
    }

    method RemoveTime(index: nat)
      requires index < |notificationTimes|
      modifies this`notificationTimes
      ensures notificationTimes == TimeList.Removed(old(notificationTimes), index)
    {
      if |notificationTimes| > 1 {
        notificationTimes := notificationTimes[..index] + notificationTimes[index + 1..];
      }
    }

    method ApplyPreset(p: Preset)
      modifies this`notificationTimes
      ensures notificationTimes == PresetTimes(p)
    {
      notificationTimes := PresetTimes(p);
    }

    /** `clearAllData`: after the user confirms, empty storage and reset every field. */
    method ClearAllData(confirmed: bool)
      modifies this
      ensures !confirmed ==>
                && profile == old(profile) && username == old(username) && fullName == old(fullName)
                && whatsappNumber == old(whatsappNumber) && notificationTimes == old(notificationTimes)
                && selectedInterests == old(selectedInterests)
                && enableNotifications == old(enableNotifications) && previewUrl == old(previewUrl)
                && hasUnsavedChanges == old(hasUnsavedChanges)
                && storedProfile == old(storedProfile) && storedAvatar == old(storedAvatar)
      ensures confirmed ==>
                && profile == DefaultProfile && username == "" && fullName == ""
                && whatsappNumber == "" && notificationTimes == DefaultTimes
                && selectedInterests == [] && !enableNotifications && previewUrl.None?
                && !hasUnsavedChanges && storedProfile.None? && storedAvatar.None?
      ensures saveStatus == old(saveStatus)
    {
      if confirmed {
        storedProfile, storedAvatar := None, None;
        profile := DefaultProfile;
        username, fullName, whatsappNumber := "", "", "";
        notificationTimes, selectedInterests := DefaultTimes, [];
        enableNotifications, previewUrl := false, None;
        hasUnsavedChanges := false;
      }
    }
  }

  /** After a successful save the page still reports unsaved changes exactly when a name
      was typed with surrounding whitespace: the profile holds the trimmed names while
      the form keeps what was typed. */
  lemma ChangedAfterSave(base: Profile, username: string, fullName: string, number: string,
                         times: seq<string>, interests: seq<string>, enable: bool,
                         preview: Option<string>, now: string)
    ensures var p := ProfileData(base, username, fullName, number, times, interests, enable, preview, now);
            (|| username != p.username || fullName != p.fullName
             || number != p.whatsappNumber || times != p.notificationTimes
             || interests != p.selectedInterests || enable != p.enableNotifications)
            <==> (username != Trim(username) || fullName != Trim(fullName))
  {
  }
}
