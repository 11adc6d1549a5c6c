/** The user profile store (src/utils/userStorage.ts) over localStorage. The store is
    a map from key to parsed value: plain strings for the nickname, first-visit flag
    and email, records for the JSON-encoded user info and settings. Timestamps
    (`new Date().toISOString()`) are the `now` parameter. */
module UserStorage {
  import opened Wrappers

  const NicknameKey := "dcode_user_nickname"
  const FirstVisitKey := "dcode_first_visit"
  const EmailKey := "dcode_user_email"
  const SettingsKey := "dcode_user_settings"
  const UserInfoKey := "dcode_user_info"

  /** `Object.values(STORAGE_KEYS)`, in declaration order. */
  const StorageKeys: seq<string> := [NicknameKey, FirstVisitKey, EmailKey, SettingsKey]

  const DefaultEmail := "user@example.com"

  datatype Theme = Light | Dark
  datatype Language = Ko | En

  datatype UserSettings = UserSettings(notifications: bool, location: bool, theme: Theme, language: Language)

  /** `Partial<UserSettings>`: a field is `None` when the object does not have it. */
  datatype PartialSettings = PartialSettings(notifications: Option<bool>, location: Option<bool>,
                                             theme: Option<Theme>, language: Option<Language>)

  const DefaultSettings := UserSettings(true, true, Light, Ko)

  datatype UserInfo = UserInfo(nickname: string, email: string, createdAt: string, lastLoginAt: string)

  /** A stored value after `JSON.parse` (or as the string itself). */
  datatype Stored = Text(text: string) | InfoValue(info: UserInfo) | SettingsValue(settings: PartialSettings)

  /** `{ ...base, ...over }`: every field `over` has replaces that of `base`. */
  function Merge(base: UserSettings, over: PartialSettings): (r: UserSettings)
    ensures over.notifications.Some? ==> r.notifications == over.notifications.value
    ensures over.notifications.None? ==> r.notifications == base.notifications
    ensures over.location.Some? ==> r.location == over.location.value
    ensures over.location.None? ==> r.location == base.location
    ensures over.theme.Some? ==> r.theme == over.theme.value
    ensures over.theme.None? ==> r.theme == base.theme
    ensures over.language.Some? ==> r.language == over.language.value
    ensures over.language.None? ==> r.language == base.language
  {
    UserSettings(over.notifications.GetOr(base.notifications), over.location.GetOr(base.location),
                 over.theme.GetOr(base.theme), over.language.GetOr(base.language))
  }

  /** The settings as a stored object that has every field. */
  function Full(s: UserSettings): PartialSettings {
    PartialSettings(Some(s.notifications), Some(s.location), Some(s.theme), Some(s.language))
  }

  /** A complete stored object overrides every default. */
  lemma MergeFull(base: UserSettings, s: UserSettings)
    ensures Merge(base, Full(s)) == s
  {
  }

  /** Merging nothing changes nothing. */
  lemma MergeEmpty(base: UserSettings)
    ensures Merge(base, PartialSettings(None, None, None, None)) == base
  {
  }

  /** Each key the module uses holds the kind of value the module writes to it. */
  ghost predicate WellTyped(items: map<string, Stored>) {
    && (NicknameKey in items ==> items[NicknameKey].Text?)
    && (FirstVisitKey in items ==> items[FirstVisitKey].Text?)
    && (EmailKey in items ==> items[EmailKey].Text?)
    && (SettingsKey in items ==> items[SettingsKey].SettingsValue?)
    && (UserInfoKey in items ==> items[UserInfoKey].InfoValue?)
  }

  /** The parsed `dcode_user_info` entry of `items`, `null` when absent. */
  function StoredInfo(items: map<string, Stored>): (r: Option<UserInfo>)
    requires WellTyped(items)
    ensures r.Some? <==> UserInfoKey in items
    ensures r.Some? ==> items[UserInfoKey] == InfoValue(r.value)
  {
    if UserInfoKey in items then Some(items[UserInfoKey].info) else None
  }

  /** The store after `saveNickname(nickname)` at time `now`: the nickname is stored,
      the first visit is marked done, the user info is created with the default email
      or keeps its email and creation time, and every other key is untouched. */
  function AfterSaveNickname(items: map<string, Stored>, nickname: string, now: string): (r: map<string, Stored>)
    requires WellTyped(items)
    ensures WellTyped(r)
    ensures NicknameKey in r && r[NicknameKey] == Text(nickname)
    ensures FirstVisitKey in r && r[FirstVisitKey] == Text("false")
    ensures StoredInfo(items).None? ==> StoredInfo(r) == Some(UserInfo(nickname, DefaultEmail, now, now))
    ensures StoredInfo(items).Some? ==>
              StoredInfo(r) == Some(StoredInfo(items).value.(nickname := nickname, lastLoginAt := now))
    ensures forall k :: k != NicknameKey && k != FirstVisitKey && k != UserInfoKey ==>
              (k in r <==> k in items) && (k in items ==> r[k] == items[k])
  {
    var info := match StoredInfo(items)
                case None => UserInfo(nickname, DefaultEmail, now, now)
                case Some(existing) => existing.(nickname := nickname, lastLoginAt := now);
    items[NicknameKey := Text(nickname)][FirstVisitKey := Text("false")][UserInfoKey := InfoValue(info)]
  }

  class UserStore {
    var items: map<string, Stored>

    ghost predicate Valid()
      reads this
    {
      WellTyped(items)
    }

    constructor (items: map<string, Stored>)
      ensures this.items == items
    {
      this.items := items;
    }

    /** `getNickname`: the stored string, `null` when absent. */
    function GetNickname(): (r: Option<string>)
      reads this
      requires Valid()
      ensures r.Some? <==> NicknameKey in items
      ensures r.Some? ==> items[NicknameKey] == Text(r.value)
    {
      if NicknameKey in items then Some(items[NicknameKey].text) else None
    }

    /** `isFirstVisit`: true iff the flag is absent or is exactly "true". */
    function IsFirstVisit(): (r: bool)
      reads this
      requires Valid()
      ensures r <==> FirstVisitKey !in items || items[FirstVisitKey] == Text("true")
    {
      FirstVisitKey !in items || items[FirstVisitKey].text == "true"
    }

    /** `getUserInfo`. */
    function GetUserInfo(): (r: Option<UserInfo>)
      reads this
      requires Valid()
      ensures r.Some? <==> UserInfoKey in items
      ensures r.Some? ==> items[UserInfoKey] == InfoValue(r.value)
    {
      StoredInfo(items)
    }

    /** `getEmail`. */
    function GetEmail(): (r: Option<string>)
      reads this
      requires Valid()
      ensures r.Some? <==> EmailKey in items
      ensures r.Some? ==> items[EmailKey] == Text(r.value)
    {
      if EmailKey in items then Some(items[EmailKey].text) else None
    }

    /** `getUserSettings`: the defaults, overridden field by field by what is stored. */
    function GetUserSettings(): (r: UserSettings)
      reads this
      requires Valid()
      ensures SettingsKey !in items ==> r == DefaultSettings
      ensures SettingsKey in items ==> r == Merge(DefaultSettings, items[SettingsKey].settings)
    {
      if SettingsKey in items then Merge(DefaultSettings, items[SettingsKey].settings) else DefaultSettings
    }

    /** `saveNickname`: stores the nickname, marks the first visit done, and creates the
        user info with the default email, or updates only its nickname and last login. */
    method SaveNickname(nickname: string, now: string)
      requires Valid()
      modifies this`items
      ensures Valid()
      ensures items == AfterSaveNickname(old(items), nickname, now)
      ensures GetNickname() == Some(nickname) && !IsFirstVisit()
      ensures old(GetUserInfo()).None? ==> GetUserInfo() == Some(UserInfo(nickname, DefaultEmail, now, now))
      ensures old(GetUserInfo()).Some? ==>
                GetUserInfo().Some? &&
                GetUserInfo().value.email == old(GetUserInfo()).value.email &&
                GetUserInfo().value.createdAt == old(GetUserInfo()).value.createdAt &&
                GetUserInfo().value.nickname == nickname && GetUserInfo().value.lastLoginAt == now
    {
      items := items[NicknameKey := Text(nickname)];
      items := items[FirstVisitKey := Text("false")];
      var existing := GetUserInfo();
      if existing.None? {
        items := items[UserInfoKey := InfoValue(UserInfo(nickname, DefaultEmail, now, now))];
      } else {
        items := items[UserInfoKey := InfoValue(existing.value.(nickname := nickname, lastLoginAt := now))];
      }
    }

    /** `saveUserSettings`: the current settings with the given fields replaced, stored
        whole; a field the argument does not have keeps its value. */
    method SaveUserSettings(settings: PartialSettings)
      requires Valid()
      modifies this`items
      ensures Valid()
      ensures items == old(items)[SettingsKey := SettingsValue(Full(Merge(old(GetUserSettings()), settings)))]
      ensures GetUserSettings() == Merge(old(GetUserSettings()), settings)
    {
      var current := GetUserSettings();
      var updated := Merge(current, settings);
      items := items[SettingsKey := SettingsValue(Full(updated))];
      MergeFull(DefaultSettings, updated);
    }

    /** `saveEmail`: always stores the email; updates the user info's email and last
        login only when there is user info. */
    method SaveEmail(email: string, now: string)
      requires Valid()
      modifies this`items
      ensures Valid()
      ensures old(GetUserInfo()).None? ==> items == old(items)[EmailKey := Text(email)]
      ensures old(GetUserInfo()).Some? ==>
                items == old(items)[EmailKey := Text(email)]
                                   [UserInfoKey := InfoValue(old(GetUserInfo()).value.(email := email, lastLoginAt := now))]
      ensures GetEmail() == Some(email)
    {
      items := items[EmailKey := Text(email)];
      var info := GetUserInfo();
      if info.Some? {
        items := items[UserInfoKey := InfoValue(info.value.(email := email, lastLoginAt := now))];
      }
    }

    /** `clearUserData`: removes each of the four keys in turn, then the user info. */
    method ClearUserData()
      requires Valid()
      modifies this`items
      ensures Valid()
      ensures items == old(items) - {NicknameKey, FirstVisitKey, EmailKey, SettingsKey, UserInfoKey}
      ensures GetNickname().None? && IsFirstVisit() && GetUserInfo().None? && GetEmail().None?
      ensures GetUserSettings() == DefaultSettings
    {
      var i := 0;
      while i < |StorageKeys|
        invariant 0 <= i <= |StorageKeys|
        invariant items == old(items) - set j | 0 <= j < i :: StorageKeys[j]
      {
        items := items - {StorageKeys[i]};
        i := i + 1;
      }
      ghost var removed := set j | 0 <= j < |StorageKeys| :: StorageKeys[j];
      assert StorageKeys[0] in removed && StorageKeys[1] in removed && StorageKeys[2] in removed && StorageKeys[3] in removed;
      assert removed == {NicknameKey, FirstVisitKey, EmailKey, SettingsKey};
      items := items - {UserInfoKey};
    }

    /** `updateLastLogin`: only the last-login time of existing user info changes. */
    method UpdateLastLogin(now: string)
      requires Valid()
      modifies this`items
      ensures Valid()
      ensures old(GetUserInfo()).None? ==> items == old(items)
      ensures old(GetUserInfo()).Some? ==>
                items == old(items)[UserInfoKey := InfoValue(old(GetUserInfo()).value.(lastLoginAt := now))]
    {
      var info := GetUserInfo();
      if info.Some? {
        items := items[UserInfoKey := InfoValue(info.value.(lastLoginAt := now))];
      }
    }
  }
}
