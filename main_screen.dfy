/** The home screen (src/components/MainScreen.tsx): the nickname gate run on mount,
    the hand-off to journey planning, and the location line built from a reverse
    geocoding answer. The geolocation and HTTP calls are the `GeoOutcome` parameter. */
module MainScreen {
  import opened Wrappers
  import opened JsStrings
  import UserStorage
  import NotificationStorage

  const LocationPrefix := "현재 위치 : "
  const LocatingText := "위치 확인 중..."
  const UnsupportedText := "위치 서비스를 지원하지 않습니다"
  const PositionErrorText := "위치를 가져올 수 없습니다"

  /** The `address` object of a reverse-geocoding answer; absent fields are `None`. */
  datatype Address = Address(city: Option<string>, borough: Option<string>, quarter: Option<string>,
                             suburb: Option<string>, road: Option<string>, houseNumber: Option<string>)

  /** The answer of the reverse-geocoding request. */
  datatype Reverse =
    | NotOk                                            // `response.ok` is false
    | Threw                                            // the request or `response.json()` threw
    | Body(address: Option<Address>, displayName: Option<string>)

  /** What `getCurrentLocation` learns. `coords` is the `lat.toFixed(6), lng.toFixed(6)`
      text of the position. */
  datatype GeoOutcome =
    | Unsupported
    | PositionError
    | Positioned(coords: string, answer: Reverse)

  /** `if (field) parts.push(field)`. */
  function PushIf(parts: seq<string>, field: Option<string>): seq<string> {
    if Truthy(field) then parts + [field.value] else parts
  }

  /** The parts pushed for an address, in the order city, borough, quarter (or suburb
      when quarter is falsy), road, house number. */
  function AddressParts(a: Address): (parts: seq<string>)
    ensures |parts| <= 5
    ensures forall i :: 0 <= i < |parts| ==> parts[i] != ""
  {
    var p := PushIf([], a.city);
    var p := PushIf(p, a.borough);
    var p := if Truthy(a.quarter) then p + [a.quarter.value] else PushIf(p, a.suburb);
    var p := PushIf(p, a.road);
    PushIf(p, a.houseNumber)
  }

  /** The one-element contribution of a field to the filtered list. */
  function Kept(field: Option<string>): seq<string> {
    if Truthy(field) then [field.value] else []
  }

  /** The values of the truthy entries, in order: `fields.filter(f => f)`. */
  function TruthyValues(fields: seq<Option<string>>): (r: seq<string>)
    ensures |r| <= |fields|
    ensures forall i :: 0 <= i < |r| ==> r[i] != ""
  {
    if fields == [] then [] else Kept(fields[0]) + TruthyValues(fields[1..])
  }

  /** Filtering one more field at the end is pushing it if truthy. */
  lemma {:induction false} TruthyValuesSnoc(fields: seq<Option<string>>, f: Option<string>)
    ensures TruthyValues(fields + [f]) == PushIf(TruthyValues(fields), f)
  {
    var g := fields + [f];
    if fields == [] {
      assert g == [f] && g[1..] == [];
      calc {
        TruthyValues(g);
        Kept(f) + TruthyValues([]);
        { assert Kept(f) + [] == Kept(f); }
        Kept(f);
        PushIf([], f);
      }
    } else {
      assert g[0] == fields[0] && g[1..] == fields[1..] + [f];
      var rest := TruthyValues(fields[1..]);
      calc {
        TruthyValues(g);
        Kept(fields[0]) + TruthyValues(fields[1..] + [f]);
        { TruthyValuesSnoc(fields[1..], f); }
        Kept(fields[0]) + PushIf(rest, f);
        { if Truthy(f) { assert Kept(fields[0]) + (rest + [f.value]) == (Kept(fields[0]) + rest) + [f.value]; } }
        PushIf(Kept(fields[0]) + rest, f);
        PushIf(TruthyValues(fields), f);
      }
    }
  }

  /** For every address: the truthy ones of city, borough, quarter (or else suburb),
      road and house number, in that order. */
  lemma AddressPartsInOrder(a: Address)
    ensures AddressParts(a) ==
            TruthyValues([a.city, a.borough, if Truthy(a.quarter) then a.quarter else a.suburb,
                          a.road, a.houseNumber])
  {
    var middle := if Truthy(a.quarter) then a.quarter else a.suburb;
    var f1: seq<Option<string>> := [a.city];
    var f2 := f1 + [a.borough];
    var f3 := f2 + [middle];
    var f4 := f3 + [a.road];
    var f5 := f4 + [a.houseNumber];
    TruthyValuesSnoc([], a.city);
    assert [] + [a.city] == f1;
    TruthyValuesSnoc(f1, a.borough);
    TruthyValuesSnoc(f2, middle);
    TruthyValuesSnoc(f3, a.road);
    TruthyValuesSnoc(f4, a.houseNumber);
    assert f5 == [a.city, a.borough, middle, a.road, a.houseNumber];
  }

  /** No field is truthy. */
  predicate NoParts(a: Address) {
    !Truthy(a.city) && !Truthy(a.borough) && !Truthy(a.quarter) && !Truthy(a.suburb)
    && !Truthy(a.road) && !Truthy(a.houseNumber)
  }

  /** `formattedAddress`: the parts joined by single spaces, "" with no address. */
  function FormattedAddress(address: Option<Address>): string {
    if address.None? then "" else Join(AddressParts(address.value), " ")
  }

  /** The formatted address is empty exactly when there is no address or no truthy field. */
  lemma FormattedEmptyIff(address: Option<Address>)
    ensures FormattedAddress(address) == "" <==> address.None? || NoParts(address.value)
  {
    if address.Some? {
      var a := address.value;
      JoinEmptyIff(AddressParts(a), " ");
    }
  }

  /** With a truthy quarter the suburb is ignored; otherwise the suburb takes the
      quarter's place. */
  lemma QuarterBeforeSuburb(a: Address, other: Option<string>)
    ensures Truthy(a.quarter) ==> AddressParts(a) == AddressParts(a.(suburb := other))
    ensures !Truthy(a.quarter) ==> AddressParts(a) == AddressParts(a.(quarter := a.suburb, suburb := None))
  {
  }

  /** Falsy fields are skipped: an empty string is the same as an absent field. */
  lemma EmptyFieldSkipped(a: Address)
    ensures AddressParts(a.(city := Some(""))) == AddressParts(a.(city := None))
    ensures AddressParts(a.(borough := Some(""))) == AddressParts(a.(borough := None))
    ensures AddressParts(a.(road := Some(""))) == AddressParts(a.(road := None))
    ensures AddressParts(a.(houseNumber := Some(""))) == AddressParts(a.(houseNumber := None))
    ensures AddressParts(a.(quarter := Some(""))) == AddressParts(a.(quarter := None))
    ensures AddressParts(a.(suburb := Some(""))) == AddressParts(a.(suburb := None))
  {
  }

  /** A full address lists its fields in the documented order, quarter first. */
  lemma FullAddressOrder(city: string, borough: string, quarter: string, suburb: string, road: string, house: string)
    requires city != "" && borough != "" && quarter != "" && road != "" && house != ""
    ensures AddressParts(Address(Some(city), Some(borough), Some(quarter), Some(suburb), Some(road), Some(house)))
            == [city, borough, quarter, road, house]
  {
  }

  /** The fallback: `display_name.split(", ").slice(1, 4).join(" ")`. */
  function Fallback(displayName: string): string {
    Join(SliceClamped(Split(displayName, ", "), 1, 4), " ")
  }

  /** For a display name made of comma-free pieces joined by ", ", the fallback keeps
      the second to fourth pieces (as many as exist), joined by spaces. */
  lemma FallbackKeepsSecondToFourth(pieces: seq<string>)
    requires |pieces| >= 1
    requires forall i, j :: 0 <= i < |pieces| && 0 <= j < |pieces[i]| ==> pieces[i][j] != ','
    ensures Fallback(Join(pieces, ", ")) == Join(SliceClamped(pieces, 1, 4), " ")
  {
    SplitJoin(pieces, ", ");
  }

  /** A display name with no comma yields an empty fallback. */
  lemma FallbackWithoutComma(displayName: string)
    requires forall i :: 0 <= i < |displayName| ==> displayName[i] != ','
    ensures Fallback(displayName) == ""
  {
    SplitWithoutSeparator(displayName, ", ");
  }

  /** The `currentLocation` text once `getCurrentLocation` has finished. A body without
      `display_name` makes `.split` throw, which is caught and shows the coordinates. */
  function LocationText(outcome: GeoOutcome): (t: string)
    ensures outcome.Unsupported? ==> t == UnsupportedText
    ensures outcome.PositionError? ==> t == PositionErrorText
    ensures outcome.Positioned? ==> |t| >= |LocationPrefix| && t[..|LocationPrefix|] == LocationPrefix
  {
    match outcome
    case Unsupported => UnsupportedText
    case PositionError => PositionErrorText
    case Positioned(coords, answer) =>
      LocationPrefix +
        match answer
        case NotOk => coords
        case Threw => coords
        case Body(address, displayName) =>
          var formatted := FormattedAddress(address);
          if formatted != "" then formatted
          else if displayName.None? then coords
          else Fallback(displayName.value)
  }

  /** Which text follows the prefix for a positioned device. */
  lemma LocationTextCases(coords: string, answer: Reverse)
    ensures answer.NotOk? || answer.Threw? ==> LocationText(Positioned(coords, answer)) == LocationPrefix + coords
    ensures answer.Body? && FormattedAddress(answer.address) != "" ==>
              LocationText(Positioned(coords, answer)) == LocationPrefix + FormattedAddress(answer.address)
    ensures answer.Body? && (answer.address.None? || NoParts(answer.address.value)) && answer.displayName.Some? ==>
              LocationText(Positioned(coords, answer)) == LocationPrefix + Fallback(answer.displayName.value)
    ensures answer.Body? && (answer.address.None? || NoParts(answer.address.value)) && answer.displayName.None? ==>
              LocationText(Positioned(coords, answer)) == LocationPrefix + coords
  {
    if answer.Body? {
      FormattedEmptyIff(answer.address);
    }
  }

  /** The nickname dialog is needed on a first visit or without a stored nickname. */
  predicate NeedsNickname(firstVisit: bool, nickname: Option<string>) {
    firstVisit || !Truthy(nickname)
  }

  class MainScreen {
    const users: UserStorage.UserStore
    const notes: NotificationStorage.NotificationStore
    var modalVisible: bool
    var showDetail: bool
    var showJourneyPlanning: bool
    var currentLocation: string
    var isLoadingLocation: bool
    var showNicknameModal: bool
    var userNickname: Option<string>
    var unreadNotificationCount: nat

    ghost predicate Valid()
      reads this, users
    {
      users.Valid()
    }

    constructor (users: UserStorage.UserStore, notes: NotificationStorage.NotificationStore)
      requires users.Valid()
      ensures Valid() && this.users == users && this.notes == notes
      ensures !modalVisible && !showDetail && !showJourneyPlanning && !showNicknameModal
      ensures currentLocation == LocatingText && isLoadingLocation
      ensures userNickname.None? && unreadNotificationCount == 0
    {
      this.users := users;
      this.notes := notes;
      modalVisible := false;
      showDetail := false;
      showJourneyPlanning := false;
      currentLocation := LocatingText;
      isLoadingLocation := true;
      showNicknameModal := false;
      userNickname := None;
      unreadNotificationCount := 0;
    }

    /** The mount effect: reads the nickname, seeds the notifications and their unread
        count, then either opens the nickname dialog or records the login. */
    method Mount(now: string)
      requires Valid()
      modifies this`userNickname, this`unreadNotificationCount, this`showNicknameModal, users`items, notes
      ensures Valid()
      ensures userNickname == old(users.GetNickname())
      ensures old(notes.stored).None? ==> notes.stored == Some(NotificationStorage.Defaults)
      ensures old(notes.stored).Some? ==> notes.stored == old(notes.stored)
      ensures notes.GetNotifications() == old(notes.GetNotifications())
      ensures unreadNotificationCount == notes.GetUnreadCount()
      ensures NeedsNickname(old(users.IsFirstVisit()), old(users.GetNickname())) ==>
                showNicknameModal && users.items == old(users.items)
      ensures !NeedsNickname(old(users.IsFirstVisit()), old(users.GetNickname())) ==>
                showNicknameModal == old(showNicknameModal) &&
                (old(users.GetUserInfo()).None? ==> users.items == old(users.items)) &&
                (old(users.GetUserInfo()).Some? ==>
                   users.items == old(users.items)[UserStorage.UserInfoKey :=
                                    UserStorage.InfoValue(old(users.GetUserInfo()).value.(lastLoginAt := now))])
    {
      var nickname := users.GetNickname();
      userNickname := nickname;
      notes.InitializeNotifications();
      unreadNotificationCount := notes.GetUnreadCount();
      if users.IsFirstVisit() || !Truthy(nickname) {
        showNicknameModal := true;
      } else {
        users.UpdateLastLogin(now);
      }
    }

    /** `handleNicknameComplete`: stores the nickname, shows it and hides the dialog. */
    method HandleNicknameComplete(nickname: string, now: string)
      requires Valid()
      modifies this`userNickname, this`showNicknameModal, users`items
      ensures Valid()
      ensures users.items == UserStorage.AfterSaveNickname(old(users.items), nickname, now)
      ensures users.GetNickname() == Some(nickname) && !users.IsFirstVisit()
      ensures userNickname == Some(nickname) && !showNicknameModal
    {
      users.SaveNickname(nickname, now);
      userNickname := Some(nickname);
      showNicknameModal := false;
    }

    /** `handleAccept`: closes the recommendation dialog and its detail view and opens
        journey planning. */
    method HandleAccept()
      modifies this`modalVisible, this`showDetail, this`showJourneyPlanning
      ensures !modalVisible && !showDetail && showJourneyPlanning
    {
      modalVisible := false;
      showDetail := false;
      showJourneyPlanning := true;
    }

    /** Completion of `getCurrentLocation`. */
    method ResolveLocation(outcome: GeoOutcome)
      modifies this`currentLocation, this`isLoadingLocation
      ensures currentLocation == LocationText(outcome) && !isLoadingLocation
    {
      currentLocation := LocationText(outcome);
      isLoadingLocation := false;
    }
  }

  /** A returning visit after a completed nickname dialog skips the dialog: once a
      non-empty nickname is saved, the next mount records the login instead. */
  method ReturningVisitSkipsDialog(users: UserStorage.UserStore, nickname: string, now: string, later: string)
      returns (shown: bool)
    requires users.Valid() && nickname != ""
    modifies users
    ensures !shown
  {
    var notes := new NotificationStorage.NotificationStore();
    var first := new MainScreen(users, notes);
    first.Mount(now);
    first.HandleNicknameComplete(nickname, now);
    var second := new MainScreen(users, notes);
    second.Mount(later);
    shown := second.showNicknameModal;
  }
}
