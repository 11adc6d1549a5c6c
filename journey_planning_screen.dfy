/** The itinerary screen (src/components/JourneyPlanningScreen.tsx): three destination
    slots ("" is an empty slot), the two destination dialogs and the hand-off to the
    chat screen. */
module JourneyPlanningScreen {
  import opened Wrappers
  import Places
  import DestinationAlertModal
  import ChatScreen

  const SlotCount: nat := 3

  /** The destination every chat started from this screen is given. */
  const ChatDestination := "대전역"

  const ProceedAlert := "모든 목적지를 설정해주세요!"

  /** This screen's coordinate table: the dialogs' five names plus the observatory. */
  const CoordinateNames: set<string> := Places.CoordinateNames + {"대전시민천문대"}

  /** `slots.filter(dest => dest === "").length`. */
  function EmptyCount(slots: seq<string>): (n: nat)
    ensures n <= |slots|
    ensures n == 0 <==> forall i :: 0 <= i < |slots| ==> slots[i] != ""
    ensures n == |slots| <==> forall i :: 0 <= i < |slots| ==> slots[i] == ""
  {
    if slots == [] then 0
    else (if slots[0] == "" then 1 else 0) + EmptyCount(slots[1..])
  }

  /** `slots.findIndex(dest => dest === "")`, with `None` for -1. */
  function FirstEmpty(slots: seq<string>): (r: Option<nat>)
    ensures r.None? <==> forall i :: 0 <= i < |slots| ==> slots[i] != ""
    ensures r.Some? ==> r.value < |slots| && slots[r.value] == ""
    ensures r.Some? ==> forall i :: 0 <= i < r.value ==> slots[i] != ""
  {
    if slots == [] then None
    else if slots[0] == "" then Some(0)
    else match FirstEmpty(slots[1..])
      case None => None
      case Some(k) => Some(k + 1)
  }

  /** The slot list after `handleSelectDestination(destination)`. */
  function Fill(slots: seq<string>, destination: string): (r: seq<string>)
    ensures |r| == |slots|
  {
    match FirstEmpty(slots)
    case None => slots
    case Some(k) => slots[k := destination]
  }

  /** Filling writes the first empty slot and no other; it is a no-op with no empty
      slot; and a non-empty name leaves one empty slot fewer. */
  lemma FillEffect(slots: seq<string>, destination: string)
    ensures FirstEmpty(slots).None? ==> Fill(slots, destination) == slots
    ensures FirstEmpty(slots).Some? ==>
              var k := FirstEmpty(slots).value;
              Fill(slots, destination)[k] == destination &&
              forall i :: 0 <= i < |slots| && i != k ==> Fill(slots, destination)[i] == slots[i]
    ensures FirstEmpty(slots).Some? && destination != "" ==>
              EmptyCount(Fill(slots, destination)) + 1 == EmptyCount(slots)
  {
    if FirstEmpty(slots).Some? {
      var k := FirstEmpty(slots).value;
      CountAfterWrite(slots, k, destination);
    }
  }

  /** Emptying a filled slot leaves one empty slot more. */
  lemma ClearEffect(slots: seq<string>, index: nat)
    requires index < |slots| && slots[index] != ""
    ensures EmptyCount(slots[index := ""]) == EmptyCount(slots) + 1
  {
    CountAfterWrite(slots, index, "");
  }

  /** How overwriting one slot changes the number of empty slots. */
  lemma {:induction false} CountAfterWrite(slots: seq<string>, k: nat, v: string)
    requires k < |slots|
    ensures EmptyCount(slots[k := v]) ==
            EmptyCount(slots) - (if slots[k] == "" then 1 else 0) + (if v == "" then 1 else 0)
  {
    if k > 0 {
      CountAfterWrite(slots[1..], k - 1, v);
      assert slots[k := v][1..] == slots[1..][k - 1 := v];
    } else {
      assert slots[k := v][1..] == slots[1..];
    }
  }

  /** With a position known, this screen labels the observatory with a distance and
      labels every dialog destination exactly as the dialogs do, while the dialogs'
      own table gives the observatory no label. */
  lemma ObservatoryOnlyHere(here: Places.Location, name: string, measured: string)
    requires measured != ""
    ensures Places.DistanceLabel(CoordinateNames, "대전시민천문대", Some(here), measured) == measured
    ensures Places.DistanceLabel(Places.CoordinateNames, "대전시민천문대", Some(here), measured) == ""
    ensures name != "대전시민천문대" ==>
              Places.DistanceLabel(CoordinateNames, name, Some(here), measured) ==
              Places.DistanceLabel(Places.CoordinateNames, name, Some(here), measured)
  {
  }

  const InitialSlots: seq<string> := ["", "", ""]

  /** Three picks of named destinations fill the empty itinerary in pick order, after
      which nothing is empty. */
  lemma ThreePicksFillInOrder(a: string, b: string, c: string)
    requires a != "" && b != "" && c != ""
    ensures Fill(Fill(Fill(InitialSlots, a), b), c) == [a, b, c]
    ensures EmptyCount([a, b, c]) == 0
  {
    assert FirstEmpty(InitialSlots) == Some(0);
    assert Fill(InitialSlots, a) == [a, "", ""];
    assert FirstEmpty([a, "", ""]) == Some(1);
    assert Fill([a, "", ""], b) == [a, b, ""];
    assert FirstEmpty([a, b, ""]) == Some(2);
  }

  class JourneyPlanningScreen {
    const userNickname: Option<string>
    /** `selectedDestinations`. */
    var slots: seq<string>
    var isModalVisible: bool
    var isAlertModalVisible: bool
    var showChatScreen: bool

    constructor (userNickname: Option<string>)
      ensures this.userNickname == userNickname
      ensures slots == InitialSlots && EmptyCount(slots) == SlotCount
      ensures !isModalVisible && !isAlertModalVisible && !showChatScreen
    {
      this.userNickname := userNickname;
      slots := InitialSlots;
      isModalVisible := false;
      isAlertModalVisible := false;
      showChatScreen := false;
    }

    /** `handleOpenModal`: the "set all" dialog when every slot is empty, else the
        single-pick dialog. */
    method OpenModal()
      modifies this`isModalVisible, this`isAlertModalVisible
      ensures EmptyCount(slots) == SlotCount ==> isAlertModalVisible && isModalVisible == old(isModalVisible)
      ensures EmptyCount(slots) != SlotCount ==> isModalVisible && isAlertModalVisible == old(isAlertModalVisible)
    {
      if EmptyCount(slots) == SlotCount {
        isAlertModalVisible := true;
      } else {
        isModalVisible := true;
      }
    }

    /** `handleCloseModal`. */
    method CloseModal()
      modifies this`isModalVisible
      ensures !isModalVisible
    {
      isModalVisible := false;
    }

    /** The alert dialog's `onClose`. */
    method CloseAlertModal()
      modifies this`isAlertModalVisible
      ensures !isAlertModalVisible
    {
      isAlertModalVisible := false;
    }

    /** `handleSelectDestination`. */
    method SelectDestination(destination: string)
      modifies this`slots
      ensures slots == Fill(old(slots), destination)
    {
      var k := FirstEmpty(slots);
      if k.Some? {
        slots := slots[k.value := destination];
      }
    }

    /** `handleSetAllDestinations`: the slots are replaced by the dialog's list. */
    method SetAllDestinations(destinations: seq<string>)
      modifies this`slots
      ensures slots == destinations
    {
      slots := destinations;
    }

    /** `handleRemoveDestination` for a rendered slot. */
    method RemoveDestination(index: nat)
      requires index < |slots|
      modifies this`slots
      ensures slots == old(slots)[index := ""]
    {
      slots := slots[index := ""];
    }

    /** `handleProceed`: with an empty slot it raises the alert and stays; otherwise it
        switches to the chat. */
    method Proceed() returns (alert: Option<string>)
      modifies this`showChatScreen
      ensures alert.Some? <==> EmptyCount(slots) > 0
      ensures alert.Some? ==> alert.value == ProceedAlert && showChatScreen == old(showChatScreen)
      ensures alert.None? ==> showChatScreen
    {
      if EmptyCount(slots) > 0 {
        alert := Some(ProceedAlert);
      } else {
        alert := None;
        showChatScreen := true;
      }
    }

    /** The chat rendered while `showChatScreen` holds: always for "대전역", with the
        screen's nickname, whatever the slots say. */
    method OpenChat(hasEndingHandler: bool) returns (chat: ChatScreen.ChatScreen)
      requires showChatScreen
      ensures fresh(chat)
      ensures chat.destination == ChatDestination && chat.userNickname == userNickname
      ensures chat.hasEndingHandler == hasEndingHandler
      ensures chat.messages == [ChatScreen.InitialTurn(userNickname)]
    {
      chat := new ChatScreen.ChatScreen(ChatDestination, userNickname, hasEndingHandler);
    }
  }

  /** The "set all" path: on an empty itinerary the alert dialog opens, three toggles
      and "set all" fill every slot, and proceeding then opens the chat. */
  method PlanWithAlertModal(screen: JourneyPlanningScreen, a: string, b: string, c: string)
      returns (alert: Option<string>)
    requires screen.slots == InitialSlots
    requires a != "" && b != "" && c != ""
    requires a != b && b != c && a != c
    modifies screen
    ensures screen.slots == [a, b, c]
    ensures alert.None? && screen.showChatScreen
  {
    screen.OpenModal();
    assert screen.isAlertModalVisible;
    var chosen := DestinationAlertModal.PickThree(a, b, c);
    screen.SetAllDestinations(chosen.value);
    screen.CloseAlertModal();
    assert EmptyCount(screen.slots) == 0;
    alert := screen.Proceed();
  }
}
