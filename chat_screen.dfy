/** The scripted chat screen (src/components/ChatScreen.tsx): the scenario table, the
    seeded greeting, and the handlers that append user and bot turns to the transcript.
    The reply delays (`setTimeout`) are taken as immediate, except that a free-text send
    is split at its `await`: `BeginSend` runs up to the call of the chat service and
    `FinishSend` runs when it settles. */
module ChatScreen {
  import opened Wrappers
  import opened JsStrings
  import GptService

  /** One message of the transcript. */
  datatype Turn = Turn(id: int, text: string, isUser: bool, options: seq<string>)

  /** An entry of the scenario table: the bot's reply and the options offered after it. */
  datatype Scenario = Scenario(response: string, followUpOptions: seq<string>)

  /** What the ending screen receives (`onShowEnding`). */
  datatype EndingData = EndingData(uploadedImage: Option<string>, visitedPlaces: seq<string>,
                                   userNickname: Option<string>)

  /** The arguments of the `gptService.chat` call a free-text send makes. */
  datatype ChatRequest = ChatRequest(userMessage: string, destination: string,
                                     history: seq<GptService.GptMessage>)

  /** What the awaiting send remembers: the transcript length it saw
      (`messages.length` of its render) and the text it sent. */
  datatype PendingReply = PendingReply(baseLength: nat, userMessage: string)

  /** The option that ends the scenario and hands over to the ending screen. */
  const TerminalOption := "마지막으로 이동하기"

  /** The three options of the greeting, also offered by every fallback reply. */
  const StarterOptions := ["루미나셀이란건 무엇인가요?", "실험 기록이 어딨는지 같이 찾아봐요!", "루미나 셀이 처음 실험된 장소는 어디인가요?"]

  const GreetingBody := "정말로 와주셨군요! 도와주셔서 감사합니다.\n루미나 셀의 실험이 이곳에서 시작되었어요.\n이곳의 실험 기록에서 단서를 찾아야 해요!"
  const DefaultReply := "흥미로운 질문이에요! 더 자세히 설명해드릴게요."
  const HardcodedReply := "흥미로운 이야기네요! 루미나 셀에 대해 더 궁금한 게 있으시면 언제든 물어보세요!"
  const ScanDoneText := "스캔 완료! 결과를 확인해주세요"
  const CaptureReply := "고마워요 ! 덕분에 루미나셀의 모든 비밀을 풀 수 있었어요\n\n감사의 마음을 담은 선물을 받아주세요!"

  /** `conversationScenarios`, keyed by the exact option text. */
  const Scenarios: map<string, Scenario> :=
    map[
      "루미나셀이란건 무엇인가요?" := Scenario(
        "루미나 셀은 빛 에너지를 저장하고 방출할 수 있는 혁신적인 기술이에요! 태양광보다 10배 더 효율적이고, 어둠 속에서도 빛을 낼 수 있어요. 하지만 아직 안정화되지 않아서 실험 중이에요.",
        ["어떻게 작동하는 건가요?", "왜 안정화가 안 되나요?", "실험 기록을 찾아보겠습니다!"]),
      "어떻게 작동하는 건가요?" := Scenario(
        "루미나 셀은 특별한 광결정 구조를 가지고 있어요. 빛을 받으면 에너지를 저장하고, 필요할 때 다시 빛으로 변환해요. 마치 태양열 패널과 배터리를 합친 것 같죠!",
        ["왜 안정화가 안 되나요?", "실험 기록을 찾아보겠습니다!", "다른 질문이 있어요"]),
      "왜 안정화가 안 되나요?" := Scenario(
        "아직 빛 에너지 변환 과정에서 열이 너무 많이 발생해요. 이 열이 셀을 손상시켜서 수명이 짧아져요. 온도 제어 기술이 핵심 과제예요!",
        ["실험 기록을 찾아보겠습니다!", "다른 질문이 있어요", "꿈돌이와 더 대화하기"]),
      "실험 기록이 어딨는지 같이 찾아봐요!" := Scenario(
        "좋아요! 근처를 스캔하면 빛의 파형, 스펙트럼, 실패 이유 같은 정보가 나와요. 잘 분석해서 단서를 찾아야 해요!",
        ["어떻게 스캔하나요?", "QR코드를 찾아보겠습니다!", "다른 방법이 있나요?"]),
      "어떻게 스캔하나요?" := Scenario(
        "카메라 버튼을 눌러서 주변을 촬영하면 자동으로 분석해요! 빛의 파장, 강도, 방향 등을 측정해서 실험 데이터와 비교할 수 있어요.",
        ["QR코드를 찾아보겠습니다!", "지금 스캔해보겠습니다!", "다른 방법이 있나요?"]),
      "QR코드를 찾아보겠습니다!" := Scenario(
        "좋은 생각이에요! 곳곳에 흩어진 실험 기록 QR코드를 찾아주세요. 총 5개의 기록이 있어요. 각각 다른 실험 단계를 담고 있을 거예요!",
        ["지금 스캔해보겠습니다!", "어디서 찾을 수 있나요?", "다른 방법이 있나요?"]),
      "어디서 찾을 수 있나요?" := Scenario(
        "박물관 내부의 주요 전시물 근처에 숨겨져 있어요. 특히 빛과 관련된 전시, 과학관, 그리고 실험실 복원 공간을 잘 살펴보세요!",
        ["지금 스캔해보겠습니다!", "다른 방법이 있나요?", "꿈돌이와 더 대화하기"]),
      "루미나 셀이 처음 실험된 장소는 어디인가요?" := Scenario(
        "좋은 질문이에요! 루미나 셀의 첫 실험은 빛 에너지 연구실에서 시작됐어요.",
        ["제가 뭘 하면 될까요?", "연구실이 어디에 있나요?", "다른 질문이 있어요"]),
      "제가 뭘 하면 될까요?" := Scenario(
        "곳곳에 흩어진 실험 기록 QR코드를 찾아주세요. 총 5개의 기록이 있어요",
        ["QR코드를 찾아보겠습니다!", "어디서 찾을 수 있나요?", "지금 스캔해보겠습니다!"]),
      "연구실이 어디에 있나요?" := Scenario(
        "빛 에너지 연구실은 박물관 2층 서쪽 끝에 있어요. 지금은 복원 공간으로 운영되고 있지만, 원래 실험 장비들이 전시되어 있어요!",
        ["제가 뭘 하면 될까요?", "QR코드를 찾아보겠습니다!", "지금 스캔해보겠습니다!"]),
      "지금 스캔해보겠습니다!" := Scenario(
        "좋아요! 카메라 버튼을 눌러서 주변을 촬영해보세요. 자동으로 빛 데이터를 분석하고 실험 기록과 비교할 거예요!",
        ["스캔 완료! 결과를 확인해주세요", "다른 방법이 있나요?", "꿈돌이와 더 대화하기"]),
      "스캔 완료! 결과를 확인해주세요" := Scenario(
        "와! 흥미로운 데이터가 나왔네요! 빛의 파장이 예상과 다르게 나타나고 있어요. 이건 실험 기록과 일치하지 않아요. 뭔가 특별한 일이 일어나고 있는 것 같아요!",
        ["무엇이 다른가요?", "다른 곳도 스캔해보겠습니다!", "QR코드를 더 찾아보겠습니다!"]),
      "무엇이 다른가요?" := Scenario(
        "정상적인 루미나 셀은 550nm 파장의 녹색 빛을 내야 하는데, 지금은 650nm의 붉은 빛이 감지되고 있어요. 이건 실험 기록에 없는 현상이에요!",
        ["이게 무슨 의미인가요?", "다른 곳도 스캔해보겠습니다!", "QR코드를 더 찾아보겠습니다!"]),
      "이게 무슨 의미인가요?" := Scenario(
        "아마도 루미나 셀이 변이했거나, 다른 에너지원과 반응하고 있을 수도 있어요. 더 많은 데이터가 필요해요. 다른 곳도 스캔해보고 QR코드도 찾아봐요!",
        ["다른 곳도 스캔해보겠습니다!", "QR코드를 더 찾아보겠습니다!", "꿈돌이와 더 대화하기"]),
      "다른 방법이 있나요?" := Scenario(
        "네! QR코드를 찾는 것 외에도, 박물관 직원들에게 물어보거나, 전시 설명을 자세히 읽어보는 방법도 있어요. 때로는 예상치 못한 곳에서 단서를 찾을 수 있어요!",
        ["QR코드를 찾아보겠습니다!", "지금 스캔해보겠습니다!", "꿈돌이와 더 대화하기"]),
      "다른 질문이 있어요" := Scenario(
        "네! 루미나 셀에 대해 궁금한 게 있으면 언제든 물어보세요. 저는 이 실험을 도와주실 분을 기다리고 있었어요!",
        ["루미나셀이란건 무엇인가요?", "실험 기록이 어딨는지 같이 찾아봐요!", "루미나 셀이 처음 실험된 장소는 어디인가요?"]),
      "꿈돌이와 더 대화하기" := Scenario(
        "좋아요! 저는 루미나 셀 실험을 성공시키는 것이 꿈이에요. 여러분의 도움이 정말 필요해요!",
        ["루미나셀이란건 무엇인가요?", "실험 기록이 어딨는지 같이 찾아봐요!", "루미나 셀이 처음 실험된 장소는 어디인가요?"])
    ]

  /** The follow-up options that are not keys of the table, so that clicking them
      gets the default reply. */
  const UnkeyedFollowUps: set<string> := {"실험 기록을 찾아보겠습니다!", "QR코드를 더 찾아보겠습니다!", "다른 곳도 스캔해보겠습니다!"}

  /** Every entry offers exactly three follow-up options. */
  lemma ScenarioEntriesHaveThreeOptions()
    ensures forall k :: k in Scenarios ==> |Scenarios[k].followUpOptions| == 3
  {
  }

  /** Every follow-up option other than the three of `UnkeyedFollowUps` is itself a key
      of the table. */
  lemma FollowUpsOutsideTable()
    ensures forall k, o :: k in Scenarios && o in Scenarios[k].followUpOptions && o !in UnkeyedFollowUps ==>
              o in Scenarios
  {
  }

  /** Each of `UnkeyedFollowUps` is offered by some entry and has none of its own. */
  lemma UnkeyedFollowUpsAreOffered()
    ensures forall o :: o in UnkeyedFollowUps ==>
              o !in Scenarios && exists k :: k in Scenarios && o in Scenarios[k].followUpOptions
  {
    forall o | o in UnkeyedFollowUps
      ensures o !in Scenarios && exists k :: k in Scenarios && o in Scenarios[k].followUpOptions
    {
      var k := if o == "실험 기록을 찾아보겠습니다!" then "루미나셀이란건 무엇인가요?" else "무엇이 다른가요?";
      assert k in Scenarios && o in Scenarios[k].followUpOptions;
    }
  }

  /** No table entry offers the terminal option: only the capture reply does. */
  lemma TerminalOptionNotScripted()
    ensures forall k :: k in Scenarios ==> TerminalOption !in Scenarios[k].followUpOptions
    ensures TerminalOption !in Scenarios && TerminalOption !in StarterOptions
  {
  }

  /** `x || undefined`. */
  function OrUndefined(s: Option<string>): (r: Option<string>)
    ensures r.Some? <==> Truthy(s)
    ensures r.Some? ==> r == s
  {
    if Truthy(s) then s else None
  }

  /** The seeded first turn: id 1, a bot turn, the greeting prefixed with
      "<nickname>님, " only when a nickname is given, and the three starter options. */
  function InitialTurn(userNickname: Option<string>): (t: Turn)
    ensures t.id == 1 && !t.isUser && t.options == StarterOptions
    ensures Truthy(userNickname) ==> t.text == userNickname.value + "님, " + GreetingBody
    ensures !Truthy(userNickname) ==> t.text == GreetingBody
  {
    Turn(1, (if Truthy(userNickname) then userNickname.value + "님, " else "") + GreetingBody, false, StarterOptions)
  }

  function UserTurn(id: int, text: string): Turn {
    Turn(id, text, true, [])
  }

  /** The bot's scripted answer to a clicked option: the table entry for it, or else
      the default reply with the three starter options. Either way there are options
      to go on with: the script never dead-ends. */
  function OptionReply(option: string): (r: Scenario)
    ensures option in Scenarios ==> r == Scenarios[option]
    ensures option !in Scenarios ==> r == Scenario(DefaultReply, StarterOptions)
    ensures |r.followUpOptions| == 3
  {
    ScenarioEntriesHaveThreeOptions();
    if option in Scenarios then Scenarios[option] else Scenario(DefaultReply, StarterOptions)
  }

  /** `getHardcodedResponse`. */
  const Hardcoded := Scenario(HardcodedReply, StarterOptions)

  /** The bot turn a settled chat call leads to: the service's text without options,
      or, when the call threw, the hard-coded reply with the starter options. */
  function ServiceReplyTurn(id: int, outcome: GptService.ChatOutcome): (t: Turn)
    ensures !t.isUser && t.id == id
    ensures outcome.Returned? ==> t.text == outcome.text && t.options == []
    ensures outcome.Threw? ==> t.text == HardcodedReply && t.options == StarterOptions
  {
    match outcome
    case Returned(_, text) => Turn(id, text, false, [])
    case Threw(_) => Turn(id, Hardcoded.response, false, Hardcoded.followUpOptions)
  }

  /** The hard-coded fallback of a free-text send is used exactly when the service has
      no API key: with a key, `chat` never throws, whatever the request produced. */
  lemma FallbackOnlyWithoutKey(service: GptService.GptService, request: ChatRequest,
                               fetched: GptService.FetchOutcome, id: int)
    ensures var t := ServiceReplyTurn(id, service.Chat(request.userMessage, request.destination, request.history, fetched));
            (t.options != [] <==> service.apiKey == "") && t.text != ""
  {
  }

  /** The adapter's view of the transcript. */
  function AsHistory(ms: seq<Turn>): (h: seq<GptService.HistoryItem>)
    ensures |h| == |ms|
    ensures forall i :: 0 <= i < |ms| ==> h[i] == GptService.HistoryItem(ms[i].text, ms[i].isUser)
  {
    seq(|ms|, i requires 0 <= i < |ms| => GptService.HistoryItem(ms[i].text, ms[i].isUser))
  }

  /** Turn ids are 1, 2, 3, ... in transcript order. */
  ghost predicate IdsConsecutive(ms: seq<Turn>) {
    forall i :: 0 <= i < |ms| ==> ms[i].id == i + 1
  }

  class ChatScreen {
    const destination: string
    const userNickname: Option<string>
    /** Whether the parent passed `onShowEnding`. */
    const hasEndingHandler: bool

    var messages: seq<Turn>
    var inputValue: string
    var isLoading: bool
    var showChatHistory: bool
    var uploadedImage: Option<string>
    /** The continuation of an awaited chat call, if one is outstanding. */
    var pending: Option<PendingReply>

    /** A chat call is outstanding exactly while `isLoading`, and it saw a shorter
        transcript than the present one. */
    ghost predicate Valid()
      reads this
    {
      (isLoading <==> pending.Some?) &&
      (pending.Some? ==> pending.value.baseLength < |messages|)
    }

    constructor (destination: string, userNickname: Option<string>, hasEndingHandler: bool)
      ensures Valid()
      ensures this.destination == destination && this.userNickname == userNickname
      ensures this.hasEndingHandler == hasEndingHandler
      ensures messages == [InitialTurn(userNickname)] && IdsConsecutive(messages)
      ensures inputValue == "" && !isLoading && !showChatHistory
      ensures uploadedImage.None? && pending.None?
    {
      this.destination := destination;
      this.userNickname := userNickname;
      this.hasEndingHandler := hasEndingHandler;
      messages := [InitialTurn(userNickname)];
      inputValue := "";
      isLoading := false;
      showChatHistory := false;
      uploadedImage := None;
      pending := None;
    }

    /** `handleOptionClick`: appends the user's turn with the option's text; for the
        terminal option appends nothing more and hands `[destination]`, the captured
        image and the nickname to the ending screen, if there is one; otherwise appends
        the scripted reply. */
    method HandleOptionClick(option: string) returns (ending: Option<EndingData>)
      requires Valid()
      modifies this`messages, this`showChatHistory
      ensures Valid() && showChatHistory
      ensures option == TerminalOption ==>
                messages == old(messages) + [UserTurn(|old(messages)| + 1, option)] &&
                ending == (if hasEndingHandler
                           then Some(EndingData(OrUndefined(uploadedImage), [destination], OrUndefined(userNickname)))
                           else None)
      ensures option != TerminalOption ==>
                ending.None? &&
                messages == old(messages) + [UserTurn(|old(messages)| + 1, option),
                                             Turn(|old(messages)| + 2, OptionReply(option).response, false,
                                                  OptionReply(option).followUpOptions)]
      ensures old(IdsConsecutive(messages)) ==> IdsConsecutive(messages)
    {
      showChatHistory := true;
      var n := |messages|;
      messages := messages + [UserTurn(n + 1, option)];
      if option == TerminalOption {
        ending := if hasEndingHandler
                  then Some(EndingData(OrUndefined(uploadedImage), [destination], OrUndefined(userNickname)))
                  else None;
        return;
      }
      ending := None;
      var scenario := OptionReply(option);
      messages := messages + [Turn(n + 2, scenario.response, false, scenario.followUpOptions)];
    }

    /** The input field's `onChange`. */
    method SetInput(value: string)
      modifies this`inputValue
      ensures inputValue == value
    {
      inputValue := value;
    }

    /** `handleSendMessage` up to the awaited call. Blank input changes nothing and
        sends nothing. Otherwise the untrimmed input becomes a user turn, the input is
        cleared, loading starts, and the request carries the history of the transcript
        as it was before that turn. The input and send button are disabled while
        loading, so no send starts while another is outstanding. */
    method BeginSend() returns (request: Option<ChatRequest>)
      requires Valid() && !isLoading
      modifies this`messages, this`inputValue, this`isLoading, this`pending
      ensures Valid()
      ensures IsBlank(old(inputValue)) ==>
                request.None? && messages == old(messages) && inputValue == old(inputValue) &&
                !isLoading && pending.None?
      ensures !IsBlank(old(inputValue)) ==>
                messages == old(messages) + [UserTurn(|old(messages)| + 1, old(inputValue))] &&
                inputValue == "" && isLoading &&
                pending == Some(PendingReply(|old(messages)|, old(inputValue))) &&
                request == Some(ChatRequest(old(inputValue), destination,
                                            GptService.CreateConversationHistory(AsHistory(old(messages)))))
      ensures old(IdsConsecutive(messages)) ==> IdsConsecutive(messages)
    {
      TrimEmptyIffBlank(inputValue);
      if Trim(inputValue) == "" {
        request := None;
        return;
      }
      var userMessage := inputValue;
      var n := |messages|;
      var history := GptService.CreateConversationHistory(AsHistory(messages));
      messages := messages + [UserTurn(n + 1, userMessage)];
      inputValue := "";
      isLoading := true;
      pending := Some(PendingReply(n, userMessage));
      request := Some(ChatRequest(userMessage, destination, history));
    }

    /** The rest of `handleSendMessage` once the call has settled: the bot turn for the
        outcome, with the id the send computed from the length it saw, and loading ends. */
    method FinishSend(outcome: GptService.ChatOutcome)
      requires Valid() && pending.Some?
      modifies this`messages, this`isLoading, this`pending
      ensures Valid() && !isLoading && pending.None?
      ensures messages == old(messages) + [ServiceReplyTurn(old(pending).value.baseLength + 2, outcome)]
      ensures old(IdsConsecutive(messages)) && old(|messages| == pending.value.baseLength + 1) ==>
                IdsConsecutive(messages)
    {
      var base := pending.value.baseLength;
      messages := messages + [ServiceReplyTurn(base + 2, outcome)];
      isLoading := false;
      pending := None;
    }

    /** A whole free-text send against the chat service: for non-blank input, the user
        turn and then the reply turn for what the service makes of the untrimmed input
        and the earlier transcript; the reply's options are empty exactly when the
        service has an API key. */
    method SendMessage(service: GptService.GptService, fetched: GptService.FetchOutcome)
      requires Valid() && !isLoading
      modifies this`messages, this`inputValue, this`isLoading, this`pending
      ensures Valid() && !isLoading
      ensures IsBlank(old(inputValue)) ==> messages == old(messages) && inputValue == old(inputValue)
      ensures !IsBlank(old(inputValue)) ==>
                |messages| == |old(messages)| + 2 && messages[..|old(messages)|] == old(messages) &&
                messages[|old(messages)|] == UserTurn(|old(messages)| + 1, old(inputValue)) &&
                inputValue == "" &&
                messages[|old(messages)| + 1] ==
                  ServiceReplyTurn(|old(messages)| + 2,
                                   service.Chat(old(inputValue), destination,
                                                GptService.CreateConversationHistory(AsHistory(old(messages))),
                                                fetched)) &&
                (messages[|old(messages)| + 1].options == [] <==> service.IsApiKeyValid())
      ensures old(IdsConsecutive(messages)) ==> IdsConsecutive(messages)
    {
      ghost var before := messages;
      ghost var n := |messages|;
      var request := BeginSend();
      if request.Some? {
        var r := request.value;
        var outcome := service.Chat(r.userMessage, r.destination, r.history, fetched);
        ghost var sent := messages;
        FinishSend(outcome);
        assert messages == sent + [ServiceReplyTurn(n + 2, outcome)];
        FallbackOnlyWithoutKey(service, r, fetched, n + 2);
        assert messages[..n + 1] == sent;
        assert messages[..n] == before;
      }
    }

    /** The scan part of `capturePhoto`, once the camera produced an image (`None`: the
        video or canvas was not there, and nothing happens): the image is kept, then the
        scan-done user turn and a bot turn whose only option is the terminal one. */
    method CapturePhoto(captured: Option<string>)
      requires Valid()
      modifies this`messages, this`uploadedImage, this`showChatHistory
      ensures Valid()
      ensures captured.None? ==>
                messages == old(messages) && uploadedImage == old(uploadedImage) &&
                showChatHistory == old(showChatHistory)
      ensures captured.Some? ==>
                uploadedImage == captured && showChatHistory &&
                messages == old(messages) + [UserTurn(|old(messages)| + 1, ScanDoneText),
                                             Turn(|old(messages)| + 2, CaptureReply, false, [TerminalOption])]
      ensures old(IdsConsecutive(messages)) ==> IdsConsecutive(messages)
    {
      if captured.None? {
        return;
      }
      uploadedImage := captured;
      var n := |messages|;
      messages := messages + [UserTurn(n + 1, ScanDoneText)];
      showChatHistory := true;
      messages := messages + [Turn(n + 2, CaptureReply, false, [TerminalOption])];
    }
  }

  /** A session that scans and then takes the terminal option hands exactly the start
      destination and the captured image to the ending screen. */
  method ScanThenFinish(destination: string, image: string) returns (ending: Option<EndingData>)
    requires image != ""
    ensures ending == Some(EndingData(Some(image), [destination], None))
  {
    var chat := new ChatScreen(destination, None, true);
    chat.CapturePhoto(Some(image));
    var last := chat.messages[|chat.messages| - 1];
    assert last.options == [TerminalOption];
    ending := chat.HandleOptionClick(last.options[0]);
    assert chat.messages[|chat.messages| - 1] == UserTurn(4, TerminalOption);
  }
}
