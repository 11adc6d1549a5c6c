/** The chat-completion client (src/services/gptService.ts): the bounded history adapter,
    the request message list, the error classifier and the error contract of `chat`.
    The HTTP request itself is not modelled: what it produced is a `FetchOutcome`. */
module GptService {
  import opened Wrappers
  import opened JsStrings

  datatype Role = System | User | Assistant

  datatype GptMessage = GptMessage(role: Role, content: string)

  /** The part of a chat turn the adapter reads: `{ text, isUser }`. */
  datatype HistoryItem = HistoryItem(text: string, isUser: bool)

  /** How many of the most recent turns are sent along (`slice(-8)`). */
  const HistoryLimit: nat := 8

  const MissingKeyMessage := "API 키가 설정되지 않았습니다."
  const ApologyReply := "죄송해요, 응답을 생성할 수 없어요."
  const KeyInvalidReply := "API 키가 유효하지 않아요. 설정을 확인해주세요! 🔑"
  const RateLimitReply := "잠시 너무 많은 요청을 보냈어요. 조금 기다렸다가 다시 시도해주세요! ⏰"
  const ServerErrorReply := "서버에 문제가 생겼어요. 잠시 후 다시 시도해주세요! 🔧"
  const GenericErrorReply := "앗, 뭔가 문제가 생겼어요! 다시 시도해주세요! 😅"

  /** The text of the error thrown for a non-OK HTTP status is this prefix and the status. */
  const StatusErrorPrefix := "GPT API 오류: "

  const PersonaHead := "당신은 '꿈돌이'라는 친근하고 호기심 많은 AI 캐릭터입니다. \n현재 "
  const PersonaTail := "에서 사용자와 대화하고 있습니다.\n\n캐릭터 설정:\n- 밝고 활발한 성격, 항상 긍정적\n- 루미나 셀 실험을 성공시키고 싶어함\n- 사용자를 실험 파트너로 생각하고 신뢰함\n- 친근하고 존댓말 사용, 때로는 반말도 섞어서 사용\n- 과학에 대한 열정이 넘침\n\n루미나 셀 설정:\n- 빛 에너지를 저장하고 방출하는 혁신적인 기술\n- 태양광보다 10배 효율적이지만 아직 불안정\n- 온도 제어가 핵심 과제 (열로 인한 셀 손상 문제)\n- QR코드 스캔을 통해 실험 기록 수집 가능\n- 550nm 녹색 빛이 정상, 650nm 붉은 빛은 변이 현상\n\n대화 스타일:\n- 150-250자 내외로 답변\n- 사용자의 질문에 직접적이고 친근하게 응답\n- 과학적 내용을 쉽고 재미있게 설명\n- 다음 행동을 유도하는 질문이나 제안 포함\n- 박물관/과학관 맥락에 맞는 교육적 내용\n- 때로는 꿈돌이의 개성(호기심, 열정, 약간의 서툴러움) 드러내기\n\n금지사항:\n- 너무 길거나 복잡한 설명 금지\n- 딱딱한 과학 용어 남발 금지\n- 부정적이거나 절망적인 표현 금지"

  /** The character's system prompt, naming the place the conversation happens at. */
  function SystemPrompt(destination: string): (r: string)
    ensures |r| == |PersonaHead| + |destination| + |PersonaTail|
    ensures r[|PersonaHead|..|PersonaHead| + |destination|] == destination
  {
    PersonaHead + destination + PersonaTail
  }

  function RoleOf(isUser: bool): Role {
    if isUser then User else Assistant
  }

  /** `createConversationHistory`: the last `min(8, n)` turns, oldest first, each as a
      user message when the user wrote it and an assistant message otherwise, with the
      turn's text verbatim. */
  function CreateConversationHistory(messages: seq<HistoryItem>): (r: seq<GptMessage>)
    ensures |r| == if |messages| < HistoryLimit then |messages| else HistoryLimit
    ensures forall i :: 0 <= i < |r| ==>
              r[i].role == (if messages[|messages| - |r| + i].isUser then User else Assistant) &&
              r[i].content == messages[|messages| - |r| + i].text
    ensures forall i :: 0 <= i < |r| ==> r[i].role != System
  {
    var recent := if |messages| <= HistoryLimit then messages else messages[|messages| - HistoryLimit..];
    seq(|recent|, i requires 0 <= i < |recent| => GptMessage(RoleOf(recent[i].isUser), recent[i].text))
  }

  /** One more turn slides the history window by one: it enters at the end, and once the
      window is full the oldest entry drops out. */
  lemma HistoryAppend(messages: seq<HistoryItem>, m: HistoryItem)
    ensures CreateConversationHistory(messages + [m]) ==
            (if |messages| >= HistoryLimit then CreateConversationHistory(messages)[1..]
             else CreateConversationHistory(messages)) + [GptMessage(RoleOf(m.isUser), m.text)]
  {
    var before := CreateConversationHistory(messages);
    var after := CreateConversationHistory(messages + [m]);
    var expected := (if |messages| >= HistoryLimit then before[1..] else before) + [GptMessage(RoleOf(m.isUser), m.text)];
    assert |after| == |expected|;
    forall i | 0 <= i < |after| ensures after[i] == expected[i] {
      var ms := messages + [m];
      assert after[i].content == ms[|ms| - |after| + i].text;
    }
  }

  /** The request body's message list: the system prompt, then the history unchanged,
      then the new user message. */
  function BuildMessages(destination: string, history: seq<GptMessage>, userMessage: string): (r: seq<GptMessage>)
    ensures |r| == |history| + 2
    ensures r[0] == GptMessage(System, SystemPrompt(destination))
    ensures r[1..|r| - 1] == history
    ensures r[|r| - 1] == GptMessage(User, userMessage)
  {
    [GptMessage(System, SystemPrompt(destination))] + history + [GptMessage(User, userMessage)]
  }

  /** `getErrorMessage`: the first of "401", "429", "500" found in the error's message
      decides the reply; none of them gives the generic one. */
  function ErrorMessage(message: string): (r: string)
    ensures r == KeyInvalidReply <==> Includes(message, "401")
    ensures r == RateLimitReply <==> !Includes(message, "401") && Includes(message, "429")
    ensures r == ServerErrorReply <==>
              !Includes(message, "401") && !Includes(message, "429") && Includes(message, "500")
    ensures r == GenericErrorReply <==>
              !Includes(message, "401") && !Includes(message, "429") && !Includes(message, "500")
  {
    if Includes(message, "401") then KeyInvalidReply
    else if Includes(message, "429") then RateLimitReply
    else if Includes(message, "500") then ServerErrorReply
    else GenericErrorReply
  }

  /** `response.ok`. */
  predicate IsOk(status: nat) {
    200 <= status <= 299
  }

  /** What the request produced. `Failed` is a rejected `fetch` or `response.json()`
      (including a body without `choices`), with the error's message; `Responded` is a
      parsed response, `content` being `data.choices[0]?.message?.content`. */
  datatype FetchOutcome =
    | Failed(message: string)
    | Responded(status: nat, content: Option<string>)

  /** The reply `chat` returns once the request has been sent. */
  function ReplyFor(fetched: FetchOutcome): string {
    match fetched
    case Failed(message) => ErrorMessage(message)
    case Responded(status, content) =>
      if !IsOk(status) then ErrorMessage(StatusErrorPrefix + Decimal(status))
      else if content.Some? && content.value != "" then content.value
      else ApologyReply
  }

  /** The reply is never empty: it is the service's non-empty text or a fixed message. */
  lemma ReplyNonEmpty(fetched: FetchOutcome)
    ensures ReplyFor(fetched) != ""
  {
  }

  /** An OK response with content returns that content verbatim; an OK response
      with no or empty content returns the apology. */
  lemma OkReply(status: nat, content: Option<string>)
    requires IsOk(status)
    ensures content.Some? && content.value != "" ==> ReplyFor(Responded(status, content)) == content.value
    ensures content.None? || content.value == "" ==> ReplyFor(Responded(status, content)) == ApologyReply
  {
  }

  lemma StatusIncludes(status: nat, code: nat)
    requires 100 <= status < 1000 && 100 <= code < 1000
    ensures Includes(StatusErrorPrefix + Decimal(status), Decimal(code)) <==> status == code
  {
    DecimalThreeDigits(status);
    DecimalThreeDigits(code);
    IncludesAfterDigitFreePrefix(StatusErrorPrefix, Decimal(status), Decimal(code));
    DecimalInjectiveThreeDigits(status, code);
  }

  /** For an HTTP error status the classifier answers by the status alone: 401 is the
      key message, 429 the rate-limit message, 500 the server message and every other
      status the generic one. */
  lemma StatusErrorClassification(status: nat, content: Option<string>)
    requires 100 <= status < 600 && !IsOk(status)
    ensures ReplyFor(Responded(status, content)) == KeyInvalidReply <==> status == 401
    ensures ReplyFor(Responded(status, content)) == RateLimitReply <==> status == 429
    ensures ReplyFor(Responded(status, content)) == ServerErrorReply <==> status == 500
    ensures ReplyFor(Responded(status, content)) == GenericErrorReply <==> status != 401 && status != 429 && status != 500
  {
    assert Decimal(401) == "401" && Decimal(429) == "429" && Decimal(500) == "500";
    StatusIncludes(status, 401);
    StatusIncludes(status, 429);
    StatusIncludes(status, 500);
  }

  /** What a call of `chat` does: it throws, or it returns a reply after sending `request`. */
  datatype ChatOutcome =
    | Threw(message: string)
    | Returned(request: seq<GptMessage>, text: string)

  /** The service object; its key is read once from the environment and never changes. */
  datatype GptService = GptService(apiKey: string) {

    /** The constructor: `import.meta.env.VITE_OPENAI_API_KEY || ""`. */
    static function FromEnvironment(env: Option<string>): (s: GptService)
      ensures env.Some? ==> s.apiKey == env.value
      ensures env.None? ==> s.apiKey == ""
    {
      GptService(env.GetOr(""))
    }

    /** `isApiKeyValid`. */
    function IsApiKeyValid(): (r: bool)
      ensures r <==> apiKey != ""
    {
      apiKey != "" && |apiKey| > 0
    }

    /** `chat`: without a key it throws before building any request; with a key it
        builds the message list, and every failure after that is caught and becomes a
        returned message, so nothing propagates. */
    function Chat(userMessage: string, destination: string, history: seq<GptMessage>,
                  fetched: FetchOutcome): (r: ChatOutcome)
      ensures r.Threw? <==> !IsApiKeyValid()
      ensures r.Threw? ==> r.message == MissingKeyMessage
      ensures r.Returned? ==> r.request == BuildMessages(destination, history, userMessage)
      ensures r.Returned? ==> r.text == ReplyFor(fetched) && r.text != ""
    {
      if apiKey == "" then Threw(MissingKeyMessage)
      else Returned(BuildMessages(destination, history, userMessage), ReplyFor(fetched))
    }
  }
}
