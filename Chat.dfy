/** The chat loop of main.py as values: the turn records it stores, the helpers
    `get_turn_id`, `parse_ai_response` and `index_chat`, the token gate, and one
    iteration of `chat_open` as a transition on the program's state
    (`chat_history`, `chat_index`, `turn_id`, `chat_input`) together with the
    menu mode the loop runs in. */
module Chat {
  import opened Wrappers
  import ChatId
  import ConversationHistory

  type ApiMessage = ConversationHistory.ApiMessage

  /** Length of the title prefix taken by `index_chat`. */
  const TitleLength: nat := 30

  /** The `"usage"` record of an AI turn. */
  datatype Usage = Usage(inputTokens: int, outputTokens: int, totalTokens: int)

  /** One `chat_history` record as main.py writes it.  A user record has role
      "user", status "completed" and type "text"; an AI record copies the reply's
      message role, status and type and carries `"usage"`.  Both keep their text
      under `"content"`/`"text"`. */
  datatype Turn =
    | UserTurn(text: string, turnId: int, status: string, timestamp: int, kind: string)
    | AssistantTurn(role: string, text: string, status: string, kind: string, timestamp: int,
                    responseId: string, model: string, usage: Usage, turnId: int)

  function Role(t: Turn): string
  {
    if t.UserTurn? then "user" else t.role
  }

  /** One `chat_index` record. */
  datatype IndexEntry = IndexEntry(id: string, title: string, timeCreated: int)

  /** The collaborator's reply: `response.output` with the fields read from it.  An
      output item is a message (with `.role`, `.status`, `.type`, `.content`) or
      some other item without those attributes; the reply's `.usage` may be absent. */
  datatype ContentItem = OutputText(text: string) | OtherContent(kind: string)
  datatype OutputMessage =
    | OutputMessage(role: string, status: string, kind: string, content: seq<ContentItem>)
    | OtherOutput(itemKind: string)
  datatype Response = Response(output: seq<OutputMessage>, createdAt: int, id: string, model: string, usage: Option<Usage>)

  /** Exceptions raised after the user turn is stored: an empty list indexed at 0,
      a content item without `.text`, a failing API call. */
  datatype Error = IndexError | AttributeError | ApiError

  /** Where the program is: in the top-level menu, inside `chat_open`, or stopped
      by an uncaught exception. */
  datatype Mode = Menu | Chatting | Stopped

  /** The program's state. */
  datatype Session = Session(history: seq<Turn>, index: seq<IndexEntry>, turnId: int,
                             chatInput: seq<ApiMessage>, mode: Mode)

  /** How one iteration of the loop ends. */
  datatype Outcome = Quit | OverBudget | Replied | Crashed(error: Error)

  datatype StepResult = StepResult(after: Session, outcome: Outcome)

  /** The state after the module-level load: the stored history, an empty index
      (main.py never reads `chat_index.json` back), counter 0, in the menu. */
  function Initial(loaded: seq<Turn>): Session
  {
    Session(loaded, [], 0, [], Menu)
  }

  /** `get_turn_id`: the last record's `turn_id`, or 0 for an empty history. */
  function GetTurnId(history: seq<Turn>): int
  {
    if |history| > 0 then history[|history| - 1].turnId else 0
  }

  /** `str.lower` on the characters that matter for the quit test (A-Z). */
  function LowerAscii(s: string): (r: string)
    ensures |r| == |s|
  {
    seq(|s|, i requires 0 <= i < |s| => if 'A' <= s[i] <= 'Z' then (s[i] as int + 32) as char else s[i])
  }

  /** `new_input.lower() in ["/q", "/quit"]` */
  predicate IsQuit(line: string)
  {
    LowerAscii(line) == "/q" || LowerAscii(line) == "/quit"
  }

  /** The quit test on every line: a slash followed by "q" or by "quit", each
      letter in either case, and nothing else. */
  lemma IsQuitExactly(line: string)
    ensures IsQuit(line) <==>
      || (|line| == 2 && line[0] == '/' && line[1] in "qQ")
      || (|line| == 5 && line[0] == '/' && line[1] in "qQ" && line[2] in "uU" && line[3] in "iI" && line[4] in "tT")
  {
    var l := LowerAscii(line);
    if |line| == 2 {
      assert l == "/q" <==> l[0] == '/' && l[1] == 'q';
    } else if |line| == 5 {
      assert l == "/quit" <==> l[0] == '/' && l[1] == 'q' && l[2] == 'u' && l[3] == 'i' && l[4] == 't';
    } else {
      assert |l| != 2 && |l| != 5;
    }
  }

  /** `token_sum`: the last record's total tokens plus a quarter of the input's length
      when the last record has `"usage"`, otherwise the input's bare length. */
  function TokenSum(history: seq<Turn>, line: string): real
  {
    if |history| > 0 && history[|history| - 1].AssistantTurn? then
      history[|history| - 1].usage.totalTokens as real + (|line| as real) / 4.0
    else
      |line| as real
  }

  /** Four times `token_sum`, in integers. */
  function ScaledTokenSum(history: seq<Turn>, line: string): int
  {
    if |history| > 0 && history[|history| - 1].AssistantTurn? then
      4 * history[|history| - 1].usage.totalTokens + |line|
    else
      4 * |line|
  }

  /** The gate `token_sum < MAX_CONTEXT_TOKENS`. */
  predicate WithinBudget(history: seq<Turn>, line: string)
  {
    TokenSum(history, line) < ConversationHistory.MaxContextTokens as real
  }

  /** The gate compares four times the estimate with 800000, in integers. */
  lemma WithinBudgetScaled(history: seq<Turn>, line: string)
    ensures TokenSum(history, line) * 4.0 == ScaledTokenSum(history, line) as real
    ensures WithinBudget(history, line) <==> ScaledTokenSum(history, line) < 4 * ConversationHistory.MaxContextTokens
  {
  }

  /** The estimate looks only at the last record: `"usage"` there is carried, any
      earlier usage is ignored, a user record (or no record) last means the bare
      length; and a longer line never lowers it. */
  lemma TokenSumLastRecordOnly(history: seq<Turn>, line: string, more: string)
    ensures |history| > 0 ==> TokenSum(history, line) == TokenSum([history[|history| - 1]], line)
    ensures (|history| == 0 || history[|history| - 1].UserTurn?) ==> TokenSum(history, line) == |line| as real
    ensures TokenSum(history, line) <= TokenSum(history, line + more)
  {
  }

  /** The title `index_chat` stores: `text[:30]`. */
  function Title(text: string): (title: string)
    ensures |title| <= TitleLength
    ensures title <= text
    ensures |text| <= TitleLength ==> title == text
    ensures |text| > TitleLength ==> |title| == TitleLength
  {
    if |text| <= TitleLength then text else text[..TitleLength]
  }

  /** `index_chat`: a fresh three-word id, the first record's text cut to 30
      characters and the first record's timestamp. */
  function IndexChat(history: seq<Turn>, draws: ChatId.IdDraws): IndexEntry
    requires |history| > 0
  {
    IndexEntry(ChatId.GenerateChatId(3, 4, draws), Title(history[0].text), history[0].timestamp)
  }

  /** The entry `index_chat` makes: a 14-character id of three dash-separated
      words, a title that is a prefix of the first record's text of at most 30
      characters (exactly 30 when the text is that long), and the first record's
      timestamp. */
  lemma IndexChatEntry(history: seq<Turn>, draws: ChatId.IdDraws)
    requires |history| > 0
    ensures var entry := IndexChat(history, draws);
      && |entry.id| == 14 && entry.id[4] == '-' && entry.id[9] == '-'
      && entry.title <= history[0].text && |entry.title| <= TitleLength
      && (|history[0].text| >= TitleLength ==> |entry.title| == TitleLength)
      && entry.timeCreated == history[0].timestamp
  {
    ChatId.IndexChatIdShape(draws);
  }

  /** The comprehension that builds `chat_input`. */
  function ChatInput(history: seq<Turn>): seq<ApiMessage>
  {
    if |history| == 0 then []
    else
      var last := history[|history| - 1];
      ChatInput(history[..|history| - 1]) + [ConversationHistory.ApiMessage(Role(last), last.text)]
  }

  /** `chat_input` has one message per record, in order, with the record's role and text. */
  lemma {:induction false} ChatInputMirrors(history: seq<Turn>)
    ensures |ChatInput(history)| == |history|
    ensures forall i :: 0 <= i < |history| ==>
      ChatInput(history)[i].role == Role(history[i]) && ChatInput(history)[i].content == history[i].text
    decreases |history|
  {
    if |history| > 0 {
      var front := history[..|history| - 1];
      ChatInputMirrors(front);
      assert forall i :: 0 <= i < |front| ==> front[i] == history[i];
    }
  }

  /** Appending a record appends its message. */
  lemma ChatInputAppend(history: seq<Turn>, t: Turn)
    ensures ChatInput(history + [t]) == ChatInput(history) + [ConversationHistory.ApiMessage(Role(t), t.text)]
  {
    assert (history + [t])[..|history|] == history;
  }

  /** `parse_ai_response`: the text of the first content item; IndexError when there
      is none, AttributeError when it is not a text item. */
  function ParseAiResponse(message: OutputMessage): (r: Result<string, Error>)
    ensures r.Success? <==> message.OutputMessage? && |message.content| > 0 && message.content[0].OutputText?
    ensures r.Success? ==> r.value == message.content[0].text
    ensures message.OtherOutput? ==> r == Failure(AttributeError)
    ensures message.OutputMessage? && |message.content| == 0 ==> r == Failure(IndexError)
    ensures message.OutputMessage? && |message.content| > 0 && message.content[0].OtherContent? ==>
      r == Failure(AttributeError)
  {
    if message.OtherOutput? then Failure(AttributeError)
    else if |message.content| == 0 then Failure(IndexError)
    else
      match message.content[0]
      case OutputText(text) => Success(text)
      case OtherContent(_) => Failure(AttributeError)
  }

  /** `ai_output`, built from `response.output[0]` and the parsed text, under the
      user turn's id; reading `response.usage` fails when the reply has none. */
  function AssistantTurnFrom(response: Response, turnId: int): (r: Result<Turn, Error>)
    ensures |response.output| == 0 ==> r == Failure(IndexError)
    ensures |response.output| > 0 ==>
      (r.Success? <==> ParseAiResponse(response.output[0]).Success? && response.usage.Some?)
    ensures |response.output| > 0 && ParseAiResponse(response.output[0]).Failure? ==>
      r == Failure(ParseAiResponse(response.output[0]).error)
    ensures |response.output| > 0 && ParseAiResponse(response.output[0]).Success? && response.usage.None? ==>
      r == Failure(AttributeError)
    ensures r.Success? ==> var m := response.output[0];
      && r.value.AssistantTurn?
      && r.value.text == m.content[0].text
      && r.value.role == m.role && r.value.status == m.status && r.value.kind == m.kind
      && r.value.timestamp == response.createdAt && r.value.responseId == response.id
      && r.value.model == response.model && response.usage == Some(r.value.usage)
      && r.value.turnId == turnId
  {
    if |response.output| == 0 then Failure(IndexError)
    else
      var message := response.output[0];
      match ParseAiResponse(message)
      case Failure(e) => Failure(e)
      case Success(text) =>
        match response.usage
        case None => Failure(AttributeError)
        case Some(usage) =>
          Success(AssistantTurn(message.role, text, message.status, message.kind, response.createdAt,
                                response.id, response.model, usage, turnId))
  }

  /** Entering `chat_open`: `turn_id = get_turn_id()`. */
  function OpenChat(s: Session): Session
    requires s.mode == Menu
  {
    s.(turnId := GetTurnId(s.history), mode := Chatting)
  }

  /** The user record an iteration stores for `line`. */
  function UserRecord(line: string, turnId: int, now: int): Turn
  {
    UserTurn(line, turnId, "completed", now, "text")
  }

  /** The first half of an iteration that does not quit, once the counter has been
      advanced: the user record appended under the counter, the index entry made on
      a first record, and `chat_input` rebuilt from the new history. */
  function StoreUserTurn(s: Session, line: string, now: int, draws: ChatId.IdDraws): Session
  {
    var history := s.history + [UserRecord(line, s.turnId, now)];
    var index := if |history| <= 1 then s.index + [IndexChat(history, draws)] else s.index;
    s.(history := history, index := index, chatInput := ChatInput(history))
  }

  /** The second half of an iteration: past the gate (`sendable`), the reply is
      parsed and its AI turn appended under the counter; an exception stops the
      program with the user record already stored. */
  function Respond(stored: Session, sendable: bool, reply: Option<Response>): StepResult
  {
    if !sendable then StepResult(stored, OverBudget)
    else
      match reply
      case None => StepResult(stored.(mode := Stopped), Crashed(ApiError))
      case Some(response) =>
        match AssistantTurnFrom(response, stored.turnId)
        case Failure(e) => StepResult(stored.(mode := Stopped), Crashed(e))
        case Success(turn) => StepResult(stored.(history := stored.history + [turn]), Replied)
  }

  /** One iteration of the `while True` loop in `chat_open`, for the typed `line`,
      the clock reading `now`, the letters drawn for a new chat id, and the
      collaborator's reply (None when the call raises). */
  function ChatStep(s: Session, line: string, now: int, draws: ChatId.IdDraws, reply: Option<Response>): StepResult
    requires s.mode == Chatting
  {
    if IsQuit(line) then StepResult(s.(turnId := s.turnId + 1, mode := Menu), Quit)
    else Respond(StoreUserTurn(s.(turnId := s.turnId + 1), line, now, draws), WithinBudget(s.history, line), reply)
  }

  /** What the program reads from its user: choosing "1" in the menu, or one line
      inside the chat (with the clock, the random draws and the reply it meets). */
  datatype Event =
    | OpenChatChoice
    | ChatLine(line: string, now: int, draws: ChatId.IdDraws, reply: Option<Response>)

  /** An event in the mode that handles it runs that handler; in the menu a line
      other than "1" changes no state, and a stopped program reads nothing. */
  function Apply(s: Session, e: Event): Session
  {
    match e
    case OpenChatChoice => if s.mode == Menu then OpenChat(s) else s
    case ChatLine(line, now, draws, reply) =>
      if s.mode == Chatting then ChatStep(s, line, now, draws, reply).after else s
  }

  function Run(s: Session, events: seq<Event>): Session
    decreases |events|
  {
    if |events| == 0 then s else Run(Apply(s, events[0]), events[1..])
  }

  // ---------------------------------------------------------------------------
  // One iteration

  /** A quit line ends the loop: history and index are untouched. */
  lemma QuitLeavesStore(s: Session, line: string, now: int, draws: ChatId.IdDraws, reply: Option<Response>)
    requires s.mode == Chatting && IsQuit(line)
    ensures var r := ChatStep(s, line, now, draws, reply);
      r.outcome == Quit && r.after.history == s.history && r.after.index == s.index && r.after.mode == Menu
  {
  }

  /** "/q" and "/quit" end the chat in any letter case; nothing else does. */
  lemma QuitSentinels()
    ensures IsQuit("/q") && IsQuit("/Q") && IsQuit("/quit") && IsQuit("/QUIT") && IsQuit("/QuIt")
    ensures !IsQuit("q") && !IsQuit("/q ") && !IsQuit("quit") && !IsQuit("")
  {
    assert LowerAscii("/Q") == "/q";
    assert LowerAscii("/QUIT") == "/quit";
    assert LowerAscii("/QuIt") == "/quit";
    assert LowerAscii("/q") == "/q";
    assert LowerAscii("/quit") == "/quit";
    assert LowerAscii("q")[0] == 'q';
    assert LowerAscii("quit")[0] == 'q';
  }

  /** The reply half keeps what was stored, except that a good reply appends the AI
      turn and a raised exception stops the program. */
  lemma RespondKeepsStored(stored: Session, sendable: bool, reply: Option<Response>)
    ensures var r := Respond(stored, sendable, reply);
      && r.after.index == stored.index
      && r.after.chatInput == stored.chatInput
      && r.after.turnId == stored.turnId
      && (r.outcome == OverBudget <==> !sendable)
      && (r.outcome == OverBudget ==> r.after == stored)
      && (r.outcome.Crashed? ==> r.after == stored.(mode := Stopped))
      && (r.outcome == Replied <==>
            sendable && reply.Some? && AssistantTurnFrom(reply.value, stored.turnId).Success?)
      && (r.outcome == Replied ==>
            r.after == stored.(history := stored.history + [AssistantTurnFrom(reply.value, stored.turnId).value]))
      && (r.outcome != Replied ==> r.after.history == stored.history)
      && r.outcome != Quit
  {
  }

  /** An iteration that does not quit is `Respond` after `StoreUserTurn`, which
      appends the user record numbered one past the counter. */
  lemma StepAfterStore(s: Session, line: string, now: int, draws: ChatId.IdDraws, reply: Option<Response>)
    requires s.mode == Chatting && !IsQuit(line)
    ensures var stored := StoreUserTurn(s.(turnId := s.turnId + 1), line, now, draws);
      && ChatStep(s, line, now, draws, reply) == Respond(stored, WithinBudget(s.history, line), reply)
      && stored.history == s.history + [UserRecord(line, s.turnId + 1, now)]
      && stored.turnId == s.turnId + 1
      && stored.mode == Chatting
  {
  }

  /** Any other line is stored as a user turn numbered one past the counter, after
      the old history, which stays an unchanged prefix. */
  lemma UserTurnStored(s: Session, line: string, now: int, draws: ChatId.IdDraws, reply: Option<Response>)
    requires s.mode == Chatting && !IsQuit(line)
    ensures var r := ChatStep(s, line, now, draws, reply);
      && r.outcome != Quit
      && r.after.turnId == s.turnId + 1
      && |r.after.history| > |s.history|
      && r.after.history[..|s.history| + 1] == s.history + [UserRecord(line, s.turnId + 1, now)]
      && s.history <= r.after.history
  {
    StepAfterStore(s, line, now, draws, reply);
    RespondKeepsStored(StoreUserTurn(s.(turnId := s.turnId + 1), line, now, draws), WithinBudget(s.history, line), reply);
    var h := ChatStep(s, line, now, draws, reply).after.history;
    var stored := s.history + [UserRecord(line, s.turnId + 1, now)];
    assert stored <= h;
    assert h[..|stored|] == stored;
  }

  /** The budget gate: over the ceiling the user turn alone is added; under it the
      collaborator is asked and, on a good reply, user and AI turns are added. */
  lemma BudgetGate(s: Session, line: string, now: int, draws: ChatId.IdDraws, reply: Option<Response>)
    requires s.mode == Chatting && !IsQuit(line)
    ensures var r := ChatStep(s, line, now, draws, reply);
      && (r.outcome == OverBudget <==> !WithinBudget(s.history, line))
      && (r.outcome == OverBudget ==> |r.after.history| == |s.history| + 1 && r.after.mode == Chatting)
      && (r.outcome == Replied ==> |r.after.history| == |s.history| + 2 && r.after.mode == Chatting)
      && (r.outcome.Crashed? ==> |r.after.history| == |s.history| + 1 && r.after.mode == Stopped)
      && ((WithinBudget(s.history, line) && reply.Some? && AssistantTurnFrom(reply.value, s.turnId + 1).Success?)
            <==> r.outcome == Replied)
  {
    StepAfterStore(s, line, now, draws, reply);
    RespondKeepsStored(StoreUserTurn(s.(turnId := s.turnId + 1), line, now, draws), WithinBudget(s.history, line), reply);
  }

  /** The AI turn added on a good reply: the reply's first content text, its usage
      and the same `turn_id` as the user turn just before it. */
  lemma ReplyBecomesAssistantTurn(s: Session, line: string, now: int, draws: ChatId.IdDraws, reply: Option<Response>)
    requires s.mode == Chatting
    requires ChatStep(s, line, now, draws, reply).outcome == Replied
    ensures var h := ChatStep(s, line, now, draws, reply).after.history;
      && reply.Some? && |reply.value.output| > 0
      && reply.value.output[0].OutputMessage? && |reply.value.output[0].content| > 0
      && |h| >= 2
      && var ai := h[|h| - 1];
      && ai.AssistantTurn?
      && ai.text == reply.value.output[0].content[0].text
      && reply.value.usage == Some(ai.usage)
      && ai.role == reply.value.output[0].role
      && ai.timestamp == reply.value.createdAt
      && h[|h| - 2] == UserRecord(line, s.turnId + 1, now)
      && ai.turnId == h[|h| - 2].turnId
  {
    StepAfterStore(s, line, now, draws, reply);
    RespondKeepsStored(StoreUserTurn(s.(turnId := s.turnId + 1), line, now, draws), WithinBudget(s.history, line), reply);
  }

  /** A reply whose text parses but that carries no `usage` raises AttributeError
      while `ai_output` is built: the program stops with the user record stored and
      no AI record. */
  lemma MissingUsageCrashes(s: Session, line: string, now: int, draws: ChatId.IdDraws, response: Response)
    requires s.mode == Chatting && !IsQuit(line) && WithinBudget(s.history, line)
    requires |response.output| > 0 && ParseAiResponse(response.output[0]).Success?
    requires response.usage.None?
    ensures var r := ChatStep(s, line, now, draws, Some(response));
      && r.outcome == Crashed(AttributeError)
      && r.after.mode == Stopped
      && r.after.history == s.history + [UserRecord(line, s.turnId + 1, now)]
  {
    StepAfterStore(s, line, now, draws, Some(response));
    RespondKeepsStored(StoreUserTurn(s.(turnId := s.turnId + 1), line, now, draws), WithinBudget(s.history, line), Some(response));
  }

  /** An index entry is added exactly when the user turn is the history's first
      record; it is titled and dated from that record. */
  lemma IndexOnFirstTurn(s: Session, line: string, now: int, draws: ChatId.IdDraws, reply: Option<Response>)
    requires s.mode == Chatting && !IsQuit(line)
    ensures var r := ChatStep(s, line, now, draws, reply);
      && (|s.history| == 0 ==> r.after.index == s.index + [IndexChat([UserRecord(line, s.turnId + 1, now)], draws)])
      && (|s.history| == 0 ==>
            r.after.index[|s.index|].title == Title(line) && r.after.index[|s.index|].timeCreated == now)
      && (|s.history| > 0 ==> r.after.index == s.index)
  {
    StepAfterStore(s, line, now, draws, reply);
    RespondKeepsStored(StoreUserTurn(s.(turnId := s.turnId + 1), line, now, draws), WithinBudget(s.history, line), reply);
    if |s.history| == 0 {
      assert s.history + [UserRecord(line, s.turnId + 1, now)] == [UserRecord(line, s.turnId + 1, now)];
    }
  }

  /** The outbound list is built after the user turn is stored, is never affected by
      the reply, and mirrors the stored history record by record. */
  lemma OutboundList(s: Session, line: string, now: int, draws: ChatId.IdDraws, reply: Option<Response>)
    requires s.mode == Chatting && !IsQuit(line)
    ensures var r := ChatStep(s, line, now, draws, reply);
      var stored := s.history + [UserRecord(line, s.turnId + 1, now)];
      && r.after.chatInput == ChatInput(stored)
      && |r.after.chatInput| == |stored|
      && (forall i :: 0 <= i < |stored| ==>
            r.after.chatInput[i].role == Role(stored[i]) && r.after.chatInput[i].content == stored[i].text)
      && r.after.chatInput == ChatInput(s.history) + [ConversationHistory.ApiMessage("user", line)]
  {
    StepAfterStore(s, line, now, draws, reply);
    RespondKeepsStored(StoreUserTurn(s.(turnId := s.turnId + 1), line, now, draws), WithinBudget(s.history, line), reply);
    var stored := s.history + [UserRecord(line, s.turnId + 1, now)];
    ChatInputMirrors(stored);
    ChatInputAppend(s.history, UserRecord(line, s.turnId + 1, now));
  }

  // ---------------------------------------------------------------------------
  // The token estimate, case by case

  /** On a first turn the estimate is the raw length: "hello" counts 5. */
  lemma FirstTurnEstimate()
    ensures TokenSum([], "hello") == 5.0
  {
  }

  /** After an AI turn reporting 120 tokens, a 40-character line is estimated at
      120 + 40 / 4 = 130. */
  lemma CarriedEstimate(history: seq<Turn>, line: string)
    requires |history| > 0 && history[|history| - 1].AssistantTurn?
    requires history[|history| - 1].usage.totalTokens == 120 && |line| == 40
    ensures TokenSum(history, line) == 130.0
  {
  }

  /** A rejected turn leaves a user record last, so the next estimate falls back to
      the raw length of the next line and ignores every earlier usage count. */
  lemma EstimateAfterRejection(s: Session, line: string, now: int, draws: ChatId.IdDraws, reply: Option<Response>, next: string)
    requires s.mode == Chatting && !IsQuit(line)
    requires ChatStep(s, line, now, draws, reply).outcome == OverBudget
    ensures TokenSum(ChatStep(s, line, now, draws, reply).after.history, next) == |next| as real
  {
    StepAfterStore(s, line, now, draws, reply);
    RespondKeepsStored(StoreUserTurn(s.(turnId := s.turnId + 1), line, now, draws), WithinBudget(s.history, line), reply);
  }

  /** The undivided first-turn estimate: a 200000-character line is refused on a
      fresh history but sent after an AI turn that reported no tokens. */
  lemma FirstTurnNotDivided(line: string, ai: Turn)
    requires |line| == 200000
    requires ai.AssistantTurn? && ai.usage.totalTokens == 0
    ensures !WithinBudget([], line)
    ensures WithinBudget([ai], line)
  {
  }

  // ---------------------------------------------------------------------------
  // The store across iterations

  /** Turn ids as main.py assigns them from an empty history: the first record is a
      user turn numbered 1, each later user turn is one past the record before it,
      and each AI turn repeats the id of the record before it. */
  ghost predicate NumberedHistory(h: seq<Turn>)
  {
    && (|h| > 0 ==> h[0].UserTurn? && h[0].turnId == 1)
    && forall i :: 0 < i < |h| ==>
         h[i].turnId == h[i - 1].turnId + (if h[i].UserTurn? then 1 else 0)
  }

  /** Every AI turn directly answers a user turn. */
  ghost predicate RepliesFollowUsers(h: seq<Turn>)
  {
    forall i :: 0 < i < |h| && h[i].AssistantTurn? ==> h[i - 1].UserTurn?
  }

  /** The index holds at most the one entry made for the first record, titled and
      dated from it. */
  ghost predicate IndexCoherent(s: Session)
  {
    && |s.index| <= 1
    && (|s.history| == 0 ==> s.index == [])
    && (|s.index| == 1 ==>
          s.index[0].title == Title(s.history[0].text) && s.index[0].timeCreated == s.history[0].timestamp)
  }

  ghost predicate Inv(s: Session)
  {
    && NumberedHistory(s.history)
    && RepliesFollowUsers(s.history)
    && IndexCoherent(s)
    && (s.mode == Chatting ==> s.turnId == GetTurnId(s.history))
  }

  /** The number of user records in a history. */
  function UserTurnCount(h: seq<Turn>): nat
  {
    if |h| == 0 then 0 else UserTurnCount(h[..|h| - 1]) + (if h[|h| - 1].UserTurn? then 1 else 0)
  }

  /** On a history numbered as main.py numbers it, `get_turn_id()` is the number of
      user turns so far. */
  lemma {:induction false} GetTurnIdCountsUserTurns(h: seq<Turn>)
    requires NumberedHistory(h)
    ensures GetTurnId(h) == UserTurnCount(h)
    decreases |h|
  {
    if |h| > 0 {
      var front := h[..|h| - 1];
      assert forall i :: 0 <= i < |front| ==> front[i] == h[i];
      assert NumberedHistory(front);
      GetTurnIdCountsUserTurns(front);
    }
  }

  lemma InitialInv(loaded: seq<Turn>)
    requires NumberedHistory(loaded) && RepliesFollowUsers(loaded)
    ensures Inv(Initial(loaded))
  {
  }

  /** Entering the chat resumes numbering one past the last stored record. */
  lemma OpenChatResumes(s: Session)
    requires s.mode == Menu && Inv(s)
    ensures Inv(OpenChat(s))
    ensures OpenChat(s).turnId == GetTurnId(s.history)
  {
  }

  lemma AppendUserNumbered(h: seq<Turn>, t: Turn)
    requires NumberedHistory(h) && RepliesFollowUsers(h)
    requires t.UserTurn? && t.turnId == GetTurnId(h) + 1
    ensures NumberedHistory(h + [t]) && RepliesFollowUsers(h + [t])
  {
    var h' := h + [t];
    assert forall i :: 0 <= i < |h| ==> h'[i] == h[i];
  }

  lemma StoreUserTurnIndex(s: Session, line: string, now: int, draws: ChatId.IdDraws)
    requires IndexCoherent(s)
    ensures IndexCoherent(StoreUserTurn(s, line, now, draws))
  {
    var t := StoreUserTurn(s, line, now, draws);
    var user := UserRecord(line, s.turnId, now);
    if |s.history| == 0 {
      assert t.history == [user];
      assert t.index == [IndexChat([user], draws)];
    } else {
      assert t.index == s.index;
      assert t.history[0] == s.history[0];
    }
  }

  lemma StoreUserTurnInv(s: Session, line: string, now: int, draws: ChatId.IdDraws)
    requires s.mode == Chatting && Inv(s)
    ensures Inv(StoreUserTurn(s.(turnId := s.turnId + 1), line, now, draws))
  {
    var user := UserRecord(line, s.turnId + 1, now);
    AppendUserNumbered(s.history, user);
    StoreUserTurnIndex(s.(turnId := s.turnId + 1), line, now, draws);
  }

  lemma AppendReplyInv(s: Session, ai: Turn)
    requires Inv(s) && s.mode == Chatting
    requires |s.history| > 0 && s.history[|s.history| - 1].UserTurn?
    requires ai.AssistantTurn? && ai.turnId == s.turnId
    ensures Inv(s.(history := s.history + [ai]))
  {
    var h := s.history + [ai];
    assert forall i :: 0 <= i < |s.history| ==> h[i] == s.history[i];
  }

  lemma ChatStepInv(s: Session, line: string, now: int, draws: ChatId.IdDraws, reply: Option<Response>)
    requires s.mode == Chatting && Inv(s)
    ensures Inv(ChatStep(s, line, now, draws, reply).after)
  {
    if !IsQuit(line) {
      StepAfterStore(s, line, now, draws, reply);
      RespondKeepsStored(StoreUserTurn(s.(turnId := s.turnId + 1), line, now, draws), WithinBudget(s.history, line), reply);
      var stored := StoreUserTurn(s.(turnId := s.turnId + 1), line, now, draws);
      StoreUserTurnInv(s, line, now, draws);
      var r := ChatStep(s, line, now, draws, reply);
      if r.outcome == Replied {
        AppendReplyInv(stored, AssistantTurnFrom(reply.value, s.turnId + 1).value);
      }
    }
  }

  /** While the chat runs, the counter equals `get_turn_id()` of the history after
      every iteration, so the next user turn is numbered one past the last record,
      and leaving and re-entering the chat continues the same numbering. */
  lemma TurnIdTracksHistory(s: Session, line: string, now: int, draws: ChatId.IdDraws, reply: Option<Response>)
    requires s.mode == Chatting && s.turnId == GetTurnId(s.history)
    ensures var t := ChatStep(s, line, now, draws, reply).after;
      && (t.mode == Chatting ==> t.turnId == GetTurnId(t.history) == GetTurnId(s.history) + 1)
      && (t.mode == Menu ==> OpenChat(t).turnId == GetTurnId(s.history))
  {
    if !IsQuit(line) {
      StepAfterStore(s, line, now, draws, reply);
      RespondKeepsStored(StoreUserTurn(s.(turnId := s.turnId + 1), line, now, draws), WithinBudget(s.history, line), reply);
    }
  }

  lemma ApplyInv(s: Session, e: Event)
    requires Inv(s)
    ensures Inv(Apply(s, e))
  {
    match e
    case OpenChatChoice =>
    case ChatLine(line, now, draws, reply) =>
      if s.mode == Chatting { ChatStepInv(s, line, now, draws, reply); }
  }

  /** Every run keeps the numbering, the alternation and the single index entry. */
  lemma {:induction false} RunInv(s: Session, events: seq<Event>)
    requires Inv(s)
    ensures Inv(Run(s, events))
    decreases |events|
  {
    if |events| > 0 {
      ApplyInv(s, events[0]);
      RunInv(Apply(s, events[0]), events[1..]);
    }
  }

  lemma ApplyAppendOnly(s: Session, e: Event)
    ensures s.history <= Apply(s, e).history
    ensures s.index <= Apply(s, e).index
    ensures |Apply(s, e).index| <= |s.index| + (if |s.history| == 0 then 1 else 0)
    ensures |s.history| > 0 ==> Apply(s, e).index == s.index
  {
    match e
    case OpenChatChoice =>
    case ChatLine(line, now, draws, reply) =>
      if s.mode == Chatting && !IsQuit(line) {
        UserTurnStored(s, line, now, draws, reply);
        IndexOnFirstTurn(s, line, now, draws, reply);
      }
  }

  /** History and index only ever grow at the end, and a whole run adds at most one
      index entry, none at all when it starts from a non-empty history. */
  lemma {:induction false} RunAppendOnly(s: Session, events: seq<Event>)
    ensures s.history <= Run(s, events).history
    ensures s.index <= Run(s, events).index
    ensures |Run(s, events).index| <= |s.index| + (if |s.history| == 0 then 1 else 0)
    decreases |events|
  {
    if |events| > 0 {
      var t := Apply(s, events[0]);
      ApplyAppendOnly(s, events[0]);
      RunAppendOnly(t, events[1..]);
      if |s.history| > 0 {
        assert |t.history| > 0;
      }
    }
  }
}
