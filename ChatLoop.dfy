/** The global state of main.py and the code that updates it in place: the
    module-level load, entering `chat_open`, and one pass of its loop.  Each
    method is proved to move the state exactly as the transition functions of
    module Chat say, so every lemma there applies to the running program. */
module ChatLoop {
  import opened Wrappers
  import opened Chat
  import ChatId
  import ConversationHistory

  class ChatApp {
    var chatHistory: seq<Turn>
    var chatIndex: seq<IndexEntry>
    var turnId: int
    var chatInput: seq<ConversationHistory.ApiMessage>
    var mode: Mode

    function State(): Session
      reads this
    {
      Session(chatHistory, chatIndex, turnId, chatInput, mode)
    }

    /** Start-up: the history read from `chat_history.json` (empty when the file is
        missing), everything else at its initial value. */
    constructor (loaded: seq<Turn>)
      ensures State() == Initial(loaded)
    {
      chatHistory := loaded;
      chatIndex := [];
      turnId := 0;
      chatInput := [];
      mode := Menu;
    }

    /** Menu choice "1": enter `chat_open`, which resumes the counter from the history. */
    method ChatOpen()
      requires mode == Menu
      modifies this
      ensures State() == OpenChat(old(State()))
    {
      turnId := if |chatHistory| > 0 then chatHistory[|chatHistory| - 1].turnId else 0;
      mode := Chatting;
    }

    /** Lines 180-201 of the loop: append the user record, index a first record,
        rebuild `chat_input`.  The saves are whole-file rewrites of this state
        and change nothing here. */
    method StoreUserLine(line: string, now: int, draws: ChatId.IdDraws)
      modifies this
      ensures chatHistory == old(chatHistory) + [UserRecord(line, turnId, now)]
      ensures chatIndex == if |old(chatHistory)| == 0 then old(chatIndex) + [IndexChat(chatHistory, draws)] else old(chatIndex)
      ensures chatInput == ChatInput(chatHistory)
      ensures turnId == old(turnId) && mode == old(mode)
    {
      chatHistory := chatHistory + [UserRecord(line, turnId, now)];
      if |chatHistory| <= 1 {
        chatIndex := chatIndex + [IndexChat(chatHistory, draws)];
      }
      chatInput := ChatInput(chatHistory);
    }

    /** Lines 203-238 of the loop: send the outbound list when the estimate is
        under the budget and append the AI record, or stop on an exception the
        loop does not catch. */
    method Reply(sendable: bool, reply: Option<Response>) returns (outcome: Outcome)
      modifies this
      ensures StepResult(State(), outcome) == Respond(old(State()), sendable, reply)
    {
      if !sendable {
        return OverBudget;
      }
      if reply.None? {
        mode := Stopped;
        return Crashed(ApiError);
      }
      var aiOutput := AssistantTurnFrom(reply.value, turnId);
      if aiOutput.Failure? {
        mode := Stopped;
        return Crashed(aiOutput.error);
      }
      chatHistory := chatHistory + [aiOutput.value];
      outcome := Replied;
    }

    /** One pass of the `while True` loop of `chat_open`. */
    method Iterate(line: string, now: int, draws: ChatId.IdDraws, reply: Option<Response>) returns (outcome: Outcome)
      requires mode == Chatting
      modifies this
      ensures StepResult(State(), outcome) == ChatStep(old(State()), line, now, draws, reply)
    {
      ghost var s0 := State();
      turnId := turnId + 1;
      if IsQuit(line) {
        mode := Menu;
        return Quit;
      }
      var sendable := WithinBudget(chatHistory, line);
      StoreUserLine(line, now, draws);
      assert State() == StoreUserTurn(s0.(turnId := s0.turnId + 1), line, now, draws);
      StepAfterStore(s0, line, now, draws, reply);
      outcome := Reply(sendable, reply);
    }
  }

  /** A client that sees only the contracts: on a fresh store a line over the
      budget is kept without a reply and creates the one index entry. */
  method RefusedFirstLine(draws: ChatId.IdDraws, reply: Option<Response>, longLine: string)
    requires |longLine| == 200000
  {
    var app := new ChatApp([]);
    app.ChatOpen();
    ghost var before := app.State();
    assert !IsQuit(longLine);
    BudgetGate(before, longLine, 1700000000, draws, reply);
    IndexOnFirstTurn(before, longLine, 1700000000, draws, reply);
    var outcome := app.Iterate(longLine, 1700000000, draws, reply);
    assert outcome == OverBudget;
    assert |app.chatHistory| == 1 && |app.chatIndex| == 1 && app.mode == Chatting;
  }

  /** A client: after a refused line an answered one is stored with its reply under
      one shared turn id. */
  method AnsweredAfterRefusal(app: ChatApp, draws: ChatId.IdDraws, reply: Response)
    requires app.mode == Chatting && Inv(app.State())
    requires |app.chatHistory| == 1 && app.chatHistory[0].UserTurn?
    requires AssistantTurnFrom(reply, app.turnId + 1).Success?
    modifies app
  {
    ghost var before := app.State();
    assert !IsQuit("hello") by { assert LowerAscii("hello")[0] == 'h'; }
    assert WithinBudget(before.history, "hello");
    BudgetGate(before, "hello", 1700000005, draws, Some(reply));
    ReplyBecomesAssistantTurn(before, "hello", 1700000005, draws, Some(reply));
    var outcome := app.Iterate("hello", 1700000005, draws, Some(reply));
    assert outcome == Replied;
    assert |app.chatHistory| == 3;
    assert app.chatHistory[1].turnId == app.chatHistory[2].turnId == 2;
  }
}
