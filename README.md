# Chat client core, modelled in Dafny

This project models the sequential core of a command-line chat client that keeps a
local conversation history, gates each new message on a running token estimate,
sends the history to a language-model API, and keeps a small index of
conversations. The models are:

- **The chat loop of `main.py`** (modules `Chat` and `ChatLoop`). This is the program's
  global state: `chat_history`, `chat_index`, the `turn_id` counter and the outbound
  `chat_input` list, plus the menu mode the program is in.
  - `ChatLoop.ChatApp` is a class holding those globals as fields. Its methods update
    them in place, as `chat_open` does.
  - Each method is proved to move the state exactly as a transition function of
    `Chat` says: `Initial`, `OpenChat`, or `ChatStep` (one pass of the `while True` loop).
  - The properties are lemmas about those functions: quit, token estimate, budget gate,
    user and AI records, first-turn indexing, outbound list.
  - `Run` folds a sequence of events (menu choice "1", chat lines). Its lemmas show
    that numbering, reply placement and the single index entry hold across any run.
- **The conversation-history helpers** (module `ConversationHistory`,
  `feature/conversation_history/code_examples.py`).
  - The loop `build_messages_for_api` is proved equal to the comprehension
    `build_messages_for_api_compact`. The comprehension's own contract says what it
    returns.
  - `count_tokens_estimate` is a loop proved against the character-count function.
    That function is monotone over prefixes, and its value on `example_messages` is
    computed.
- **The chat id** (module `ChatId`, `randomtest.py`; `main.py:111-128` is a verbatim copy).
  - The random letters become the draws passed in.
  - The lemmas prove the id's length, its alphabet, where the dashes go, and that
    splitting on `-` gives back the generated words.

Collaborators that cannot be seen are parameters:
- the typed line;
- the clock reading (`int(time.time())`);
- the random draws;
- the API reply, which is `None` when the call raises.

The two `save_*` calls rewrite whole files from the state the model already holds,
so they change nothing here.

The model keeps these behaviours of the code as they are:
- main.py keeps one history file, `chat_history.json`, shared by every chat.
- `chat_index` is never read back from disk, so every process starts with an empty index.
- An exception after the user record is stored is not caught. This covers empty
  `response.output`, empty content, a non-text item and a failing call. It ends the
  program, with outcome `Crashed` and mode `Stopped`.
- An AI record reuses its user record's `turn_id`. Ids therefore increase by one per
  user turn and are not strictly increasing over records.
- `main.py` estimates tokens from the last record's usage plus `len(line) / 4`.
  Without usage it uses the bare `len(line)`, with no division. It does not use the
  role-plus-content count of `count_tokens_estimate`.
- `main.py` reads `["content"]["text"]` from every record. Only `code_examples.py`
  normalises records by the shape of their content.

## Model

| member | source | states |
|---|---|---|
| `ChatId.Letter` | randomtest.py:7 | a draw picks a letter of `ascii_lowercase`, always in a–z |
| `ChatId.GenerateString` | randomtest.py:5-7 | `generate_string(n)` has exactly n characters, each in a–z |
| `ChatId.Words` | randomtest.py:21 | the comprehension yields one word per draw list, each of the given length and lower-case |
| `ChatId.GenerateChatId` | randomtest.py:10-22 | zero words give ""; k ≥ 1 words of length w give k*w + k − 1 characters; every character is a–z or `-` |
| `ChatId.JoinLength` | randomtest.py:22 | `"-".join` of k ≥ 1 words of length w has length k*w + k − 1 |
| `ChatId.JoinAlphabet` | randomtest.py:22 | a join of lower-case words contains only letters and the separator |
| `ChatId.SplitJoin` | randomtest.py:22 | splitting a join of k ≥ 1 separator-free words on the separator returns exactly those words |
| `ChatId.SplitPiecesSeparatorFree` | randomtest.py:22 | no piece of `s.split(sep)` contains `sep` (the model's `split`, the inverse the round trip is stated against) |
| `ChatId.JoinSplit` | randomtest.py:22 | for every string, `sep.join(s.split(sep)) == s` |
| `ChatId.ChatIdSplit` | randomtest.py:21-22 | splitting a chat id on `-` returns exactly the generated words |
| `ChatId.RandomTestChatId` | randomtest.py:25 | `generate_chat_id(3, 8)` has 26 characters with dashes at indices 8 and 17 and letters elsewhere |
| `ChatId.IndexChatIdShape` | main.py:133 | the id made by `index_chat` is 14 characters with dashes at 4 and 9 |
| `ConversationHistory.BuildMessagesCompact` | feature/conversation_history/code_examples.py:77-85 | succeeds iff every dict content holds `"response_text"`, else KeyError; on success one message per entry, same order, role copied, string content unchanged, dict content replaced by its `"response_text"` |
| `ConversationHistory.BuildMessages` | feature/conversation_history/code_examples.py:33-69 | the loop returns the same result as the comprehension for every history, KeyError included |
| `ConversationHistory.CountTokensEstimate` | feature/conversation_history/code_examples.py:96-117 | returns (Σ len(content) + len(role)) div 4, i.e. 4*r ≤ total < 4*r + 4 |
| `ConversationHistory.TotalCharactersConcat` | feature/conversation_history/code_examples.py:106-112 | the character count of a concatenation is the sum of the parts' counts |
| `ConversationHistory.EstimateOfEmpty` | feature/conversation_history/code_examples.py:106-117 | the estimate of no messages is 0 |
| `ConversationHistory.EstimateMonotone` | feature/conversation_history/code_examples.py:106-117 | appending messages never lowers the character count or the estimate |
| `ConversationHistory.ExampleEstimate` | feature/conversation_history/code_examples.py:184-189 | the example messages count 23, 55 and 28 characters, 106 in all, estimate 26 |
| `Chat.WithinBudgetScaled` | main.py:173-177 | `token_sum < 200000` holds iff the integer 4*token_sum is below 800000 |
| `Chat.TokenSumLastRecordOnly` | main.py:173-177 | `token_sum` depends only on the last record; it is the bare line length when no record or a user record is last; a longer line never lowers it |
| `Chat.Title` | main.py:134 | `text[:30]` is a prefix of the text of length min(30, len(text)) |
| `Chat.IndexChatEntry` | main.py:131-137 | the index entry has a 14-character id, a title that is a ≤ 30-character prefix of the first record's text, and the first record's timestamp |
| `Chat.ChatInputMirrors` | main.py:198-201 | `chat_input` has one message per record, in order, with that record's role and text |
| `Chat.ParseAiResponse` | main.py:59-99 | succeeds iff the item is a message whose content list is non-empty and starts with a text item, returning that text; IndexError on empty content, AttributeError on an item without `.content` or a first content item without `.text` |
| `Chat.AssistantTurnFrom` | main.py:213-235 | IndexError on an empty `response.output`; else a `parse_ai_response` error is passed on, and a parsed reply without `usage` fails with AttributeError; it succeeds iff the parse succeeds and usage is present; the AI record carries the first item's text, the message's role, status and type, the reply's `created_at`, id, model and usage, under the given `turn_id` |
| `Chat.IsQuitExactly` | main.py:167 | on every line: it quits iff it is `/` then `q`, or `/` then `quit`, each letter in either case |
| `Chat.QuitSentinels` | main.py:167 | "/q" and "/quit" in any letter case quit; "q", "/q ", "quit" and "" do not |
| `Chat.QuitLeavesStore` | main.py:165-169 | a quit line leaves `chat_history` and `chat_index` unchanged and returns to the menu |
| `Chat.RespondKeepsStored` | main.py:204-238 | the reply half keeps index, `chat_input` and counter; it sends iff under budget; it appends the AI turn iff the reply parses and carries usage; on an exception it stops with only the user record kept |
| `Chat.UserTurnStored` | main.py:180-189 | a non-quit line is stored right after the old history, numbered counter+1; the old history stays a prefix |
| `Chat.BudgetGate` | main.py:203-211 | over budget iff `token_sum ≥ 200000`; then the history grows by exactly 1 and the loop continues; a reply adds exactly 2; a crash adds 1 |
| `Chat.ReplyBecomesAssistantTurn` | main.py:214-238 | the AI record carries the first content item's text, the reply's usage (present, since the reply was stored), role and timestamp, and the same `turn_id` as the user record before it |
| `Chat.MissingUsageCrashes` | main.py:214-232 | under budget, a reply that parses but has no `usage` crashes with AttributeError, stopping the program with only the user record added |
| `Chat.IndexOnFirstTurn` | main.py:193-196 | an index entry is appended iff the history was empty; it is titled `line[:30]` and dated with the user record's timestamp |
| `Chat.OutboundList` | main.py:198-201 | after the user append, `chat_input` mirrors the whole history record by record and ends with ("user", line) |
| `Chat.FirstTurnEstimate` | main.py:176-177 | with no usage available "hello" is estimated at 5, with no division |
| `Chat.CarriedEstimate` | main.py:173-175 | after an AI record reporting 120 tokens a 40-character line is estimated at exactly 130 |
| `Chat.EstimateAfterRejection` | main.py:173-177 | after a refused line the next estimate is the bare length of the next line |
| `Chat.FirstTurnNotDivided` | main.py:173-177 | a 200000-character line is refused on an empty history but sent after an AI record reporting 0 tokens |
| `Chat.GetTurnIdCountsUserTurns` | main.py:55-56 | on a history numbered as main.py numbers it, `get_turn_id()` equals the number of user records |
| `Chat.InitialInv` | main.py:37-52 | a loaded history numbered as main.py numbers it gives a start state satisfying the invariant |
| `Chat.OpenChatResumes` | main.py:160 | entering the chat sets the counter to `get_turn_id()` and keeps the invariant |
| `Chat.TurnIdTracksHistory` | main.py:55-56 | while chatting, the counter equals `get_turn_id()` (last record's id, 0 if empty) after each iteration and grows by one per user turn; re-entering the chat resumes from it |
| `Chat.ChatStepInv` | main.py:162-238 | an iteration keeps the numbering (first user id 1, +1 per user record, AI record = previous id), replies directly after user records, and the single coherent index entry |
| `Chat.RunInv` | main.py:257-265 | any sequence of menu choices and chat lines keeps that invariant |
| `Chat.RunAppendOnly` | main.py:194-196 | over any run history and index only grow at the end, and at most one index entry is added, none when the history was non-empty |
| `ChatLoop.ChatApp.constructor` | main.py:37-52 | start-up state: the loaded history, empty index, counter 0, in the menu |
| `ChatLoop.ChatApp.ChatOpen` | main.py:156-160 | entering `chat_open` moves the state as `OpenChat` |
| `ChatLoop.ChatApp.StoreUserLine` | main.py:180-201 | the in-place append, first-record indexing and `chat_input` rebuild equal `StoreUserTurn` |
| `ChatLoop.ChatApp.Reply` | main.py:203-238 | the in-place reply half moves the state and yields the outcome exactly as `Respond`: refused, stopped on an exception, or the AI record appended |
| `ChatLoop.ChatApp.Iterate` | main.py:162-238 | one in-place pass of the loop yields exactly the state and outcome of `ChatStep` |

## Left out

- Network client construction, model switching (menu choice "o") and the API call itself. The reply is a parameter; a call that raises is `None`.
- File I/O. The model does not cover reading `chat_history.json` (its content is the constructor's argument), `save_chat`, `save_index`, or `load_chat` (menu choice "2"). It prints the file, and when `chat_history.json` does not exist yet (the start-up load at main.py:48-52 tolerates that) its unguarded `open` at main.py:151 raises FileNotFoundError and ends the program. The saves rewrite whole files from the modelled state.
- A loaded history file that main.py did not write. A last record without `"turn_id"` raises KeyError in `get_turn_id` (main.py:56); a record whose content is a plain string raises TypeError at `["content"]["text"]`, and one whose content lacks `"text"` raises KeyError there. Records are the two shapes main.py writes.
- Terminal input and output, `load_dotenv`, menu choice "q" and the printing of `token_sum`.
- `time.time()`: the timestamp is an integer parameter. The `float(...)` around it is dropped.
- The randomness of `random.choices`: the drawn letter indices are parameters.
- The multimodal handling `parse_ai_response` announces: only the text item and the AttributeError on any other item are modelled.
- The attributes of a reply item other than those main.py reads: an output item is either a message carrying `.role`, `.status`, `.type` and `.content`, or an item with none of them, which fails with AttributeError at `.content`.
- The snippets inside string literals of `code_examples.py` (lines 128-176 and 197-221). They are documentation, not code. Their gate refuses only when the estimate is `> MAX_CONTEXT_TOKENS`, whereas main.py sends only when `token_sum < MAX_CONTEXT_TOKENS`.
- Chat.TokenSum: Python computes `token_sum` in floating point. The model uses exact rationals. These agree for token counts below 2^50.
- Chat.IsQuit: `str.lower` is applied to A–Z only. Outside A–Z, Python lowers exactly two characters to strings holding an ASCII letter: 'İ' (U+0130) to "i" followed by U+0307, and the Kelvin sign (U+212A) to "k". Neither result can occur in the sentinels `/q` and `/quit` (no U+0307, no `k`), so the quit test is unaffected.
- The input history Python would share by reference: Dafny sequences are values, so "never modified, a fresh list is returned" holds by construction and is not stated separately.
