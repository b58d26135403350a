/** The conversation-history helpers of feature/conversation_history/code_examples.py:
    flattening a stored history into the role/content messages the API expects,
    and the four-characters-per-token estimate of such a message list. */
module ConversationHistory {
  import opened Wrappers

  /** Context ceiling `MAX_CONTEXT_TOKENS`. */
  const MaxContextTokens: nat := 200000

  /** A stored entry's `"content"`: a plain string (user messages) or a
      dictionary (AI messages), which ought to hold `"response_text"`. */
  datatype Content = Text(text: string) | Fields(fields: map<string, string>)

  /** One stored history entry; only its `"role"` and `"content"` are read. */
  datatype Entry = Entry(role: string, content: Content)

  /** One simplified `{"role": ..., "content": ...}` message. */
  datatype ApiMessage = ApiMessage(role: string, content: string)

  /** The exception raised by `raw_content["response_text"]` on a dictionary without that key. */
  datatype Error = KeyError(key: string)

  const ResponseTextKey: string := "response_text"

  /** The content one entry contributes: the string itself, or the dictionary's
      `"response_text"` value. */
  function ContentText(c: Content): Result<string, Error>
  {
    match c
    case Text(s) => Success(s)
    case Fields(m) => if ResponseTextKey in m then Success(m[ResponseTextKey]) else Failure(KeyError(ResponseTextKey))
  }

  /** `build_messages_for_api_compact`: the list comprehension.  It succeeds exactly
      when every dictionary content has `"response_text"`; the result then has one
      message per entry, in order, with the entry's role, string contents passed
      through and dictionary contents replaced by their `"response_text"`. */
  function BuildMessagesCompact(history: seq<Entry>): (r: Result<seq<ApiMessage>, Error>)
    ensures r.Success? <==> forall i :: 0 <= i < |history| ==> ContentText(history[i].content).Success?
    ensures r.Failure? ==> r.error == KeyError(ResponseTextKey)
    ensures r.Success? ==> |r.value| == |history|
    ensures r.Success? ==> forall i :: 0 <= i < |history| ==> r.value[i].role == history[i].role
    ensures r.Success? ==> forall i :: 0 <= i < |history| && history[i].content.Text? ==>
      r.value[i].content == history[i].content.text
    ensures r.Success? ==> forall i :: 0 <= i < |history| && history[i].content.Fields? ==>
      r.value[i].content == history[i].content.fields[ResponseTextKey]
  {
    if |history| == 0 then Success([])
    else
      var last := history[|history| - 1];
      match BuildMessagesCompact(history[..|history| - 1])
      case Failure(e) => Failure(e)
      case Success(front) =>
        match ContentText(last.content)
        case Failure(e) => Failure(e)
        case Success(text) =>
          assert forall i :: 0 <= i < |history| - 1 ==> history[..|history| - 1][i] == history[i];
          Success(front + [ApiMessage(last.role, text)])
  }

  /** `build_messages_for_api`: the loop that appends one simplified message per entry
      to a fresh list.  It returns the same as the comprehension for every history
      (the KeyError included); the history itself is a value and is left as it was. */
  method BuildMessages(history: seq<Entry>) returns (r: Result<seq<ApiMessage>, Error>)
    ensures r == BuildMessagesCompact(history)
  {
    var messages: seq<ApiMessage> := [];
    var i := 0;
    while i < |history|
      invariant 0 <= i <= |history|
      invariant BuildMessagesCompact(history[..i]) == Success(messages)
    {
      var message := history[i];
      var role := message.role;
      var content: string;
      match message.content {
        case Fields(m) =>
          if ResponseTextKey !in m {
            assert history[..i + 1][..i] == history[..i];
            return Failure(KeyError(ResponseTextKey));
          }
          content := m[ResponseTextKey];
        case Text(s) =>
          content := s;
      }
      assert history[..i + 1][..i] == history[..i];
      messages := messages + [ApiMessage(role, content)];
      i := i + 1;
    }
    assert history[..i] == history;
    r := Success(messages);
  }

  /** The characters counted for a message list: every content and every role. */
  function TotalCharacters(messages: seq<ApiMessage>): nat
  {
    if |messages| == 0 then 0
    else
      var last := messages[|messages| - 1];
      TotalCharacters(messages[..|messages| - 1]) + |last.content| + |last.role|
  }

  /** The estimate: characters divided by four, rounded down. */
  function TokenEstimate(messages: seq<ApiMessage>): nat
  {
    TotalCharacters(messages) / 4
  }

  /** `count_tokens_estimate`: accumulate the characters, then floor-divide by 4. */
  method CountTokensEstimate(messages: seq<ApiMessage>) returns (estimatedTokens: nat)
    ensures estimatedTokens == TokenEstimate(messages)
    ensures estimatedTokens * 4 <= TotalCharacters(messages) < estimatedTokens * 4 + 4
  {
    var totalCharacters := 0;
    var i := 0;
    while i < |messages|
      invariant 0 <= i <= |messages|
      invariant totalCharacters == TotalCharacters(messages[..i])
    {
      assert messages[..i + 1][..i] == messages[..i];
      totalCharacters := totalCharacters + |messages[i].content|;
      totalCharacters := totalCharacters + |messages[i].role|;
      i := i + 1;
    }
    assert messages[..i] == messages;
    estimatedTokens := totalCharacters / 4;
  }

  /** Characters of a concatenation add up. */
  lemma {:induction false} TotalCharactersConcat(a: seq<ApiMessage>, b: seq<ApiMessage>)
    ensures TotalCharacters(a + b) == TotalCharacters(a) + TotalCharacters(b)
    decreases |b|
  {
    if |b| > 0 {
      var ab := a + b;
      assert ab[..|ab| - 1] == a + b[..|b| - 1];
      assert ab[|ab| - 1] == b[|b| - 1];
      TotalCharactersConcat(a, b[..|b| - 1]);
    } else {
      assert a + b == a;
    }
  }

  /** The estimate of no messages is 0. */
  lemma EstimateOfEmpty()
    ensures TokenEstimate([]) == 0
  {
  }

  /** The estimate is monotone over prefixes: appending messages never lowers it. */
  lemma EstimateMonotone(prefix: seq<ApiMessage>, more: seq<ApiMessage>)
    ensures TotalCharacters(prefix) <= TotalCharacters(prefix + more)
    ensures TokenEstimate(prefix) <= TokenEstimate(prefix + more)
  {
    TotalCharactersConcat(prefix, more);
  }

  /** `example_messages` */
  const ExampleMessages: seq<ApiMessage> := [
    ApiMessage("user", "Hello, who are you?"),
    ApiMessage("assistant", "I'm an AI assistant. How can I help you today?"),
    ApiMessage("user", "What did I just ask you?")
  ]

  /** The three example messages count 23, 55 and 28 characters: 106 in all,
      an estimate of 26 tokens. */
  lemma ExampleEstimate()
    ensures |ExampleMessages[0].role| + |ExampleMessages[0].content| == 23
    ensures |ExampleMessages[1].role| + |ExampleMessages[1].content| == 55
    ensures |ExampleMessages[2].role| + |ExampleMessages[2].content| == 28
    ensures TotalCharacters(ExampleMessages) == 106
    ensures TokenEstimate(ExampleMessages) == 26
  {
    var ms := ExampleMessages;
    assert ms[..2][..1] == [ms[0]];
    assert ms[..2] == [ms[0], ms[1]];
    assert [ms[0]][..0] == [];
    assert TotalCharacters([ms[0]]) == 23;
    assert TotalCharacters(ms[..2]) == 78;
  }
}
