/** The chat identifier: `generate_string` and `generate_chat_id` of randomtest.py
    (duplicated in main.py).  The randomness of `random.choices` is replaced by
    its draws, given as indices into the lower-case alphabet. */
module ChatId {

  /** One draw of `random.choices(string.ascii_lowercase)`. */
  type LetterIndex = i: int | 0 <= i < 26

  /** The draws consumed by `index_chat`: three words of four letters each. */
  type IdDraws = d: seq<seq<LetterIndex>> | |d| == 3 && forall w :: w in d ==> |w| == 4
    witness [[0, 0, 0, 0], [0, 0, 0, 0], [0, 0, 0, 0]]

  predicate IsLowercase(c: char) {
    'a' <= c <= 'z'
  }

  /** `string.ascii_lowercase[k]` */
  function Letter(k: LetterIndex): (c: char)
    ensures IsLowercase(c)
  {
    ('a' as int + k) as char
  }

  predicate IsLowercaseWord(s: string) {
    forall i :: 0 <= i < |s| ==> IsLowercase(s[i])
  }

  /** `generate_string(length)`: `length` letters, the i-th one picked by the i-th draw. */
  function GenerateString(length: nat, draws: seq<LetterIndex>): (s: string)
    requires |draws| == length
    ensures |s| == length
    ensures IsLowercaseWord(s)
  {
    seq(length, i requires 0 <= i < length => Letter(draws[i]))
  }

  /** `sep.join(words)` */
  function Join(sep: char, words: seq<string>): string
  {
    if |words| == 0 then ""
    else if |words| == 1 then words[0]
    else words[0] + [sep] + Join(sep, words[1..])
  }

  /** The index of the first `sep` in `s`, which must occur. */
  function IndexOf(s: string, sep: char): (i: nat)
    requires sep in s
    ensures i < |s| && s[i] == sep && sep !in s[..i]
  {
    if s[0] == sep then 0
    else
      assert sep in s[1..] by { var k :| 0 <= k < |s| && s[k] == sep; assert s[1..][k - 1] == sep; }
      var j := IndexOf(s[1..], sep);
      assert s[..j + 1] == [s[0]] + s[1..][..j];
      j + 1
  }

  /** Python's `s.split(sep)`: the pieces between occurrences of `sep`;
      an empty `s` splits into one empty piece. */
  function Split(s: string, sep: char): (parts: seq<string>)
    ensures |parts| >= 1
    decreases |s|
  {
    if sep !in s then [s]
    else
      var i := IndexOf(s, sep);
      [s[..i]] + Split(s[i + 1..], sep)
  }

  /** The words built by the comprehension in `generate_chat_id`. */
  function Words(wordLength: nat, draws: seq<seq<LetterIndex>>): (words: seq<string>)
    requires forall i :: 0 <= i < |draws| ==> |draws[i]| == wordLength
    ensures |words| == |draws|
    ensures forall i :: 0 <= i < |words| ==> |words[i]| == wordLength && IsLowercaseWord(words[i])
  {
    seq(|draws|, i requires 0 <= i < |draws| => GenerateString(wordLength, draws[i]))
  }

  /** `generate_chat_id(num_words, word_length)`: the words joined by dashes. */
  function GenerateChatId(numWords: nat, wordLength: nat, draws: seq<seq<LetterIndex>>): (id: string)
    requires |draws| == numWords
    requires forall i :: 0 <= i < |draws| ==> |draws[i]| == wordLength
    ensures numWords == 0 ==> id == ""
    ensures numWords >= 1 ==> |id| == numWords * wordLength + numWords - 1
    ensures forall j :: 0 <= j < |id| ==> IsLowercase(id[j]) || id[j] == '-'
  {
    var words := Words(wordLength, draws);
    JoinLength('-', words, wordLength);
    JoinAlphabet('-', words);
    Join('-', words)
  }

  lemma {:induction false} JoinLength(sep: char, words: seq<string>, w: nat)
    requires forall i :: 0 <= i < |words| ==> |words[i]| == w
    ensures |words| >= 1 ==> |Join(sep, words)| == |words| * w + |words| - 1
    decreases |words|
  {
    if |words| >= 2 {
      JoinLength(sep, words[1..], w);
      var k := |words|;
      assert (k - 1) * w + w == k * w;
    }
  }

  lemma {:induction false} JoinAlphabet(sep: char, words: seq<string>)
    requires forall i :: 0 <= i < |words| ==> IsLowercaseWord(words[i])
    ensures forall j :: 0 <= j < |Join(sep, words)| ==> IsLowercase(Join(sep, words)[j]) || Join(sep, words)[j] == sep
    decreases |words|
  {
    if |words| >= 2 {
      JoinAlphabet(sep, words[1..]);
      var rest := Join(sep, words[1..]);
      var s := Join(sep, words);
      assert s == words[0] + [sep] + rest;
      forall j | 0 <= j < |s| ensures IsLowercase(s[j]) || s[j] == sep {
        if j < |words[0]| {
          assert s[j] == words[0][j];
        } else if j > |words[0]| {
          assert s[j] == rest[j - |words[0]| - 1];
        }
      }
    }
  }

  /** Splitting at a separator that follows a separator-free prefix cuts off that prefix. */
  lemma SplitAfterPrefix(a: string, sep: char, b: string)
    requires sep !in a
    ensures Split(a + [sep] + b, sep) == [a] + Split(b, sep)
  {
    var s := a + [sep] + b;
    assert s[|a|] == sep;
    var i := IndexOf(s, sep);
    assert forall k :: 0 <= k < |a| ==> s[k] == a[k];
    assert i <= |a| by { assert s[..|a| + 1][|a|] == sep; }
    assert i == |a|;
    assert s[..i] == a;
    assert s[i + 1..] == b;
  }

  /** Splitting a join on its separator gives back the words, provided there is
      at least one word and no word contains the separator. */
  lemma {:induction false} SplitJoin(sep: char, words: seq<string>)
    requires |words| >= 1
    requires forall i :: 0 <= i < |words| ==> sep !in words[i]
    ensures Split(Join(sep, words), sep) == words
    decreases |words|
  {
    if |words| >= 2 {
      SplitAfterPrefix(words[0], sep, Join(sep, words[1..]));
      SplitJoin(sep, words[1..]);
      assert words == [words[0]] + words[1..];
    }
  }

  /** Every piece `split` returns is free of the separator. */
  lemma {:induction false} SplitPiecesSeparatorFree(s: string, sep: char)
    ensures forall k :: 0 <= k < |Split(s, sep)| ==> sep !in Split(s, sep)[k]
    decreases |s|
  {
    if sep in s {
      var i := IndexOf(s, sep);
      SplitPiecesSeparatorFree(s[i + 1..], sep);
    }
  }

  /** Joining the pieces of a split with the same separator gives back the string,
      for every string: `sep.join(s.split(sep)) == s`. */
  lemma {:induction false} JoinSplit(s: string, sep: char)
    ensures Join(sep, Split(s, sep)) == s
    decreases |s|
  {
    if sep in s {
      var i := IndexOf(s, sep);
      var rest := Split(s[i + 1..], sep);
      JoinSplit(s[i + 1..], sep);
      var parts := [s[..i]] + rest;
      assert parts[1..] == rest;
      assert Join(sep, parts) == s[..i] + [sep] + s[i + 1..];
      assert s == s[..i] + [sep] + s[i + 1..];
    }
  }

  /** Splitting a chat id on '-' yields exactly the generated words. */
  lemma ChatIdSplit(numWords: nat, wordLength: nat, draws: seq<seq<LetterIndex>>)
    requires numWords >= 1
    requires |draws| == numWords
    requires forall i :: 0 <= i < |draws| ==> |draws[i]| == wordLength
    ensures Split(GenerateChatId(numWords, wordLength, draws), '-') == Words(wordLength, draws)
  {
    var words := Words(wordLength, draws);
    forall i | 0 <= i < |words| ensures '-' !in words[i] {
      assert forall k :: 0 <= k < |words[i]| ==> words[i][k] != '-';
    }
    SplitJoin('-', words);
  }

  /** The call at the end of randomtest.py, `generate_chat_id(num_words=3, word_length=8)`:
      26 characters, dashes at indices 8 and 17 and lower-case letters everywhere else. */
  lemma RandomTestChatId(draws: seq<seq<LetterIndex>>)
    requires |draws| == 3 && forall i :: 0 <= i < 3 ==> |draws[i]| == 8
    ensures var id := GenerateChatId(3, 8, draws);
      && |id| == 26 && id[8] == '-' && id[17] == '-'
      && forall j :: 0 <= j < 26 && j != 8 && j != 17 ==> IsLowercase(id[j])
  {
    var words := Words(8, draws);
    var id := GenerateChatId(3, 8, draws);
    assert words[1..][1..] == [words[2]];
    assert Join('-', words[1..]) == words[1] + "-" + words[2];
    assert id == words[0] + "-" + (words[1] + "-" + words[2]);
    forall j | 0 <= j < 26 && j != 8 && j != 17 ensures IsLowercase(id[j]) {
      if j < 8 {
        assert id[j] == words[0][j];
      } else if j < 17 {
        assert id[j] == words[1][j - 9];
      } else {
        assert id[j] == words[2][j - 18];
      }
    }
  }

  /** The identifier `index_chat` stores: three four-letter words, 14 characters. */
  lemma IndexChatIdShape(draws: IdDraws)
    ensures |GenerateChatId(3, 4, draws)| == 14
    ensures var id := GenerateChatId(3, 4, draws); id[4] == '-' && id[9] == '-'
  {
    assert draws[0] in draws && draws[1] in draws && draws[2] in draws;
    var words := Words(4, draws);
    assert words[1..][1..] == [words[2]];
    assert Join('-', words[1..]) == words[1] + "-" + words[2];
    assert GenerateChatId(3, 4, draws) == words[0] + "-" + (words[1] + "-" + words[2]);
  }
}
