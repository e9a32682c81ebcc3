/** The `messageCreate` handler of src/features/gm-roast/index.ts: a message
    starting with "gm" is answered with a generated roast, given the last
    messages of the channel as history. The model call is a parameter. */
module GmRoast {
  import opened Results
  import opened Strings
  import Discord

  /** Number of channel messages fetched as history. */
  const HistoryLimit := 50
  const ModelName := "google/gemini-2.5-flash-preview-05-20"
  const Temperature: real := 0.85
  const FrequencyPenalty := 1

  /** The trigger: the lower-cased content starts with "gm". */
  predicate Triggered(m: Discord.Message) {
    StartsWith(ToLower(m.content), "gm")
  }

  /** The trigger looks only at the first two characters, in either case. */
  lemma TriggeredIff(m: Discord.Message)
    ensures Triggered(m) <==> |m.content| >= 2 && m.content[0] in "gG" && m.content[1] in "mM"
  {
    var low := ToLower(m.content);
    if |m.content| >= 2 {
      assert low[..2] == [low[0], low[1]];
      assert low[0] == Lower(m.content[0]) && low[1] == Lower(m.content[1]);
      assert Lower(m.content[0]) == 'g' <==> m.content[0] in "gG";
      assert Lower(m.content[1]) == 'm' <==> m.content[1] in "mM";
    }
  }

  /** "gmail" and "GMT ..." trigger the roast as well; "good morning" does not. */
  lemma TriggerExamples(m: Discord.Message)
    ensures m.content == "gmail" ==> Triggered(m)
    ensures m.content == "GMT+2 here" ==> Triggered(m)
    ensures m.content == "good morning" ==> !Triggered(m)
  {
    TriggeredIff(m);
  }

  /** One history line: `<username> : <content>`. Author and content read
      back whenever the username has no space. */
  function HistoryLine(m: Discord.Message): (r: string)
    ensures ' ' !in m.authorName ==> ParseHistoryLine(r) == Some((m.authorName, m.content))
  {
    ParseHistoryLineOf(m.authorName, m.content);
    m.authorName + " : " + m.content
  }

  /** Reads a history line back into author name and content. */
  function ParseHistoryLine(s: string): Option<(string, string)> {
    match IndexOfChar(s, ' ')
    case None => None
    case Some(i) => if StartsWith(s[i..], " : ") then Some((s[..i], s[i + 3..])) else None
  }

  /** The author and content of a line can be read back whenever the
      username has no space. User names under the current naming rules have
      none; a bot account may keep a legacy name with spaces, whose lines are
      not promised to read back. */
  lemma ParseHistoryLineOf(author: string, content: string)
    ensures ' ' !in author ==> ParseHistoryLine(author + " : " + content) == Some((author, content))
  {
    if ' ' !in author {
      var s := author + " : " + content;
      var rest := ": " + content;
      assert s == author + [' '] + rest;
      IndexOfCharSplit(author, rest, ' ');
      assert s[|author|..] == " : " + content;
      assert s[..|author|] == author;
      assert s[|author| + 3..] == content;
    }
  }

  /** One line per fetched message, in fetch order (newest first). */
  function HistoryLines(ms: seq<Discord.Message>): (r: seq<string>)
    ensures |r| == |ms|
    ensures forall i :: 0 <= i < |ms| ==> r[i] == HistoryLine(ms[i])
  {
    seq(|ms|, i requires 0 <= i < |ms| => HistoryLine(ms[i]))
  }

  /** The history embedded in the prompt: the lines reversed, one per line. */
  function PromptHistory(lines: seq<string>): string {
    Join(Reverse(lines), "\n")
  }

  /** The newest line comes last: a history of newest line `x` over older
      lines `older` is the older history, a line break, and `x`. */
  lemma NewestLineLast(x: string, older: seq<string>)
    requires |older| > 0
    ensures PromptHistory([x] + older) == PromptHistory(older) + "\n" + x
  {
    assert Reverse([x] + older) == Reverse(older) + [x];
    JoinSnoc(Reverse(older), x, "\n");
  }

  /** The system prompt: fixed instructions followed by the history. */
  function RoastPrompt(instructions: string, lines: seq<string>): (r: string)
    ensures StartsWith(r, instructions)
    ensures EndsWith(r, PromptHistory(lines))
    ensures |r| == |instructions| + |PromptHistory(lines)|
  {
    var history := PromptHistory(lines);
    var r := instructions + history;
    assert r[..|instructions|] == instructions;
    assert r[|r| - |history|..] == history;
    r
  }

  datatype Role = System | User

  datatype Request = Request(
    model: string, temperature: real, frequencyPenalty: int, messages: seq<(Role, string)>)

  /** The model input: the prompt with the history, then the triggering
      message with mentions resolved. */
  function BuildRequest(m: Discord.Message, instructions: string, fetched: seq<Discord.Message>): (r: Request)
    ensures |r.messages| == 2
    ensures r.messages[0] == (System, RoastPrompt(instructions, HistoryLines(fetched)))
    ensures r.messages[1] == (User, m.cleanContent)
  {
    Request(ModelName, Temperature, FrequencyPenalty,
            [(System, RoastPrompt(instructions, HistoryLines(fetched))), (User, m.cleanContent)])
  }

  /** What the handler does: nothing; fail before the guarded section (the
      error leaves the handler); or make the request and send the replies. */
  datatype Outcome =
    | Ignored
    | Escaped
    | Handled(request: Request, replies: seq<string>)

  /** The handler. `fetchHistory(limit)` answers the history fetch and
      `generate(request)` is the model call's text, or a throw. */
  function HandleMessage(
    m: Discord.Message, instructions: string,
    fetchHistory: nat -> Attempt<seq<Discord.Message>>, generate: Request -> Attempt<string>): (r: Outcome)
    ensures r.Ignored? <==> !Triggered(m)
    ensures r.Escaped? <==> Triggered(m) && fetchHistory(HistoryLimit).Threw?
    ensures r.Handled? ==> r.request == BuildRequest(m, instructions, fetchHistory(HistoryLimit).value)
    ensures r.Handled? ==>
              match generate(r.request)
              case Threw => r.replies == []
              case Done(text) => r.replies == (if text == "" then [] else [text])
  {
    if !Triggered(m) then Ignored
    else match fetchHistory(HistoryLimit)
      case Threw => Escaped
      case Done(fetched) =>
        var request := BuildRequest(m, instructions, fetched);
        match generate(request)
        case Threw => Handled(request, [])
        case Done(text) => Handled(request, if text == "" then [] else [text])
  }

  /** At most one reply, and only a non-empty generated text is ever sent. */
  lemma RepliesAreGeneratedText(
    m: Discord.Message, instructions: string,
    fetchHistory: nat -> Attempt<seq<Discord.Message>>, generate: Request -> Attempt<string>)
    ensures var r := HandleMessage(m, instructions, fetchHistory, generate);
            r.Handled? ==> |r.replies| <= 1
                           && forall k :: 0 <= k < |r.replies| ==>
                                generate(r.request) == Done(r.replies[k]) && r.replies[k] != ""
  {
    var r := HandleMessage(m, instructions, fetchHistory, generate);
    if r.Handled? {
      match generate(r.request)
      case Threw =>
      case Done(text) =>
    }
  }
}
