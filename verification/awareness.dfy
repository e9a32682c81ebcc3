/** The `messageCreate` handler of src/features/awareness/index.ts: when the
    bot answers, how the channel history becomes the model's conversation,
    and what the handler sends back when something fails. The model call
    itself is a parameter. */
module Awareness {
  import opened Results
  import opened Strings
  import Discord
  import ToolRegistry

  /** Number of channel messages fetched as history. */
  const HistoryLimit := 50
  /** Tool-use rounds the model may take. */
  const MaxSteps := 10
  const Temperature: real := 0.7
  const ModelName := "anthropic/claude-4-sonnet"
  /** The model must call a tool on every step. */
  const ToolChoice := "required"
  /** The one reply the handler itself ever sends. */
  const Fallback := "Hey! I'm having a bit of trouble processing that right now \U{1F605}"

  /** `client.user?.id || ""`: the bot's id, or the empty string before login. */
  function BotKey(botId: Option<string>): string {
    if botId.Some? then botId.value else ""
  }

  /** The trigger: the bot is mentioned, or the message is a reply and the
      bot is mentioned. */
  function ShouldRespond(m: Discord.Message, botId: Option<string>): (r: bool)
    ensures r <==> BotKey(botId) in m.mentions
  {
    BotKey(botId) in m.mentions
    || ((m.referenceId.Some? && m.referenceId.value != "") && BotKey(botId) in m.mentions)
  }

  // ---------------------------------------------------------------- history turns

  datatype Role = User | Assistant

  /** The metadata attached to each turn. */
  datatype Annotation = Annotation(
    userId: string, messageId: string, channelId: string, contentLength: nat, timestamp: string)

  /** One conversation turn built from a fetched message. */
  datatype Turn = Turn(role: Role, id: string, annotations: seq<Annotation>, createdAt: nat, content: string)

  /** `ID:<id> - Author:<username> - Content:<content>`: it reads back into
      its three parts whenever id and name have no spaces. */
  function TurnContent(m: Discord.Message): (r: string)
    ensures ' ' !in m.id && ' ' !in m.authorName ==>
              ParseTurnContent(r) == Some((m.id, m.authorName, m.content))
  {
    ParseTurnContentOf(m.id, m.authorName, m.content);
    "ID:" + m.id + " - Author:" + m.authorName + " - Content:" + m.content
  }

  /** The turn for message `m`: the bot's own messages are the assistant's. */
  function TurnOf(m: Discord.Message, botId: Option<string>, iso: nat -> string): (t: Turn)
    ensures t.role == Assistant <==> botId == Some(m.authorId)
    ensures t.id == m.id && t.createdAt == m.createdAt
    ensures |t.annotations| == 1 && t.annotations[0].messageId == m.id
    ensures t.annotations[0].userId == m.authorName && t.annotations[0].contentLength == |m.content|
    ensures t.annotations[0].channelId == m.channelId && t.annotations[0].timestamp == iso(m.createdAt)
    ensures t.content == TurnContent(m)
  {
    Turn(
      if botId.Some? && m.authorId == botId.value then Assistant else User,
      m.id,
      [Annotation(m.authorName, m.id, m.channelId, |m.content|, iso(m.createdAt))],
      m.createdAt,
      TurnContent(m))
  }

  /** The text after `prefix` up to the next space, and the rest from that space. */
  function ReadToken(s: string, prefix: string): Option<(string, string)> {
    if !StartsWith(s, prefix) then None
    else
      var t := s[|prefix|..];
      match IndexOfChar(t, ' ')
      case None => None
      case Some(i) => Some((t[..i], t[i..]))
  }

  /** Reads a turn's content back into message id, author name and text. */
  function ParseTurnContent(s: string): Option<(string, string, string)> {
    match ReadToken(s, "ID:")
    case None => None
    case Some((id, s1)) =>
      match ReadToken(s1, " - Author:")
      case None => None
      case Some((author, s2)) =>
        if StartsWith(s2, " - Content:") then Some((id, author, s2[|" - Content:"|..])) else None
  }

  lemma ReadTokenOf(prefix: string, v: string, rest: string)
    requires ' ' !in v && |rest| > 0 && rest[0] == ' '
    ensures ReadToken(prefix + v + rest, prefix) == Some((v, rest))
  {
    var s := prefix + v + rest;
    var t := s[|prefix|..];
    assert t == v + [' '] + rest[1..];
    IndexOfCharSplit(v, rest[1..], ' ');
    assert t[..|v|] == v;
    assert t[|v|..] == rest;
  }

  /** The message id, author name and text can be read back from a turn
      whenever id and name have no spaces. Platform ids are digits, and user
      names under the current naming rules have no spaces; a bot account may
      keep a legacy name with spaces, whose turns are not promised to read
      back. The text may contain anything. */
  lemma ParseTurnContentOf(id: string, author: string, content: string)
    ensures ' ' !in id && ' ' !in author ==>
              ParseTurnContent("ID:" + id + " - Author:" + author + " - Content:" + content)
              == Some((id, author, content))
  {
    if ' ' !in id && ' ' !in author {
      var s2 := " - Content:" + content;
      var s1 := " - Author:" + author + s2;
      assert "ID:" + id + " - Author:" + author + " - Content:" + content == "ID:" + id + s1;
      assert ReadToken("ID:" + id + s1, "ID:") == Some((id, s1)) by {
        ReadTokenOf("ID:", id, s1);
      }
      assert ReadToken(" - Author:" + author + s2, " - Author:") == Some((author, s2)) by {
        ReadTokenOf(" - Author:", author, s2);
      }
      assert s2[|" - Content:"|..] == content;
    }
  }

  // ---------------------------------------------------------------- the request

  /** A message of the model's input. */
  datatype PromptMessage = System(text: string) | Chat(turn: Turn)

  /** The system prompt, then the history reversed (the platform returns the
      newest message first). */
  function PromptMessages(systemPrompt: string, fetched: seq<Discord.Message>, botId: Option<string>, iso: nat -> string)
    : (r: seq<PromptMessage>)
    ensures |r| == |fetched| + 1 && r[0] == System(systemPrompt)
    ensures forall i :: 1 <= i < |r| ==> r[i] == Chat(TurnOf(fetched[|fetched| - i], botId, iso))
  {
    [System(systemPrompt)]
    + seq(|fetched|, i requires 0 <= i < |fetched| => Chat(TurnOf(fetched[|fetched| - 1 - i], botId, iso)))
  }

  /** Newest first. */
  ghost predicate NewestFirst(ms: seq<Discord.Message>) {
    forall i, j :: 0 <= i < j < |ms| ==> ms[i].createdAt >= ms[j].createdAt
  }

  /** When the platform hands the history newest first, the model reads it
      oldest first. */
  lemma PromptIsChronological(systemPrompt: string, fetched: seq<Discord.Message>, botId: Option<string>, iso: nat -> string)
    requires NewestFirst(fetched)
    ensures var r := PromptMessages(systemPrompt, fetched, botId, iso);
            forall i, j :: 1 <= i < j < |r| ==> r[i].turn.createdAt <= r[j].turn.createdAt
  {
    var r := PromptMessages(systemPrompt, fetched, botId, iso);
    forall i, j | 1 <= i < j < |r|
      ensures r[i].turn.createdAt <= r[j].turn.createdAt
    {
      var older, newer := fetched[|fetched| - i], fetched[|fetched| - j];
      assert r[i].turn == TurnOf(older, botId, iso);
      assert r[j].turn == TurnOf(newer, botId, iso);
      assert newer.createdAt >= older.createdAt;
    }
  }

  /** The `generateText` call. */
  datatype Request = Request(
    model: string,
    temperature: real,
    maxSteps: nat,
    tools: set<string>,
    messages: seq<PromptMessage>,
    toolChoice: string)

  function BuildRequest(systemPrompt: string, fetched: seq<Discord.Message>, botId: Option<string>, iso: nat -> string)
    : (r: Request)
    ensures r.tools == ToolRegistry.Registry.Keys
    ensures r.maxSteps == 10 && r.toolChoice == "required"
    ensures r.messages == PromptMessages(systemPrompt, fetched, botId, iso)
  {
    Request(ModelName, Temperature, MaxSteps, ToolRegistry.Registry.Keys,
            PromptMessages(systemPrompt, fetched, botId, iso), ToolChoice)
  }

  // ---------------------------------------------------------------- the handler

  /** What the handler does with one incoming message: nothing, or the
      history it asked for, the request it made, and the replies it sent. */
  datatype Outcome =
    | Ignored
    | Handled(fetchLimit: nat, request: Option<Request>, replies: seq<string>)

  /** The handler. `fetchHistory(limit)` is the platform's answer to the
      history fetch and `generate(request)` says whether the model call
      completes; the model acts only through tools, so its text is unused. */
  function HandleMessage(
    m: Discord.Message, botId: Option<string>, systemPrompt: string, iso: nat -> string,
    fetchHistory: nat -> Attempt<seq<Discord.Message>>, generate: Request -> bool): (r: Outcome)
    ensures r.Ignored? <==> !ShouldRespond(m, botId)
    ensures r.Handled? ==> r.fetchLimit == HistoryLimit && (r.replies == [] || r.replies == [Fallback])
    ensures r.Handled? ==> (r.replies == [Fallback] <==> r.request.None? || !generate(r.request.value))
    ensures r.Handled? ==> (r.request.Some? <==> fetchHistory(HistoryLimit).Done?)
    ensures r.Handled? && r.request.Some? ==>
              r.request.value == BuildRequest(systemPrompt, fetchHistory(HistoryLimit).value, botId, iso)
  {
    if !ShouldRespond(m, botId) then Ignored
    else match fetchHistory(HistoryLimit)
      case Threw => Handled(HistoryLimit, None, [Fallback])
      case Done(fetched) =>
        var request := BuildRequest(systemPrompt, fetched, botId, iso);
        Handled(HistoryLimit, Some(request), if generate(request) then [] else [Fallback])
  }
}
