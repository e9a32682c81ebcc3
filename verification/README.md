# 302-bot core, modelled in Dafny

This project models the deterministic core of the "Anna" chat bot.

- **Memory tools.** The tools keep per-user memories in a module-level map. Five operations work on it: add, search, update, delete and list. Each is modelled as a pure function from the map to the returned object and the new map.
- **Platform action tools.** There are seven: skip, reply, send, add and remove a reaction, and join and leave a voice channel. They are modelled against an immutable snapshot of the chat platform: channels with kind flags, and messages with reactions. Each tool is a chain of guards followed by at most one effect.
- **Tool table.** The table maps thirteen wire names to tools. It comes with the argument schemas and a dispatcher that decodes a model's call and runs the tool.
- **Channel-kind classification** and its label.
- **Message rendering** used for the model's context.
- **The two message handlers.** The awareness handler decides when the bot answers and turns the channel history into a conversation. The "gm" roast handler matches its trigger, builds a history prompt and decides what to reply.

Everything outside the bot's own code is a parameter:
- the clock, as a natural number of milliseconds;
- the chat platform's state and answers;
- the language models, as functions from request to result;
- the ISO rendering of instants, as a function `nat -> string`.

Modules, one per source component:

| file | module | models |
|---|---|---|
| results.dfy | `Results` | `Option`, and the `{ success, ... }` result shapes |
| strings.dfy | `Strings` | `toLowerCase`, `includes`, `startsWith`, `join`, `reverse`, `indexOf`, number rendering |
| ordered_map.dfy | `OrderedMap` | a JavaScript `Map`: distinct keys in insertion order |
| memory.dfy | `MemoryTools` | src/lib/tools/memory.ts |
| discord_world.dfy | `Discord` | the platform snapshot the tools and handlers read |
| discord_tools.dfy | `DiscordTools` | src/lib/tools/discord.ts |
| registry.dfy | `ToolRegistry` | src/lib/tools/index.ts, the argument schemas, and the prompt's tool list |
| channel_types.dfy | `ChannelTypes` | src/features/awareness/types.ts |
| message_format.dfy | `MessageFormat` | src/features/awareness/message.ts |
| awareness.dfy | `Awareness` | src/features/awareness/index.ts |
| gm_roast.dfy | `GmRoast` | src/features/gm-roast/index.ts |

The memory map is an insertion-ordered sequence of entries with distinct keys, which is how a JavaScript `Map` iterates. Search therefore returns records in exactly the source's order. `WellFormed` is the invariant every tool keeps:
- no key appears twice;
- each record is stored under its own id;
- that id is `userId + "_" + timestamp`.

In the awareness handler, the trigger's second disjunct ("is a reply and the bot is mentioned") already requires the mention. The trigger is therefore exactly "the bot is mentioned", as `Awareness.ShouldRespond` states. The handler itself never sends the model's text: the model acts only through the tools. Its one reply is the fallback sent on failure.

In `join_voice_channel`, a comment says the tool returns success as a placeholder. The code returns `success: false`, and the model follows the code.

## Model

| member | source | states |
|---|---|---|
| MemoryTools.MemoryIdRoundTrip | src/lib/tools/memory.ts:27 | the generated id `userId_now` splits at its last underscore back into the user id and the instant |
| MemoryTools.MemoryIdInjective | src/lib/tools/memory.ts:27 | two adds produce the same id only for the same user at the same millisecond |
| MemoryTools.AddMemory | src/lib/tools/memory.ts:26-39 | returns success with the id; the record under that id has the given user and content, `tags` or `[]`, timestamp `now` and no `updatedAt`; every other key reads as before |
| MemoryTools.AddMemoryWellFormed | src/lib/tools/memory.ts:27-36 | add keeps keys distinct and each record under its own generated id |
| MemoryTools.AddOverwritesOnlySameUserSameInstant | src/lib/tools/memory.ts:36 | add overwrites an existing entry only if it belongs to the same user and was created in the same millisecond |
| MemoryTools.FilterMatching | src/lib/tools/memory.ts:50-57 | keeps exactly the records that match, in their original order |
| MemoryTools.SearchMemory | src/lib/tools/memory.ts:49-61 | a record is returned iff it is stored, belongs to the user, and the query is absent or empty or case-insensitively contained in its content or in some tag; results keep the map's order |
| MemoryTools.FilterKeepsRepeats | src/lib/tools/memory.ts:50-57 | a matching record is kept as many times as it occurs in the input, and every copy of a non-matching record is dropped, as `.filter` does |
| MemoryTools.SearchKeepsRepeats | src/lib/tools/memory.ts:50-57 | each matching record is returned as often as it is stored, and a record that does not match never is |
| MemoryTools.SearchEmptyQuery | src/lib/tools/memory.ts:50-54 | an empty query filters nothing: every stored record of the user is returned |
| MemoryTools.MatchesIgnoresQueryCase | src/lib/tools/memory.ts:55-56 | lower-casing the query first does not change what matches |
| MemoryTools.SearchFindsTagInAnyCase | src/lib/tools/memory.ts:56 | a record tagged "joke" is found by the query "JOKE" |
| MemoryTools.UpdateMemory | src/lib/tools/memory.ts:72-88 | an unknown id gives "Memory not found" and the same map; otherwise id, user and timestamp stay, the content is replaced, tags are replaced only when given, `updatedAt` is `now`, and all other keys and the key order are unchanged |
| MemoryTools.UpdateMemoryWellFormed | src/lib/tools/memory.ts:78-85 | update keeps the map well formed |
| MemoryTools.DeleteMemory | src/lib/tools/memory.ts:97-101 | success iff the id was present; afterwards the id is absent and every other key reads as before |
| MemoryTools.DeleteMemoryWellFormed | src/lib/tools/memory.ts:98 | delete keeps the map well formed |
| MemoryTools.DeleteTwice | src/lib/tools/memory.ts:98-101 | a second delete of the same id reports `success: false` and changes nothing |
| MemoryTools.DeletedNeverFound | src/lib/tools/memory.ts:98 | after a delete, neither search nor list returns a record with that id |
| MemoryTools.EffectiveLimit | src/lib/tools/memory.ts:115 | `limit || 50`: 50 when the limit is missing or 0, the given limit otherwise, so never 0 |
| MemoryTools.SortByRecency | src/lib/tools/memory.ts:114 | a permutation of its input, timestamps non-increasing |
| MemoryTools.NewestPrefix | src/lib/tools/memory.ts:114-115 | a prefix of the sorted records is newest first, and no record left out is newer than one kept |
| MemoryTools.ListMemories | src/lib/tools/memory.ts:111-119 | only the user's stored records, newest first, as many as `slice(0, limit)` keeps with 50 for a missing or zero limit, and none of the omitted records is newer than a returned one |
| MemoryTools.ListHonoursLimit | src/lib/tools/memory.ts:112-115 | a positive limit returns min(count, limit) of the user's records; a negative limit drops that many from the end, down to none |
| MemoryTools.ListDefaultsToFifty | src/lib/tools/memory.ts:115 | with no limit, list returns min(count, 50) records, and a limit of 0 lists the same as no limit |
| MemoryTools.AddThenSearch | src/lib/tools/memory.ts:36-61 | a record just added is returned by an unfiltered search for its user |
| MemoryTools.UpdateThenSearch | src/lib/tools/memory.ts:49-88 | after an update, the owner's search shows the new content and `updatedAt` |
| DiscordTools.Skip | src/lib/tools/discord.ts:13-16 | always `success: true`, nothing changes |
| DiscordTools.ReplyTo | src/lib/tools/discord.ts:26-41 | a missing or non-text channel gives its error, then a missing message gives its error, and neither changes the world; success iff both exist, returning the reply's id; the reply is the bot's, references the message, and is the one new message |
| DiscordTools.SendMessage | src/lib/tools/discord.ts:51-68 | no target gives "Channel ID is required"; a missing or non-sendable target gives its error; neither changes the world; it succeeds iff the target is truthy, known and sendable; on success exactly one new message from the bot in the target channel, whose id is returned |
| DiscordTools.AddUserReaction | src/lib/tools/discord.ts:93 | the bot joins the reaction for that emoji, created when absent; the count rises only for a new user; other reactions are untouched |
| DiscordTools.AddReaction | src/lib/tools/discord.ts:79-94 | the effect happens only after the channel and message guards pass; a failed guard returns its error with the world unchanged; on success only that message's reactions change |
| DiscordTools.RemoveUserReaction | src/lib/tools/discord.ts:124 | the bot leaves that one reaction, and its count drops only if the bot was among its users |
| DiscordTools.RemoveReaction | src/lib/tools/discord.ts:105-125 | channel, message and reaction guards in order, each with its error and an unchanged world; on success only the bot leaves that reaction |
| DiscordTools.ReactThenUnreact | src/lib/tools/discord.ts:93-124 | react then unreact succeeds and leaves the bot out of the reaction; a reaction that existed without the bot is restored exactly |
| DiscordTools.JoinVoiceChannel | src/lib/tools/discord.ts:134-146 | never succeeds and never changes the world; "not implemented yet" iff the channel is a cached voice channel, "Voice channel not found" otherwise |
| DiscordTools.LeaveVoiceChannel | src/lib/tools/discord.ts:155-161 | never succeeds, whatever the world |
| Discord.FindReaction | src/lib/tools/discord.ts:119 | the cache lookup by emoji: the index found holds that emoji and no earlier entry does; none found means no entry holds it |
| Discord.PutMessage | src/lib/tools/discord.ts:40 | storing one message changes only that message of that channel |
| ToolRegistry.WireName | src/lib/tools/index.ts:34-53 | each tool's name is registered to that tool |
| ToolRegistry.RegistryShape | src/lib/tools/index.ts:34-53 | the table has exactly 13 distinct names, one per tool |
| ToolRegistry.AdvertisedMatchesRegistry | src/features/awareness/prompt.ts:24-27 | the tool names the system prompt lists are exactly the registered names |
| ToolRegistry.DecodeFor | src/lib/tools/index.ts:34-53 | checking arguments against the `parameters` schema of any of the 13 registered tools (memory.ts, discord.ts, web-search.ts) yields, when it succeeds, a call of that tool; what it accepts is stated by DecodeForValid, DecodeArgsOf and ExtraKeysIgnored |
| ToolRegistry.ExtraKeysIgnored | src/lib/tools/index.ts:34-53 | keys outside a tool's schema are stripped: decoding the arguments gives the same outcome as decoding only their schema part |
| ToolRegistry.Decode | src/lib/tools/index.ts:34-53 | an unregistered name is reported as unknown and only as such; a decoded call belongs to the tool registered under the name |
| ToolRegistry.DecodeArgsOf | src/lib/tools/index.ts:34-53 | a call written out under its tool's name decodes to itself |
| ToolRegistry.DecodeForValid | src/lib/tools/index.ts:34-53 | for the `parameters` schema of each of the 13 registered tools, whatever decodes re-encodes to exactly the schema's part of the arguments: required fields present with the right type, optional fields absent or well typed |
| ToolRegistry.DecodeValid | src/lib/tools/index.ts:34-53 | decoding succeeds only for a registered name and yields a call of the tool registered under it |
| ToolRegistry.Run | src/lib/tools/index.ts:36-52 | platform tools leave the memory map alone, memory tools leave the platform alone, and search, list and web search change nothing |
| ToolRegistry.Dispatch | src/lib/tools/index.ts:34-53 | an unknown name and ill-typed arguments are rejected; otherwise the decoded call is run |
| ToolRegistry.DispatchRoutes | src/lib/tools/index.ts:36-52 | every registered name runs exactly the tool registered under it |
| ToolRegistry.NamesRouteByFamily | src/lib/tools/index.ts:36-52 | a call that runs under one of the three memory-writing names touches only memory, one under `search_memory`, `list_memories` or `search_web` changes nothing, and one under the seven platform names touches only the platform |
| ToolRegistry.AtMostOneEffect | src/lib/tools/discord.ts:40-124 | a platform call changes at most one message of one channel |
| ToolRegistry.SendDefaultsToContextChannel | src/lib/tools/discord.ts:55-68 | `send_message` with only `content` posts to the channel of the message being answered |
| ChannelTypes.GetChannelType | src/features/awareness/types.ts:6-14 | "unknown" iff no kind holds; a bare kind iff exactly one holds; otherwise a list of the kinds that hold, at least two, in the order text, voice, thread |
| ChannelTypes.GetChannelTypeLabel | src/features/awareness/types.ts:16-24 | the label is never empty |
| ChannelTypes.LabelTable | src/features/awareness/types.ts:9-23 | the label of each of the eight flag combinations, lists joined with " & " |
| ChannelTypes.LabelInjective | src/features/awareness/types.ts:16-24 | different flag combinations get different labels |
| MessageFormat.FormatMessage | src/features/awareness/message.ts:3-11 | the rendering opens with the message-id line and closes with the content between a line break and a final newline; ParseFormatMessage reads all of it back |
| MessageFormat.ParseFormatMessage | src/features/awareness/message.ts:3-11 | the rendering reads back, in order, as message id, author username, channel id, creation time, reactions, then a blank line and the content with a final newline |
| MessageFormat.YouMarkerIff | src/features/awareness/message.ts:8 | ", including YOU" closes a reaction's text iff the bot is among its cached users |
| MessageFormat.ReactionsInCacheOrder | src/features/awareness/message.ts:8 | reactions are rendered in cache order, separated by ", " |
| Awareness.ShouldRespond | src/features/awareness/index.ts:12-15 | the handler proceeds iff the bot's id is among the mentioned users; the reply disjunct adds nothing |
| Awareness.TurnOf | src/features/awareness/index.ts:27-43 | the turn is the assistant's iff the author is the bot; it carries the message's id and instant, one annotation with the username, message id, channel id, content length and ISO timestamp, and as content the TurnContent text, which reads back as the message's id, username and text when id and name have no spaces |
| Awareness.TurnContent | src/features/awareness/index.ts:42 | the turn text `ID:<id> - Author:<username> - Content:<content>` reads back into id, username and text when id and name have no spaces |
| Awareness.ParseTurnContentOf | src/features/awareness/index.ts:42 | the template `ID:<id> - Author:<username> - Content:<content>` reads back into its three parts for any id and name without spaces and any text |
| Awareness.PromptMessages | src/features/awareness/index.ts:52-58 | one system message, then one turn per fetched message with the newest fetched message last |
| Awareness.PromptIsChronological | src/features/awareness/index.ts:26-58 | a history fetched newest first reaches the model oldest first |
| Awareness.BuildRequest | src/features/awareness/index.ts:47-60 | the request offers exactly the registered tools, allows 10 steps, and requires a tool call |
| Awareness.HandleMessage | src/features/awareness/index.ts:10-76 | ignores unmentioned messages; fetches 50 messages; a failed fetch or model call gives exactly the fallback reply, otherwise no reply |
| GmRoast.Triggered | src/features/gm-roast/index.ts:26 | the trigger: the lower-cased content starts with "gm"; TriggeredIff states what that means character by character |
| GmRoast.TriggeredIff | src/features/gm-roast/index.ts:26 | the roast triggers iff the first two characters are g or G, then m or M |
| GmRoast.TriggerExamples | src/features/gm-roast/index.ts:26 | "gmail" and "GMT+2 here" trigger; "good morning" does not |
| GmRoast.HistoryLine | src/features/gm-roast/index.ts:38 | the line `<username> : <content>` reads back into username and content when the username has no space |
| GmRoast.ParseHistoryLineOf | src/features/gm-roast/index.ts:38 | a history line `<username> : <content>` reads back into username and content whenever the username has no space |
| GmRoast.HistoryLines | src/features/gm-roast/index.ts:36-38 | one line per fetched message, in fetch order |
| GmRoast.PromptHistory | src/features/gm-roast/index.ts:22 | the fetched lines reversed and joined by line breaks; NewestLineLast states the resulting order |
| GmRoast.NewestLineLast | src/features/gm-roast/index.ts:22 | the history is reversed and joined by newlines, so the newest line comes last |
| GmRoast.RoastPrompt | src/features/gm-roast/index.ts:8-22 | the prompt is the instructions immediately followed by the history, with nothing in between |
| GmRoast.BuildRequest | src/features/gm-roast/index.ts:43-57 | the system prompt with the history, then the triggering message with mentions resolved |
| GmRoast.HandleMessage | src/features/gm-roast/index.ts:24-76 | ignores non-gm messages; a failed history fetch escapes the handler; a failed model call or empty text sends nothing; otherwise exactly the generated text is sent |
| GmRoast.RepliesAreGeneratedText | src/features/gm-roast/index.ts:59-69 | at most one reply, and it is the model's non-empty text |

## Left out

- The chat client, its caches, gateway events, and asynchronous or network behaviour are left out. A world snapshot replaces them. A channel missing from the cache and a message missing from a channel are map misses. The real `messages.fetch` rejects on an unknown id instead of returning nothing, and such transport errors are not modelled.
- `getMessageContext` is not defined in any source file of this model. The context channel is an `Option` parameter of `send_message`.
- The ids and creation instants the platform assigns to sent messages are not modelled. They are a `Stamp` parameter. The platform gives every new message a fresh id. The model does not assume this: DiscordTools.ReplyTo and DiscordTools.SendMessage state "exactly one new message" under the premise that the stamp's id is not yet in the channel.
- The language models are not modelled. They are parameters: `generate` in the handlers and `webSearch` in the dispatcher. src/lib/tools/web-search.ts is only a pass-through to one of them.
- DiscordTools.AddUserReaction, DiscordTools.RemoveUserReaction: a reaction's count and its cached users are kept consistent only in the way these two functions state. The platform's own reconciliation of counts and caches is not modelled.
- DiscordTools.RemoveReaction, DiscordTools.ReactThenUnreact: removing the last user of a reaction leaves an entry with count 0 in the model, where the platform drops the reaction. So a second `remove_reaction` of the same emoji succeeds in the model, while discord.ts:119-121 would answer "Reaction not found". For the same reason ReactThenUnreact states that the reaction is still found after the unreact. Other platform-side effects are not modelled.
- MemoryTools.AddMemory, MemoryTools.UpdateMemory: the source reads the clock twice in `add_memories` (id and timestamp) and once in `update_memories`. The model takes one instant `now` per call. It keeps instants as milliseconds, not ISO strings.
- MemoryTools.ListMemories: the limit is a whole number. Fractional, NaN and infinite limits are not modelled. The sort's order among records with equal timestamps is not stated, because JavaScript's stable sort keeps insertion order and the model's insertion sort is not proved stable.
- `Strings.ToLower` lower-cases ASCII letters only. Unicode case mapping is not modelled.
- Awareness.TurnOf, Awareness.TurnContent, GmRoast.HistoryLine: the read-back of the author is promised only for names without spaces. User names under the current naming rules have none, but a bot account may keep a legacy name with spaces.
- Awareness.TurnOf: `contentLength` counts characters, not UTF-16 code units. The ISO timestamp comes from the `iso` parameter.
- The persona text of src/features/awareness/prompt.ts and the French instructions of the roast prompt are parameters. Only the prompt's tool list is modelled.
- The logger (src/lib/logger.ts), log calls, and the `tryCatch` helper (src/lib/try-catch.ts) are not modelled.
- database/schema/memories.ts is not modelled. The tools never use it.
- src/index.ts and src/features/test/index.ts (bootstrap and an echo feature) are not part of this model.
- The model's multi-step tool loop inside `generateText` is not modelled. `ToolRegistry.Dispatch` models one tool call.
- GmRoast.HandleMessage: `message.reply(text)` is not awaited in the source. A failure to send is therefore not caught, and the model does not represent it.
- Awareness.HandleMessage: the fallback `message.reply` can itself fail, and that failure is not modelled.
- ToolRegistry.DecodeFor: numbers are whole numbers, and `null` and other JSON values fall under `Other`. The schema library's coercions and error messages are not modelled.
