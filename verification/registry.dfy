/** The `annaTools` table of src/lib/tools/index.ts: thirteen wire names, the
    argument schema of each tool, and a dispatcher that decodes a call's
    JSON arguments the way the tools' schemas do and runs the tool. */
module ToolRegistry {
  import opened Results
  import MemoryTools
  import Discord
  import DiscordTools

  datatype Tool =
    | AddMemories | SearchMemory | UpdateMemories | DeleteMemory | ListMemories
    | Skip | ReplyTo | SendMessage | AddReaction | RemoveReaction
    | JoinVoiceChannel | LeaveVoiceChannel
    | SearchWeb

  /** Every tool, in the order the table lists them. */
  const AllTools: seq<Tool> := [
    AddMemories, SearchMemory, UpdateMemories, DeleteMemory, ListMemories,
    Skip, ReplyTo, SendMessage, AddReaction, RemoveReaction,
    JoinVoiceChannel, LeaveVoiceChannel,
    SearchWeb]

  /** `annaTools`: wire name to tool. */
  const Registry: map<string, Tool> := map[
    "add_memories" := AddMemories,
    "search_memory" := SearchMemory,
    "update_memories" := UpdateMemories,
    "delete_memory" := DeleteMemory,
    "list_memories" := ListMemories,
    "skip" := Skip,
    "reply_to" := ReplyTo,
    "send_message" := SendMessage,
    "add_reaction" := AddReaction,
    "remove_reaction" := RemoveReaction,
    "join_voice_channel" := JoinVoiceChannel,
    "leave_voice_channel" := LeaveVoiceChannel,
    "search_web" := SearchWeb]

  /** The name each tool is registered under. */
  function WireName(t: Tool): (r: string)
    ensures r in Registry && Registry[r] == t
  {
    match t
    case AddMemories => "add_memories"
    case SearchMemory => "search_memory"
    case UpdateMemories => "update_memories"
    case DeleteMemory => "delete_memory"
    case ListMemories => "list_memories"
    case Skip => "skip"
    case ReplyTo => "reply_to"
    case SendMessage => "send_message"
    case AddReaction => "add_reaction"
    case RemoveReaction => "remove_reaction"
    case JoinVoiceChannel => "join_voice_channel"
    case LeaveVoiceChannel => "leave_voice_channel"
    case SearchWeb => "search_web"
  }

  /** The table has thirteen names, one per tool, and each tool's entry is
      the name it is registered under. */
  lemma RegistryShape()
    ensures |Registry.Keys| == |AllTools| == 13
    ensures forall t :: t in AllTools
    ensures forall i, j :: 0 <= i < j < |AllTools| ==> AllTools[i] != AllTools[j]
    ensures forall name :: name in Registry ==> WireName(Registry[name]) == name
  {
    AllToolsDistinct();
    forall t
      ensures t in AllTools
    {
      assert AllTools[Position(t)] == t;
    }
    RegistryInverse();
    var names := seq(|AllTools|, i requires 0 <= i < |AllTools| => WireName(AllTools[i]));
    forall i, j | 0 <= i < j < |names|
      ensures names[i] != names[j]
    {
      assert Registry[names[i]] == AllTools[i];
      assert Registry[names[j]] == AllTools[j];
    }
    forall name | name in Registry
      ensures name in set i | 0 <= i < |names| :: names[i]
    {
      var i := Position(Registry[name]);
      assert names[i] == name;
    }
    assert Registry.Keys == set i | 0 <= i < |names| :: names[i];
    DistinctCard(names);
  }

  /** Every registered name is the name of the tool it is registered to. */
  lemma RegistryInverse()
    ensures forall name :: name in Registry ==> WireName(Registry[name]) == name
  {
  }

  lemma AllToolsDistinct()
    ensures forall i, j :: 0 <= i < j < |AllTools| ==> AllTools[i] != AllTools[j]
  {
    forall i | 0 <= i < |AllTools|
      ensures Position(AllTools[i]) == i
    {
    }
  }

  /** Where a tool sits in `AllTools`. */
  function Position(t: Tool): (i: nat)
    ensures i < |AllTools| && AllTools[i] == t
  {
    match t
    case AddMemories => 0
    case SearchMemory => 1
    case UpdateMemories => 2
    case DeleteMemory => 3
    case ListMemories => 4
    case Skip => 5
    case ReplyTo => 6
    case SendMessage => 7
    case AddReaction => 8
    case RemoveReaction => 9
    case JoinVoiceChannel => 10
    case LeaveVoiceChannel => 11
    case SearchWeb => 12
  }

  /** A sequence of distinct elements has as many elements as its set. */
  lemma {:induction false} DistinctCard<T>(s: seq<T>)
    requires forall i, j :: 0 <= i < j < |s| ==> s[i] != s[j]
    ensures |set i | 0 <= i < |s| :: s[i]| == |s|
  {
    if |s| > 0 {
      var init := s[..|s| - 1];
      DistinctCard(init);
      assert (set i | 0 <= i < |s| :: s[i]) == (set i | 0 <= i < |init| :: init[i]) + {s[|s| - 1]};
      assert s[|s| - 1] !in (set i | 0 <= i < |init| :: init[i]);
    }
  }

  /** The tool names the system prompt of src/features/awareness/prompt.ts
      advertises, under its three headings. */
  const AdvertisedMemory: seq<string> := ["add_memories", "update_memories", "delete_memory", "search_memory", "list_memories"]
  const AdvertisedDiscord: seq<string> :=
    ["skip", "reply_to", "send_message", "add_reaction", "remove_reaction", "join_voice_channel", "leave_voice_channel"]
  const AdvertisedInformation: seq<string> := ["search_web"]

  /** The prompt advertises exactly the registered names. */
  lemma AdvertisedMatchesRegistry()
    ensures var advertised := AdvertisedMemory + AdvertisedDiscord + AdvertisedInformation;
            (set i | 0 <= i < |advertised| :: advertised[i]) == Registry.Keys
  {
    var advertised := AdvertisedMemory + AdvertisedDiscord + AdvertisedInformation;
    var shown := set i | 0 <= i < |advertised| :: advertised[i];
    forall i | 0 <= i < |advertised|
      ensures advertised[i] in Registry
    {
    }
    forall name | name in Registry
      ensures name in shown
    {
      RegistryShape();
      var j := AdvertisedPosition(Registry[name]);
      assert advertised[j] == name;
    }
  }

  /** Where the prompt lists each tool's name. */
  function AdvertisedPosition(t: Tool): (j: nat)
    ensures var advertised := AdvertisedMemory + AdvertisedDiscord + AdvertisedInformation;
            j < |advertised| && advertised[j] == WireName(t)
  {
    match t
    case AddMemories => 0
    case UpdateMemories => 1
    case DeleteMemory => 2
    case SearchMemory => 3
    case ListMemories => 4
    case Skip => 5
    case ReplyTo => 6
    case SendMessage => 7
    case AddReaction => 8
    case RemoveReaction => 9
    case JoinVoiceChannel => 10
    case LeaveVoiceChannel => 11
    case SearchWeb => 12
  }

  // ---------------------------------------------------------------- arguments

  /** A JSON argument value, as far as the schemas distinguish them: a
      string, a (whole) number, an array of strings, or anything else. */
  datatype Value = Str(s: string) | Num(n: int) | Strs(items: seq<string>) | Other

  type Args = map<string, Value>

  /** A call whose arguments satisfy its tool's schema. */
  datatype Call =
    | AddMemoriesCall(userId: string, memory: string, tags: Option<seq<string>>)
    | SearchMemoryCall(userId: string, query: Option<string>)
    | UpdateMemoriesCall(memoryId: string, memory: string, tags: Option<seq<string>>)
    | DeleteMemoryCall(memoryId: string)
    | ListMemoriesCall(userId: string, limit: Option<int>)
    | SkipCall(reason: Option<string>)
    | ReplyToCall(content: string, messageId: string, channelId: string)
    | SendMessageCall(content: string, target: Option<string>)
    | AddReactionCall(messageId: string, channelId: string, emoji: string)
    | RemoveReactionCall(messageId: string, channelId: string, emoji: string)
    | JoinVoiceChannelCall(channelId: string)
    | LeaveVoiceChannelCall(reason: Option<string>)
    | SearchWebCall(searchQuery: string)

  function ToolOf(c: Call): Tool {
    match c
    case AddMemoriesCall(_, _, _) => AddMemories
    case SearchMemoryCall(_, _) => SearchMemory
    case UpdateMemoriesCall(_, _, _) => UpdateMemories
    case DeleteMemoryCall(_) => DeleteMemory
    case ListMemoriesCall(_, _) => ListMemories
    case SkipCall(_) => Skip
    case ReplyToCall(_, _, _) => ReplyTo
    case SendMessageCall(_, _) => SendMessage
    case AddReactionCall(_, _, _) => AddReaction
    case RemoveReactionCall(_, _, _) => RemoveReaction
    case JoinVoiceChannelCall(_) => JoinVoiceChannel
    case LeaveVoiceChannelCall(_) => LeaveVoiceChannel
    case SearchWebCall(_) => SearchWeb
  }

  /** The argument names each tool's schema declares. */
  function SchemaKeys(t: Tool): set<string> {
    match t
    case AddMemories => {"userId", "memory", "tags"}
    case SearchMemory => {"userId", "query"}
    case UpdateMemories => {"memoryId", "memory", "tags"}
    case DeleteMemory => {"memoryId"}
    case ListMemories => {"userId", "limit"}
    case Skip => {"reason"}
    case ReplyTo => {"content", "messageId", "channelId"}
    case SendMessage => {"content", "channelId"}
    case AddReaction => {"messageId", "channelId", "emoji"}
    case RemoveReaction => {"messageId", "channelId", "emoji"}
    case JoinVoiceChannel => {"channelId"}
    case LeaveVoiceChannel => {"reason"}
    case SearchWeb => {"query"}
  }

  /** A required string field. */
  function ReqStr(a: Args, k: string): (r: Option<string>)
    ensures r.Some? <==> k in a && a[k].Str?
    ensures r.Some? ==> a[k] == Str(r.value)
  {
    if k in a && a[k].Str? then Some(a[k].s) else None
  }

  /** An optional field: absent is fine (`Some(None)`), present must have
      the right shape, anything else fails (`None`). */
  function OptStr(a: Args, k: string): (r: Option<Option<string>>)
    ensures r == Some(None) <==> k !in a
    ensures (exists s :: r == Some(Some(s))) <==> k in a && a[k].Str?
    ensures r.Some? && r.value.Some? ==> a[k] == Str(r.value.value)
  {
    if k !in a then Some(None)
    else if a[k].Str? then Some(Some(a[k].s))
    else None
  }

  function OptStrs(a: Args, k: string): (r: Option<Option<seq<string>>>)
    ensures r == Some(None) <==> k !in a
    ensures r.Some? && r.value.Some? <==> k in a && a[k].Strs?
    ensures r.Some? && r.value.Some? ==> a[k] == Strs(r.value.value)
  {
    if k !in a then Some(None)
    else if a[k].Strs? then Some(Some(a[k].items))
    else None
  }

  function OptNum(a: Args, k: string): (r: Option<Option<int>>)
    ensures r == Some(None) <==> k !in a
    ensures r.Some? && r.value.Some? <==> k in a && a[k].Num?
    ensures r.Some? && r.value.Some? ==> a[k] == Num(r.value.value)
  {
    if k !in a then Some(None)
    else if a[k].Num? then Some(Some(a[k].n))
    else None
  }

  datatype Decoded = UnknownTool | InvalidArguments | Valid(call: Call)

  /** Checks the arguments against the schema of tool `t`; keys outside the
      schema are ignored. */
  function DecodeFor(t: Tool, a: Args): (r: Option<Call>)
    ensures r.Some? ==> ToolOf(r.value) == t
  {
    match t
    case AddMemories =>
      (match (ReqStr(a, "userId"), ReqStr(a, "memory"), OptStrs(a, "tags"))
       case (Some(u), Some(m), Some(tags)) => Some(AddMemoriesCall(u, m, tags))
       case _ => None)
    case SearchMemory =>
      (match (ReqStr(a, "userId"), OptStr(a, "query"))
       case (Some(u), Some(q)) => Some(SearchMemoryCall(u, q))
       case _ => None)
    case UpdateMemories =>
      (match (ReqStr(a, "memoryId"), ReqStr(a, "memory"), OptStrs(a, "tags"))
       case (Some(i), Some(m), Some(tags)) => Some(UpdateMemoriesCall(i, m, tags))
       case _ => None)
    case DeleteMemory =>
      (match ReqStr(a, "memoryId")
       case Some(i) => Some(DeleteMemoryCall(i))
       case _ => None)
    case ListMemories =>
      (match (ReqStr(a, "userId"), OptNum(a, "limit"))
       case (Some(u), Some(l)) => Some(ListMemoriesCall(u, l))
       case _ => None)
    case Skip =>
      (match OptStr(a, "reason")
       case Some(r) => Some(SkipCall(r))
       case _ => None)
    case ReplyTo =>
      (match (ReqStr(a, "content"), ReqStr(a, "messageId"), ReqStr(a, "channelId"))
       case (Some(c), Some(m), Some(ch)) => Some(ReplyToCall(c, m, ch))
       case _ => None)
    case SendMessage =>
      (match (ReqStr(a, "content"), OptStr(a, "channelId"))
       case (Some(c), Some(ch)) => Some(SendMessageCall(c, ch))
       case _ => None)
    case AddReaction =>
      (match (ReqStr(a, "messageId"), ReqStr(a, "channelId"), ReqStr(a, "emoji"))
       case (Some(m), Some(ch), Some(e)) => Some(AddReactionCall(m, ch, e))
       case _ => None)
    case RemoveReaction =>
      (match (ReqStr(a, "messageId"), ReqStr(a, "channelId"), ReqStr(a, "emoji"))
       case (Some(m), Some(ch), Some(e)) => Some(RemoveReactionCall(m, ch, e))
       case _ => None)
    case JoinVoiceChannel =>
      (match ReqStr(a, "channelId")
       case Some(ch) => Some(JoinVoiceChannelCall(ch))
       case _ => None)
    case LeaveVoiceChannel =>
      (match OptStr(a, "reason")
       case Some(r) => Some(LeaveVoiceChannelCall(r))
       case _ => None)
    case SearchWeb =>
      (match ReqStr(a, "query")
       case Some(q) => Some(SearchWebCall(q))
       case _ => None)
  }

  /** Looks the name up, then checks the arguments against its tool's schema. */
  function Decode(name: string, a: Args): (r: Decoded)
    ensures r == UnknownTool <==> name !in Registry
    ensures r.Valid? ==> name in Registry && ToolOf(r.call) == Registry[name]
  {
    if name !in Registry then UnknownTool
    else match DecodeFor(Registry[name], a)
      case None => InvalidArguments
      case Some(c) => Valid(c)
  }

  function OptionalEntry(k: string, v: Option<Value>): Args {
    if v.Some? then map[k := v.value] else map[]
  }

  function StrOpt(v: Option<string>): Option<Value> {
    if v.Some? then Some(Str(v.value)) else None
  }

  /** The arguments object a call is written as: required fields always,
      optional fields only when given. */
  function ArgsOf(c: Call): (r: Args)
    ensures r.Keys <= SchemaKeys(ToolOf(c))
  {
    match c
    case AddMemoriesCall(u, m, t) =>
      map["userId" := Str(u), "memory" := Str(m)] + OptionalEntry("tags", if t.Some? then Some(Strs(t.value)) else None)
    case SearchMemoryCall(u, q) => map["userId" := Str(u)] + OptionalEntry("query", StrOpt(q))
    case UpdateMemoriesCall(i, m, t) =>
      map["memoryId" := Str(i), "memory" := Str(m)] + OptionalEntry("tags", if t.Some? then Some(Strs(t.value)) else None)
    case DeleteMemoryCall(i) => map["memoryId" := Str(i)]
    case ListMemoriesCall(u, l) => map["userId" := Str(u)] + OptionalEntry("limit", if l.Some? then Some(Num(l.value)) else None)
    case SkipCall(r) => OptionalEntry("reason", StrOpt(r))
    case ReplyToCall(c, m, ch) => map["content" := Str(c), "messageId" := Str(m), "channelId" := Str(ch)]
    case SendMessageCall(c, ch) => map["content" := Str(c)] + OptionalEntry("channelId", StrOpt(ch))
    case AddReactionCall(m, ch, e) => map["messageId" := Str(m), "channelId" := Str(ch), "emoji" := Str(e)]
    case RemoveReactionCall(m, ch, e) => map["messageId" := Str(m), "channelId" := Str(ch), "emoji" := Str(e)]
    case JoinVoiceChannelCall(ch) => map["channelId" := Str(ch)]
    case LeaveVoiceChannelCall(r) => OptionalEntry("reason", StrOpt(r))
    case SearchWebCall(q) => map["query" := Str(q)]
  }

  /** A call written out under its tool's name decodes to itself. */
  lemma DecodeArgsOf(c: Call)
    ensures Decode(WireName(ToolOf(c)), ArgsOf(c)) == Valid(c)
  {
    DecodeForArgsOf(c);
  }

  lemma DecodeForArgsOf(c: Call)
    ensures DecodeFor(ToolOf(c), ArgsOf(c)) == Some(c)
  {
    var t := ToolOf(c);
    if IsPlatformTool(t) && NeedsChannel(t) {
      DecodeChannelArgsOf(c);
    } else if IsPlatformTool(t) {
      DecodeMessageArgsOf(c);
    } else if IsQueryTool(t) {
      DecodeQueryArgsOf(c);
    } else {
      DecodeWriteArgsOf(c);
    }
  }

  lemma DecodeWriteArgsOf(c: Call)
    requires !IsPlatformTool(ToolOf(c)) && !IsQueryTool(ToolOf(c))
    ensures DecodeFor(ToolOf(c), ArgsOf(c)) == Some(c)
  {
    match c
    case AddMemoriesCall(_, _, _) =>
    case UpdateMemoriesCall(_, _, _) =>
    case DeleteMemoryCall(_) =>
  }

  lemma DecodeQueryArgsOf(c: Call)
    requires IsQueryTool(ToolOf(c))
    ensures DecodeFor(ToolOf(c), ArgsOf(c)) == Some(c)
  {
    match c
    case SearchMemoryCall(_, _) =>
    case ListMemoriesCall(_, _) =>
    case SearchWebCall(_) =>
  }

  lemma DecodeMessageArgsOf(c: Call)
    requires IsPlatformTool(ToolOf(c)) && !NeedsChannel(ToolOf(c))
    ensures DecodeFor(ToolOf(c), ArgsOf(c)) == Some(c)
  {
    match c
    case SkipCall(_) =>
    case SendMessageCall(_, _) =>
    case LeaveVoiceChannelCall(_) =>
  }

  lemma DecodeChannelArgsOf(c: Call)
    requires NeedsChannel(ToolOf(c))
    ensures DecodeFor(ToolOf(c), ArgsOf(c)) == Some(c)
  {
    match c
    case ReplyToCall(_, _, _) =>
    case AddReactionCall(_, _, _) =>
    case RemoveReactionCall(_, _, _) =>
    case JoinVoiceChannelCall(_) =>
  }

  /** The part of `a` a schema with keys `keys` looks at. */
  function Restrict(a: Args, keys: set<string>): (r: Args)
    ensures r.Keys == a.Keys * keys
    ensures forall k :: k in r ==> r[k] == a[k]
  {
    map k | k in a && k in keys :: a[k]
  }

  /** Keys outside the schema are ignored: decoding sees only the schema's
      part of the arguments, so extra keys never change the outcome. */
  lemma ExtraKeysIgnored(t: Tool, a: Args)
    ensures DecodeFor(t, a) == DecodeFor(t, Restrict(a, SchemaKeys(t)))
  {
    var b := Restrict(a, SchemaKeys(t));
    forall k | k in SchemaKeys(t)
      ensures ReqStr(a, k) == ReqStr(b, k) && OptStr(a, k) == OptStr(b, k)
      ensures OptStrs(a, k) == OptStrs(b, k) && OptNum(a, k) == OptNum(b, k)
    {
    }
  }

  /** Decoding for tool `t` yields a call of `t` whose arguments are exactly
      the schema's part of the input: what decodes, re-encodes to the same. */
  lemma DecodeForValid(t: Tool, a: Args, c: Call)
    requires DecodeFor(t, a) == Some(c)
    ensures ToolOf(c) == t
    ensures ArgsOf(c) == Restrict(a, SchemaKeys(t))
  {
    if IsPlatformTool(t) && NeedsChannel(t) {
      DecodeChannelValid(t, a, c);
    } else if IsPlatformTool(t) {
      DecodeMessageValid(t, a, c);
    } else if IsQueryTool(t) {
      DecodeQueryValid(t, a, c);
    } else {
      DecodeWriteValid(t, a, c);
    }
  }

  /** The tools of src/lib/tools/discord.ts. */
  predicate IsPlatformTool(t: Tool) {
    t in {Skip, ReplyTo, SendMessage, AddReaction, RemoveReaction, JoinVoiceChannel, LeaveVoiceChannel}
  }

  /** The platform tools whose schema requires a channel id. */
  predicate NeedsChannel(t: Tool) {
    t in {ReplyTo, AddReaction, RemoveReaction, JoinVoiceChannel}
  }

  /** The tools that only read. */
  predicate IsQueryTool(t: Tool) {
    t in {SearchMemory, ListMemories, SearchWeb}
  }

  lemma DecodeWriteValid(t: Tool, a: Args, c: Call)
    requires !IsPlatformTool(t) && !IsQueryTool(t) && DecodeFor(t, a) == Some(c)
    ensures ToolOf(c) == t
    ensures ArgsOf(c) == Restrict(a, SchemaKeys(t))
  {
    assert ArgsOf(c).Keys == Restrict(a, SchemaKeys(t)).Keys;
  }

  lemma DecodeQueryValid(t: Tool, a: Args, c: Call)
    requires IsQueryTool(t) && DecodeFor(t, a) == Some(c)
    ensures ToolOf(c) == t
    ensures ArgsOf(c) == Restrict(a, SchemaKeys(t))
  {
    assert ArgsOf(c).Keys == Restrict(a, SchemaKeys(t)).Keys;
  }

  lemma DecodeMessageValid(t: Tool, a: Args, c: Call)
    requires IsPlatformTool(t) && !NeedsChannel(t) && DecodeFor(t, a) == Some(c)
    ensures ToolOf(c) == t
    ensures ArgsOf(c) == Restrict(a, SchemaKeys(t))
  {
    assert ArgsOf(c).Keys == Restrict(a, SchemaKeys(t)).Keys;
  }

  lemma DecodeChannelValid(t: Tool, a: Args, c: Call)
    requires NeedsChannel(t) && DecodeFor(t, a) == Some(c)
    ensures ToolOf(c) == t
    ensures ArgsOf(c) == Restrict(a, SchemaKeys(t))
  {
    assert ArgsOf(c).Keys == Restrict(a, SchemaKeys(t)).Keys;
  }

  /** Decoding only succeeds on a registered name, and yields a call of the
      tool registered under it whose arguments are the schema's part of the
      input. */
  lemma DecodeValid(name: string, a: Args, c: Call)
    requires Decode(name, a) == Valid(c)
    ensures name in Registry && ToolOf(c) == Registry[name] && WireName(ToolOf(c)) == name
    ensures ArgsOf(c) == Restrict(a, SchemaKeys(ToolOf(c)))
  {
    RegistryShape();
    DecodeForValid(Registry[name], a, c);
  }

  // ---------------------------------------------------------------- dispatch

  /** What the tools act on: the memory map and the chat platform. */
  datatype State = State(store: MemoryTools.Store, world: Discord.World)

  /** Per-call inputs from outside: the clock, the channel of the message
      being answered, the id and instant the platform gives a new message,
      and the answer of the external search model. */
  datatype Env = Env(now: nat, contextChannel: Option<string>, stamp: DiscordTools.Stamp, webSearch: string -> string)

  /** What a tool returns to the model. */
  datatype ToolResult =
    | StatusResult(status: Status)
    | MemoriesResult(memories: seq<MemoryTools.MemoryData>)
    | TextResult(text: string)

  datatype Dispatched = NoSuchTool | BadArguments | Ran(result: ToolResult, state: State)

  /** A call of one of the tools of src/lib/tools/discord.ts. */
  predicate IsPlatformCall(c: Call) {
    IsPlatformTool(ToolOf(c))
  }

  /** A call of a tool that only reads: search, list or web search. */
  predicate IsQueryCall(c: Call) {
    IsQueryTool(ToolOf(c))
  }

  /** Runs a platform tool. */
  function Act(c: Call, w: Discord.World, env: Env): DiscordTools.Acted
    requires IsPlatformCall(c)
  {
    match c
    case SkipCall(reason) => DiscordTools.Skip(w, reason)
    case ReplyToCall(content, m, ch) => DiscordTools.ReplyTo(w, content, m, ch, env.stamp)
    case SendMessageCall(content, ch) => DiscordTools.SendMessage(w, content, ch, env.contextChannel, env.stamp)
    case AddReactionCall(m, ch, e) => DiscordTools.AddReaction(w, m, ch, e)
    case RemoveReactionCall(m, ch, e) => DiscordTools.RemoveReaction(w, m, ch, e)
    case JoinVoiceChannelCall(ch) => DiscordTools.JoinVoiceChannel(w, ch)
    case LeaveVoiceChannelCall(reason) => DiscordTools.LeaveVoiceChannel(w, reason)
  }

  /** Runs a memory or web-search tool. */
  function Query(c: Call, s: MemoryTools.Store, env: Env): (r: (ToolResult, MemoryTools.Store))
    requires !IsPlatformCall(c)
    ensures IsQueryCall(c) ==> r.1 == s
    ensures r.0.MemoriesResult? <==> c.SearchMemoryCall? || c.ListMemoriesCall?
    ensures r.0.TextResult? <==> c.SearchWebCall?
  {
    match c
    case AddMemoriesCall(u, m, t) =>
      var w := MemoryTools.AddMemory(s, u, m, t, env.now);
      (StatusResult(w.status), w.store)
    case SearchMemoryCall(u, q) => (MemoriesResult(MemoryTools.SearchMemory(s, u, q)), s)
    case UpdateMemoriesCall(i, m, t) =>
      var w := MemoryTools.UpdateMemory(s, i, m, t, env.now);
      (StatusResult(w.status), w.store)
    case DeleteMemoryCall(i) =>
      var w := MemoryTools.DeleteMemory(s, i);
      (StatusResult(w.status), w.store)
    case ListMemoriesCall(u, l) => (MemoriesResult(MemoryTools.ListMemories(s, u, l)), s)
    case SearchWebCall(q) => (TextResult(env.webSearch(q)), s)
  }

  /** Runs a decoded call: platform tools touch only the platform, memory
      tools only the memory map, and the query tools nothing. */
  function Run(c: Call, st: State, env: Env): (r: (ToolResult, State))
    ensures IsPlatformCall(c) ==> r.1.store == st.store && r.0.StatusResult?
    ensures !IsPlatformCall(c) ==> r.1.world == st.world
    ensures IsQueryCall(c) ==> r.1 == st
  {
    if IsPlatformCall(c) then
      var acted := Act(c, st.world, env);
      (StatusResult(acted.status), st.(world := acted.world))
    else
      var (res, s') := Query(c, st.store, env);
      (res, st.(store := s'))
  }

  /** A model's tool call: look the name up, decode the arguments, run. */
  function Dispatch(name: string, a: Args, st: State, env: Env): (r: Dispatched)
    ensures r == NoSuchTool <==> name !in Registry
    ensures r == BadArguments <==> name in Registry && Decode(name, a) == InvalidArguments
    ensures r.Ran? ==> Decode(name, a).Valid? && r == Ran(Run(Decode(name, a).call, st, env).0, Run(Decode(name, a).call, st, env).1)
  {
    match Decode(name, a)
    case UnknownTool => NoSuchTool
    case InvalidArguments => BadArguments
    case Valid(c) => var (res, st') := Run(c, st, env); Ran(res, st')
  }

  /** Names route to their tools: each registered name runs exactly the tool
      registered under it on well-formed arguments. */
  lemma DispatchRoutes(c: Call, st: State, env: Env)
    ensures Dispatch(WireName(ToolOf(c)), ArgsOf(c), st, env) == Ran(Run(c, st, env).0, Run(c, st, env).1)
  {
    DecodeArgsOf(c);
  }

  /** The wire names of the tools that change memories, of those that only
      read, and of the platform tools. */
  const WriteNames := {"add_memories", "update_memories", "delete_memory"}
  const QueryNames := {"search_memory", "list_memories", "search_web"}
  const PlatformNames := {"skip", "reply_to", "send_message", "add_reaction", "remove_reaction",
                          "join_voice_channel", "leave_voice_channel"}

  /** The memory names run the memory tools, the platform names the
      platform tools, and `search_web` the web search. */
  lemma NamesRouteByFamily(name: string, a: Args, st: State, env: Env)
    ensures var r := Dispatch(name, a, st, env);
            && (r.Ran? && name in WriteNames ==> r.state.world == st.world)
            && (r.Ran? && name in QueryNames ==> r.state == st)
            && (r.Ran? && name in PlatformNames ==> r.state.store == st.store)
  {
    if Dispatch(name, a, st, env).Ran? {
      var c := Decode(name, a).call;
      DecodeValid(name, a, c);
      assert Dispatch(name, a, st, env).state == Run(c, st, env).1;
      FamilyOfName(name);
    }
  }

  /** The family of the tool each registered name stands for. */
  lemma FamilyOfName(name: string)
    requires name in Registry
    ensures name in WriteNames ==> !IsPlatformTool(Registry[name]) && !IsQueryTool(Registry[name])
    ensures name in QueryNames ==> IsQueryTool(Registry[name])
    ensures name in PlatformNames ==> IsPlatformTool(Registry[name])
  {
  }

  /** Each platform call changes at most one message of one channel. */
  lemma AtMostOneEffect(c: Call, st: State, env: Env)
    requires IsPlatformCall(c)
    ensures var w' := Run(c, st, env).1.world;
            w' == st.world || exists cid, mid :: Discord.ChangesAtMost(st.world, w', cid, mid)
  {
    var w' := Run(c, st, env).1.world;
    match c
    case ReplyToCall(content, m, ch) =>
      if w' != st.world {
        assert Discord.ChangesAtMost(st.world, w', ch, env.stamp.id);
      }
    case SendMessageCall(content, ch) =>
      if w' != st.world {
        var cid := DiscordTools.SendTarget(ch, env.contextChannel).value;
        assert Discord.ChangesAtMost(st.world, w', cid, env.stamp.id);
      }
    case AddReactionCall(m, ch, e) =>
      if w' != st.world {
        assert Discord.ChangesAtMost(st.world, w', ch, m);
      }
    case RemoveReactionCall(m, ch, e) =>
      if w' != st.world {
        assert Discord.ChangesAtMost(st.world, w', ch, m);
      }
    case _ =>
  }

  /** `send_message` without a channel id goes to the channel of the message
      being answered. */
  lemma SendDefaultsToContextChannel(content: string, st: State, env: Env)
    requires env.contextChannel.Some? && env.contextChannel.value != ""
    requires env.contextChannel.value in st.world.channels
    requires st.world.channels[env.contextChannel.value].sendable
    ensures var r := Dispatch("send_message", map["content" := Str(content)], st, env);
            && r.Ran? && r.result == StatusResult(SucceededWith(MessageId, env.stamp.id))
            && env.stamp.id in r.state.world.channels[env.contextChannel.value].messages
  {
    var c := SendMessageCall(content, None);
    assert ArgsOf(c) == map["content" := Str(content)];
    DecodeArgsOf(c);
  }
}
