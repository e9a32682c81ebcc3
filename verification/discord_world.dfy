/** An immutable snapshot of the part of the chat platform the bot sees:
    channels with their kind flags, and the messages in each channel with
    their reactions. It stands in for the discord.js client and its caches. */
module Discord {
  import opened Results

  /** One reaction on a message: the key the reaction cache is indexed by,
      the emoji name shown to people, the platform's count, and the users
      the cache knows to have reacted. */
  datatype Reaction = Reaction(key: string, name: string, count: nat, users: set<string>)

  /** One message. `createdAt` is an instant in milliseconds; `cleanContent`
      is the content with platform mention markup resolved; `referenceId`
      is the id of the message this one replies to. */
  datatype Message = Message(
    id: string,
    authorId: string,
    authorName: string,
    channelId: string,
    createdAt: nat,
    content: string,
    cleanContent: string,
    mentions: set<string>,
    referenceId: Option<string>,
    reactions: seq<Reaction>)

  /** One channel: the answers of `isTextBased()`, `isVoiceBased()`,
      `isThread()` and `isSendable()`, and its messages by id. */
  datatype Channel = Channel(
    textBased: bool,
    voiceBased: bool,
    thread: bool,
    sendable: bool,
    messages: map<string, Message>)

  /** The channel cache, and the bot's own user id and name. */
  datatype World = World(botId: string, botName: string, channels: map<string, Channel>)

  /** Index of the reaction the cache returns for `key`, if any. */
  function FindReaction(rs: seq<Reaction>, key: string): (r: Option<nat>)
    ensures r.Some? ==> r.value < |rs| && rs[r.value].key == key
    ensures r.Some? ==> forall j :: 0 <= j < r.value ==> rs[j].key != key
    ensures r.None? ==> forall j :: 0 <= j < |rs| ==> rs[j].key != key
    decreases |rs|
  {
    if |rs| == 0 then None
    else if rs[0].key == key then Some(0)
    else match FindReaction(rs[1..], key)
      case None => None
      case Some(i) => Some(i + 1)
  }

  /** `w'` is `w` except that message `mid` of channel `cid` may differ or be
      new: one platform effect, and nothing else changed. */
  ghost predicate ChangesAtMost(w: World, w': World, cid: string, mid: string) {
    && w'.botId == w.botId && w'.botName == w.botName
    && w'.channels.Keys == w.channels.Keys
    && (forall c :: c in w.channels && c != cid ==> w'.channels[c] == w.channels[c])
    && cid in w.channels
    && var ch, ch' := w.channels[cid], w'.channels[cid];
    && ch'.textBased == ch.textBased && ch'.voiceBased == ch.voiceBased
    && ch'.thread == ch.thread && ch'.sendable == ch.sendable
    && ch'.messages.Keys == ch.messages.Keys + {mid}
    && forall k :: k in ch.messages && k != mid ==> ch'.messages[k] == ch.messages[k]
  }

  /** Stores message `m` under id `mid` in channel `cid`. */
  function PutMessage(w: World, cid: string, mid: string, m: Message): (w': World)
    requires cid in w.channels
    ensures ChangesAtMost(w, w', cid, mid)
    ensures w'.channels[cid].messages[mid] == m
  {
    var ch := w.channels[cid];
    w.(channels := w.channels[cid := ch.(messages := ch.messages[mid := m])])
  }
}
