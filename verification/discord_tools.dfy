/** The platform action tools of src/lib/tools/discord.ts. Each is a chain of
    guards (channel exists and has the right kind, message exists, reaction
    exists) followed by at most one effect on the world. */
module DiscordTools {
  import opened Results
  import opened Discord

  const ChannelNotTextBased := "Channel not found or not text-based"
  const MessageNotFound := "Message not found"
  const ChannelIdRequired := "Channel ID is required"
  const ChannelNotSendable := "Channel not found or not sendable"
  const ReactionNotFound := "Reaction not found"
  const VoiceChannelNotFound := "Voice channel not found"
  const VoiceNotImplemented := "Voice channel functionality not implemented yet"

  /** The id and creation instant the platform gives a message the bot sends. */
  datatype Stamp = Stamp(id: string, at: nat)

  /** What an action tool returns, and the world it leaves. */
  datatype Acted = Acted(status: Status, world: World)

  /** `channel && channel.isTextBased()` for the cached channel `cid`. */
  predicate IsTextChannel(w: World, cid: string) {
    cid in w.channels && w.channels[cid].textBased
  }

  /** A JavaScript-truthy optional string: present and not empty. */
  predicate Truthy(s: Option<string>) {
    s.Some? && s.value != ""
  }

  /** `skip`: always `{ success: true }`, and nothing happens. */
  function Skip(w: World, reason: Option<string>): (r: Acted)
    ensures r.status == Succeeded && r.world == w
  {
    Acted(Succeeded, w)
  }

  /** The message the bot posts when it replies to `messageId` in `cid`. */
  function ReplyMessage(w: World, cid: string, messageId: string, content: string, stamp: Stamp): Message {
    Message(stamp.id, w.botId, w.botName, cid, stamp.at, content, content, {}, Some(messageId), [])
  }

  /** `reply_to`: replies to a message of a text channel and returns the id
      of the reply. */
  function ReplyTo(w: World, content: string, messageId: string, channelId: string, stamp: Stamp): (r: Acted)
    ensures !IsTextChannel(w, channelId) ==> r == Acted(FailedWith(ChannelNotTextBased), w)
    ensures IsTextChannel(w, channelId) && messageId !in w.channels[channelId].messages
            ==> r == Acted(FailedWith(MessageNotFound), w)
    ensures r.status.Success() <==> IsTextChannel(w, channelId) && messageId in w.channels[channelId].messages
    ensures r.status.Success() ==>
              && r.status == SucceededWith(ReplyId, stamp.id)
              && ChangesAtMost(w, r.world, channelId, stamp.id)
              && var reply := r.world.channels[channelId].messages[stamp.id];
              && reply.authorId == w.botId && reply.content == content
              && reply.referenceId == Some(messageId) && reply.channelId == channelId
    ensures r.status.Success() && stamp.id !in w.channels[channelId].messages
            ==> |r.world.channels[channelId].messages| == |w.channels[channelId].messages| + 1
  {
    if !IsTextChannel(w, channelId) then Acted(FailedWith(ChannelNotTextBased), w)
    else if messageId !in w.channels[channelId].messages then Acted(FailedWith(MessageNotFound), w)
    else
      var w' := PutMessage(w, channelId, stamp.id, ReplyMessage(w, channelId, messageId, content, stamp));
      Acted(SucceededWith(ReplyId, stamp.id), w')
  }

  /** The channel `send_message` targets: `channelId || <context channel>`. */
  function SendTarget(channelId: Option<string>, contextChannel: Option<string>): (r: Option<string>)
    ensures Truthy(channelId) ==> r == channelId
    ensures !Truthy(channelId) ==> r == contextChannel
  {
    if Truthy(channelId) then channelId else contextChannel
  }

  /** `send_message`: posts a new message to the given channel, or to the
      channel of the invocation's context when none is given. */
  function SendMessage(w: World, content: string, channelId: Option<string>, contextChannel: Option<string>, stamp: Stamp): (r: Acted)
    ensures !Truthy(SendTarget(channelId, contextChannel)) ==> r == Acted(FailedWith(ChannelIdRequired), w)
    ensures Truthy(SendTarget(channelId, contextChannel)) ==>
              var t := SendTarget(channelId, contextChannel).value;
              !(t in w.channels && w.channels[t].sendable) ==> r == Acted(FailedWith(ChannelNotSendable), w)
    ensures r.status.Success() <==>
              && Truthy(SendTarget(channelId, contextChannel))
              && SendTarget(channelId, contextChannel).value in w.channels
              && w.channels[SendTarget(channelId, contextChannel).value].sendable
    ensures r.status.Success() ==>
              && Truthy(SendTarget(channelId, contextChannel))
              && var t := SendTarget(channelId, contextChannel).value;
              && t in w.channels && w.channels[t].sendable
              && r.status == SucceededWith(IdField.MessageId, stamp.id)
              && ChangesAtMost(w, r.world, t, stamp.id)
              && var sent := r.world.channels[t].messages[stamp.id];
              && sent.authorId == w.botId && sent.content == content
              && sent.channelId == t && sent.referenceId.None?
    ensures r.status.Success() ==>
              var t := SendTarget(channelId, contextChannel).value;
              t in w.channels && stamp.id !in w.channels[t].messages
              ==> |r.world.channels[t].messages| == |w.channels[t].messages| + 1
  {
    var target := SendTarget(channelId, contextChannel);
    if !Truthy(target) then Acted(FailedWith(ChannelIdRequired), w)
    else if !(target.value in w.channels && w.channels[target.value].sendable) then
      Acted(FailedWith(ChannelNotSendable), w)
    else
      var sent := Message(stamp.id, w.botId, w.botName, target.value, stamp.at, content, content, {}, None, []);
      Acted(SucceededWith(IdField.MessageId, stamp.id), PutMessage(w, target.value, stamp.id, sent))
  }

  /** `message.react(emoji)` by `user`: the user joins the reaction under
      that key, which is created when the message has none. */
  function AddUserReaction(rs: seq<Reaction>, key: string, user: string): (r: seq<Reaction>)
    ensures FindReaction(rs, key).Some? ==>
              var i := FindReaction(rs, key).value;
              && |r| == |rs| && FindReaction(r, key) == Some(i)
              && r[i].key == key && r[i].name == rs[i].name
              && r[i].users == rs[i].users + {user}
              && r[i].count == (if user in rs[i].users then rs[i].count else rs[i].count + 1)
    ensures FindReaction(rs, key).None? ==>
              && r == rs + [Reaction(key, key, 1, {user})]
              && FindReaction(r, key) == Some(|rs|)
    ensures forall j :: 0 <= j < |rs| && rs[j].key != key ==> r[j] == rs[j]
  {
    match FindReaction(rs, key)
    case Some(i) =>
      var prior := rs[i];
      var r := rs[i := prior.(users := prior.users + {user}, count := if user in prior.users then prior.count else prior.count + 1)];
      FindSameKeys(rs, r, key);
      r
    case None =>
      FindAppended(rs, Reaction(key, key, 1, {user}));
      rs + [Reaction(key, key, 1, {user})]
  }

  lemma {:induction false} FindSameKeys(rs: seq<Reaction>, rs': seq<Reaction>, key: string)
    requires |rs| == |rs'| && forall j :: 0 <= j < |rs| ==> rs[j].key == rs'[j].key
    ensures FindReaction(rs, key) == FindReaction(rs', key)
    decreases |rs|
  {
    if |rs| > 0 {
      FindSameKeys(rs[1..], rs'[1..], key);
    }
  }

  lemma {:induction false} FindAppended(rs: seq<Reaction>, x: Reaction)
    requires FindReaction(rs, x.key).None?
    ensures FindReaction(rs + [x], x.key) == Some(|rs|)
    decreases |rs|
  {
    if |rs| > 0 {
      assert (rs + [x])[1..] == rs[1..] + [x];
      FindAppended(rs[1..], x);
    }
  }

  /** `reaction.users.remove(user)` on the reaction at index `i`: the user
      leaves it, and the count drops when the user was among its users. */
  function RemoveUserReaction(rs: seq<Reaction>, i: nat, user: string): (r: seq<Reaction>)
    requires i < |rs|
    ensures |r| == |rs|
    ensures r[i].key == rs[i].key && r[i].name == rs[i].name
    ensures r[i].users == rs[i].users - {user}
    ensures r[i].count == (if user in rs[i].users && rs[i].count > 0 then rs[i].count - 1 else rs[i].count)
    ensures forall j :: 0 <= j < |rs| && j != i ==> r[j] == rs[j]
  {
    var prior := rs[i];
    rs[i := prior.(users := prior.users - {user}, count := if user in prior.users && prior.count > 0 then prior.count - 1 else prior.count)]
  }

  /** Replaces the reactions of message `mid` in channel `cid`. */
  function WithReactions(w: World, cid: string, mid: string, rs: seq<Reaction>): (w': World)
    requires cid in w.channels && mid in w.channels[cid].messages
    ensures ChangesAtMost(w, w', cid, mid)
    ensures w'.channels[cid].messages[mid] == w.channels[cid].messages[mid].(reactions := rs)
  {
    var m := w.channels[cid].messages[mid];
    PutMessage(w, cid, mid, m.(reactions := rs))
  }

  /** `add_reaction`: the bot reacts to a message of a text channel. */
  function AddReaction(w: World, messageId: string, channelId: string, emoji: string): (r: Acted)
    ensures !IsTextChannel(w, channelId) ==> r == Acted(FailedWith(ChannelNotTextBased), w)
    ensures IsTextChannel(w, channelId) && messageId !in w.channels[channelId].messages
            ==> r == Acted(FailedWith(MessageNotFound), w)
    ensures r.status.Success() <==> IsTextChannel(w, channelId) && messageId in w.channels[channelId].messages
    ensures r.status.Success() ==>
              && r.status == Succeeded
              && ChangesAtMost(w, r.world, channelId, messageId)
              && var m, m' := w.channels[channelId].messages[messageId], r.world.channels[channelId].messages[messageId];
              && m' == m.(reactions := AddUserReaction(m.reactions, emoji, w.botId))
  {
    if !IsTextChannel(w, channelId) then Acted(FailedWith(ChannelNotTextBased), w)
    else if messageId !in w.channels[channelId].messages then Acted(FailedWith(MessageNotFound), w)
    else
      var m := w.channels[channelId].messages[messageId];
      Acted(Succeeded, WithReactions(w, channelId, messageId, AddUserReaction(m.reactions, emoji, w.botId)))
  }

  /** `remove_reaction`: the bot leaves one reaction of a message of a text
      channel; a message without that reaction is reported and left alone. */
  function RemoveReaction(w: World, messageId: string, channelId: string, emoji: string): (r: Acted)
    ensures !IsTextChannel(w, channelId) ==> r == Acted(FailedWith(ChannelNotTextBased), w)
    ensures IsTextChannel(w, channelId) && messageId !in w.channels[channelId].messages
            ==> r == Acted(FailedWith(MessageNotFound), w)
    ensures IsTextChannel(w, channelId) && messageId in w.channels[channelId].messages
            && FindReaction(w.channels[channelId].messages[messageId].reactions, emoji).None?
            ==> r == Acted(FailedWith(ReactionNotFound), w)
    ensures r.status.Success() <==>
              && IsTextChannel(w, channelId) && messageId in w.channels[channelId].messages
              && FindReaction(w.channels[channelId].messages[messageId].reactions, emoji).Some?
    ensures r.status.Success() ==>
              && r.status == Succeeded
              && ChangesAtMost(w, r.world, channelId, messageId)
              && var m, m' := w.channels[channelId].messages[messageId], r.world.channels[channelId].messages[messageId];
              && var i := FindReaction(m.reactions, emoji).value;
              && m' == m.(reactions := RemoveUserReaction(m.reactions, i, w.botId))
  {
    if !IsTextChannel(w, channelId) then Acted(FailedWith(ChannelNotTextBased), w)
    else if messageId !in w.channels[channelId].messages then Acted(FailedWith(MessageNotFound), w)
    else
      var m := w.channels[channelId].messages[messageId];
      match FindReaction(m.reactions, emoji)
      case None => Acted(FailedWith(ReactionNotFound), w)
      case Some(i) => Acted(Succeeded, WithReactions(w, channelId, messageId, RemoveUserReaction(m.reactions, i, w.botId)))
  }

  /** Reacting and then removing the reaction succeeds and leaves the bot
      out of that reaction's users; when the reaction was already there
      without the bot, the message's reactions are exactly as before. */
  lemma ReactThenUnreact(w: World, messageId: string, channelId: string, emoji: string)
    requires IsTextChannel(w, channelId) && messageId in w.channels[channelId].messages
    ensures var w1 := AddReaction(w, messageId, channelId, emoji).world;
            var r2 := RemoveReaction(w1, messageId, channelId, emoji);
            var rs := w.channels[channelId].messages[messageId].reactions;
            var rs2 := r2.world.channels[channelId].messages[messageId].reactions;
            && r2.status == Succeeded
            && FindReaction(rs2, emoji).Some?
            && w.botId !in rs2[FindReaction(rs2, emoji).value].users
            && (FindReaction(rs, emoji).Some? && w.botId !in rs[FindReaction(rs, emoji).value].users ==> rs2 == rs)
  {
    var rs := w.channels[channelId].messages[messageId].reactions;
    var rs1 := AddUserReaction(rs, emoji, w.botId);
    var w1 := AddReaction(w, messageId, channelId, emoji).world;
    assert w1.channels[channelId].messages[messageId].reactions == rs1;
    var i := FindReaction(rs1, emoji).value;
    var rs2 := RemoveUserReaction(rs1, i, w.botId);
    assert FindReaction(rs2, emoji) == Some(i) by {
      FindSameKeys(rs1, rs2, emoji);
    }
    if FindReaction(rs, emoji).Some? && w.botId !in rs[FindReaction(rs, emoji).value].users {
      assert forall j :: 0 <= j < |rs| ==> rs2[j] == rs[j];
    }
  }

  /** `join_voice_channel`: never succeeds; the error says whether the
      channel is a cached voice channel. */
  function JoinVoiceChannel(w: World, channelId: string): (r: Acted)
    ensures r.world == w
    ensures !r.status.Success()
    ensures r.status == FailedWith(VoiceNotImplemented) <==> channelId in w.channels && w.channels[channelId].voiceBased
    ensures r.status == FailedWith(VoiceChannelNotFound) <==> !(channelId in w.channels && w.channels[channelId].voiceBased)
  {
    if !(channelId in w.channels && w.channels[channelId].voiceBased) then Acted(FailedWith(VoiceChannelNotFound), w)
    else Acted(FailedWith(VoiceNotImplemented), w)
  }

  /** `leave_voice_channel`: never succeeds. */
  function LeaveVoiceChannel(w: World, reason: Option<string>): (r: Acted)
    ensures r == Acted(FailedWith(VoiceNotImplemented), w)
  {
    Acted(FailedWith(VoiceNotImplemented), w)
  }
}
