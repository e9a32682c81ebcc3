/** `formatMessage` of src/features/awareness/message.ts: the text rendering
    of one message, with a five-line header, a blank line, and the content. */
module MessageFormat {
  import opened Results
  import opened Strings
  import opened Discord

  const YouMarker := ", including YOU"

  /** The bot's id is among the users the reaction cache holds. */
  predicate ReactedByBot(r: Reaction, botId: Option<string>) {
    botId.Some? && botId.value in r.users
  }

  /** One reaction: `name (count)`, or `name (count, including YOU)`. */
  function ReactionText(r: Reaction, botId: Option<string>): string {
    r.name + " (" + Decimal(r.count) + (if ReactedByBot(r, botId) then YouMarker else "") + ")"
  }

  /** All reactions in cache order, separated by `", "`. */
  function ReactionsText(rs: seq<Reaction>, botId: Option<string>): string {
    Join(seq(|rs|, i requires 0 <= i < |rs| => ReactionText(rs[i], botId)), ", ")
  }

  /** One header line: `<prefix><value>` and a line break. */
  function Line(prefix: string, value: string): string {
    prefix + value + "\n"
  }

  /** The rendering; `iso` is `Date.prototype.toISOString`. */
  function FormatMessage(m: Message, botId: Option<string>, iso: nat -> string): (r: string)
    ensures StartsWith(r, Line("Message ID: ", m.id))
    ensures EndsWith(r, "\n" + m.content + "\n")
  {
    var body := "\n" + m.content + "\n";
    var s4 := Line("Reactions: ", ReactionsText(m.reactions, botId)) + body;
    var s3 := Line("Created At: ", iso(m.createdAt)) + s4;
    var s2 := Line("Channel ID: ", m.channelId) + s3;
    var s1 := Line("Author User ID: ", m.authorName) + s2;
    var r := Line("Message ID: ", m.id) + s1;
    assert r[..|Line("Message ID: ", m.id)|] == Line("Message ID: ", m.id);
    EndsWithPrepend(Line("Reactions: ", ReactionsText(m.reactions, botId)), body, body);
    EndsWithPrepend(Line("Created At: ", iso(m.createdAt)), s4, body);
    EndsWithPrepend(Line("Channel ID: ", m.channelId), s3, body);
    EndsWithPrepend(Line("Author User ID: ", m.authorName), s2, body);
    EndsWithPrepend(Line("Message ID: ", m.id), s1, body);
    r
  }

  /** The fields a reader can recover from the rendering. */
  datatype Rendered = Rendered(
    id: string, author: string, channel: string, createdAt: string, reactions: string, content: string)

  /** The first line of `s` and what follows its line break. */
  function SplitLine(s: string): Option<(string, string)> {
    match IndexOfChar(s, '\n')
    case None => None
    case Some(i) => Some((s[..i], s[i + 1..]))
  }

  /** One labelled header line: the text after `prefix` up to the line
      break, and the rest of the text after it. */
  function ReadField(s: string, prefix: string): Option<(string, string)> {
    if !StartsWith(s, prefix) then None else SplitLine(s[|prefix|..])
  }

  /** Reads a rendering back into its fields. */
  function ParseRendered(s: string): Option<Rendered> {
    var id := ReadField(s, "Message ID: ");
    if id.None? then None else
    var author := ReadField(id.value.1, "Author User ID: ");
    if author.None? then None else
    var channel := ReadField(author.value.1, "Channel ID: ");
    if channel.None? then None else
    var createdAt := ReadField(channel.value.1, "Created At: ");
    if createdAt.None? then None else
    var reactions := ReadField(createdAt.value.1, "Reactions: ");
    if reactions.None? then None else
    var body := reactions.value.1;
    if 2 <= |body| && body[0] == '\n' && body[|body| - 1] == '\n'
    then Some(Rendered(id.value.0, author.value.0, channel.value.0, createdAt.value.0,
                       reactions.value.0, body[1..|body| - 1]))
    else None
  }

  lemma ReadFieldOf(prefix: string, v: string, rest: string)
    requires '\n' !in v
    ensures ReadField(Line(prefix, v) + rest, prefix) == Some((v, rest))
  {
    var s := Line(prefix, v) + rest;
    assert s[..|prefix|] == prefix;
    var t := s[|prefix|..];
    assert t == v + ['\n'] + rest;
    IndexOfCharSplit(v, rest, '\n');
    assert t[..|v|] == v && t[|v| + 1..] == rest;
  }

  /** The header is read back field by field, and the content is what lies
      between the blank line and the final line break, whenever the header
      fields are single lines. */
  lemma ParseFormatMessage(m: Message, botId: Option<string>, iso: nat -> string)
    requires '\n' !in m.id && '\n' !in m.authorName && '\n' !in m.channelId
    requires '\n' !in iso(m.createdAt) && '\n' !in ReactionsText(m.reactions, botId)
    ensures ParseRendered(FormatMessage(m, botId, iso))
            == Some(Rendered(m.id, m.authorName, m.channelId, iso(m.createdAt),
                             ReactionsText(m.reactions, botId), m.content))
  {
    var reactions := ReactionsText(m.reactions, botId);
    var s5 := "\n" + m.content + "\n";
    var s4 := Line("Reactions: ", reactions) + s5;
    var s3 := Line("Created At: ", iso(m.createdAt)) + s4;
    var s2 := Line("Channel ID: ", m.channelId) + s3;
    var s1 := Line("Author User ID: ", m.authorName) + s2;
    var s0 := Line("Message ID: ", m.id) + s1;
    ReadFieldOf("Message ID: ", m.id, s1);
    ReadFieldOf("Author User ID: ", m.authorName, s2);
    ReadFieldOf("Channel ID: ", m.channelId, s3);
    ReadFieldOf("Created At: ", iso(m.createdAt), s4);
    ReadFieldOf("Reactions: ", reactions, s5);
    assert s5[1..|s5| - 1] == m.content;
  }

  /** The text inside a reaction's parentheses ends in `, including YOU`. */
  predicate MarkedYou(text: string) {
    EndsWith(text, YouMarker + ")")
  }

  /** A reaction is marked with `, including YOU` exactly when the bot is
      among its cached users. */
  lemma YouMarkerIff(r: Reaction, botId: Option<string>)
    ensures MarkedYou(ReactionText(r, botId)) <==> ReactedByBot(r, botId)
  {
    var text := ReactionText(r, botId);
    var d := Decimal(r.count);
    if ReactedByBot(r, botId) {
      assert text == (r.name + " (" + d) + (YouMarker + ")");
    } else {
      assert text == r.name + " (" + d + ")";
      assert text[|text| - 2] == d[|d| - 1];
      assert IsDigit(d[|d| - 1]);
      assert (YouMarker + ")")[|YouMarker + ")"| - 2] == 'U';
    }
  }

  /** Reactions are rendered in cache order: a reaction added at the end of
      the cache is rendered last, after a `", "`. */
  lemma ReactionsInCacheOrder(rs: seq<Reaction>, r: Reaction, botId: Option<string>)
    requires |rs| > 0
    ensures ReactionsText(rs + [r], botId) == ReactionsText(rs, botId) + ", " + ReactionText(r, botId)
  {
    var parts := seq(|rs|, i requires 0 <= i < |rs| => ReactionText(rs[i], botId));
    var rs' := rs + [r];
    assert seq(|rs'|, i requires 0 <= i < |rs'| => ReactionText(rs'[i], botId)) == parts + [ReactionText(r, botId)];
    JoinSnoc(parts, ReactionText(r, botId), ", ");
  }
}
