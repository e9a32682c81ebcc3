/** Channel kind classification of src/features/awareness/types.ts: the kinds
    a channel satisfies, and the label shown for them. */
module ChannelTypes {
  import opened Strings
  import Discord

  datatype ChannelType = Text | Voice | Thread | Unknown

  /** A single kind, or an ordered list of two or more kinds. */
  datatype ChannelTypes = Single(kind: ChannelType) | Several(kinds: seq<ChannelType>)

  function Name(t: ChannelType): string {
    match t
    case Text => "text"
    case Voice => "voice"
    case Thread => "thread"
    case Unknown => "unknown"
  }

  /** The kind predicates, one per concrete kind. */
  predicate Holds(c: Discord.Channel, t: ChannelType) {
    match t
    case Text => c.textBased
    case Voice => c.voiceBased
    case Thread => c.thread
    case Unknown => false
  }

  /** Position of a kind in the fixed order text, voice, thread. */
  function Rank(t: ChannelType): nat {
    match t
    case Text => 0
    case Voice => 1
    case Thread => 2
    case Unknown => 3
  }

  /** Number of kind predicates the channel satisfies. */
  function KindCount(c: Discord.Channel): nat {
    (if c.textBased then 1 else 0) + (if c.voiceBased then 1 else 0) + (if c.thread then 1 else 0)
  }

  /** `getChannelType`: `"unknown"` when no predicate holds, the bare kind
      when exactly one does, otherwise the list of kinds in order text,
      voice, thread. */
  function GetChannelType(c: Discord.Channel): (r: ChannelTypes)
    ensures KindCount(c) == 0 <==> r == Single(Unknown)
    ensures KindCount(c) == 1 <==> r.Single? && r.kind != Unknown
    ensures r.Single? && r.kind != Unknown ==> Holds(c, r.kind)
    ensures r.Several? ==> |r.kinds| == KindCount(c) >= 2
    ensures r.Several? ==> forall t :: t in r.kinds <==> Holds(c, t)
    ensures r.Several? ==> forall i, j :: 0 <= i < j < |r.kinds| ==> Rank(r.kinds[i]) < Rank(r.kinds[j])
  {
    var types := (if c.textBased then [Text] else [])
               + (if c.voiceBased then [Voice] else [])
               + (if c.thread then [Thread] else []);
    if |types| > 1 then Several(types)
    else if |types| == 1 then Single(types[0])
    else Single(Unknown)
  }

  function Names(kinds: seq<ChannelType>): (r: seq<string>)
    ensures |r| == |kinds|
    ensures forall i :: 0 <= i < |kinds| ==> r[i] == Name(kinds[i])
  {
    seq(|kinds|, i requires 0 <= i < |kinds| => Name(kinds[i]))
  }

  /** `getChannelTypeLabel`: a list is joined with `" & "`. */
  function GetChannelTypeLabel(c: Discord.Channel): (r: string)
    ensures r != ""
  {
    match GetChannelType(c)
    case Several(kinds) =>
      var names := Names(kinds);
      assert Join(names, " & ") == names[0] + " & " + Join(names[1..], " & ");
      Join(names, " & ")
    case Single(t) => Name(t)
  }

  /** The label of every combination of kind predicates. */
  lemma LabelTable(c: Discord.Channel)
    ensures var shown := GetChannelTypeLabel(c);
      && (!c.textBased && !c.voiceBased && !c.thread ==> shown == "unknown")
      && ( c.textBased && !c.voiceBased && !c.thread ==> shown == "text")
      && (!c.textBased &&  c.voiceBased && !c.thread ==> shown == "voice")
      && (!c.textBased && !c.voiceBased &&  c.thread ==> shown == "thread")
      && ( c.textBased &&  c.voiceBased && !c.thread ==> shown == "text & voice")
      && ( c.textBased && !c.voiceBased &&  c.thread ==> shown == "text & thread")
      && (!c.textBased &&  c.voiceBased &&  c.thread ==> shown == "voice & thread")
      && ( c.textBased &&  c.voiceBased &&  c.thread ==> shown == "text & voice & thread")
  {
    if c.textBased && c.voiceBased && c.thread {
      assert GetChannelType(c) == Several([Text, Voice, Thread]);
      assert Names([Text, Voice, Thread]) == ["text", "voice", "thread"];
      JoinThree("text", "voice", "thread", " & ");
      assert "text" + " & " + "voice" + " & " + "thread" == "text & voice & thread";
    } else if c.textBased && c.voiceBased {
      assert GetChannelType(c) == Several([Text, Voice]);
      assert Names([Text, Voice]) == ["text", "voice"];
      JoinTwo("text", "voice", " & ");
      assert "text" + " & " + "voice" == "text & voice";
    } else if c.textBased && c.thread {
      assert GetChannelType(c) == Several([Text, Thread]);
      assert Names([Text, Thread]) == ["text", "thread"];
      JoinTwo("text", "thread", " & ");
      assert "text" + " & " + "thread" == "text & thread";
    } else if c.voiceBased && c.thread {
      assert GetChannelType(c) == Several([Voice, Thread]);
      assert Names([Voice, Thread]) == ["voice", "thread"];
      JoinTwo("voice", "thread", " & ");
      assert "voice" + " & " + "thread" == "voice & thread";
    }
  }

  /** Distinct combinations of kind predicates get distinct labels. */
  lemma LabelInjective(a: Discord.Channel, b: Discord.Channel)
    requires GetChannelTypeLabel(a) == GetChannelTypeLabel(b)
    ensures a.textBased == b.textBased && a.voiceBased == b.voiceBased && a.thread == b.thread
  {
    LabelTable(a);
    LabelTable(b);
  }
}
