/** The chat page: which channels a backend shows, which messages of the
    shared chat log are displayed, and when the input is sent. */
module Chat {
  import opened Js
  import opened Storage
  import opened AuthContext
  import opened Sockets
  import opened SocketContext
  import Lists

  datatype Channel = Channel(id: string, name: string, backend: string)

  /** The declared channels, in order. */
  const Channels: seq<Channel> := [
    Channel("general", "\U{1F4AC} General", Both),
    Channel("trading", "\U{1F4C8} Trading", AutoTask),
    Channel("support", "\U{1F6DF} Support", Both),
    Channel("elections", "\U{1F5F3}\U{FE0F} Elections", ClTech),
    Channel("admin", "\U{1F510} Admin", ClTech)
  ]

  predicate VisibleOn(backend: string, c: Channel) {
    c.backend == Both || c.backend == backend
  }

  /** The `filteredChannels` callback for a backend. */
  function Visible(backend: string): Channel -> bool {
    (c: Channel) => VisibleOn(backend, c)
  }

  /** `filteredChannels`: the declared channels tagged for both backends
      or for this one, in declaration order; the three lemmas below give
      the list for each backend. */
  function FilteredChannels(backend: string): (r: seq<Channel>)
    ensures Lists.SubsequenceOf(r, Channels)
  {
    Lists.FilterSubsequence(Visible(backend), Channels);
    Lists.Filter(Visible(backend), Channels)
  }

  function ChannelIds(cs: seq<Channel>): seq<string> {
    Lists.MapSeq((c: Channel) => c.id, cs)
  }

  function KeepIf(p: Channel -> bool, c: Channel): seq<Channel> {
    if p(c) then [c] else []
  }

  /** The filter over the five declared channels, one decision each. */
  lemma FilterChannels(p: Channel -> bool)
    ensures Lists.Filter(p, Channels)
      == KeepIf(p, Channels[0]) + (KeepIf(p, Channels[1]) + (KeepIf(p, Channels[2])
        + (KeepIf(p, Channels[3]) + KeepIf(p, Channels[4]))))
  {
    assert Channels[4..][1..] == [];
    assert Channels[3..][1..] == Channels[4..];
    assert Channels[2..][1..] == Channels[3..];
    assert Channels[1..][1..] == Channels[2..];
    assert Lists.Filter(p, Channels[4..]) == KeepIf(p, Channels[4]);
    assert Lists.Filter(p, Channels[3..]) == KeepIf(p, Channels[3]) + KeepIf(p, Channels[4]);
    assert Lists.Filter(p, Channels[2..]) == KeepIf(p, Channels[2]) + Lists.Filter(p, Channels[3..]);
    assert Lists.Filter(p, Channels[1..]) == KeepIf(p, Channels[1]) + Lists.Filter(p, Channels[2..]);
    assert Lists.Filter(p, Channels) == KeepIf(p, Channels[0]) + Lists.Filter(p, Channels[1..]);
  }

  /** The channel list per backend: AutoTask adds trading, CL Tech adds
      elections and admin, and any other tag shows only the shared two. */
  lemma ChannelsOnAutoTask()
    ensures ChannelIds(FilteredChannels(AutoTask)) == ["general", "trading", "support"]
  {
    FilterChannels(Visible(AutoTask));
    assert Lists.Filter(Visible(AutoTask), Channels) == [Channels[0], Channels[1], Channels[2]];
  }

  lemma ChannelsOnClTech()
    ensures ChannelIds(FilteredChannels(ClTech)) == ["general", "support", "elections", "admin"]
  {
    FilterChannels(Visible(ClTech));
    assert Lists.Filter(Visible(ClTech), Channels) == [Channels[0], Channels[2], Channels[3], Channels[4]];
  }

  lemma ChannelsOnOtherBackend(backend: string)
    requires backend != AutoTask && backend != ClTech
    ensures ChannelIds(FilteredChannels(backend)) == ["general", "support"]
  {
    FilterChannels(Visible(backend));
    assert Lists.Filter(Visible(backend), Channels) == [Channels[0], Channels[2]];
  }

  predicate InChannel(channel: string, m: Record) {
    Get(m, "channel") == Str(channel)
  }

  predicate Shown(channel: string, backend: string, m: Record) {
    InChannel(channel, m) && Get(m, "backend") == Str(backend)
  }

  /** The displayed messages: exactly those of the active channel and the
      current backend, every occurrence of each, in arrival order. Messages tagged with another
      backend stay in the log but are never displayed. */
  function DisplayedMessages(messages: seq<Record>, channel: string, backend: string): (r: seq<Record>)
    ensures Lists.SubsequenceOf(r, messages)
    ensures forall m :: m in r <==> m in messages && InChannel(channel, m) && Get(m, "backend") == Str(backend)
    ensures forall m :: multiset(r)[m] == if Shown(channel, backend, m) then multiset(messages)[m] else 0
  {
    Lists.FilterSubsequence((m: Record) => Shown(channel, backend, m), messages);
    Lists.FilterMembers((m: Record) => Shown(channel, backend, m), messages);
    Lists.FilterCount((m: Record) => Shown(channel, backend, m), messages);
    Lists.Filter((m: Record) => Shown(channel, backend, m), messages)
  }

  /** The header count filters by channel only. */
  function HeaderCount(messages: seq<Record>, channel: string): (n: nat)
    ensures n <= |messages|
  {
    |Lists.Filter((m: Record) => InChannel(channel, m), messages)|
  }

  /** The header count is never below the number of displayed messages. */
  lemma HeaderCountCoversDisplayed(messages: seq<Record>, channel: string, backend: string)
    ensures HeaderCount(messages, channel) >= |DisplayedMessages(messages, channel, backend)|
  {
    Lists.FilterWeaker((m: Record) => Shown(channel, backend, m), (m: Record) => InChannel(channel, m), messages);
  }

  /** The empty state shows exactly when no message of the log matches. */
  function ShowsEmptyState(messages: seq<Record>, channel: string, backend: string): (b: bool)
    ensures b <==> forall i :: 0 <= i < |messages| ==> !Shown(channel, backend, messages[i])
  {
    var shown := DisplayedMessages(messages, channel, backend);
    if shown != [] then
      assert shown[0] in shown;
      false
    else
      true
  }

  /** `user.name || user.email`. */
  function DisplayName(user: User): string {
    Or(user.name, user.email)
  }

  /** The payload `handleSendMessage` emits. */
  function MessagePayload(text: string, channel: string, user: User, timestamp: string, backend: string): Record {
    map["text" := Str(text), "channel" := Str(channel), "user" := Str(DisplayName(user)),
        "timestamp" := Str(timestamp), "backend" := Str(backend)]
  }

  /** The payload carries exactly the five fields, with the sender shown
      by name, or by email when the name is empty. */
  lemma PayloadFields(text: string, channel: string, user: User, timestamp: string, backend: string)
    ensures var r := MessagePayload(text, channel, user, timestamp, backend);
      && r.Keys == {"text", "channel", "user", "timestamp", "backend"}
      && Get(r, "text") == Str(text) && Get(r, "channel") == Str(channel) && Get(r, "backend") == Str(backend)
      && Get(r, "user") == Str(if user.name != "" then user.name else user.email)
      && Get(r, "timestamp") == Str(timestamp)
  {
  }

  /** `message.trim() && isConnected`. */
  predicate CanSend(message: string, isConnected: bool) {
    Trim(message) != "" && isConnected
  }

  /** A message is sent exactly when the socket is connected and the text
      holds a character other than white space. */
  lemma CanSendIff(message: string, isConnected: bool)
    ensures CanSend(message, isConnected) <==> isConnected && exists i :: 0 <= i < |message| && !IsSpace(message[i])
  {
    TrimEmptyIff(message);
  }

  /** A sent message that the server echoes back as `new-message` is
      displayed last in its channel on its backend, after the ones
      already shown. */
  lemma EchoedMessageDisplayed(b: Bag, text: string, channel: string, user: User, timestamp: string, backend: string)
    ensures var m := MessagePayload(text, channel, user, timestamp, backend);
      DisplayedMessages(Apply(b, NewMessage(m)).chatMessages, channel, backend)
        == DisplayedMessages(b.chatMessages, channel, backend) + [m]
  {
    var m := MessagePayload(text, channel, user, timestamp, backend);
    var p := (r: Record) => Shown(channel, backend, r);
    PayloadFields(text, channel, user, timestamp, backend);
    assert Apply(b, NewMessage(m)).chatMessages == b.chatMessages + [m];
    Lists.FilterAppend(p, b.chatMessages, [m]);
    assert Lists.Filter(p, [m]) == [m] by { assert [m][1..] == []; }
    assert DisplayedMessages(b.chatMessages + [m], channel, backend) == Lists.Filter(p, b.chatMessages) + [m];
  }

  /** The page's own state hooks. */
  class ChatPage {
    var message: string
    var activeChannel: string

    constructor ()
      ensures message == "" && activeChannel == "general"
    {
      message := "";
      activeChannel := "general";
    }

    method SelectChannel(id: string)
      modifies this
      ensures activeChannel == id && message == old(message)
    {
      activeChannel := id;
    }

    /** `handleSendMessage`: when the guard passes, the payload goes out on
        the active socket and the input is cleared; otherwise nothing is
        emitted and the input is kept. */
    method HandleSendMessage(provider: SocketProvider, user: User, timestamp: string)
      requires provider.Valid()
      modifies this, provider.sockets.Active(provider.currentBackend)
      ensures provider.Valid() && activeChannel == old(activeChannel)
      ensures CanSend(old(message), provider.isConnected) ==>
        && message == ""
        && provider.sockets.Active(provider.currentBackend).emitted
          == old(provider.sockets.Active(provider.currentBackend).emitted)
            + [Emission("send-message", MessagePayload(old(message), activeChannel, user, timestamp, provider.currentBackend))]
      ensures !CanSend(old(message), provider.isConnected) ==>
        message == old(message) && unchanged(provider.sockets.Active(provider.currentBackend))
      ensures provider.sockets.Active(provider.currentBackend).connected
        == old(provider.sockets.Active(provider.currentBackend).connected)
      ensures unchanged(provider.sockets.Other(provider.currentBackend))
    {
      var ok := CanSend(message, provider.isConnected);
      if ok {
        var payload := MessagePayload(message, activeChannel, user, timestamp, provider.currentBackend);
        provider.SendMessage(payload);
        message := "";
      }
    }
  }
}
