/** `findChannel`: the search over the client's channel table for the voice
    channel the calling user is in. Both revisions have the same loop. */
module Channels {
  import opened Wrappers

  /** Discord's channel-type code for a guild voice channel. */
  const VOICE_CHANNEL_TYPE := 2

  /** A channel as the client caches it: its type code and the ids of the
      users it lists as members (the keys of its `members` object). */
  datatype Channel = Channel(channelType: int, members: set<string>)

  /** `bot.channels[chan].type === 2 && userID in bot.channels[chan].members`. */
  predicate IsVoiceChannelOf(c: Channel, userID: string) {
    c.channelType == VOICE_CHANNEL_TYPE && userID in c.members
  }

  /** The channel table as the `for…in` loop enumerates it: (channel id,
      channel) pairs in enumeration order. */
  type ChannelTable = seq<(string, Channel)>

  /** The id of the first channel in enumeration order that is a voice channel
      containing `userID`, or `None` (the source's `null`). */
  function FirstVoiceChannel(channels: ChannelTable, userID: string): Option<string> {
    if channels == [] then None
    else if IsVoiceChannelOf(channels[0].1, userID) then Some(channels[0].0)
    else FirstVoiceChannel(channels[1..], userID)
  }

  /** No channel qualifies exactly when the search comes back empty. */
  lemma {:induction false} FirstVoiceChannelNone(channels: ChannelTable, userID: string)
    ensures FirstVoiceChannel(channels, userID).None? <==>
      forall i :: 0 <= i < |channels| ==> !IsVoiceChannelOf(channels[i].1, userID)
  {
    if channels != [] {
      FirstVoiceChannelNone(channels[1..], userID);
      assert forall i :: 1 <= i < |channels| ==> channels[i] == channels[1..][i - 1];
    }
  }

  /** A found id belongs to a qualifying channel, and no channel enumerated
      before it qualifies. */
  lemma {:induction false} FirstVoiceChannelIsFirst(channels: ChannelTable, userID: string)
    requires FirstVoiceChannel(channels, userID).Some?
    ensures exists i ::
      && 0 <= i < |channels|
      && channels[i].0 == FirstVoiceChannel(channels, userID).value
      && IsVoiceChannelOf(channels[i].1, userID)
      && forall j :: 0 <= j < i ==> !IsVoiceChannelOf(channels[j].1, userID)
  {
    if !IsVoiceChannelOf(channels[0].1, userID) {
      var rest := channels[1..];
      FirstVoiceChannelIsFirst(rest, userID);
      var k :| 0 <= k < |rest| &&
        rest[k].0 == FirstVoiceChannel(rest, userID).value &&
        IsVoiceChannelOf(rest[k].1, userID) &&
        forall j :: 0 <= j < k ==> !IsVoiceChannelOf(rest[j].1, userID);
      assert forall j :: 1 <= j < k + 1 ==> channels[j] == rest[j - 1];
      assert channels[k + 1] == rest[k];
    } else {
      assert channels[0].0 == FirstVoiceChannel(channels, userID).value;
    }
  }

  /** Users that are in several voice channels get the first one; adding
      channels after it changes nothing. */
  lemma {:induction false} FirstVoiceChannelIgnoresLaterChannels(
    channels: ChannelTable, later: ChannelTable, userID: string)
    requires FirstVoiceChannel(channels, userID).Some?
    ensures FirstVoiceChannel(channels + later, userID) == FirstVoiceChannel(channels, userID)
  {
    if !IsVoiceChannelOf(channels[0].1, userID) {
      assert (channels + later)[1..] == channels[1..] + later;
      FirstVoiceChannelIgnoresLaterChannels(channels[1..], later, userID);
    }
  }

  /** The `for (const chan in bot.channels)` loop with its early `return chan`
      and the trailing `return null`. */
  method FindChannel(channels: ChannelTable, userID: string) returns (r: Option<string>)
    ensures r == FirstVoiceChannel(channels, userID)
  {
    var i := 0;
    assert channels[i..] == channels;
    while i < |channels|
      invariant 0 <= i <= |channels|
      invariant FirstVoiceChannel(channels[i..], userID) == FirstVoiceChannel(channels, userID)
    {
      var (chan, channel) := channels[i];
      if channel.channelType == VOICE_CHANNEL_TYPE && userID in channel.members {
        return Some(chan);
      }
      assert channels[i..][1..] == channels[i + 1..];
      i := i + 1;
    }
    return None;
  }
}
