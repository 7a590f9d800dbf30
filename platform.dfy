/**
  The part of the guild the join handler changes, as state: the channels it
  creates (a channel's id is its position in the list), the permission
  overwrites it sets on one of them, and the messages it sends.
*/
module Platform {
  import opened Wrappers

  datatype Permission = ViewChannel | SendMessages

  /** One permission overwrite: the role or user it is for, what it allows and what it denies. */
  datatype Overwrite = Overwrite(id: string, allow: seq<Permission>, deny: seq<Permission>)

  datatype ChannelKind = GuildCategory | GuildText

  datatype Channel = Channel(name: string, kind: ChannelKind, parent: Option<nat>, overwrites: seq<Overwrite>)

  /**
    The welcome message, by the mentions it carries: the new member, the five
    team members and the start-here channel. Its prose is not modelled.
  */
  datatype Welcome = Welcome(
    newMember: string,
    founder: string,
    csm1: string,
    csm2: string,
    fulfilment: string,
    operations: string,
    startHere: string)

  datatype Message = Message(channel: nat, content: Welcome)

  class Guild {
    var channels: seq<Channel>
    var messages: seq<Message>

    constructor (existing: seq<Channel>)
      ensures channels == existing && messages == []
    {
      channels := existing;
      messages := [];
    }

    /** `guild.channels.create`: the new channel is appended and its id returned. */
    method CreateChannel(name: string, kind: ChannelKind, parent: Option<nat>) returns (id: nat)
      modifies this
      ensures id == |old(channels)|
      ensures channels == old(channels) + [Channel(name, kind, parent, [])]
      ensures messages == old(messages)
    {
      id := |channels|;
      channels := channels + [Channel(name, kind, parent, [])];
    }

    /** `channel.permissionOverwrites.set`: replaces that channel's overwrites. */
    method SetOverwrites(id: nat, overwrites: seq<Overwrite>)
      requires id < |channels|
      modifies this
      ensures channels == old(channels)[id := old(channels)[id].(overwrites := overwrites)]
      ensures messages == old(messages)
    {
      channels := channels[id := channels[id].(overwrites := overwrites)];
    }

    /** `channel.send`. */
    method Send(id: nat, content: Welcome)
      requires id < |channels|
      modifies this
      ensures messages == old(messages) + [Message(id, content)]
      ensures channels == old(channels)
    {
      messages := messages + [Message(id, content)];
    }
  }
}
