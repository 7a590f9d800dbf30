/**
  The two gateway handlers of the bot. The ready handler seeds the invite
  cache. The member-join handler finds the invite used, resolves the client's
  first name, creates the category with its permission overwrites and the
  text channels under it, and posts one welcome message in the team-chat
  channel.
*/
module Onboarding {
  import opened Wrappers
  import opened JsStrings
  import opened InviteTracking
  import opened NameRegistry
  import opened Attribution
  import opened Platform
  import opened Workspace

  const FounderUserId := "1361785718900396315"
  const Csm1UserId := "1018939468763373589"
  const Csm2UserId := "1322178805359706213"
  const FulfilmentUserId := "1394372856128733305"
  const OperationsUserId := "775132202022600724"
  const StartHereChannelId := "1431246046041997344"

  /** A user mention, `<@id>`. */
  function Mention(id: string): string {
    "<@" + id + ">"
  }

  /** A channel mention, `<#id>`. */
  function ChannelMention(id: string): string {
    "<#" + id + ">"
  }

  /** A mention names exactly one user: different ids give different mentions. */
  lemma MentionInjective(a: string, b: string)
    ensures Mention(a) == Mention(b) <==> a == b
  {
    if Mention(a) == Mention(b) {
      assert a == Mention(a)[2..|Mention(a)| - 1];
      assert b == Mention(b)[2..|Mention(b)| - 1];
    }
  }

  /**
    The welcome message for a new member, by its mentions: the member's id
    wrapped as `<@id>`, and the fixed team and start-here mentions.
  */
  function WelcomeFor(memberId: string): (r: Welcome)
    ensures |r.newMember| == |memberId| + 3
    ensures r.newMember[..2] == "<@" && r.newMember[2..|memberId| + 2] == memberId && r.newMember[|memberId| + 2..] == ">"
  {
    Welcome(
      Mention(memberId),
      Mention(FounderUserId),
      Mention(Csm1UserId),
      Mention(Csm2UserId),
      Mention(FulfilmentUserId),
      Mention(OperationsUserId),
      ChannelMention(StartHereChannelId))
  }

  /**
    The welcome message greets the member it was made for, and the team and
    start-here mentions are the same for everyone.
  */
  lemma WelcomeNamesMember(a: string, b: string)
    ensures WelcomeFor(a).newMember == "<@" + a + ">"
    ensures WelcomeFor(a) == WelcomeFor(b) <==> a == b
    ensures WelcomeFor(a).(newMember := "") == WelcomeFor(b).(newMember := "")
  {
    MentionInjective(a, b);
  }

  /**
    The channels after a join: the ones there before, the category (with its
    overwrite list) and then one text channel per template entry under it.
  */
  function ProvisionedChannels(existing: seq<Channel>, templates: seq<string>, firstname: string, memberId: string,
                               everyoneId: string, botId: string, staffRoleId: Option<string>): seq<Channel>
  {
    existing
      + [Channel(CategoryName(firstname), GuildCategory, None, OverwritePlan(everyoneId, memberId, botId, staffRoleId))]
      + TextChannels(ChannelNames(templates, firstname), |existing|)
  }

  /** The position, among the created text channels, of the one that gets the welcome. */
  function EntryPosition(templates: seq<string>, firstname: string): Option<nat> {
    LastContaining(ChannelNames(templates, firstname), EntryMarker)
  }

  /**
    The messages after a join: the welcome is appended, addressed to the entry
    channel, when there is one; `existing` is the number of channels before the
    join, so the category has that id and the text channels follow it.
  */
  function WelcomeSent(messages: seq<Message>, existing: nat, templates: seq<string>, firstname: string, memberId: string)
    : seq<Message>
  {
    match EntryPosition(templates, firstname)
    case None => messages
    case Some(i) => messages + [Message(existing + 1 + i, WelcomeFor(memberId))]
  }

  /**
    The ready handler: seed the invite cache from the guild's invite list;
    with no guild, or a fetch that failed, the cache stays as it was.
  */
  method HandleReady(tracker: InviteTracker, fetched: Option<seq<Invite>>)
    modifies tracker
    ensures fetched.None? ==> tracker.cache == old(tracker.cache)
    ensures fetched.Some? ==> tracker.cache == Record(old(tracker.cache), fetched.value)
  {
    tracker.Seed(fetched);
  }

  /** Create the client's category and set its permission overwrites; its id is returned. */
  method CreateCategory(guild: Guild, firstname: string, memberId: string,
                        everyoneId: string, botId: string, staffRoleId: Option<string>)
    returns (category: nat)
    modifies guild
    ensures category == |old(guild.channels)|
    ensures guild.channels
            == old(guild.channels) + [Channel(CategoryName(firstname), GuildCategory, None, OverwritePlan(everyoneId, memberId, botId, staffRoleId))]
    ensures guild.messages == old(guild.messages)
  {
    category := guild.CreateChannel(CategoryName(firstname), GuildCategory, None);
    var overwrites := BuildOverwrites(everyoneId, memberId, botId, staffRoleId);
    guild.SetOverwrites(category, overwrites);
  }

  /**
    Provisioning for a resolved first name, with the platform calls as changes
    to `guild`: create the category, set its overwrites, create the text
    channels under it, and post the welcome in the team-chat channel if one
    was created.
  */
  method Provision(guild: Guild, templates: seq<string>, firstname: string, memberId: string,
                   everyoneId: string, botId: string, staffRoleId: Option<string>)
    modifies guild
    ensures guild.channels
            == ProvisionedChannels(old(guild.channels), templates, firstname, memberId, everyoneId, botId, staffRoleId)
    ensures guild.messages == WelcomeSent(old(guild.messages), |old(guild.channels)|, templates, firstname, memberId)
  {
    var category := CreateCategory(guild, firstname, memberId, everyoneId, botId, staffRoleId);
    var teamChat := CreateChannels(guild, templates, firstname, category);
    ghost var entry := EntryPosition(templates, firstname);
    if teamChat.Some? {
      ghost var id := category + 1 + entry.value;
      assert teamChat.value == id;
      guild.Send(teamChat.value, WelcomeFor(memberId));
      assert WelcomeSent(old(guild.messages), category, templates, firstname, memberId)
             == old(guild.messages) + [Message(id, WelcomeFor(memberId))];
    }
  }

  /**
    The member-join handler: `fetched` is the invite list fetched on the join,
    `everyoneId`, `botId` and `staffRoleId` the everyone role, the bot's user
    and the configured staff role. It returns the first name it provisioned
    for.
  */
  method HandleMemberJoin(tracker: InviteTracker, registry: InviteNameRegistry, guild: Guild, member: Member,
                          fetched: seq<Invite>, everyoneId: string, botId: string, staffRoleId: Option<string>)
    returns (firstname: string)
    modifies tracker, guild
    ensures tracker.cache == Record(old(tracker.cache), fetched)
    ensures firstname == ResolveFirstname(DiffRun(old(tracker.cache), fetched).0, registry.names, member)
    ensures guild.channels
            == ProvisionedChannels(old(guild.channels), ChannelTemplate, firstname, member.id, everyoneId, botId, staffRoleId)
    ensures guild.messages == WelcomeSent(old(guild.messages), |old(guild.channels)|, ChannelTemplate, firstname, member.id)
  {
    var usedInvite := tracker.Diff(fetched);

    var mapped: Option<string> := None;
    if usedInvite.Some? {
      mapped := registry.Get(usedInvite.value.code);
    }
    var raw := if mapped.Some? && mapped.value != "" then mapped.value else DisplayLabel(member);
    firstname := Trim(raw);

    Provision(guild, ChannelTemplate, firstname, member.id, everyoneId, botId, staffRoleId);
  }

  /** The first template entry carries the marker and no "name". */
  lemma FirstEntryIsTeamChat()
    ensures Includes(ChannelTemplate[0], EntryMarker)
    ensures !Includes(ChannelTemplate[0], NameToken)
  {
    var entry := ChannelTemplate[0];
    forall k | 0 <= k ensures !OccursAt(entry, NameToken, k) {
      if k + |NameToken| <= |entry| {
        assert k == 0 || k == 1 || k == 2 || k == 3 || k == 4 || k == 5 || k == 6 || k == 7;
        assert entry[k] != 'n';
        assert entry[k..k + |NameToken|][0] != NameToken[0];
      }
    }
    IndexOfIsFirst(entry, NameToken);
    assert entry[2..2 + |EntryMarker|] == EntryMarker;
    assert OccursAt(entry, EntryMarker, 2);
    IncludesOccurs(entry, EntryMarker);
  }

  /**
    An entry with the marker and without "name" keeps its name whatever the
    first name, so the entry channel exists, at that entry or a later one.
  */
  lemma EntryFoundFromMarkedEntry(templates: seq<string>, firstname: string, i: nat)
    requires i < |templates|
    requires Includes(templates[i], EntryMarker) && !Includes(templates[i], NameToken)
    ensures EntryPosition(templates, firstname).Some?
    ensures i <= EntryPosition(templates, firstname).value < |templates|
  {
    var names := ChannelNames(templates, firstname);
    ChannelNamesAt(templates, firstname, i);
    assert names[i] == templates[i];
    LastContainingIsLast(names, EntryMarker);
  }

  /**
    With the template as it stands an entry channel always exists, so every
    join ends with exactly one welcome message.
  */
  lemma EntryAlwaysFound(firstname: string)
    ensures EntryPosition(ChannelTemplate, firstname).Some?
    ensures EntryPosition(ChannelTemplate, firstname).value < |ChannelTemplate|
  {
    FirstEntryIsTeamChat();
    EntryFoundFromMarkedEntry(ChannelTemplate, firstname, 0);
  }

  /**
    From registration to category: on a fetched list with one entry per code,
    when the last invite whose count went up is one with a registered name,
    that name, trimmed, is the name the workspace is created for. An invite
    that went up earlier in the list does not count: the diff reports the
    last one.
  */
  lemma RegisteredNameNamesWorkspace(cache: map<string, nat>, names: map<string, string>,
                                     fetched: seq<Invite>, i: nat, name: string, m: Member)
    requires DistinctCodes(fetched)
    requires LastIncreasedAt(cache, fetched) == Some(i)
    requires fetched[i].code != "" && name != ""
    ensures var registry := Ingest(names, IngressBody(Some(fetched[i].code), Some(name))).0;
            var used := DiffRun(cache, fetched).0;
      && used == Some(fetched[i])
      && ResolveFirstname(used, registry, m) == Trim(name)
      && CategoryName(ResolveFirstname(used, registry, m)) == Trim(name) + " - Echo Growth"
  {
    DiffReportsLastIncreased(cache, fetched);
  }

  /**
    The invite reported is the last one that went up, so a registered invite
    that went up earlier in the list is overridden: with an empty cache and
    two invites used once, the second (unregistered) one wins and the member's
    display label names the workspace.
  */
  lemma LaterIncreaseOverridesRegistration(m: Member)
    ensures var fetched := [Invite("A", 1), Invite("B", 1)];
            var registry := Ingest(map[], IngressBody(Some("A"), Some("Maria"))).0;
      && DiffRun(map[], fetched).0 == Some(Invite("B", 1))
      && ResolveFirstname(DiffRun(map[], fetched).0, registry, m) == Trim(DisplayLabel(m))
  {
    var fetched := [Invite("A", 1), Invite("B", 1)];
    assert fetched[..1] == [Invite("A", 1)] && fetched[..1][..0] == [];
  }

  /**
    When no fetched count went up, the registry plays no part: the workspace
    is named after the member's display label.
  */
  lemma UnmatchedJoinUsesDisplayLabel(cache: map<string, nat>, names: map<string, string>,
                                      fetched: seq<Invite>, m: Member)
    requires DistinctCodes(fetched)
    requires forall j :: 0 <= j < |fetched| ==> !Increased(cache, fetched[j])
    ensures ResolveFirstname(DiffRun(cache, fetched).0, names, m) == Trim(DisplayLabel(m))
  {
    DiffReportsLastIncreased(cache, fetched);
  }
}
