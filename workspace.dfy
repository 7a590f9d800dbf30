/**
  The client workspace the join handler provisions: a category named after
  the client, its permission overwrites, one text channel per template entry
  with "name" replaced by the lower-cased first name, and the choice of the
  team-chat channel that receives the welcome message.
*/
module Workspace {
  import opened Wrappers
  import opened JsStrings
  import opened Platform

  const CategorySuffix := " - Echo Growth"

  /** The category name: the (trimmed) first name followed by " - Echo Growth". */
  function CategoryName(firstname: string): (r: string)
    ensures |r| == |firstname| + |CategorySuffix|
    ensures r[..|firstname|] == firstname && r[|firstname|..] == " - Echo Growth"
  {
    firstname + CategorySuffix
  }

  /**
    Two clients get categories of the same name exactly when their first names
    are equal; nothing else tells their workspaces apart.
  */
  lemma CategoryNameInjective(a: string, b: string)
    ensures CategoryName(a) == CategoryName(b) <==> a == b
  {
    if CategoryName(a) == CategoryName(b) {
      assert a == CategoryName(a)[..|a|];
      assert b == CategoryName(b)[..|b|];
    }
  }

  /** The view/send pair the member, the bot and the staff role are allowed. */
  const ViewAndSend := [ViewChannel, SendMessages]

  /** `process.env.STAFF_ROLE_ID || null`, then `if (STAFF_ROLE_ID)`: set and non-empty. */
  predicate StaffRoleSet(staffRoleId: Option<string>) {
    Truthy(staffRoleId)
  }

  /**
    The overwrite list: everyone is denied viewing; the member and the bot may
    view and send; a configured staff role may view and send too.
  */
  function OverwritePlan(everyoneId: string, memberId: string, botId: string, staffRoleId: Option<string>): (r: seq<Overwrite>)
    ensures |r| == 3 || |r| == 4
    ensures |r| == 4 <==> StaffRoleSet(staffRoleId)
    ensures r[0] == Overwrite(everyoneId, [], [ViewChannel])
    ensures r[1] == Overwrite(memberId, [ViewChannel, SendMessages], [])
    ensures r[2] == Overwrite(botId, [ViewChannel, SendMessages], [])
    ensures |r| == 4 ==> r[3] == Overwrite(staffRoleId.value, [ViewChannel, SendMessages], [])
  {
    var base := [
      Overwrite(everyoneId, [], [ViewChannel]),
      Overwrite(memberId, ViewAndSend, []),
      Overwrite(botId, ViewAndSend, [])
    ];
    if StaffRoleSet(staffRoleId) then base + [Overwrite(staffRoleId.value, ViewAndSend, [])] else base
  }

  /** Only the everyone role is denied anything; every other entry allows viewing and sending. */
  lemma OverwritePlanOnlyEveryoneDenied(everyoneId: string, memberId: string, botId: string, staffRoleId: Option<string>)
    ensures var r := OverwritePlan(everyoneId, memberId, botId, staffRoleId);
      forall i :: 1 <= i < |r| ==> r[i].deny == [] && ViewChannel in r[i].allow && SendMessages in r[i].allow
  {
  }

  /** The overwrite array as the handler builds it: three entries, then an optional push. */
  method BuildOverwrites(everyoneId: string, memberId: string, botId: string, staffRoleId: Option<string>)
    returns (overwrites: seq<Overwrite>)
    ensures overwrites == OverwritePlan(everyoneId, memberId, botId, staffRoleId)
  {
    overwrites := [
      Overwrite(everyoneId, [], [ViewChannel]),
      Overwrite(memberId, [ViewChannel, SendMessages], []),
      Overwrite(botId, [ViewChannel, SendMessages], [])
    ];
    if staffRoleId.Some? && staffRoleId.value != "" {
      overwrites := overwrites + [Overwrite(staffRoleId.value, [ViewChannel, SendMessages], [])];
    }
  }

  /** The channel-name template, in creation order. */
  const ChannelTemplate: seq<string> := [
    "🤝│team-chat",
    "🧲│new-leads-name",
    "ℹ️│typeform-name",
    "🗓│new-calls-name",
    "📈│performance-intelligence",
    "📊│ad-intelligence",
    "🧬│funnel-diagnostics",
    "🗂│swipe-vault"
  ]

  const NameToken := "name"
  const EntryMarker := "team-chat"

  /**
    `name.replace("name", firstname.toLowerCase())`: whatever the first name, a
    template entry without "name" keeps its name.
  */
  function ChannelName(template: string, firstname: string): (r: string)
    ensures !Includes(template, NameToken) ==> r == template
  {
    ReplaceFirst(template, NameToken, ToLower(firstname))
  }

  /**
    For a first name without `$`, only the first "name" of a template entry is
    replaced, by the lower-cased first name.
  */
  lemma ChannelNameSubstitutes(template: string, firstname: string)
    requires NoDollar(firstname)
    ensures Includes(template, "name") ==>
      exists p :: OccursAt(template, "name", p) && (forall k :: 0 <= k < p ==> !OccursAt(template, "name", k))
                  && ChannelName(template, firstname) == template[..p] + ToLower(firstname) + template[p + 4..]
  {
    var lower := ToLower(firstname);
    assert NoDollar(lower) by {
      forall k | 0 <= k < |lower| ensures lower[k] != '$' {
        assert lower[k] == LowerChar(firstname[k]);
      }
    }
    ReplaceFirstLiteral(template, NameToken, lower);
  }

  /** The final channel names, one per template entry, in template order. */
  function ChannelNames(templates: seq<string>, firstname: string): (r: seq<string>)
    ensures |r| == |templates|
  {
    if templates == [] then []
    else ChannelNames(templates[..|templates| - 1], firstname) + [ChannelName(templates[|templates| - 1], firstname)]
  }

  /** Entry `i` of the final names is template entry `i` with its first "name" substituted. */
  lemma {:induction false} ChannelNamesAt(templates: seq<string>, firstname: string, i: nat)
    requires i < |templates|
    ensures ChannelNames(templates, firstname)[i] == ChannelName(templates[i], firstname)
  {
    if i < |templates| - 1 {
      ChannelNamesAt(templates[..|templates| - 1], firstname, i);
    }
  }

  /** The text channels created under the category, one per name, in order. */
  function TextChannels(names: seq<string>, parent: nat): (r: seq<Channel>)
    ensures |r| == |names|
  {
    if names == [] then []
    else TextChannels(names[..|names| - 1], parent) + [Channel(names[|names| - 1], GuildText, Some(parent), [])]
  }

  /** Channel `i` is a text channel under the category, named by name `i`, with no overwrites of its own. */
  lemma {:induction false} TextChannelsAt(names: seq<string>, parent: nat, i: nat)
    requires i < |names|
    ensures TextChannels(names, parent)[i] == Channel(names[i], GuildText, Some(parent), [])
  {
    if i < |names| - 1 {
      TextChannelsAt(names[..|names| - 1], parent, i);
    }
  }

  /** The position of the last name that contains `marker`, if any. */
  function LastContaining(names: seq<string>, marker: string): (r: Option<nat>)
    ensures r.Some? ==> r.value < |names|
  {
    if names == [] then None
    else if Includes(names[|names| - 1], marker) then Some(|names| - 1)
    else LastContaining(names[..|names| - 1], marker)
  }

  /** The position found is the last match, and there is none exactly when no name matches. */
  lemma {:induction false} LastContainingIsLast(names: seq<string>, marker: string)
    ensures LastContaining(names, marker).Some? ==> Includes(names[LastContaining(names, marker).value], marker)
    ensures LastContaining(names, marker).Some? ==>
      forall j :: LastContaining(names, marker).value < j < |names| ==> !Includes(names[j], marker)
    ensures LastContaining(names, marker).None? <==> forall j :: 0 <= j < |names| ==> !Includes(names[j], marker)
  {
    if names != [] && !Includes(names[|names| - 1], marker) {
      var init := names[..|names| - 1];
      LastContainingIsLast(init, marker);
      assert forall j :: 0 <= j < |init| ==> init[j] == names[j];
    }
  }

  /** Appending one name: it becomes the last match if it contains the marker; otherwise nothing changes. */
  lemma LastContainingSnoc(names: seq<string>, name: string, marker: string)
    ensures LastContaining(names + [name], marker)
            == if Includes(name, marker) then Some(|names|) else LastContaining(names, marker)
  {
    var all := names + [name];
    assert all[..|all| - 1] == names && all[|all| - 1] == name;
  }

  /** One more template entry: one more name and one more channel. */
  lemma CreateStep(templates: seq<string>, i: nat, firstname: string, category: nat)
    requires i < |templates|
    ensures var names := ChannelNames(templates[..i], firstname);
            var name := ChannelName(templates[i], firstname);
      && ChannelNames(templates[..i + 1], firstname) == names + [name]
      && TextChannels(names + [name], category) == TextChannels(names, category) + [Channel(name, GuildText, Some(category), [])]
  {
    assert templates[..i + 1][..i] == templates[..i];
  }

  /**
    One iteration of the channel loop: create the text channel under the
    category, and make it the entry channel if its name contains "team-chat".
  */
  method CreateOne(guild: Guild, name: string, category: nat, teamChat: Option<nat>) returns (next: Option<nat>)
    modifies guild
    ensures guild.channels == old(guild.channels) + [Channel(name, GuildText, Some(category), [])]
    ensures guild.messages == old(guild.messages)
    ensures next == if Includes(name, EntryMarker) then Some(|old(guild.channels)|) else teamChat
  {
    var created := guild.CreateChannel(name, GuildText, Some(category));
    next := teamChat;
    if Includes(name, EntryMarker) {
      next := Some(created);
    }
  }

  /**
    The channel loop: create each channel under the category in template order
    and remember the last one whose final name contains "team-chat".
  */
  method CreateChannels(guild: Guild, templates: seq<string>, firstname: string, category: nat)
    returns (teamChat: Option<nat>)
    modifies guild
    ensures guild.channels == old(guild.channels) + TextChannels(ChannelNames(templates, firstname), category)
    ensures guild.messages == old(guild.messages)
    ensures teamChat.Some? <==> LastContaining(ChannelNames(templates, firstname), EntryMarker).Some?
    ensures teamChat.Some? ==>
      teamChat.value == |old(guild.channels)| + LastContaining(ChannelNames(templates, firstname), EntryMarker).value
  {
    teamChat := None;
    ghost var base := guild.channels;
    ghost var names: seq<string> := [];
    var i := 0;
    while i < |templates|
      invariant 0 <= i <= |templates|
      invariant names == ChannelNames(templates[..i], firstname)
      invariant guild.channels == base + TextChannels(names, category)
      invariant guild.messages == old(guild.messages)
      invariant teamChat.Some? <==> LastContaining(names, EntryMarker).Some?
      invariant teamChat.Some? ==> teamChat.value == |base| + LastContaining(names, EntryMarker).value
    {
      CreateStep(templates, i, firstname, category);
      var finalName := ChannelName(templates[i], firstname);
      LastContainingSnoc(names, finalName, EntryMarker);
      teamChat := CreateOne(guild, finalName, category, teamChat);
      names := names + [finalName];
      i := i + 1;
    }
    assert templates[..|templates|] == templates;
  }
}
