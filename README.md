# Echo Growth onboarding bot: a Dafny model of its decision pipeline

The bot (`index.js`) onboards a new client on the Echo Growth Discord server.
An automation posts each client's invite code and first name to the
`/invite-map` endpoint, and the bot keeps those pairs in a registry. The bot
also keeps a cache of how many times each server invite has been used. It
seeds that cache when it logs in and refreshes it on every member join. When a
member joins, the bot does the following:

1. It compares a fresh invite list with the cache to find the invite that was used.
2. It looks up the first name registered for that invite. If there is none, it
   falls back to the member's display name, then the user name, then "Client".
3. It creates a private category named `<first name> - Echo Growth`, with
   permission overwrites for everyone, the member, the bot and an optional
   staff role.
4. It creates eight text channels under that category from a fixed template,
   putting the lower-cased first name in place of the first `name` in each
   channel name.
5. It posts one welcome message in the team-chat channel.

The model covers that pipeline. The platform is a `Guild` object whose channel
list and message list the handler appends to. A channel's id is its position in
that list.

Modules:

- `Wrappers`: `Option`, for the values JavaScript writes as `null`/`undefined`.
- `JsStrings`: the JavaScript string operations the bot uses:
  - truthiness;
  - `trim` with the ECMAScript whitespace set;
  - `toLowerCase`;
  - `indexOf`/`includes`;
  - `replace` with a string pattern, including its `$` replacement patterns.
- `InviteTracking`: the `inviteUses` cache as a class. It has the seeding loop
  and the diff loop, each proved against a step-by-step specification
  function. Lemmas say which invite the diff reports and what the cache holds
  afterwards.
- `NameRegistry`: `inviteMap` and the `/invite-map` handler body (validation,
  then last-write-wins update), as a class over a specification function.
- `Attribution`: the first-name fallback chain and `trim`.
- `Platform`: the guild state the handler changes (channels and messages).
- `Workspace`:
  - the category name;
  - the overwrite list (built, then conditionally pushed);
  - the channel template and its substitution;
  - the channel loop, which creates the channels and picks the entry channel.
- `Onboarding`: the ready handler and the member-join handler, composed from the above.

## Model

| member | source | states |
|---|---|---|
| InviteTracking.InviteTracker.constructor | index.js:79 | The invite-use cache starts empty. |
| InviteTracking.InviteTracker.Seed | index.js:101-102 | Seeding with a fetched list sets each code's count in list order. A later entry for a code wins. No fetched list leaves the cache unchanged. |
| Onboarding.HandleReady | index.js:84-108 | The ready handler's whole effect is the seeding: the cache after `Record`, or the old cache when there is no guild. |
| InviteTracking.DiffRun | index.js:119-127 | Each step compares against the running cache. The cache it leaves is the specification `Record` of all fetched counts. The invite it reports is one of the fetched invites. |
| InviteTracking.InviteTracker.Diff | index.js:119-127 | The diff loop returns the reported invite and leaves exactly the cache of the step-by-step specification `DiffRun`. |
| InviteTracking.LastIncreasedAt | index.js:121-125 | Reference definition. It gives the position of a fetched invite whose uses are strictly above the cached count (an absent entry counts as 0), with no increased invite after it. It gives none exactly when no invite increased. |
| InviteTracking.DiffReportsLastIncreased | index.js:119-127 | On a list with one entry per code, the diff reports exactly the invite at `LastIncreasedAt`: the last increased one, or none. |
| InviteTracking.DiffReportsOnlyIncreased | index.js:121-125 | The diff reports nothing exactly when no fetched count rose strictly above its cached count. Otherwise it reports a fetched invite that rose, with none after it in the list rising. |
| InviteTracking.Record | index.js:102 | Setting the fetched counts one by one never removes a key from the cache. |
| InviteTracking.RecordStoresFetched | index.js:126 | A fetched code is cached with the count of its last entry in the list. |
| InviteTracking.RecordKeepsUnfetched | index.js:126 | A code the list does not name keeps its cache entry, or stays absent. |
| InviteTracking.RecordKeys | index.js:126 | The cache's keys afterwards are the old keys plus the fetched codes. No entry is ever removed. |
| InviteTracking.CacheAfterDiff | index.js:119-127 | After the diff, every fetched code holds its fetched uses and every other code keeps its old count. |
| NameRegistry.Ingest | index.js:50-61 | If either field is absent or empty, the reply is 400 "inviteCode and firstname required" and the registry is unchanged. Otherwise the reply is 200 "ok", the code maps to the name, a key is added if the code was new, and every other entry is unchanged. |
| NameRegistry.InviteNameRegistry.constructor | index.js:42 | The registry starts empty. |
| NameRegistry.InviteNameRegistry.Post | index.js:50-61 | The handler's new registry and reply are those of `Ingest`. A rejected body leaves the registry as it was, with status 400. An accepted one makes its code look up to its name, with status 200. |
| NameRegistry.Lookup | index.js:133 | `inviteMap.get`: a name is found exactly for a stored code, and it is the stored name. |
| NameRegistry.InviteNameRegistry.Get | index.js:133 | The registry's `get`: a name is found exactly for a stored code, and it is the stored name. |
| NameRegistry.IngestRejects | index.js:53-55 | A missing or empty `inviteCode` or `firstname` gives the 400 reply and an unchanged registry. |
| NameRegistry.IngestAccepts | index.js:57-60 | An accepted call replies 200 "ok". Afterwards its code looks up to its name, whatever was stored before, and every other code looks up as before. |
| NameRegistry.IngestLastWriteWins | index.js:57 | Of two accepted calls for one code, the later name is the one that stays. |
| NameRegistry.IngestKeepsEntriesTruthy | index.js:53-57 | The registry only ever holds non-empty names under non-empty codes. |
| Attribution.DisplayLabel | index.js:137 | `displayName` if it is non-empty, else `username` if it is non-empty, else "Client". Never empty. |
| Attribution.MappedName | index.js:131-133 | A name is looked up exactly when an invite was found and the registry holds its code. The name is the registered one. |
| Attribution.RawFirstname | index.js:129-144 | The chosen name before trimming is never empty. It is either the registered name of the found invite or the display label. |
| Attribution.ResolveFirstname | index.js:129-146 | The result is trimmed: it neither starts nor ends with whitespace. It is empty exactly when the chosen name is all whitespace. |
| Attribution.ResolveOrder | index.js:131-144 | The registered name, trimmed, is used exactly when an invite was found and the registry holds a non-empty name for its code. Otherwise the display label is used, trimmed. |
| Attribution.ResolveWithoutInvite | index.js:141-144 | Without a found invite the registry's content does not affect the result. |
| Attribution.WhitespaceDisplayNameResolvesEmpty | index.js:143-146 | The result can be empty: a display name of spaces with no registered name resolves to "". |
| Attribution.ResolveNonBlank | index.js:146 | If the chosen name has a non-whitespace character, the result is non-empty and no longer than that name. |
| JsStrings.Trim | index.js:146 | The result is a slice of the input with only whitespace before and after it. It does not start or end with whitespace, and it is empty exactly when the input is all whitespace. |
| JsStrings.TrimIdempotent | index.js:146 | Trimming a trimmed name changes nothing. |
| JsStrings.ToLower | index.js:202 | The result has the same length as the input and each character is lowered. |
| JsStrings.IndexOfFrom | index.js:210 | A found position is at or after the start and the pattern occurs there. |
| JsStrings.IndexOfFromIsFirst | index.js:210 | No occurrence is skipped: none lies between the start and the position found, and none lies after the start when nothing is found. |
| JsStrings.IndexOfIsFirst | index.js:202 | `indexOf` finds the first occurrence, and finds nothing only when there is no occurrence. |
| JsStrings.IncludesOccurs | index.js:210 | `includes` holds exactly when the pattern occurs at some position. |
| JsStrings.Expand | index.js:202 | The replacement string after `replace` expands its `$`-patterns. A replacement without `$` is inserted as it is. |
| JsStrings.ExpandSubstitutions | index.js:202 | The substitution table of `replace` for a string pattern: `$$` gives `$`, `$&` the matched text, `` $` `` the text before the match, `$'` the text after it. A `$` before any other character, or at the end, stays as it is, and any other first character is copied. |
| JsStrings.ReplaceFirst | index.js:202 | `replace` with a string pattern returns the string unchanged when the pattern does not occur. |
| JsStrings.ReplaceFirstAtFirst | index.js:202 | `replace` with a string pattern puts the expanded replacement in place of the first occurrence and keeps the text before and after it. The expansion sees the matched text and the text on each side. A string without the pattern is returned unchanged. |
| JsStrings.ReplaceFirstLiteral | index.js:202 | `replace` with a string pattern and a `$`-free replacement leaves a string without the pattern unchanged. Otherwise it puts the replacement in place of the first occurrence and keeps everything around it. |
| Workspace.CategoryName | index.js:149 | The category name is the first name followed by exactly " - Echo Growth". |
| Workspace.CategoryNameInjective | index.js:149 | Two category names are equal exactly when the first names are. |
| Workspace.OverwritePlan | index.js:160-181 | The list has 3 or 4 entries, and 4 exactly when a staff role is set. Entry 0: everyone, deny View. Entry 1: the member, allow View+Send. Entry 2: the bot, allow View+Send. Entry 3, when present: the staff role, allow View+Send. |
| Workspace.OverwritePlanOnlyEveryoneDenied | index.js:160-181 | Only the everyone entry denies anything. Every other entry allows viewing and sending. |
| Workspace.BuildOverwrites | index.js:160-181 | Three entries followed by an optional push: the list is `OverwritePlan`. |
| Workspace.ChannelName | index.js:202 | A template entry without "name" keeps its name, whatever the first name. |
| Workspace.ChannelNameSubstitutes | index.js:202 | For a first name without `$`, only the entry's first "name" is replaced, by the lower-cased first name. The text around it is kept. |
| Workspace.ChannelNames | index.js:188-202 | One final name per template entry. |
| Workspace.ChannelNamesAt | index.js:201-202 | Final name `i` is template entry `i` after the substitution. |
| Workspace.TextChannels | index.js:204-208 | One created text channel per final name. |
| Workspace.TextChannelsAt | index.js:204-208 | Created channel `i` is a text channel named by final name `i`, under the category. |
| Workspace.LastContaining | index.js:199-213 | A selected position is within the list. |
| Workspace.LastContainingIsLast | index.js:210-212 | The selected name contains the marker and no later name does. Nothing is selected exactly when no name contains it. |
| Workspace.LastContainingSnoc | index.js:210-212 | A new name containing the marker becomes the selection. Otherwise the selection stays. |
| Workspace.CreateStep | index.js:201-208 | One more template entry adds one final name and one channel at the end. |
| Workspace.CreateOne | index.js:204-212 | One iteration appends the text channel under the category. It makes that channel the entry channel if its name contains "team-chat", and otherwise keeps the previous one. |
| Workspace.CreateChannels | index.js:199-213 | The guild gains one text channel per template entry, in template order, and no message. The entry channel is the last created channel whose final name contains "team-chat". There is none exactly when no name contains it. |
| Platform.Guild.CreateChannel | index.js:204-208 | Creating a channel appends it and returns its id. |
| Platform.Guild.SetOverwrites | index.js:183 | Only the given channel's overwrites change. |
| Platform.Guild.Send | index.js:265 | Sending appends one message to the given channel and changes no channel. |
| Onboarding.WelcomeFor | index.js:219-226 | The welcome's member mention is the member's id wrapped as `<@id>`. |
| Onboarding.MentionInjective | index.js:219-226 | Different ids give different mentions. |
| Onboarding.WelcomeNamesMember | index.js:219-226 | The welcome mentions the member it was made for: `<@id>`. Two welcomes differ exactly when their members do. The team and start-here mentions are the same for everyone. |
| Onboarding.CreateCategory | index.js:154-183 | The category is appended with its name and its overwrite list, and its id is returned. |
| Onboarding.Provision | index.js:149-265 | The guild's channels become the old ones, then the category, then the text channels. A welcome is appended to the entry channel exactly when one exists. |
| Onboarding.HandleMemberJoin | index.js:113-272 | The invite cache after the join is the `Record` of the fetched list. The first name is `ResolveFirstname` of the invite the diff reports. The guild is provisioned for that name from the fixed template. |
| Onboarding.FirstEntryIsTeamChat | index.js:189 | The first template entry contains "team-chat" and has no "name". |
| Onboarding.EntryFoundFromMarkedEntry | index.js:199-213 | A template entry with the marker and without "name" guarantees an entry channel, at that entry or a later one. |
| Onboarding.EntryAlwaysFound | index.js:188-218 | With the bot's template an entry channel always exists, so the send guard always passes and every join posts exactly one welcome. |
| Onboarding.RegisteredNameNamesWorkspace | index.js:119-149 | Take a fetched list with one entry per code whose last increased invite has a registered name. That name, trimmed, is the first name, and the category is that name followed by " - Echo Growth". |
| Onboarding.LaterIncreaseOverridesRegistration | index.js:119-144 | A registered invite that went up is overridden by a later one in the list that also went up. With an empty cache and invites A and B used once each, B is reported. A's registered name is then not used, and the display label names the workspace. |
| Onboarding.UnmatchedJoinUsesDisplayLabel | index.js:141-146 | When no fetched count went up, the first name is the member's display label, trimmed, whatever the registry holds. |

## Behaviour worth knowing

- The diff has no `break`, so with several increased invites it reports the
  last one in list order, not the first.
- There is no separate degraded mode after failed seeding. An empty cache
  makes every invite used at least once count as increased, so the last such
  invite is reported.
- The resolved first name can be the empty string: a whitespace-only display
  name trims to "". The category is then named " - Echo Growth".
- Three template entries contain "name", and in each only the first
  occurrence is replaced.
- A first name whose lower case contains "team-chat" moves the entry channel
  to a later channel whose substituted name contains it.
  `LastContainingIsLast` covers this case too.

## Left out

- HTTP: the Express server, `app.listen`, the `GET /` route and JSON parsing
  (index.js:36-47, 63-65). Only the `/invite-map` handler body is modelled.
- Gateway plumbing: client construction, intents and `client.login`
  (index.js:70-76, 277).
- Platform calls are state changes on `Platform.Guild`. The invite fetch is an
  input sequence. Failures of those calls, and the try/catch blocks that log
  them (index.js:105-107, 269-271), are not modelled. There is no rollback
  either: the model has no partial provisioning.
- The guild lookup in the ready handler (`GUILD_ID` or the first cached
  guild, index.js:88-99) is reduced to whether an invite list was fetched.
- The welcome message is represented by the mentions it carries. Its prose
  (index.js:228-263) and logging are left out.
- Concurrent join events and ingress calls interleaving at `await` points
  are left out: each handler runs to completion here.
- NameRegistry.IngressBody: a field is a string or absent. A JSON number or
  object in `inviteCode`/`firstname` is not modelled.
- JsStrings.ToLower: lowers ASCII letters only. Full Unicode case mapping is
  not modelled.
- JsStrings: strings are sequences of code points, while JavaScript indexes
  UTF-16 code units. Any text outside the Basic Multilingual Plane is affected:
  the emoji in the channel names, and any emoji in a registered first name, a
  display name or a user name. The results do not depend on this, because:
  - every whitespace code point `trim` removes lies in the Basic Multilingual
    Plane;
  - lowering touches ASCII letters only;
  - `includes` and `replace` search for the ASCII patterns "name" and
    "team-chat", which occur the same way in either encoding.
  Positions and lengths are counted in code points, so `IndexOf` can give a
  smaller number than JavaScript's `indexOf`. The bot never uses such a
  number: it only tests `includes` and splices `replace`'s result at the
  match. Every position or length the model states (a prefix, a slice at the
  match, the length of a concatenation) means the same in either unit.
- InviteTracking.DiffReportsLastIncreased: stated for a fetched list with one
  entry per code, as the platform's invite collection is keyed by code.
  `DiffRun` and `InviteTracker.Diff` themselves handle any list.
- Workspace.ChannelNameSubstitutes: the substitution is stated for first
  names without `$`. Names with `$` are covered by `ReplaceFirstAtFirst` and
  `ExpandSubstitutions`, which state how `$$`, `$&`, `` $` `` and `$'` are
  expanded.
- The platform's own rules (permission inheritance, channel-name
  normalisation, id generation) are left out. A channel's id is its position.
