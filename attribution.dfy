/**
  The join handler's choice of the client's first name: the name registered
  for the invite the member used, else the member's display name, else the
  user name, else "Client"; then trimmed.
*/
module Attribution {
  import opened Wrappers
  import opened JsStrings
  import opened InviteTracking

  /** The joining member: its id, `member.displayName` and `member.user.username`. */
  datatype Member = Member(id: string, displayName: Option<string>, username: Option<string>)

  const Placeholder := "Client"

  /** `member.displayName || member.user.username || "Client"`: never empty. */
  function DisplayLabel(m: Member): (r: string)
    ensures r != ""
    ensures Truthy(m.displayName) ==> r == m.displayName.value
    ensures !Truthy(m.displayName) && Truthy(m.username) ==> r == m.username.value
    ensures !Truthy(m.displayName) && !Truthy(m.username) ==> r == "Client"
  {
    if Truthy(m.displayName) then m.displayName.value
    else if Truthy(m.username) then m.username.value
    else Placeholder
  }

  /** `inviteMap.get(usedInvite.code)` when an invite was found; absent otherwise. */
  function MappedName(used: Option<Invite>, names: map<string, string>): (r: Option<string>)
    ensures r.Some? <==> used.Some? && used.value.code in names
    ensures r.Some? ==> r.value == names[used.value.code]
  {
    if used.Some? && used.value.code in names then Some(names[used.value.code]) else None
  }

  /**
    The first name before trimming: never empty, and either the name registered
    for the invite found or the member's display label.
  */
  function RawFirstname(used: Option<Invite>, names: map<string, string>, m: Member): (r: string)
    ensures r != ""
    ensures r == DisplayLabel(m) || (used.Some? && used.value.code in names && r == names[used.value.code])
  {
    var mapped := MappedName(used, names);
    if Truthy(mapped) then mapped.value else DisplayLabel(m)
  }

  /** `firstname.trim()` after the fallback chain. */
  function ResolveFirstname(used: Option<Invite>, names: map<string, string>, m: Member): (r: string)
    ensures r != [] ==> !IsWhitespace(r[0]) && !IsWhitespace(r[|r| - 1])
    ensures r == [] <==> AllWhitespace(RawFirstname(used, names, m))
  {
    Trim(RawFirstname(used, names, m))
  }

  /**
    The registered name is taken exactly when an invite was found and the
    registry holds a non-empty name for its code; otherwise the display label.
  */
  lemma ResolveOrder(used: Option<Invite>, names: map<string, string>, m: Member)
    ensures (used.Some? && used.value.code in names && names[used.value.code] != "") ==>
      ResolveFirstname(used, names, m) == Trim(names[used.value.code])
    ensures !(used.Some? && used.value.code in names && names[used.value.code] != "") ==>
      ResolveFirstname(used, names, m) == Trim(DisplayLabel(m))
  {
  }

  /** Without a found invite the registry plays no part. */
  lemma ResolveWithoutInvite(names1: map<string, string>, names2: map<string, string>, m: Member)
    ensures ResolveFirstname(None, names1, m) == ResolveFirstname(None, names2, m)
  {
  }

  /**
    The result is not always non-empty: a member without a registered name
    whose display name is only spaces resolves to the empty string.
  */
  lemma WhitespaceDisplayNameResolvesEmpty(id: string, username: Option<string>)
    ensures ResolveFirstname(None, map[], Member(id, Some("  "), username)) == ""
  {
    assert RawFirstname(None, map[], Member(id, Some("  "), username)) == "  ";
  }

  /** With a non-blank chosen name, the result is non-empty and contained in it. */
  lemma ResolveNonBlank(used: Option<Invite>, names: map<string, string>, m: Member, k: nat)
    requires k < |RawFirstname(used, names, m)| && !IsWhitespace(RawFirstname(used, names, m)[k])
    ensures ResolveFirstname(used, names, m) != ""
    ensures |ResolveFirstname(used, names, m)| <= |RawFirstname(used, names, m)|
  {
  }
}
