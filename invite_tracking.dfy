/**
  The process-wide invite-usage cache (`inviteUses`, code to use count): seeded
  from the guild's invite list when the bot is ready, and diffed against a fresh
  invite list on every member join to find the invite that was used.
*/
module InviteTracking {
  import opened Wrappers

  /** One entry of a fetched invite list. */
  datatype Invite = Invite(code: string, uses: nat)

  /** `inviteUses.get(code) || 0`: the cached count, an absent entry counting as 0. */
  function Prev(cache: map<string, nat>, code: string): nat {
    if code in cache then cache[code] else 0
  }

  /** The test the join handler applies to each fetched invite. */
  predicate Increased(cache: map<string, nat>, inv: Invite) {
    inv.uses > Prev(cache, inv.code)
  }

  /** A fetched invite list as the platform returns it: one entry per code. */
  predicate DistinctCodes(invites: seq<Invite>) {
    forall i, j :: 0 <= i < j < |invites| ==> invites[i].code != invites[j].code
  }

  predicate Fetched(invites: seq<Invite>, code: string) {
    exists j :: 0 <= j < |invites| && invites[j].code == code
  }

  /** The cache after `inviteUses.set(inv.code, inv.uses)` for each invite in order. */
  function Record(cache: map<string, nat>, invites: seq<Invite>): (r: map<string, nat>)
    ensures cache.Keys <= r.Keys
  {
    if invites == [] then cache
    else
      var last := invites[|invites| - 1];
      Record(cache, invites[..|invites| - 1])[last.code := last.uses]
  }

  /**
    The diff loop of the join handler, step by step: the invite it reports and
    the cache it leaves. Each step reads the cache as the earlier steps left it,
    so a later step overrides the reported invite.
  */
  function DiffRun(cache: map<string, nat>, invites: seq<Invite>): (r: (Option<Invite>, map<string, nat>))
    ensures r.1 == Record(cache, invites)
    ensures r.0.Some? ==> r.0.value in invites
  {
    if invites == [] then (None, cache)
    else
      var (used, seen) := DiffRun(cache, invites[..|invites| - 1]);
      var inv := invites[|invites| - 1];
      (if inv.uses > Prev(seen, inv.code) then Some(inv) else used, seen[inv.code := inv.uses])
  }

  /**
    Reference definition of the reported invite: the position of the last
    fetched invite whose count went up against the cache before the diff.
  */
  function LastIncreasedAt(cache: map<string, nat>, invites: seq<Invite>): (r: Option<nat>)
    ensures r.Some? ==> r.value < |invites| && Increased(cache, invites[r.value])
    ensures r.Some? ==> forall j :: r.value < j < |invites| ==> !Increased(cache, invites[j])
    ensures r.None? <==> forall j :: 0 <= j < |invites| ==> !Increased(cache, invites[j])
  {
    if invites == [] then None
    else if Increased(cache, invites[|invites| - 1]) then Some(|invites| - 1)
    else LastIncreasedAt(cache, invites[..|invites| - 1])
  }

  function InviteAt(invites: seq<Invite>, at: Option<nat>): Option<Invite>
    requires at.Some? ==> at.value < |invites|
  {
    match at
    case None => None
    case Some(i) => Some(invites[i])
  }

  /** A code the list does not fetch keeps its cache entry, or its absence. */
  lemma {:induction false} RecordKeepsUnfetched(cache: map<string, nat>, invites: seq<Invite>, code: string)
    requires !Fetched(invites, code)
    ensures code in Record(cache, invites) <==> code in cache
    ensures code in cache ==> Record(cache, invites)[code] == cache[code]
  {
    if invites != [] {
      var init := invites[..|invites| - 1];
      forall j | 0 <= j < |init| ensures init[j].code != code {
        assert init[j] == invites[j];
      }
      RecordKeepsUnfetched(cache, init, code);
    }
  }

  /** A fetched code ends up cached with the count of its last entry in the list. */
  lemma {:induction false} RecordStoresFetched(cache: map<string, nat>, invites: seq<Invite>, i: nat)
    requires i < |invites|
    requires forall j :: i < j < |invites| ==> invites[j].code != invites[i].code
    ensures invites[i].code in Record(cache, invites)
    ensures Record(cache, invites)[invites[i].code] == invites[i].uses
  {
    if i < |invites| - 1 {
      RecordStoresFetched(cache, invites[..|invites| - 1], i);
    }
  }

  /** Nothing is ever removed: the keys after recording are the old keys plus the fetched codes. */
  lemma {:induction false} RecordKeys(cache: map<string, nat>, invites: seq<Invite>)
    ensures Record(cache, invites).Keys == cache.Keys + set j | 0 <= j < |invites| :: invites[j].code
  {
    if invites != [] {
      var init := invites[..|invites| - 1];
      RecordKeys(cache, init);
      var codes := set j | 0 <= j < |invites| :: invites[j].code;
      var initCodes := set j | 0 <= j < |init| :: init[j].code;
      assert codes == initCodes + {invites[|invites| - 1].code} by {
        forall c | c in codes ensures c in initCodes + {invites[|invites| - 1].code} {
          var j :| 0 <= j < |invites| && invites[j].code == c;
          if j < |init| { assert init[j].code == c; }
        }
        forall c | c in initCodes ensures c in codes {
          var j :| 0 <= j < |init| && init[j].code == c;
          assert invites[j].code == c;
        }
      }
    }
  }

  /**
    On a list with one entry per code, the diff reports exactly the last invite
    whose count is strictly above its cached count (absent counting as 0), and
    nothing when no count went up.
  */
  lemma {:induction false} DiffReportsLastIncreased(cache: map<string, nat>, invites: seq<Invite>)
    requires DistinctCodes(invites)
    ensures DiffRun(cache, invites).0 == InviteAt(invites, LastIncreasedAt(cache, invites))
  {
    if invites != [] {
      var init := invites[..|invites| - 1];
      var inv := invites[|invites| - 1];
      assert DistinctCodes(init);
      DiffReportsLastIncreased(cache, init);
      forall j | 0 <= j < |init| ensures init[j].code != inv.code {
        assert init[j] == invites[j];
      }
      RecordKeepsUnfetched(cache, init, inv.code);
      assert Prev(DiffRun(cache, init).1, inv.code) == Prev(cache, inv.code);
      if !Increased(cache, inv) {
        var at := LastIncreasedAt(cache, init);
        assert at.Some? ==> invites[at.value] == init[at.value];
      }
    }
  }

  /**
    The reported invite is one that was fetched and whose count is strictly
    above the cached count; when several went up, none after it in the list did.
  */
  lemma DiffReportsOnlyIncreased(cache: map<string, nat>, invites: seq<Invite>)
    requires DistinctCodes(invites)
    ensures DiffRun(cache, invites).0.None? <==> forall j :: 0 <= j < |invites| ==> !Increased(cache, invites[j])
    ensures DiffRun(cache, invites).0.Some? ==>
      exists i :: 0 <= i < |invites| && invites[i] == DiffRun(cache, invites).0.value
                  && Increased(cache, invites[i])
                  && forall j :: i < j < |invites| ==> !Increased(cache, invites[j])
  {
    DiffReportsLastIncreased(cache, invites);
  }

  /**
    After the diff, every fetched code is cached with its fetched count, and
    every code the list does not name keeps what it had.
  */
  lemma CacheAfterDiff(cache: map<string, nat>, invites: seq<Invite>)
    requires DistinctCodes(invites)
    ensures forall i :: 0 <= i < |invites| ==>
      invites[i].code in DiffRun(cache, invites).1 && DiffRun(cache, invites).1[invites[i].code] == invites[i].uses
    ensures forall c :: c in cache && !Fetched(invites, c) ==>
      c in DiffRun(cache, invites).1 && DiffRun(cache, invites).1[c] == cache[c]
  {
    forall i | 0 <= i < |invites|
      ensures invites[i].code in Record(cache, invites) && Record(cache, invites)[invites[i].code] == invites[i].uses
    {
      RecordStoresFetched(cache, invites, i);
    }
    forall c | c in cache && !Fetched(invites, c)
      ensures c in Record(cache, invites) && Record(cache, invites)[c] == cache[c]
    {
      RecordKeepsUnfetched(cache, invites, c);
    }
  }

  /**
    `inviteUses`. The ready handler seeds it and the join handler diffs and
    refreshes it; no entry is ever deleted.
  */
  class InviteTracker {
    var cache: map<string, nat>

    constructor ()
      ensures cache == map[]
    {
      cache := map[];
    }

    /**
      The ready handler: with a guild whose invites could be fetched, set each
      fetched code's count; with no guild, or a failed fetch, leave the cache.
    */
    method Seed(fetched: Option<seq<Invite>>)
      modifies this
      ensures fetched.None? ==> cache == old(cache)
      ensures fetched.Some? ==> cache == Record(old(cache), fetched.value)
    {
      if fetched.Some? {
        var invites := fetched.value;
        var i := 0;
        while i < |invites|
          invariant 0 <= i <= |invites|
          invariant cache == Record(old(cache), invites[..i])
        {
          assert invites[..i + 1][..i] == invites[..i];
          cache := cache[invites[i].code := invites[i].uses];
          i := i + 1;
        }
        assert invites[..|invites|] == invites;
      }
    }

    /**
      The diff loop of the join handler: compare each fetched count with the
      cached one, remember the invite on an increase, and overwrite the entry.
    */
    method Diff(invites: seq<Invite>) returns (used: Option<Invite>)
      modifies this
      ensures (used, cache) == DiffRun(old(cache), invites)
      ensures cache == Record(old(cache), invites)
    {
      used := None;
      var i := 0;
      while i < |invites|
        invariant 0 <= i <= |invites|
        invariant (used, cache) == DiffRun(old(cache), invites[..i])
      {
        assert invites[..i + 1][..i] == invites[..i];
        var inv := invites[i];
        var prev := if inv.code in cache then cache[inv.code] else 0;
        if inv.uses > prev {
          used := Some(inv);
        }
        cache := cache[inv.code := inv.uses];
        i := i + 1;
      }
      assert invites[..|invites|] == invites;
    }
  }
}
