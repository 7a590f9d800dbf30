/**
  `inviteMap` (invite code to first name) and the `POST /invite-map` ingress
  that fills it. Only the handler body is modelled: the request is its parsed
  JSON body, the reply a status and a text.
*/
module NameRegistry {
  import opened Wrappers
  import opened JsStrings

  /** `req.body`'s two fields, each a string or absent (`undefined`/`null`). */
  datatype IngressBody = IngressBody(inviteCode: Option<string>, firstname: Option<string>)

  datatype Response = Response(status: int, text: string)

  const Accepted := Response(200, "ok")
  const Rejected := Response(400, "inviteCode and firstname required")

  /** The handler's guard `!inviteCode || !firstname`, inverted: both fields truthy. */
  predicate Acceptable(body: IngressBody) {
    Truthy(body.inviteCode) && Truthy(body.firstname)
  }

  /** What one ingress call does to the registry and what it replies. */
  function Ingest(names: map<string, string>, body: IngressBody): (r: (map<string, string>, Response))
    ensures !Acceptable(body) ==> r == (names, Rejected)
    ensures Acceptable(body) ==> r.1 == Accepted
    ensures Acceptable(body) ==>
      var (code, name) := (body.inviteCode.value, body.firstname.value);
      r.0.Keys == names.Keys + {code} && r.0[code] == name
      && forall c :: c in names && c != code ==> r.0[c] == names[c]
  {
    if Acceptable(body) then (names[body.inviteCode.value := body.firstname.value], Accepted)
    else (names, Rejected)
  }

  /** `inviteMap.get(code)`. */
  function Lookup(names: map<string, string>, code: string): (r: Option<string>)
    ensures r.Some? <==> code in names
    ensures r.Some? ==> r.value == names[code]
  {
    if code in names then Some(names[code]) else None
  }

  /**
    A body missing either field, or carrying an empty string in it, is answered
    with 400 and leaves the registry as it was.
  */
  lemma IngestRejects(names: map<string, string>, body: IngressBody)
    requires body.inviteCode.None? || body.inviteCode == Some("") || body.firstname.None? || body.firstname == Some("")
    ensures Ingest(names, body) == (names, Response(400, "inviteCode and firstname required"))
  {
  }

  /**
    An accepted call answers 200 "ok"; afterwards a lookup of its code gives its
    name, whatever was there before, and every other code looks up as before.
  */
  lemma IngestAccepts(names: map<string, string>, code: string, name: string, other: string)
    requires code != "" && name != "" && other != code
    ensures Ingest(names, IngressBody(Some(code), Some(name))).1 == Response(200, "ok")
    ensures Lookup(Ingest(names, IngressBody(Some(code), Some(name))).0, code) == Some(name)
    ensures Lookup(Ingest(names, IngressBody(Some(code), Some(name))).0, other) == Lookup(names, other)
  {
  }

  /** Last write wins: of two accepted calls for one code, the later name stays. */
  lemma IngestLastWriteWins(names: map<string, string>, code: string, first: string, second: string)
    requires code != "" && first != "" && second != ""
    ensures var once := Ingest(names, IngressBody(Some(code), Some(first))).0;
            Ingest(once, IngressBody(Some(code), Some(second))).0 == Ingest(names, IngressBody(Some(code), Some(second))).0
  {
  }

  /** Every name the ingress stores is a non-empty string under a non-empty code. */
  lemma IngestKeepsEntriesTruthy(names: map<string, string>, body: IngressBody)
    requires forall c :: c in names ==> c != "" && names[c] != ""
    ensures forall c :: c in Ingest(names, body).0 ==> c != "" && Ingest(names, body).0[c] != ""
  {
  }

  /** The registry object: `inviteMap` and the handler that writes it. */
  class InviteNameRegistry {
    var names: map<string, string>

    constructor ()
      ensures names == map[]
    {
      names := map[];
    }

    /** `inviteMap.get(code)`: the stored name, absent for an unknown code. */
    function Get(code: string): (r: Option<string>)
      reads this
      ensures r.Some? <==> code in names
      ensures r.Some? ==> r.value == names[code]
    {
      Lookup(names, code)
    }

    /** The `/invite-map` handler. */
    method Post(body: IngressBody) returns (reply: Response)
      modifies this
      ensures (names, reply) == Ingest(old(names), body)
      ensures !Acceptable(body) ==> names == old(names) && reply.status == 400
      ensures Acceptable(body) ==> Get(body.inviteCode.value) == Some(body.firstname.value) && reply.status == 200
    {
      if body.inviteCode.None? || body.inviteCode.value == "" || body.firstname.None? || body.firstname.value == "" {
        return Rejected;
      }
      names := names[body.inviteCode.value := body.firstname.value];
      return Accepted;
    }
  }
}
