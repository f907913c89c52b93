/** `getIdentity`: the mapping of an unverified JWT payload onto `Claims`.
    Both validator snapshots carry the same function, so it is modelled
    once and both use it. */
module ClaimMapping {
  import opened Wrappers
  import opened Values
  import opened GoStrings
  import opened Types
  import opened Jose

  /** `JWTClaims`: the payload members that hold each identity field. */
  datatype ClaimFields = ClaimFields(id: string, subject: string, groups: string, extra: string)

  const MapCastError: string := "failed to cast JWT claims to map[string]interface{}"

  function StringCastError(field: string): string {
    "failed to cast " + Quote(field) + " claim to string"
  }

  function ArrayCastError(field: string): string {
    "failed to cast " + Quote(field) + " claim to []interface{}"
  }

  /** The message for a group element that is not a string; `shown` is the
      element as `%v` prints it. */
  function GroupCastError(shown: string): string {
    "failed to cast group to string: " + shown
  }

  /** Outcome of casting every element of a `[]interface{}` to a string:
      all of them, in order, or the position of the first that is not one. */
  datatype Cast = AllStrings(groups: seq<string>) | Offending(index: nat)

  function CastStrings(items: seq<Json>): (c: Cast)
    ensures c.AllStrings? <==> forall i :: 0 <= i < |items| ==> items[i].JString?
    ensures c.AllStrings? ==> |c.groups| == |items| && forall i :: 0 <= i < |items| ==> c.groups[i] == items[i].s
    ensures c.Offending? ==> c.index < |items| && !items[c.index].JString?
    ensures c.Offending? ==> forall i :: 0 <= i < c.index ==> items[i].JString?
  {
    if items == [] then AllStrings([])
    else if !items[0].JString? then Offending(0)
    else
      match CastStrings(items[1..])
      case AllStrings(rest) => AllStrings([items[0].s] + rest)
      case Offending(k) => Offending(k + 1)
  }

  /** What `getIdentity` returns for the payload the library decoded;
      `show` is `%v` formatting of a decoded value. */
  function IdentityOf(payload: Result<Json>, fields: ClaimFields, show: Json -> string): Result<Claims> {
    match payload
    case Failure(e) => Failure(e)
    case Success(claims) =>
      if !claims.JObject? then Failure(MapCastError)
      else
        var m := claims.members;
        var id, subject, groups := Member(m, fields.id), Member(m, fields.subject), Member(m, fields.groups);
        if !id.JString? then Failure(StringCastError(fields.id))
        else if !subject.JString? then Failure(StringCastError(fields.subject))
        else if !groups.JArray? then Failure(ArrayCastError(fields.groups))
        else
          match CastStrings(groups.items)
          case Offending(k) => Failure(GroupCastError(show(groups.items[k])))
          case AllStrings(gs) => Success(Claims(id.s, subject.s, gs, Member(m, fields.extra)))
  }

  /** `getIdentity` succeeds exactly when the payload is an object whose ID
      and subject members are strings and whose groups member is an array
      of strings. The groups keep the array's length and order, and `Extra`
      is the raw extra member, nil when absent. */
  lemma IdentityOfSuccess(payload: Result<Json>, fields: ClaimFields, show: Json -> string)
    ensures IdentityOf(payload, fields, show).Success? <==>
              && payload.Success? && payload.value.JObject?
              && Member(payload.value.members, fields.id).JString?
              && Member(payload.value.members, fields.subject).JString?
              && Member(payload.value.members, fields.groups).JArray?
              && forall i :: 0 <= i < |Member(payload.value.members, fields.groups).items|
                   ==> Member(payload.value.members, fields.groups).items[i].JString?
    ensures IdentityOf(payload, fields, show).Success? ==>
              var m, c := payload.value.members, IdentityOf(payload, fields, show).value;
              && c.id == Member(m, fields.id).s
              && c.subject == Member(m, fields.subject).s
              && |c.groups| == |Member(m, fields.groups).items|
              && (forall i :: 0 <= i < |c.groups| ==> c.groups[i] == Member(m, fields.groups).items[i].s)
              && c.extra == Member(m, fields.extra)
  {
  }

  /** The first three cast failures, each reported with the member it
      concerns, in the order the checks run. */
  lemma IdentityOfFieldFailures(m: map<string, Json>, fields: ClaimFields, show: Json -> string)
    ensures (!Member(m, fields.id).JString?)
              ==> IdentityOf(Success(JObject(m)), fields, show) == Failure(StringCastError(fields.id))
    ensures (Member(m, fields.id).JString? && !Member(m, fields.subject).JString?)
              ==> IdentityOf(Success(JObject(m)), fields, show) == Failure(StringCastError(fields.subject))
    ensures (Member(m, fields.id).JString? && Member(m, fields.subject).JString? && !Member(m, fields.groups).JArray?)
              ==> IdentityOf(Success(JObject(m)), fields, show) == Failure(ArrayCastError(fields.groups))
  {
  }

  /** A group element that is not a string is reported, as `%v` prints it,
      at the first such element. */
  lemma IdentityOfGroupFailure(m: map<string, Json>, fields: ClaimFields, show: Json -> string, k: nat)
    requires Member(m, fields.id).JString? && Member(m, fields.subject).JString?
    requires Member(m, fields.groups).JArray?
    requires k < |Member(m, fields.groups).items| && !Member(m, fields.groups).items[k].JString?
    requires forall i :: 0 <= i < k ==> Member(m, fields.groups).items[i].JString?
    ensures IdentityOf(Success(JObject(m)), fields, show)
              == Failure(GroupCastError(show(Member(m, fields.groups).items[k])))
  {
    var items := Member(m, fields.groups).items;
    var c := CastStrings(items);
    assert c.Offending?;
    assert c.index == k by {
      assert !(c.index < k);
      assert !(c.index > k);
    }
  }

  /** `getIdentity`, with the group loop filling a freshly made slice. */
  method GetIdentity(lib: Library, token: Token, fields: ClaimFields, show: Json -> string) returns (r: Result<Claims>)
    ensures r == IdentityOf(lib.unverifiedPayload(token), fields, show)
  {
    var claims := lib.unverifiedPayload(token);
    if claims.Failure? {
      return Failure(claims.error);
    }
    if !claims.value.JObject? {
      return Failure(MapCastError);
    }
    var m := claims.value.members;
    var id := Member(m, fields.id);
    if !id.JString? {
      return Failure(StringCastError(fields.id));
    }
    var subject := Member(m, fields.subject);
    if !subject.JString? {
      return Failure(StringCastError(fields.subject));
    }
    var list := Member(m, fields.groups);
    if !list.JArray? {
      return Failure(ArrayCastError(fields.groups));
    }
    var items := list.items;
    var groups := new string[|items|];
    for i := 0 to |items|
      invariant forall k :: 0 <= k < i ==> items[k].JString? && groups[k] == items[k].s
    {
      var v := items[i];
      if !v.JString? {
        return Failure(GroupCastError(show(v)));
      }
      groups[i] := v.s;
    }
    assert groups[..] == CastStrings(items).groups;
    return Success(Claims(id.s, subject.s, groups[..], Member(m, fields.extra)));
  }
}
