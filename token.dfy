/**
  POST /api/token: validates the body, builds the participant identity,
  metadata and grant, has them signed, and shapes the JSON answer.
  The uuid, the clock and the signer are parameters.
*/
module TokenPolicy {
  import opened Outcomes
  import opened JsValue
  import opened Http
  import Naming

  const MissingFieldsError := "roomName and participantName are required"
  const SigningFailedError := "Failed to generate token"

  /** The video grant added to the access token. */
  datatype Grant = Grant(
    roomJoin: bool,
    room: Value,
    canPublish: bool,
    canSubscribe: bool,
    canPublishData: bool,
    canUpdateOwnMetadata: bool)

  /**
    What the signer receives: the identity, display name and metadata given to
    the access token, and its grant. The metadata is the object before
    `JSON.stringify`, which belongs to the signer here.
  */
  datatype Claims = Claims(identity: string, name: Value, metadata: map<string, Value>, grant: Grant)

  /** `participantType = 'candidate'`: the default replaces `undefined` only. */
  function RoleOf(body: map<string, Value>): Value {
    OrDefault(Field(body, "participantType"), Str("candidate"))
  }

  /** `persona || 'default'`: every falsy persona, the empty string included, becomes "default". */
  function PersonaOf(body: map<string, Value>): Value {
    OrElse(Field(body, "persona"), Str("default"))
  }

  /** The entries `...metadata` adds, with `metadata = {}` as the default. */
  function CallerMetadata(body: map<string, Value>): map<string, Value> {
    Spread(OrDefault(Field(body, "metadata"), EmptyObject))
  }

  /** `!roomName || !participantName`. */
  predicate TokenFieldsMissing(body: map<string, Value>) {
    !IsTruthy(Field(body, "roomName")) || !IsTruthy(Field(body, "participantName"))
  }

  /** Publish rights go to candidates and agents, compared strictly with `===`. */
  predicate MayPublish(role: Value) {
    role == Str("candidate") || role == Str("agent")
  }

  /**
    The base fields, then the caller's entries on top: the caller's value wins
    for every key it supplies, and each base field it leaves alone keeps its value.
  */
  function ParticipantMetadata(name: Value, role: Value, persona: Value, joinedAt: string,
                               extra: map<string, Value>): (md: map<string, Value>)
    ensures md.Keys == {"name", "type", "persona", "joinedAt"} + extra.Keys
    ensures forall k :: k in extra ==> md[k] == extra[k]
    ensures "name" !in extra ==> md["name"] == name
    ensures "type" !in extra ==> md["type"] == role
    ensures "persona" !in extra ==> md["persona"] == persona
    ensures "joinedAt" !in extra ==> md["joinedAt"] == Str(joinedAt)
  {
    map["name" := name, "type" := role, "persona" := persona, "joinedAt" := Str(joinedAt)] + extra
  }

  /** The grant for a role in a room: only publishing depends on the role. */
  function GrantFor(room: Value, role: Value): (g: Grant)
    ensures g.canPublish <==> role == Str("candidate") || role == Str("agent")
    ensures g.roomJoin && g.canSubscribe && g.canPublishData && g.canUpdateOwnMetadata
    ensures g.room == room
  {
    Grant(roomJoin := true, room := room, canPublish := MayPublish(role),
          canSubscribe := true, canPublishData := true, canUpdateOwnMetadata := true)
  }

  /**
    The claims handed to the signer. The stage is `Rejected` when validation
    fails and no identity, grant or token is made, and `Thrown` when turning
    the role into text for the identity throws, before anything is signed.
    `uuid` is the fresh `uuidv4()` value and `joinedAt` the clock's ISO text.
  */
  function SigningClaims(body: map<string, Value>, uuid: string, joinedAt: string): (c: Stage<Claims>)
    ensures c.Rejected? <==> TokenFieldsMissing(body)
    ensures c.Thrown? <==> !TokenFieldsMissing(body) && !HasText(RoleOf(body))
    ensures c.Thrown? ==> c.message == NoPrimitiveMessage
    ensures c.Ready? ==> c.value.identity == Naming.Identity(ToText(RoleOf(body)), uuid)
    ensures c.Ready? ==> c.value.name == body["participantName"]
    ensures c.Ready? ==> c.value.grant == GrantFor(body["roomName"], RoleOf(body))
    ensures c.Ready? ==>
      c.value.metadata == ParticipantMetadata(body["participantName"], RoleOf(body), PersonaOf(body), joinedAt, CallerMetadata(body))
  {
    if TokenFieldsMissing(body) then Rejected
    else if !HasText(RoleOf(body)) then Thrown(NoPrimitiveMessage)
    else
      var roomName, participantName, role := body["roomName"], body["participantName"], RoleOf(body);
      Ready(Claims(
        identity := Naming.Identity(ToText(role), uuid),
        name := participantName,
        metadata := ParticipantMetadata(participantName, role, PersonaOf(body), joinedAt, CallerMetadata(body)),
        grant := GrantFor(roomName, role)))
  }

  /** The JSON body of a successful token request. */
  datatype TokenAnswer = TokenAnswer(
    token: string,
    url: string,
    roomName: Value,
    identity: string,
    participantName: Value,
    participantType: Value,
    persona: Value)

  /**
    The whole handler. `url` is the configured server URL, `sign` stands for
    `toJwt()` on a token carrying the claims: it yields the token or throws.
  */
  function HandleToken(body: map<string, Value>, url: string, uuid: string, joinedAt: string,
                       sign: Claims -> Result<string>): (r: Response<TokenAnswer>)
    ensures r.Status() == 400 <==> TokenFieldsMissing(body)
    ensures TokenFieldsMissing(body) ==> r == BadRequest(MissingFieldsError)
    ensures !TokenFieldsMissing(body) && !HasText(RoleOf(body)) ==> r == ServerError(SigningFailedError, NoPrimitiveMessage)
    ensures !TokenFieldsMissing(body) && HasText(RoleOf(body)) ==>
      var claims := SigningClaims(body, uuid, joinedAt).value;
      match sign(claims)
      case Err(m) => r == ServerError(SigningFailedError, m)
      case Ok(token) =>
        r.Answer? && r.body == TokenAnswer(token, url, body["roomName"], claims.identity,
                                           body["participantName"], RoleOf(body), PersonaOf(body))
  {
    match SigningClaims(body, uuid, joinedAt)
    case Rejected => BadRequest(MissingFieldsError)
    case Thrown(m) => ServerError(SigningFailedError, m)
    case Ready(claims) =>
      match sign(claims)
      case Err(m) => ServerError(SigningFailedError, m)
      case Ok(token) =>
        Answer(TokenAnswer(
          token := token,
          url := url,
          roomName := body["roomName"],
          identity := claims.identity,
          participantName := body["participantName"],
          participantType := RoleOf(body),
          persona := PersonaOf(body)))
  }

  /**
    A body without a truthy `roomName` or `participantName` is answered with
    400 before anything else happens: the answer is the same whatever the
    uuid, the clock and the signer would have produced.
  */
  lemma RejectionPrecedesEffects(body: map<string, Value>, url: string,
                                 uuid1: string, joinedAt1: string, sign1: Claims -> Result<string>,
                                 uuid2: string, joinedAt2: string, sign2: Claims -> Result<string>)
    requires TokenFieldsMissing(body)
    ensures HandleToken(body, url, uuid1, joinedAt1, sign1) == BadRequest(MissingFieldsError)
    ensures HandleToken(body, url, uuid1, joinedAt1, sign1) == HandleToken(body, url, uuid2, joinedAt2, sign2)
  {
  }

  /**
    A role that String() cannot convert, such as an object with its own
    "toString" key, makes building the identity throw: the answer is 500
    whatever the signer would have done.
  */
  lemma UnconvertibleRoleFails(body: map<string, Value>, url: string, uuid: string, joinedAt: string,
                               sign: Claims -> Result<string>)
    requires !TokenFieldsMissing(body)
    requires "participantType" in body && body["participantType"].Obj? && "toString" in body["participantType"].fields
    ensures HandleToken(body, url, uuid, joinedAt, sign) == ServerError(SigningFailedError, NoPrimitiveMessage)
  {
  }

  /** Requests that pass validation are never answered 400: they get 200 or 500. */
  lemma ValidRequestNotRejected(body: map<string, Value>, url: string, uuid: string, joinedAt: string,
                                sign: Claims -> Result<string>)
    requires "roomName" in body && Truthy(body["roomName"])
    requires "participantName" in body && Truthy(body["participantName"])
    ensures HandleToken(body, url, uuid, joinedAt, sign).Status() in {200, 500}
  {
  }

  /**
    The identity is the role text, an underscore and the uuid; a string
    `participantType` is used as it is, so an explicit empty one gives "_<uuid>".
  */
  lemma IdentityFromRole(body: map<string, Value>, uuid: string, joinedAt: string)
    requires !TokenFieldsMissing(body) && HasText(RoleOf(body))
    ensures var id := SigningClaims(body, uuid, joinedAt).value.identity;
      && ToText(RoleOf(body)) + "_" <= id
      && ("participantType" in body && body["participantType"].Str? ==> id == body["participantType"].s + "_" + uuid)
  {
    var text := ToText(RoleOf(body));
    var id := SigningClaims(body, uuid, joinedAt).value.identity;
    assert id == text + "_" + uuid;
    assert id[..|text + "_"|] == text + "_";
  }

  /** An absent `participantType` makes the identity "candidate_<uuid>". */
  lemma DefaultRoleIdentity(body: map<string, Value>, uuid: string, joinedAt: string)
    requires !TokenFieldsMissing(body) && "participantType" !in body
    ensures SigningClaims(body, uuid, joinedAt).value.identity == "candidate_" + uuid
  {
    assert RoleOf(body) == Str("candidate");
    assert ToText(RoleOf(body)) == "candidate";
  }

  /**
    Accepted requests given different uuids (a uuid never contains an
    underscore) receive different identities, whatever their roles.
  */
  lemma {:induction false} DistinctUuidsDistinctIdentities(body1: map<string, Value>, uuid1: string, joinedAt1: string,
                                                           body2: map<string, Value>, uuid2: string, joinedAt2: string)
    requires !TokenFieldsMissing(body1) && !TokenFieldsMissing(body2)
    requires HasText(RoleOf(body1)) && HasText(RoleOf(body2))
    requires '_' !in uuid1 && '_' !in uuid2 && uuid1 != uuid2
    ensures SigningClaims(body1, uuid1, joinedAt1).value.identity != SigningClaims(body2, uuid2, joinedAt2).value.identity
  {
    Naming.IdentitiesCoincide(ToText(RoleOf(body1)), uuid1, ToText(RoleOf(body2)), uuid2);
  }

  /**
    Publishing is granted exactly when `participantType` is absent (so
    "candidate") or is the string "candidate" or "agent"; the other rights are
    always granted, and the grant names the requested room.
  */
  lemma GrantFromRole(body: map<string, Value>, uuid: string, joinedAt: string)
    requires !TokenFieldsMissing(body) && HasText(RoleOf(body))
    ensures var g := SigningClaims(body, uuid, joinedAt).value.grant;
      && (g.canPublish <==> "participantType" !in body
                            || body["participantType"] == Str("candidate")
                            || body["participantType"] == Str("agent"))
      && g.roomJoin && g.canSubscribe && g.canPublishData && g.canUpdateOwnMetadata
      && g.room == body["roomName"]
  {
  }

  /**
    The persona answered is the one the metadata carries, unless the caller's
    metadata supplies its own "persona"; a falsy or absent persona is "default".
  */
  lemma PersonaAgrees(body: map<string, Value>, url: string, uuid: string, joinedAt: string,
                      sign: Claims -> Result<string>)
    requires !TokenFieldsMissing(body) && HasText(RoleOf(body))
    requires "persona" !in CallerMetadata(body)
    requires HandleToken(body, url, uuid, joinedAt, sign).Answer?
    ensures HandleToken(body, url, uuid, joinedAt, sign).body.persona
         == SigningClaims(body, uuid, joinedAt).value.metadata["persona"]
    ensures !IsTruthy(Field(body, "persona")) ==> HandleToken(body, url, uuid, joinedAt, sign).body.persona == Str("default")
  {
  }

  /**
    Caller-supplied metadata overrides the base fields: a `metadata` object
    with "persona" and "type" replaces both in the signed metadata.
  */
  lemma CallerMetadataOverrides(uuid: string, joinedAt: string)
    ensures var body := map[
        "roomName" := Str("r"),
        "participantName" := Str("A"),
        "metadata" := Obj(map["persona" := Str("interviewer_v2"), "type" := Str("agent")])];
      var md := SigningClaims(body, uuid, joinedAt).value.metadata;
      && md["persona"] == Str("interviewer_v2")
      && md["type"] == Str("agent")
      && md["name"] == Str("A")
      && md["joinedAt"] == Str(joinedAt)
  {
  }
}
