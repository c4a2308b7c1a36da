# Interview-room control plane: a Dafny model of its request policy

This project models the policy logic of the Ultimate Interviewer service (`src/server.js`). The service issues
access tokens for real-time interview rooms and creates, lists, describes and deletes those rooms through
the real-time backend's room client. Each HTTP handler is modelled as a pure function from the parsed
request to a response. The effects it depends on are parameters:
- the fresh `uuidv4()` value;
- the clock readings (`Date.now()` and the ISO text of `new Date()`);
- the token signer (`toJwt()`);
- the backend's `createRoom`, `listRooms`, `listParticipants` and `deleteRoom`;
- `JSON.parse`.

Modules, one per concern:

- `Outcomes` (outcomes.dfy): `Option` (JavaScript `undefined` is `None`) and `Result` (a value, or a thrown error's message).
- `Decimal` (decimal.dfy): the decimal text JavaScript gives an integer of magnitude below 2^53 in a template string, with its inverse.
- `JsValue` (jsvalue.dfy): JSON values and the JavaScript operations the handlers use on them. These are field
  reads, truthiness (`!x`, `x || d`), destructuring defaults, `String(v)` and object spread.
- `Naming` (naming.dfy): identities `<role>_<uuid>` and room names `interview_<type>_<millis>`. Splitting at the
  last underscore inverts both.
- `Http` (http.dfy): a response is a 200 answer record, a 400 `{error}` or a 500 `{error, message}`.
  `Stage` records how far a handler got before its effect: rejected, thrown, or ready.
- `TokenPolicy` (token.dfy): `POST /api/token`.
- `RoomCreation` (rooms.dfy): `POST /api/interview/create`.
- `RoomListing` (listing.dfy): `GET /api/rooms`, `GET /api/rooms/:roomName` and `DELETE /api/interview/:roomName`.

The token and room-creation handlers validate before any effect. For both, this is shown in two ways:
- the function that computes the effect's input (`SigningClaims`, `CreateOptions`) is `Rejected` exactly when
  validation rejects the body;
- a lemma shows that a rejected request gets the same answer whatever the uuid, the clock, the signer or the
  backend would have done.

Behaviour of the handlers worth knowing:
- `participantType` defaults to "candidate" only when it is absent. An explicit `""` is kept, so the identity
  is `_<uuid>` and publishing is refused.
- Stored room or participant metadata that is non-empty and does not parse is not turned into `{}`. The parse
  error is thrown, and the whole listing or room description fails with 500.
- A room that does not exist is not reported as 404. Every backend failure of `GET /api/rooms/:roomName`
  gives 500.
- `enableRecording: false` and any explicit `duration` are echoed unchanged. The defaults 1800 and true apply
  only to absent fields.
- A role or interview type that `String()` cannot convert makes the template string throw. Such a value is an
  object with its own `toString` key, or an array holding one. The token request, or the room creation before
  any backend call, then fails with 500.

## Model

| member | source | states |
|---|---|---|
| `Decimal.NatToDecimal` | src/server.js:156 | the clock text has at least one character, all of them digits, and no leading zero unless the value is 0 |
| `Decimal.IntToDecimal` | src/server.js:156 | a minus sign comes first exactly for negative values; every other character is a digit (so never an underscore) |
| `Decimal.NatToDecimalRoundTrip` | src/server.js:156 | reading back the digit text of a natural number gives that number |
| `Decimal.IntToDecimalRoundTrip` | src/server.js:156 | reading back the decimal text of any integer gives that integer |
| `Decimal.IntToDecimalInjective` | src/server.js:156 | two clock readings have the same text iff they are equal |
| `JsValue.FalsyValues` | src/server.js:70 | the values `!x` rejects are exactly null, false, 0 and "" (and absence) |
| `JsValue.Spread` | src/server.js:85 | spreading an object copies its entries; an array or a string contributes its elements under the index names "0", "1", ...; null, booleans and numbers contribute nothing |
| `JsValue.HasText` | src/server.js:77 | `String(v)` returns for null, booleans, numbers and strings; for an object iff it has no own "toString" key; for an array iff every element does |
| `JsValue.ToText` | src/server.js:77 | `String(v)` as both name templates use it (also src/server.js:156): a string is itself, a number its decimal text, null "null", booleans "true"/"false", an object "[object Object]", the empty array "" |
| `JsValue.SingletonArrayText` | src/server.js:77 | a one-element array converts as its element does, or to "" when the element is null |
| `JsValue.ArrayTextExample` | src/server.js:77 | array elements are joined with commas, null giving an empty part: `["a", null, 7]` becomes "a,,7" |
| `Naming.Identity` | src/server.js:77 | the identity is the role text, one underscore, then the uuid, at exactly those positions |
| `Naming.RoomName` | src/server.js:156 | the room name is "interview_", the type text, one underscore, then the clock's decimal text, at exactly those positions |
| `Naming.SplitAtLast` | src/server.js:77 | splitting at the last separator: `None` iff the separator is absent; otherwise front + separator + back rebuilds the string and the back holds no separator |
| `Naming.IdentitySplits` | src/server.js:77 | an identity built from an underscore-free uuid splits back into the role text and the uuid |
| `Naming.IdentitiesCoincide` | src/server.js:77 | with underscore-free uuids, two identities are equal iff role texts and uuids are both equal |
| `Naming.RoomNameSplits` | src/server.js:156 | a room name splits back into "interview_" + type text and the clock text |
| `Naming.RoomNamesCoincide` | src/server.js:156 | two room names are equal iff the type texts and the millisecond readings are both equal; same-type creations in one millisecond are the only collisions |
| `Naming.RoomNameExample` | src/server.js:156 | type "university_admissions" at 1700000000000 ms gives "interview_" + "university_admissions" + "_" + "1700000000000" |
| `TokenPolicy.ParticipantMetadata` | src/server.js:80-86 | the keys are name, type, persona and joinedAt plus the caller's keys; every caller key keeps the caller's value; each base field the caller leaves alone keeps its base value |
| `TokenPolicy.GrantFor` | src/server.js:96-106 | canPublish iff the role is the string "candidate" or "agent"; roomJoin, canSubscribe, canPublishData and canUpdateOwnMetadata always hold; the grant names the given room |
| `TokenPolicy.SigningClaims` | src/server.js:62-106 | rejected iff roomName or participantName is missing or falsy; otherwise a thrown TypeError iff the role has no text; otherwise the identity, display name, merged metadata and grant handed to the signer |
| `TokenPolicy.HandleToken` | src/server.js:60-127 | 400 with "roomName and participantName are required" iff validation fails; otherwise 500 when the role has no text, or with the signer's message when signing throws, else the token, URL, room name, identity, participant name, role and persona |
| `TokenPolicy.RejectionPrecedesEffects` | src/server.js:70-74 | a rejected token request gets the same 400 answer whatever the uuid, clock and signer |
| `TokenPolicy.UnconvertibleRoleFails` | src/server.js:77 | a participantType object with its own "toString" key fails the token request with 500 "Failed to generate token", whatever the signer |
| `TokenPolicy.ValidRequestNotRejected` | src/server.js:70-127 | a request with truthy roomName and participantName is answered 200 or 500, never 400 |
| `TokenPolicy.IdentityFromRole` | src/server.js:62-77 | the identity starts with the role text and "_"; it is "<type>_<uuid>" for a string participantType, the empty string included |
| `TokenPolicy.DefaultRoleIdentity` | src/server.js:65-77 | the identity is "candidate_<uuid>" when participantType is absent |
| `TokenPolicy.DistinctUuidsDistinctIdentities` | src/server.js:77 | accepted requests given different underscore-free uuids get different identities, whatever their roles |
| `TokenPolicy.GrantFromRole` | src/server.js:96-106 | canPublish iff participantType is absent, "candidate" or "agent"; the other four rights always hold; the grant's room is the request's roomName |
| `TokenPolicy.PersonaAgrees` | src/server.js:83 | when the caller's metadata has no "persona", the answered persona (line 117) equals the signed metadata's persona, and a falsy or absent persona is "default" |
| `TokenPolicy.CallerMetadataOverrides` | src/server.js:80-86 | a caller metadata object with persona "interviewer_v2" and type "agent" replaces both base fields and leaves name and joinedAt alone |
| `RoomCreation.CreateOptions` | src/server.js:142-169 | rejected iff interviewType or candidateName is missing or falsy; a thrown TypeError, with no backend call, iff the type has no text; otherwise name "interview_<type>_<millis>", emptyTimeout 300, maxParticipants 10, and metadata of exactly interviewType, candidateName, createdAt and enableRecording |
| `RoomCreation.HandleCreateRoom` | src/server.js:140-187 | 400 with "interviewType and candidateName are required" iff validation fails; otherwise 500 when the type has no text, or with the backend's message, or the backend room's name and creation time with the request's type, candidate, duration and recording flag echoed |
| `RoomCreation.RejectionPrecedesCreation` | src/server.js:149-153 | a rejected creation gets the same 400 answer whatever the clock and the backend |
| `RoomCreation.UnconvertibleTypeFails` | src/server.js:156 | an interviewType array with an object holding its own "toString" key at any position fails with 500 "Failed to create interview room" before the backend is asked |
| `RoomCreation.CreatedRoomAnswer` | src/server.js:145-180 | when the backend keeps the requested name, the answer's room name is "interview_<type>_<millis>"; duration is 1800 when absent, else echoed; enableRecording is true when absent, else echoed |
| `RoomCreation.CreateScenario` | src/server.js:142-180 | the body {interviewType: "university_admissions", candidateName: "Jane Doe"} is answered with the patterned room name, duration 1800 and enableRecording true |
| `RoomListing.ParseMetadata` | src/server.js:202 | empty stored metadata gives {} without parsing; any other text gives exactly what the parser gives, error included (the same rule serves participants at line 227) |
| `RoomListing.ReshapeAll` | src/server.js:197-203 | success iff every record's metadata parses; then one view per record, in the same order; otherwise the error of the first record whose metadata fails (the same map serves participants at lines 224-229) |
| `RoomListing.HandleListRooms` | src/server.js:193-211 | 200 iff the backend lists and every room's metadata parses, with the rooms reshaped in order; otherwise 500 "Failed to list rooms", carrying the backend's message or the parse error of the first room whose metadata fails |
| `RoomListing.MalformedEntryFailsListing` | src/server.js:202-211 | one room with non-empty, unparsable metadata fails the whole listing with 500 |
| `RoomListing.UnannotatedRoomsListed` | src/server.js:196-204 | rooms without stored metadata are all listed, in order, each with {} as metadata |
| `RoomListing.HandleGetRoom` | src/server.js:217-237 | answers only 200 or 500; 200 iff the backend lists the participants and all their metadata parses, echoing the path's room name and reshaping participants in order; a parse failure answers 500 with the error of the first participant whose metadata fails |
| `RoomListing.HandleDeleteRoom` | src/server.js:243-260 | success iff the backend deletes, with message "Interview room <name> has been ended"; a backend failure always gives 500 "Failed to end interview" with the backend's message |

## Left out

- Express setup, CORS, body parsing, the route table, `app.listen`, dotenv, reading the environment and the
  exit on missing credentials (src/server.js:1-25, 263-277) are process plumbing. The request body is taken
  already parsed, as a JSON object. The configured server URL is a parameter.
- The health endpoint and all logging (src/server.js:27-46 and the `console` calls) hold no policy.
- The success log line (src/server.js:120) runs `String()` on roomName and participantName after `res.json` has
  sent the 200. When either is an object with its own "toString" key, that throws inside the `try`; the
  `catch` then fails on headers already sent, leaving an unhandled rejection in the process. On Node 15+
  with Express 4 this terminates the process, so one such request stops the service. The client still
  receives the 200 answer the model gives; the failure after it is not modelled.
- `AccessToken`, `addGrant`, `toJwt` and `JSON.stringify`: the signer receives the claims record with the
  metadata object unserialised. Signing itself is not modelled.
- The room client calls are parameters that return a result or a thrown message. That the backend really
  creates, lists or deletes rooms is not modelled.
- `uuidv4()` and the clock are parameters. Identities and room names are shown distinct only when the
  uuids or the clock readings differ. Their global uniqueness is not claimed.
- `JSON.parse` is a parameter that returns a value or an error message.
- JSON numbers are integers. Fractions, NaN, -0, and the exponent form JavaScript writes from 10^21 up are not modelled.
- `JsValue.ToText`: numbers of magnitude 2^53 and above are written digit for digit. JavaScript writes the
  shortest digits that read back to the same double, padded with zeros: 2^60 gives "1152921504606847000".
  A numeric participantType or interviewType that large therefore yields a different identity or room name
  in the source (src/server.js:77, 156). The clock text at src/server.js:156 is far below 2^53 and is unaffected.
- The message of the TypeError that `String(v)` throws is V8's wording, "Cannot convert object to primitive value".
- `JsValue.Spread` splits a string into Unicode scalar values. JavaScript splits it into UTF-16 code units.
- Key order of the JSON objects is not modelled: objects are maps. Response bodies are records whose field
  names are the JSON keys.
- The backend's timestamps are modelled as integers. How the client library types them, and whether
  `res.json` can serialise them, is not modelled. Should it return `creationTime` or `joinedAt` as a
  BigInt, `res.json` throws ("Do not know how to serialize a BigInt"). A successful creation
  (src/server.js:173-180), a non-empty listing (src/server.js:196-204) and a room with participants
  (src/server.js:222-230) would then all answer 500, where the model answers 200.
- Concurrent requests and colliding room names under concurrency are not modelled: each handler is one
  sequential computation.
