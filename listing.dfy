/**
  GET /api/rooms, GET /api/rooms/:roomName and DELETE /api/interview/:roomName:
  backend records reshaped, in order, into the service's view records.
  The backend client and `JSON.parse` are parameters.
*/
module RoomListing {
  import opened Outcomes
  import opened JsValue
  import opened Http

  const ListFailedError := "Failed to list rooms"
  const GetFailedError := "Failed to get room details"
  const DeleteFailedError := "Failed to end interview"

  /** A room as the backend lists it; `metadata` is the stored JSON text ("" when none). */
  datatype BackendRoom = BackendRoom(name: string, sid: string, numParticipants: int, creationTime: int, metadata: string)

  /** A participant as the backend lists it. */
  datatype BackendParticipant = BackendParticipant(identity: string, name: string, metadata: string, joinedAt: int)

  datatype RoomView = RoomView(name: string, sid: string, numParticipants: int, creationTime: int, metadata: Value)

  datatype ParticipantView = ParticipantView(identity: string, name: string, metadata: Value, joinedAt: int)

  datatype RoomsAnswer = RoomsAnswer(rooms: seq<RoomView>)

  datatype RoomAnswer = RoomAnswer(roomName: string, participants: seq<ParticipantView>)

  datatype DeleteAnswer = DeleteAnswer(success: bool, message: string)

  /**
    `stored ? JSON.parse(stored) : {}`: the empty string gives the empty
    object without parsing; any other text is parsed, and a parse error is thrown.
  */
  function ParseMetadata(stored: string, parse: string -> Result<Value>): (r: Result<Value>)
    ensures stored == "" ==> r == Ok(EmptyObject)
    ensures stored != "" ==> r == parse(stored)
  {
    if stored == "" then Ok(EmptyObject) else parse(stored)
  }

  /**
    `records.map(...)` with a metadata parse per record: either every record
    parses and the views come out in the same order, one per record, or the
    first record whose metadata fails to parse fails the whole call with its
    error.
  */
  function ReshapeAll<R, V>(records: seq<R>, metadataOf: R -> string, view: (R, Value) -> V,
                            parse: string -> Result<Value>): (r: Result<seq<V>>)
    ensures r.Ok? <==> forall i :: 0 <= i < |records| ==> ParseMetadata(metadataOf(records[i]), parse).Ok?
    ensures r.Ok? ==> |r.value| == |records|
    ensures r.Ok? ==> forall i :: 0 <= i < |records| ==>
      r.value[i] == view(records[i], ParseMetadata(metadataOf(records[i]), parse).value)
    ensures r.Err? ==>
      exists i :: && 0 <= i < |records|
                  && (forall j :: 0 <= j < i ==> ParseMetadata(metadataOf(records[j]), parse).Ok?)
                  && ParseMetadata(metadataOf(records[i]), parse) == Err(r.message)
  {
    if records == [] then Ok([])
    else
      match ParseMetadata(metadataOf(records[0]), parse)
      case Err(m) => Err(m)
      case Ok(md) =>
        match ReshapeAll(records[1..], metadataOf, view, parse)
        case Err(m) =>
          var k :| 0 <= k < |records| - 1
            && (forall j :: 0 <= j < k ==> ParseMetadata(metadataOf(records[1..][j]), parse).Ok?)
            && ParseMetadata(metadataOf(records[1..][k]), parse) == Err(m);
          assert ParseMetadata(metadataOf(records[k + 1]), parse) == Err(m);
          Err(m)
        case Ok(rest) => Ok([view(records[0], md)] + rest)
  }

  function ToRoomView(room: BackendRoom, metadata: Value): RoomView {
    RoomView(room.name, room.sid, room.numParticipants, room.creationTime, metadata)
  }

  function ToParticipantView(p: BackendParticipant, metadata: Value): ParticipantView {
    ParticipantView(p.identity, p.name, metadata, p.joinedAt)
  }

  /** GET /api/rooms; `listed` is the result of the backend's listRooms(). */
  function HandleListRooms(listed: Result<seq<BackendRoom>>, parse: string -> Result<Value>): (r: Response<RoomsAnswer>)
    ensures r.Status() in {200, 500}
    ensures listed.Err? ==> r == ServerError(ListFailedError, listed.message)
    ensures listed.Ok? ==>
      (r.Answer? <==> forall i :: 0 <= i < |listed.value| ==> ParseMetadata(listed.value[i].metadata, parse).Ok?)
    ensures r.Answer? ==> |r.body.rooms| == |listed.value|
    ensures r.Answer? ==> forall i :: 0 <= i < |listed.value| ==>
      var room := listed.value[i];
      r.body.rooms[i] == RoomView(room.name, room.sid, room.numParticipants, room.creationTime,
                                  ParseMetadata(room.metadata, parse).value)
    ensures r.ServerError? ==> r.error == ListFailedError
    ensures listed.Ok? && !r.Answer? ==>
      exists i :: && 0 <= i < |listed.value|
                  && (forall j :: 0 <= j < i ==> ParseMetadata(listed.value[j].metadata, parse).Ok?)
                  && ParseMetadata(listed.value[i].metadata, parse) == Err(r.message)
  {
    match listed
    case Err(m) => ServerError(ListFailedError, m)
    case Ok(rooms) =>
      match ReshapeAll(rooms, (room: BackendRoom) => room.metadata, ToRoomView, parse)
      case Err(m) => ServerError(ListFailedError, m)
      case Ok(views) => Answer(RoomsAnswer(views))
  }

  /** GET /api/rooms/:roomName; `listParticipants` is the backend call for one room. */
  function HandleGetRoom(roomName: string, listParticipants: string -> Result<seq<BackendParticipant>>,
                         parse: string -> Result<Value>): (r: Response<RoomAnswer>)
    ensures r.Status() in {200, 500}
    ensures listParticipants(roomName).Err? ==> r == ServerError(GetFailedError, listParticipants(roomName).message)
    ensures listParticipants(roomName).Ok? ==>
      var ps := listParticipants(roomName).value;
      (r.Answer? <==> forall i :: 0 <= i < |ps| ==> ParseMetadata(ps[i].metadata, parse).Ok?)
    ensures r.Answer? ==> r.body.roomName == roomName
    ensures r.Answer? ==>
      var ps := listParticipants(roomName).value;
      && |r.body.participants| == |ps|
      && forall i :: 0 <= i < |ps| ==>
        r.body.participants[i] == ParticipantView(ps[i].identity, ps[i].name,
                                                  ParseMetadata(ps[i].metadata, parse).value, ps[i].joinedAt)
    ensures r.ServerError? ==> r.error == GetFailedError
    ensures listParticipants(roomName).Ok? && !r.Answer? ==>
      var ps := listParticipants(roomName).value;
      exists i :: && 0 <= i < |ps|
                  && (forall j :: 0 <= j < i ==> ParseMetadata(ps[j].metadata, parse).Ok?)
                  && ParseMetadata(ps[i].metadata, parse) == Err(r.message)
  {
    match listParticipants(roomName)
    case Err(m) => ServerError(GetFailedError, m)
    case Ok(ps) =>
      match ReshapeAll(ps, (p: BackendParticipant) => p.metadata, ToParticipantView, parse)
      case Err(m) => ServerError(GetFailedError, m)
      case Ok(views) => Answer(RoomAnswer(roomName, views))
  }

  /** DELETE /api/interview/:roomName; `deleteRoom` is the backend call. */
  function HandleDeleteRoom(roomName: string, deleteRoom: string -> Result<()>): (r: Response<DeleteAnswer>)
    ensures r.Answer? <==> deleteRoom(roomName).Ok?
    ensures r.Answer? ==> r.body == DeleteAnswer(true, "Interview room " + roomName + " has been ended")
    ensures deleteRoom(roomName).Err? ==> r == ServerError(DeleteFailedError, deleteRoom(roomName).message)
  {
    match deleteRoom(roomName)
    case Err(m) => ServerError(DeleteFailedError, m)
    case Ok(_) => Answer(DeleteAnswer(true, "Interview room " + roomName + " has been ended"))
  }

  /**
    One room whose stored metadata is non-empty and does not parse fails the
    whole listing with 500; the other rooms are not answered either.
  */
  lemma MalformedEntryFailsListing(rooms: seq<BackendRoom>, parse: string -> Result<Value>, k: int)
    requires 0 <= k < |rooms| && rooms[k].metadata != "" && parse(rooms[k].metadata).Err?
    ensures HandleListRooms(Ok(rooms), parse).ServerError?
    ensures HandleListRooms(Ok(rooms), parse).error == ListFailedError
  {
  }

  /** Rooms without stored metadata are listed with the empty object as metadata, in order. */
  lemma UnannotatedRoomsListed(rooms: seq<BackendRoom>, parse: string -> Result<Value>)
    requires forall i :: 0 <= i < |rooms| ==> rooms[i].metadata == ""
    ensures var r := HandleListRooms(Ok(rooms), parse);
      && r.Answer?
      && |r.body.rooms| == |rooms|
      && forall i :: 0 <= i < |rooms| ==> r.body.rooms[i].name == rooms[i].name && r.body.rooms[i].metadata == EmptyObject
  {
  }
}
