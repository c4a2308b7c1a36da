/**
  POST /api/interview/create: validates the body, names the room, asks the
  backend to create it with fixed options, and echoes the request. The clock
  and the backend's createRoom are parameters.
*/
module RoomCreation {
  import opened Outcomes
  import opened JsValue
  import opened Http
  import Naming

  const MissingFieldsError := "interviewType and candidateName are required"
  const CreateFailedError := "Failed to create interview room"
  const DefaultDuration := 1800    // seconds; echoed, never enforced
  const EmptyTimeout := 300        // seconds an empty room survives
  const MaxParticipants := 10

  /** The options passed to the backend's createRoom; the metadata is the object before `JSON.stringify`. */
  datatype RoomOptions = RoomOptions(name: string, emptyTimeout: int, maxParticipants: int, metadata: map<string, Value>)

  /** The room record the backend returns. */
  datatype CreatedRoom = CreatedRoom(name: string, creationTime: int)

  /** The JSON body of a successful creation. */
  datatype CreateAnswer = CreateAnswer(
    roomName: string,
    interviewType: Value,
    candidateName: Value,
    duration: Value,
    enableRecording: Value,
    createdAt: int)

  /** `!interviewType || !candidateName`. */
  predicate CreateFieldsMissing(body: map<string, Value>) {
    !IsTruthy(Field(body, "interviewType")) || !IsTruthy(Field(body, "candidateName"))
  }

  /** `duration = 1800`: the default replaces `undefined` only. */
  function DurationOf(body: map<string, Value>): Value {
    OrDefault(Field(body, "duration"), Num(DefaultDuration))
  }

  /** `enableRecording = true`: the default replaces `undefined` only, so an explicit false stays false. */
  function RecordingOf(body: map<string, Value>): Value {
    OrDefault(Field(body, "enableRecording"), Bool(true))
  }

  /**
    The options the backend is asked to create the room with. The stage is
    `Rejected` when validation fails, and `Thrown` when turning the interview
    type into text for the room name throws; in both cases no backend call is
    made. `nowMillis` is `Date.now()` and `createdAt` the clock's ISO text.
  */
  function CreateOptions(body: map<string, Value>, nowMillis: int, createdAt: string): (o: Stage<RoomOptions>)
    ensures o.Rejected? <==> CreateFieldsMissing(body)
    ensures o.Thrown? <==> !CreateFieldsMissing(body) && !HasText(body["interviewType"])
    ensures o.Thrown? ==> o.message == NoPrimitiveMessage
    ensures o.Ready? ==> o.value.name == Naming.RoomName(ToText(body["interviewType"]), nowMillis)
    ensures o.Ready? ==> o.value.emptyTimeout == 300 && o.value.maxParticipants == 10
    ensures o.Ready? ==> o.value.metadata.Keys == {"interviewType", "candidateName", "createdAt", "enableRecording"}
    ensures o.Ready? ==>
      && o.value.metadata["interviewType"] == body["interviewType"]
      && o.value.metadata["candidateName"] == body["candidateName"]
      && o.value.metadata["createdAt"] == Str(createdAt)
      && o.value.metadata["enableRecording"] == RecordingOf(body)
  {
    if CreateFieldsMissing(body) then Rejected
    else if !HasText(body["interviewType"]) then Thrown(NoPrimitiveMessage)
    else
      var interviewType := body["interviewType"];
      Ready(RoomOptions(
        name := Naming.RoomName(ToText(interviewType), nowMillis),
        emptyTimeout := EmptyTimeout,
        maxParticipants := MaxParticipants,
        metadata := map[
          "interviewType" := interviewType,
          "candidateName" := body["candidateName"],
          "createdAt" := Str(createdAt),
          "enableRecording" := RecordingOf(body)]))
  }

  /** The whole handler; `createRoom` is the backend call, which yields the room or throws. */
  function HandleCreateRoom(body: map<string, Value>, nowMillis: int, createdAt: string,
                            createRoom: RoomOptions -> Result<CreatedRoom>): (r: Response<CreateAnswer>)
    ensures r.Status() == 400 <==> CreateFieldsMissing(body)
    ensures CreateFieldsMissing(body) ==> r == BadRequest(MissingFieldsError)
    ensures !CreateFieldsMissing(body) && !HasText(body["interviewType"]) ==>
      r == ServerError(CreateFailedError, NoPrimitiveMessage)
    ensures !CreateFieldsMissing(body) && HasText(body["interviewType"]) ==>
      match createRoom(CreateOptions(body, nowMillis, createdAt).value)
      case Err(m) => r == ServerError(CreateFailedError, m)
      case Ok(room) =>
        r.Answer? && r.body == CreateAnswer(room.name, body["interviewType"], body["candidateName"],
                                            DurationOf(body), RecordingOf(body), room.creationTime)
  {
    match CreateOptions(body, nowMillis, createdAt)
    case Rejected => BadRequest(MissingFieldsError)
    case Thrown(m) => ServerError(CreateFailedError, m)
    case Ready(options) =>
      match createRoom(options)
      case Err(m) => ServerError(CreateFailedError, m)
      case Ok(room) =>
        Answer(CreateAnswer(
          roomName := room.name,
          interviewType := body["interviewType"],
          candidateName := body["candidateName"],
          duration := DurationOf(body),
          enableRecording := RecordingOf(body),
          createdAt := room.creationTime))
  }

  /** A rejected body is answered with 400 whatever the clock and the backend would have done. */
  lemma RejectionPrecedesCreation(body: map<string, Value>,
                                  now1: int, createdAt1: string, createRoom1: RoomOptions -> Result<CreatedRoom>,
                                  now2: int, createdAt2: string, createRoom2: RoomOptions -> Result<CreatedRoom>)
    requires CreateFieldsMissing(body)
    ensures HandleCreateRoom(body, now1, createdAt1, createRoom1) == BadRequest(MissingFieldsError)
    ensures HandleCreateRoom(body, now1, createdAt1, createRoom1) == HandleCreateRoom(body, now2, createdAt2, createRoom2)
  {
  }

  /**
    An interview type that String() cannot convert, such as an object with its
    own "toString" key, fails the request with 500 before the backend is asked:
    the answer is the same whatever the backend would have done.
  */
  lemma UnconvertibleTypeFails(body: map<string, Value>, nowMillis: int, createdAt: string,
                               createRoom: RoomOptions -> Result<CreatedRoom>, i: int)
    requires !CreateFieldsMissing(body)
    requires body["interviewType"].Arr? && 0 <= i < |body["interviewType"].elems|
    requires body["interviewType"].elems[i].Obj? && "toString" in body["interviewType"].elems[i].fields
    ensures HandleCreateRoom(body, nowMillis, createdAt, createRoom) == ServerError(CreateFailedError, NoPrimitiveMessage)
  {
  }

  /**
    When the backend creates the room under the requested name, the answer
    names it "interview_<type>_<millis>" and echoes `duration` (1800 when
    absent) and `enableRecording` (true when absent) unchanged.
  */
  lemma CreatedRoomAnswer(body: map<string, Value>, nowMillis: int, createdAt: string,
                          createRoom: RoomOptions -> Result<CreatedRoom>)
    requires !CreateFieldsMissing(body) && HasText(body["interviewType"])
    requires var o := CreateOptions(body, nowMillis, createdAt).value;
      createRoom(o).Ok? && createRoom(o).value.name == o.name
    ensures var a := HandleCreateRoom(body, nowMillis, createdAt, createRoom).body;
      && a.roomName == Naming.RoomName(ToText(body["interviewType"]), nowMillis)
      && ("duration" !in body ==> a.duration == Num(1800))
      && ("duration" in body ==> a.duration == body["duration"])
      && ("enableRecording" !in body ==> a.enableRecording == Bool(true))
      && ("enableRecording" in body ==> a.enableRecording == body["enableRecording"])
  {
  }

  /**
    A creation with type "university_admissions" for "Jane Doe" and no
    duration or recording flag, created under its requested name.
  */
  lemma CreateScenario(nowMillis: int, createdAt: string, createRoom: RoomOptions -> Result<CreatedRoom>)
    requires forall o :: createRoom(o).Ok? && createRoom(o).value.name == o.name
    ensures var body := map["interviewType" := Str("university_admissions"), "candidateName" := Str("Jane Doe")];
      var r := HandleCreateRoom(body, nowMillis, createdAt, createRoom);
      && r.Answer?
      && r.body.roomName == Naming.RoomName("university_admissions", nowMillis)
      && r.body.duration == Num(1800)
      && r.body.enableRecording == Bool(true)
  {
  }
}
