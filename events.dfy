/**
 * Typed webhook events: a closed union of five payload kinds selected by the
 * `type` field, each with its required and optional fields, validated from
 * the JSON object of the request body.
 *
 * Fields are checked by their JSON kind: a string field takes a JSON string,
 * an integer field a JSON integer, a float field any JSON number, a dict
 * field a JSON object; `null` stands for an absent optional field. Keys the
 * schema does not name are ignored.
 */
module Events {
  import opened Wrappers
  import opened Text
  import opened Json

  datatype EventType = SessionStartEvent | MessageEvent | DataEvent | SessionEndEvent | SessionUpdateEvent

  /** The literal each event type has in the `type` field. */
  function TypeName(t: EventType): string {
    match t
    case SessionStartEvent => "session.start"
    case MessageEvent => "message"
    case DataEvent => "data"
    case SessionEndEvent => "session.end"
    case SessionUpdateEvent => "session.update"
  }

  /** The event type named by a literal; no other literal names one. */
  function TypeOf(name: string): (r: Option<EventType>)
    ensures r.Some? ==> TypeName(r.value) == name
  {
    if name == "session.start" then Some(SessionStartEvent)
    else if name == "message" then Some(MessageEvent)
    else if name == "data" then Some(DataEvent)
    else if name == "session.end" then Some(SessionEndEvent)
    else if name == "session.update" then Some(SessionUpdateEvent)
    else None
  }

  /** The five literals, and only they, name event types. */
  lemma TypeOfExactly(name: string)
    ensures TypeOf(name).Some? <==>
      name in ["session.start", "message", "data", "session.end", "session.update"]
    ensures forall t :: TypeOf(TypeName(t)) == Some(t)
  {
    forall t ensures TypeOf(TypeName(t)) == Some(t) {
      match t
      case SessionStartEvent =>
      case MessageEvent =>
      case DataEvent =>
      case SessionEndEvent =>
      case SessionUpdateEvent =>
    }
  }

  /** The attributes every payload has. */
  datatype Common = Common(
    sessionId: string,
    conversationId: string,
    metadata: Option<Members>,
    fromPhoneNumber: Option<string>,
    toPhoneNumber: Option<string>)

  /** A transcript timestamp: Unix milliseconds or an ISO text. */
  datatype Timestamp = UnixMillis(ms: int) | IsoText(text: string)

  datatype TranscriptItem = TranscriptItem(role: string, text: string, timestamp: Option<Timestamp>)

  /** A float field holds the JSON number it was given. */
  type Float = Json

  datatype Payload =
    | SessionStart(common: Common, turnId: string, text: Option<string>)
    | Message(common: Common, turnId: string, text: Option<string>, recordingUrl: Option<string>,
              recordingStatus: Option<string>, transcriptText: Option<string>, usage: Option<Members>)
    | Data(common: Common, turnId: string, data: Members)
    | SessionEnd(common: Common, agentId: Option<string>, startedAt: Option<string>, endedAt: Option<string>,
                 duration: Option<int>, transcriptionDurationSeconds: Option<Float>,
                 ttsDurationSeconds: Option<Float>, latency: Option<Float>, ipAddress: Option<string>,
                 countryCode: Option<string>, recordingStatus: Option<string>,
                 transcript: Option<seq<TranscriptItem>>)
    | SessionUpdate(common: Common, recordingStatus: Option<string>, recordingUrl: Option<string>,
                    recordingDuration: Option<Float>, errorMessage: Option<string>)
  {
    function Type(): EventType {
      match this
      case SessionStart(_, _, _) => SessionStartEvent
      case Message(_, _, _, _, _, _, _) => MessageEvent
      case Data(_, _, _) => DataEvent
      case SessionEnd(_, _, _, _, _, _, _, _, _, _, _, _) => SessionEndEvent
      case SessionUpdate(_, _, _, _, _) => SessionUpdateEvent
    }
  }

  /** Which field failed validation (`""` for the body itself). */
  datatype SchemaError = SchemaError(field: string)

  // ---------------------------------------------------------------------------
  // Field readers

  predicate IsNumber(j: Json) {
    j.JInt? || j.JFloat?
  }

  function ReqStr(m: Members, key: string): Result<string, SchemaError> {
    match Get(m, key)
    case Some(JStr(s)) => Success(s)
    case _ => Failure(SchemaError(key))
  }

  function OptStr(m: Members, key: string): Result<Option<string>, SchemaError> {
    match Get(m, key)
    case None => Success(None)
    case Some(JNull) => Success(None)
    case Some(JStr(s)) => Success(Some(s))
    case _ => Failure(SchemaError(key))
  }

  function OptInt(m: Members, key: string): Result<Option<int>, SchemaError> {
    match Get(m, key)
    case None => Success(None)
    case Some(JNull) => Success(None)
    case Some(JInt(i)) => Success(Some(i))
    case _ => Failure(SchemaError(key))
  }

  function OptFloat(m: Members, key: string): Result<Option<Float>, SchemaError> {
    match Get(m, key)
    case None => Success(None)
    case Some(JNull) => Success(None)
    case Some(v) => if IsNumber(v) then Success(Some(v)) else Failure(SchemaError(key))
  }

  function OptDict(m: Members, key: string): Result<Option<Members>, SchemaError> {
    match Get(m, key)
    case None => Success(None)
    case Some(JNull) => Success(None)
    case Some(JObject(ms)) => Success(Some(ms))
    case _ => Failure(SchemaError(key))
  }

  /** `data: dict = Field(default_factory=dict)`: absent means `{}`, `null` is refused. */
  function DictOrEmpty(m: Members, key: string): Result<Members, SchemaError> {
    match Get(m, key)
    case None => Success([])
    case Some(JObject(ms)) => Success(ms)
    case _ => Failure(SchemaError(key))
  }

  function ParseTimestamp(m: Members): Result<Option<Timestamp>, SchemaError> {
    match Get(m, "timestamp")
    case None => Success(None)
    case Some(JNull) => Success(None)
    case Some(JInt(i)) => Success(Some(UnixMillis(i)))
    case Some(JStr(s)) => Success(Some(IsoText(s)))
    case _ => Failure(SchemaError("timestamp"))
  }

  /** A transcript item: required `role` and `text`, optional `timestamp`, other keys allowed. */
  function ParseTranscriptItem(j: Json): Result<TranscriptItem, SchemaError> {
    match j
    case JObject(m) =>
      var role :- ReqStr(m, "role");
      var text :- ReqStr(m, "text");
      var timestamp :- ParseTimestamp(m);
      Success(TranscriptItem(role, text, timestamp))
    case _ => Failure(SchemaError("transcript"))
  }

  function ParseTranscriptItems(items: seq<Json>): (r: Result<seq<TranscriptItem>, SchemaError>)
    ensures r.Success? ==> |r.value| == |items|
  {
    if items == [] then Success([])
    else
      var first :- ParseTranscriptItem(items[0]);
      var rest :- ParseTranscriptItems(items[1..]);
      Success([first] + rest)
  }

  function OptTranscript(m: Members): Result<Option<seq<TranscriptItem>>, SchemaError> {
    match Get(m, "transcript")
    case None => Success(None)
    case Some(JNull) => Success(None)
    case Some(JArray(items)) =>
      var parsed :- ParseTranscriptItems(items);
      Success(Some(parsed))
    case _ => Failure(SchemaError("transcript"))
  }

  function ParseCommon(m: Members): Result<Common, SchemaError> {
    var sessionId :- ReqStr(m, "session_id");
    var conversationId :- ReqStr(m, "conversation_id");
    var metadata :- OptDict(m, "metadata");
    var fromPhone :- OptStr(m, "from_phone_number");
    var toPhone :- OptStr(m, "to_phone_number");
    Success(Common(sessionId, conversationId, metadata, fromPhone, toPhone))
  }

  function ParseType(m: Members): (r: Result<EventType, SchemaError>)
    ensures r.Success? ==> Get(m, "type") == Some(JStr(TypeName(r.value)))
  {
    match Get(m, "type")
    case Some(JStr(name)) =>
      (match TypeOf(name)
       case Some(t) => Success(t)
       case None => Failure(SchemaError("type")))
    case _ => Failure(SchemaError("type"))
  }

  function ParseSessionStart(c: Common, m: Members): (r: Result<Payload, SchemaError>)
    ensures r.Success? ==> r.value.SessionStart? && r.value.common == c
  {
    var turnId :- ReqStr(m, "turn_id");
    var text :- OptStr(m, "text");
    Success(SessionStart(c, turnId, text))
  }

  function ParseMessage(c: Common, m: Members): (r: Result<Payload, SchemaError>)
    ensures r.Success? ==> r.value.Message? && r.value.common == c
  {
    var turnId :- ReqStr(m, "turn_id");
    var text :- OptStr(m, "text");
    var recordingUrl :- OptStr(m, "recording_url");
    var recordingStatus :- OptStr(m, "recording_status");
    var transcript :- OptStr(m, "transcript");
    var usage :- OptDict(m, "usage");
    Success(Message(c, turnId, text, recordingUrl, recordingStatus, transcript, usage))
  }

  function ParseData(c: Common, m: Members): (r: Result<Payload, SchemaError>)
    ensures r.Success? ==> r.value.Data? && r.value.common == c
  {
    var turnId :- ReqStr(m, "turn_id");
    var data :- DictOrEmpty(m, "data");
    Success(Data(c, turnId, data))
  }

  /** The session statistics of a `session.end` body. */
  function ParseSessionEnd(c: Common, m: Members): (r: Result<Payload, SchemaError>)
    ensures r.Success? ==> r.value.SessionEnd? && r.value.common == c
  {
    var agentId :- OptStr(m, "agent_id");
    var startedAt :- OptStr(m, "started_at");
    var endedAt :- OptStr(m, "ended_at");
    var duration :- OptInt(m, "duration");
    var transcription :- OptFloat(m, "transcription_duration_seconds");
    var tts :- OptFloat(m, "tts_duration_seconds");
    var latency :- OptFloat(m, "latency");
    var ip :- OptStr(m, "ip_address");
    var country :- OptStr(m, "country_code");
    var recordingStatus :- OptStr(m, "recording_status");
    var transcript :- OptTranscript(m);
    Success(SessionEnd(c, agentId, startedAt, endedAt, duration, transcription, tts, latency,
                       ip, country, recordingStatus, transcript))
  }

  function ParseSessionUpdate(c: Common, m: Members): (r: Result<Payload, SchemaError>)
    ensures r.Success? ==> r.value.SessionUpdate? && r.value.common == c
  {
    var recordingStatus :- OptStr(m, "recording_status");
    var recordingUrl :- OptStr(m, "recording_url");
    var recordingDuration :- OptFloat(m, "recording_duration");
    var errorMessage :- OptStr(m, "error_message");
    Success(SessionUpdate(c, recordingStatus, recordingUrl, recordingDuration, errorMessage))
  }

  /** The fields of the variant `t`, on top of the common ones. */
  function ParseVariant(t: EventType, c: Common, m: Members): (r: Result<Payload, SchemaError>)
    ensures r.Success? ==> r.value.Type() == t && r.value.common == c
  {
    match t
    case SessionStartEvent => ParseSessionStart(c, m)
    case MessageEvent => ParseMessage(c, m)
    case DataEvent => ParseData(c, m)
    case SessionEndEvent => ParseSessionEnd(c, m)
    case SessionUpdateEvent => ParseSessionUpdate(c, m)
  }

  /** `parse_webhook_payload`: the variant whose literal `type` matches, validated. */
  function Parse(j: Json): (r: Result<Payload, SchemaError>)
    ensures r.Success? ==> j.JObject? && Get(j.members, "type") == Some(JStr(TypeName(r.value.Type())))
  {
    match j
    case JObject(m) =>
      var t :- ParseType(m);
      var c :- ParseCommon(m);
      var p :- ParseVariant(t, c, m);
      Success(p)
    case _ => Failure(SchemaError(""))
  }

  // ---------------------------------------------------------------------------
  // Rendering a payload back to its JSON body

  function StrJson(o: Option<string>): Json {
    match o
    case None => JNull
    case Some(s) => JStr(s)
  }

  function IntJson(o: Option<int>): Json {
    match o
    case None => JNull
    case Some(i) => JInt(i)
  }

  function FloatJson(o: Option<Float>): Json {
    match o
    case None => JNull
    case Some(v) => v
  }

  function DictJson(o: Option<Members>): Json {
    match o
    case None => JNull
    case Some(ms) => JObject(ms)
  }

  function TimestampJson(o: Option<Timestamp>): Json {
    match o
    case None => JNull
    case Some(UnixMillis(ms)) => JInt(ms)
    case Some(IsoText(s)) => JStr(s)
  }

  function TranscriptItemJson(item: TranscriptItem): Json {
    JObject([("role", JStr(item.role)), ("text", JStr(item.text)), ("timestamp", TimestampJson(item.timestamp))])
  }

  function TranscriptItemsJson(items: seq<TranscriptItem>): (r: seq<Json>)
    ensures |r| == |items|
  {
    if items == [] then [] else [TranscriptItemJson(items[0])] + TranscriptItemsJson(items[1..])
  }

  function TranscriptJson(o: Option<seq<TranscriptItem>>): Json {
    match o
    case None => JNull
    case Some(items) => JArray(TranscriptItemsJson(items))
  }

  function CommonJson(t: EventType, c: Common): Members {
    [ ("type", JStr(TypeName(t))),
      ("session_id", JStr(c.sessionId)),
      ("conversation_id", JStr(c.conversationId)),
      ("metadata", DictJson(c.metadata)),
      ("from_phone_number", StrJson(c.fromPhoneNumber)),
      ("to_phone_number", StrJson(c.toPhoneNumber)) ]
  }

  function VariantJson(p: Payload): Members {
    match p
    case SessionStart(_, turnId, text) =>
      [("turn_id", JStr(turnId)), ("text", StrJson(text))]
    case Message(_, turnId, text, recordingUrl, recordingStatus, transcript, usage) =>
      [ ("turn_id", JStr(turnId)), ("text", StrJson(text)), ("recording_url", StrJson(recordingUrl)),
        ("recording_status", StrJson(recordingStatus)), ("transcript", StrJson(transcript)),
        ("usage", DictJson(usage)) ]
    case Data(_, turnId, data) =>
      [("turn_id", JStr(turnId)), ("data", JObject(data))]
    case SessionEnd(_, _, _, _, _, _, _, _, _, _, _, _) => SessionEndJson(p)
    case SessionUpdate(_, recordingStatus, recordingUrl, recordingDuration, errorMessage) =>
      [ ("recording_status", StrJson(recordingStatus)), ("recording_url", StrJson(recordingUrl)),
        ("recording_duration", FloatJson(recordingDuration)), ("error_message", StrJson(errorMessage)) ]
  }

  function SessionEndJson(p: Payload): Members
    requires p.SessionEnd?
  {
    [ ("agent_id", StrJson(p.agentId)), ("started_at", StrJson(p.startedAt)), ("ended_at", StrJson(p.endedAt)),
      ("duration", IntJson(p.duration)), ("transcription_duration_seconds", FloatJson(p.transcriptionDurationSeconds)),
      ("tts_duration_seconds", FloatJson(p.ttsDurationSeconds)), ("latency", FloatJson(p.latency)),
      ("ip_address", StrJson(p.ipAddress)), ("country_code", StrJson(p.countryCode)),
      ("recording_status", StrJson(p.recordingStatus)), ("transcript", TranscriptJson(p.transcript)) ]
  }

  /** The body `model_dump` would give: every field by name, `None` as `null`. */
  function ToJson(p: Payload): Json {
    JObject(CommonJson(p.Type(), p.common) + VariantJson(p))
  }

  /** Float fields hold numbers. */
  predicate ValidPayload(p: Payload) {
    match p
    case SessionEnd(_, _, _, _, _, transcription, tts, latency, _, _, _, _) =>
      (transcription.Some? ==> IsNumber(transcription.value))
      && (tts.Some? ==> IsNumber(tts.value))
      && (latency.Some? ==> IsNumber(latency.value))
    case SessionUpdate(_, _, _, recordingDuration, _) =>
      recordingDuration.Some? ==> IsNumber(recordingDuration.value)
    case _ => true
  }

  // ---------------------------------------------------------------------------
  // Reading back what was rendered

  lemma ReqStrOf(m: Members, key: string, s: string)
    requires Get(m, key) == Some(JStr(s))
    ensures ReqStr(m, key) == Success(s)
  {
  }

  lemma OptStrOf(m: Members, key: string, o: Option<string>)
    requires Get(m, key) == Some(StrJson(o))
    ensures OptStr(m, key) == Success(o)
  {
  }

  lemma OptIntOf(m: Members, key: string, o: Option<int>)
    requires Get(m, key) == Some(IntJson(o))
    ensures OptInt(m, key) == Success(o)
  {
  }

  lemma OptFloatOf(m: Members, key: string, o: Option<Float>)
    requires o.Some? ==> IsNumber(o.value)
    requires Get(m, key) == Some(FloatJson(o))
    ensures OptFloat(m, key) == Success(o)
  {
  }

  lemma OptDictOf(m: Members, key: string, o: Option<Members>)
    requires Get(m, key) == Some(DictJson(o))
    ensures OptDict(m, key) == Success(o)
  {
  }

  /** A rendered transcript reads back as the same items. */
  lemma {:induction false} TranscriptItemsRoundTrip(items: seq<TranscriptItem>)
    ensures ParseTranscriptItems(TranscriptItemsJson(items)) == Success(items)
  {
    if items != [] {
      var it := items[0];
      var m := [("role", JStr(it.role)), ("text", JStr(it.text)), ("timestamp", TimestampJson(it.timestamp))];
      GetOfDistinct(m, 0);
      GetOfDistinct(m, 1);
      GetOfDistinct(m, 2);
      assert ParseTranscriptItem(TranscriptItemJson(it)) == Success(it);
      TranscriptItemsRoundTrip(items[1..]);
      assert TranscriptItemsJson(items)[1..] == TranscriptItemsJson(items[1..]);
      assert [it] + items[1..] == items;
    }
  }

  lemma TranscriptOf(m: Members, o: Option<seq<TranscriptItem>>)
    requires Get(m, "transcript") == Some(TranscriptJson(o))
    ensures OptTranscript(m) == Success(o)
  {
    if o.Some? { TranscriptItemsRoundTrip(o.value); }
  }

  lemma StartKeysDistinct(c: Common, turnId: string, text: Option<string>)
    ensures DistinctKeys(ToJson(SessionStart(c, turnId, text)).members)
  {
  }

  lemma MessageKeysDistinct(p: Payload)
    requires p.Message?
    ensures DistinctKeys(ToJson(p).members)
  {
  }

  lemma DataKeysDistinct(p: Payload)
    requires p.Data?
    ensures DistinctKeys(ToJson(p).members)
  {
  }

  lemma EndKeysDistinct(p: Payload)
    requires p.SessionEnd?
    ensures DistinctKeys(CommonJson(SessionEndEvent, p.common) + SessionEndJson(p))
  {
    var a, b := CommonJson(SessionEndEvent, p.common), SessionEndJson(p);
    assert DistinctKeys(a);
    assert DistinctKeys(b);
    assert forall i, j | 0 <= i < |a| && 0 <= j < |b| :: a[i].0 != b[j].0;
    DistinctAppend(a, b);
  }

  lemma DistinctAppend(a: Members, b: Members)
    requires DistinctKeys(a) && DistinctKeys(b)
    requires forall i, j | 0 <= i < |a| && 0 <= j < |b| :: a[i].0 != b[j].0
    ensures DistinctKeys(a + b)
  {
    forall i, j | 0 <= i < j < |a + b|
      ensures (a + b)[i].0 != (a + b)[j].0
    {
      if j < |a| {
      } else if i >= |a| {
        assert (a + b)[i] == b[i - |a|] && (a + b)[j] == b[j - |a|];
      } else {
        assert (a + b)[i] == a[i] && (a + b)[j] == b[j - |a|];
      }
    }
  }

  lemma UpdateKeysDistinct(p: Payload)
    requires p.SessionUpdate?
    ensures DistinctKeys(ToJson(p).members)
  {
  }

  /** No key is rendered twice. */
  lemma RenderedKeysDistinct(p: Payload)
    ensures DistinctKeys(ToJson(p).members)
  {
    match p
    case SessionStart(c, turnId, text) => StartKeysDistinct(c, turnId, text);
    case Message(_, _, _, _, _, _, _) => MessageKeysDistinct(p);
    case Data(_, _, _) => DataKeysDistinct(p);
    case SessionEnd(_, _, _, _, _, _, _, _, _, _, _, _) =>
      EndKeysDistinct(p);
      assert ToJson(p).members == CommonJson(SessionEndEvent, p.common) + SessionEndJson(p);
    case SessionUpdate(_, _, _, _, _) => UpdateKeysDistinct(p);
  }

  /** The i-th common field can be looked up in the rendered body. */
  lemma CommonGet(p: Payload, i: nat)
    requires i < 6
    ensures Get(ToJson(p).members, CommonJson(p.Type(), p.common)[i].0)
         == Some(CommonJson(p.Type(), p.common)[i].1)
  {
    RenderedKeysDistinct(p);
    var a := CommonJson(p.Type(), p.common);
    assert (a + VariantJson(p))[i] == a[i];
    GetOfDistinct(a + VariantJson(p), i);
  }

  /** The i-th variant field can be looked up in the rendered body. */
  lemma VariantGet(p: Payload, i: nat)
    requires i < |VariantJson(p)|
    ensures Get(ToJson(p).members, VariantJson(p)[i].0) == Some(VariantJson(p)[i].1)
  {
    RenderedKeysDistinct(p);
    var a := CommonJson(p.Type(), p.common);
    var b := VariantJson(p);
    assert (a + b)[|a| + i] == b[i];
    GetOfDistinct(a + b, |a| + i);
  }

  /** The rendered `type` and common fields read back. */
  lemma CommonRoundTrip(p: Payload)
    ensures ParseType(ToJson(p).members) == Success(p.Type())
    ensures ParseCommon(ToJson(p).members) == Success(p.common)
  {
    CommonGet(p, 0);
    CommonGet(p, 1);
    CommonGet(p, 2);
    CommonGet(p, 3);
    CommonGet(p, 4);
    CommonGet(p, 5);
    CommonFromGets(ToJson(p).members, p.Type(), p.common);
  }

  /** A body holding the rendered `type` and common fields parses them back. */
  lemma CommonFromGets(m: Members, t: EventType, c: Common)
    requires Get(m, "type") == Some(JStr(TypeName(t)))
    requires Get(m, "session_id") == Some(JStr(c.sessionId))
    requires Get(m, "conversation_id") == Some(JStr(c.conversationId))
    requires Get(m, "metadata") == Some(DictJson(c.metadata))
    requires Get(m, "from_phone_number") == Some(StrJson(c.fromPhoneNumber))
    requires Get(m, "to_phone_number") == Some(StrJson(c.toPhoneNumber))
    ensures ParseType(m) == Success(t)
    ensures ParseCommon(m) == Success(c)
  {
    TypeOfExactly(TypeName(t));
    ReqStrOf(m, "session_id", c.sessionId);
    ReqStrOf(m, "conversation_id", c.conversationId);
    OptDictOf(m, "metadata", c.metadata);
    OptStrOf(m, "from_phone_number", c.fromPhoneNumber);
    OptStrOf(m, "to_phone_number", c.toPhoneNumber);
  }

  lemma StartVariantRoundTrip(p: Payload)
    requires p.SessionStart?
    ensures ParseVariant(p.Type(), p.common, ToJson(p).members) == Success(p)
  {
    var m := ToJson(p).members;
    VariantGet(p, 0);
    VariantGet(p, 1);
    ReqStrOf(m, "turn_id", p.turnId);
    OptStrOf(m, "text", p.text);
  }

  lemma MessageVariantRoundTrip(p: Payload)
    requires p.Message?
    ensures ParseVariant(p.Type(), p.common, ToJson(p).members) == Success(p)
  {
    var m := ToJson(p).members;
    VariantGet(p, 0);
    VariantGet(p, 1);
    VariantGet(p, 2);
    VariantGet(p, 3);
    VariantGet(p, 4);
    VariantGet(p, 5);
    ReqStrOf(m, "turn_id", p.turnId);
    OptStrOf(m, "text", p.text);
    OptStrOf(m, "recording_url", p.recordingUrl);
    OptStrOf(m, "recording_status", p.recordingStatus);
    OptStrOf(m, "transcript", p.transcriptText);
    OptDictOf(m, "usage", p.usage);
  }

  lemma DataVariantRoundTrip(p: Payload)
    requires p.Data?
    ensures ParseVariant(p.Type(), p.common, ToJson(p).members) == Success(p)
  {
    var m := ToJson(p).members;
    VariantGet(p, 0);
    VariantGet(p, 1);
    ReqStrOf(m, "turn_id", p.turnId);
  }

  lemma EndVariantFromGets(p: Payload, m: Members)
    requires p.SessionEnd? && ValidPayload(p)
    requires Get(m, "agent_id") == Some(StrJson(p.agentId))
    requires Get(m, "started_at") == Some(StrJson(p.startedAt))
    requires Get(m, "ended_at") == Some(StrJson(p.endedAt))
    requires Get(m, "duration") == Some(IntJson(p.duration))
    requires Get(m, "transcription_duration_seconds") == Some(FloatJson(p.transcriptionDurationSeconds))
    requires Get(m, "tts_duration_seconds") == Some(FloatJson(p.ttsDurationSeconds))
    requires Get(m, "latency") == Some(FloatJson(p.latency))
    requires Get(m, "ip_address") == Some(StrJson(p.ipAddress))
    requires Get(m, "country_code") == Some(StrJson(p.countryCode))
    requires Get(m, "recording_status") == Some(StrJson(p.recordingStatus))
    requires Get(m, "transcript") == Some(TranscriptJson(p.transcript))
    ensures ParseSessionEnd(p.common, m) == Success(p)
  {
    OptStrOf(m, "agent_id", p.agentId);
    OptStrOf(m, "started_at", p.startedAt);
    OptStrOf(m, "ended_at", p.endedAt);
    OptIntOf(m, "duration", p.duration);
    OptFloatOf(m, "transcription_duration_seconds", p.transcriptionDurationSeconds);
    OptFloatOf(m, "tts_duration_seconds", p.ttsDurationSeconds);
    OptFloatOf(m, "latency", p.latency);
    OptStrOf(m, "ip_address", p.ipAddress);
    OptStrOf(m, "country_code", p.countryCode);
    OptStrOf(m, "recording_status", p.recordingStatus);
    TranscriptOf(m, p.transcript);
    EndVariantFromReads(p, m);
  }

  lemma EndVariantFromReads(p: Payload, m: Members)
    requires p.SessionEnd?
    requires OptStr(m, "agent_id") == Success(p.agentId)
    requires OptStr(m, "started_at") == Success(p.startedAt)
    requires OptStr(m, "ended_at") == Success(p.endedAt)
    requires OptInt(m, "duration") == Success(p.duration)
    requires OptFloat(m, "transcription_duration_seconds") == Success(p.transcriptionDurationSeconds)
    requires OptFloat(m, "tts_duration_seconds") == Success(p.ttsDurationSeconds)
    requires OptFloat(m, "latency") == Success(p.latency)
    requires OptStr(m, "ip_address") == Success(p.ipAddress)
    requires OptStr(m, "country_code") == Success(p.countryCode)
    requires OptStr(m, "recording_status") == Success(p.recordingStatus)
    requires OptTranscript(m) == Success(p.transcript)
    ensures ParseSessionEnd(p.common, m) == Success(p)
  {
  }

  lemma EndVariantOf(p: Payload, m: Members)
    requires p.SessionEnd? && ParseSessionEnd(p.common, m) == Success(p)
    ensures ParseVariant(p.Type(), p.common, m) == Success(p)
  {
  }

  /** The i-th `session.end` field can be looked up in the rendered body. */
  lemma EndGet(p: Payload, i: nat)
    requires p.SessionEnd? && i < 11
    ensures Get(ToJson(p).members, SessionEndJson(p)[i].0) == Some(SessionEndJson(p)[i].1)
  {
    var a := CommonJson(SessionEndEvent, p.common);
    var b := SessionEndJson(p);
    EndKeysDistinct(p);
    assert ToJson(p).members == a + b;
    assert (a + b)[|a| + i] == b[i];
    GetOfDistinct(a + b, |a| + i);
  }

  lemma EndGets(p: Payload)
    requires p.SessionEnd?
    ensures var m := ToJson(p).members;
      && Get(m, "agent_id") == Some(StrJson(p.agentId))
      && Get(m, "started_at") == Some(StrJson(p.startedAt))
      && Get(m, "ended_at") == Some(StrJson(p.endedAt))
      && Get(m, "duration") == Some(IntJson(p.duration))
      && Get(m, "transcription_duration_seconds") == Some(FloatJson(p.transcriptionDurationSeconds))
      && Get(m, "tts_duration_seconds") == Some(FloatJson(p.ttsDurationSeconds))
      && Get(m, "latency") == Some(FloatJson(p.latency))
      && Get(m, "ip_address") == Some(StrJson(p.ipAddress))
      && Get(m, "country_code") == Some(StrJson(p.countryCode))
      && Get(m, "recording_status") == Some(StrJson(p.recordingStatus))
      && Get(m, "transcript") == Some(TranscriptJson(p.transcript))
  {
    EndGet(p, 0);
    EndGet(p, 1);
    EndGet(p, 2);
    EndGet(p, 3);
    EndGet(p, 4);
    EndGet(p, 5);
    EndGet(p, 6);
    EndGet(p, 7);
    EndGet(p, 8);
    EndGet(p, 9);
    EndGet(p, 10);
  }

  lemma EndVariantRoundTrip(p: Payload)
    requires p.SessionEnd? && ValidPayload(p)
    ensures ParseVariant(p.Type(), p.common, ToJson(p).members) == Success(p)
  {
    EndGets(p);
    EndVariantFromGets(p, ToJson(p).members);
    EndVariantOf(p, ToJson(p).members);
  }

  lemma UpdateVariantRoundTrip(p: Payload)
    requires p.SessionUpdate? && ValidPayload(p)
    ensures ParseVariant(p.Type(), p.common, ToJson(p).members) == Success(p)
  {
    var m := ToJson(p).members;
    VariantGet(p, 0);
    VariantGet(p, 1);
    VariantGet(p, 2);
    VariantGet(p, 3);
    OptStrOf(m, "recording_status", p.recordingStatus);
    OptStrOf(m, "recording_url", p.recordingUrl);
    OptFloatOf(m, "recording_duration", p.recordingDuration);
    OptStrOf(m, "error_message", p.errorMessage);
  }

  /** Parsing succeeds on a body whose type, common fields and variant fields all read back. */
  lemma ParseOfParts(p: Payload)
    requires ParseType(ToJson(p).members) == Success(p.Type())
    requires ParseCommon(ToJson(p).members) == Success(p.common)
    requires ParseVariant(p.Type(), p.common, ToJson(p).members) == Success(p)
    ensures Parse(ToJson(p)) == Success(p)
  {
    ParseOfStages(ToJson(p).members, p.Type(), p.common, p);
  }

  /** Every payload survives rendering and validating again. */
  lemma ParseToJson(p: Payload)
    requires ValidPayload(p)
    ensures Parse(ToJson(p)) == Success(p)
  {
    CommonRoundTrip(p);
    match p
    case SessionStart(_, _, _) => StartVariantRoundTrip(p);
    case Message(_, _, _, _, _, _, _) => MessageVariantRoundTrip(p);
    case Data(_, _, _) => DataVariantRoundTrip(p);
    case SessionEnd(_, _, _, _, _, _, _, _, _, _, _, _) => EndVariantRoundTrip(p);
    case SessionUpdate(_, _, _, _, _) => UpdateVariantRoundTrip(p);
    ParseOfParts(p);
  }

  // ---------------------------------------------------------------------------
  // Validation rules

  /** Distinct event types have distinct literals. */
  lemma TypeNameInjective(t1: EventType, t2: EventType)
    requires TypeName(t1) == TypeName(t2)
    ensures t1 == t2
  {
    TypeOfExactly(TypeName(t1));
  }

  /** The accepted variant is exactly the one the `type` literal names. */
  lemma ParseSelectsByType(j: Json, t: EventType)
    requires Parse(j).Success?
    ensures Parse(j).value.Type() == t <==> Get(j.members, "type") == Some(JStr(TypeName(t)))
  {
    if Get(j.members, "type") == Some(JStr(TypeName(t))) {
      TypeNameInjective(Parse(j).value.Type(), t);
    }
  }

  /** A body whose `type` is none of the five literals is refused on `type`. */
  lemma UnknownTypeRejected(m: Members)
    requires forall t :: Get(m, "type") != Some(JStr(TypeName(t)))
    ensures Parse(JObject(m)) == Failure(SchemaError("type"))
  {
  }

  /** Absent optional fields read as `None`, an absent `data` as `{}`. */
  lemma AbsentFieldReads(m: Members, key: string)
    requires !HasKey(m, key)
    ensures OptStr(m, key) == Success(None) && OptInt(m, key) == Success(None)
    ensures OptFloat(m, key) == Success(None) && OptDict(m, key) == Success(None)
    ensures DictOrEmpty(m, key) == Success([])
    ensures ReqStr(m, key) == Failure(SchemaError(key))
    ensures key == "transcript" ==> OptTranscript(m) == Success(None)
  {
  }

  /** The turn-based events refuse a body without `turn_id`. */
  lemma MissingTurnIdRejected(m: Members)
    requires !HasKey(m, "turn_id")
    requires Get(m, "type") in {Some(JStr("session.start")), Some(JStr("message")), Some(JStr("data"))}
    ensures Parse(JObject(m)).Failure?
  {
    AbsentFieldReads(m, "turn_id");
    if Parse(JObject(m)).Success? {
      var t := Parse(JObject(m)).value.Type();
      assert t == SessionStartEvent || t == MessageEvent || t == DataEvent;
    }
  }

  /**
   * Given its `turn_id`, a `data` body without a `data` member carries the empty
   * dict, and one whose `data` is `null` is refused on that field.
   */
  lemma DataDefaultsToEmpty(c: Common, m: Members, turnId: string)
    requires Get(m, "turn_id") == Some(JStr(turnId))
    ensures !HasKey(m, "data") ==> ParseData(c, m) == Success(Data(c, turnId, []))
    ensures Get(m, "data") == Some(JNull) ==> ParseData(c, m) == Failure(SchemaError("data"))
  {
  }

  /** A transcript item needs `role` and `text` as strings. */
  lemma TranscriptItemNeedsRoleAndText(m: Members)
    requires ParseTranscriptItem(JObject(m)).Success?
    ensures Get(m, "role") == Some(JStr(ParseTranscriptItem(JObject(m)).value.role))
    ensures Get(m, "text") == Some(JStr(ParseTranscriptItem(JObject(m)).value.text))
  {
  }

  /** The `type` and the two required common fields, with no optional common field. */
  lemma BareCommonReads(m: Members, t: EventType, sessionId: string, conversationId: string)
    requires Get(m, "type") == Some(JStr(TypeName(t)))
    requires Get(m, "session_id") == Some(JStr(sessionId))
    requires Get(m, "conversation_id") == Some(JStr(conversationId))
    requires !HasKey(m, "metadata") && !HasKey(m, "from_phone_number") && !HasKey(m, "to_phone_number")
    ensures ParseType(m) == Success(t)
    ensures ParseCommon(m) == Success(Common(sessionId, conversationId, None, None, None))
  {
    TypeOfExactly(TypeName(t));
    AbsentFieldReads(m, "metadata");
    AbsentFieldReads(m, "from_phone_number");
    AbsentFieldReads(m, "to_phone_number");
  }

  /** A `session.end` body without any of its statistics fields. */
  lemma BareSessionEndReads(c: Common, m: Members)
    requires !HasKey(m, "agent_id") && !HasKey(m, "started_at") && !HasKey(m, "ended_at")
    requires !HasKey(m, "duration") && !HasKey(m, "transcription_duration_seconds")
    requires !HasKey(m, "tts_duration_seconds") && !HasKey(m, "latency") && !HasKey(m, "ip_address")
    requires !HasKey(m, "country_code") && !HasKey(m, "recording_status") && !HasKey(m, "transcript")
    ensures ParseVariant(SessionEndEvent, c, m)
         == Success(SessionEnd(c, None, None, None, None, None, None, None, None, None, None, None))
  {
    AbsentFieldReads(m, "agent_id");
    AbsentFieldReads(m, "started_at");
    AbsentFieldReads(m, "ended_at");
    AbsentFieldReads(m, "duration");
    AbsentFieldReads(m, "transcription_duration_seconds");
    AbsentFieldReads(m, "tts_duration_seconds");
    AbsentFieldReads(m, "latency");
    AbsentFieldReads(m, "ip_address");
    AbsentFieldReads(m, "country_code");
    AbsentFieldReads(m, "recording_status");
    AbsentFieldReads(m, "transcript");
  }

  /** Parsing an object is its three stages in sequence. */
  lemma ParseOfStages(m: Members, t: EventType, c: Common, p: Payload)
    requires ParseType(m) == Success(t) && ParseCommon(m) == Success(c)
    requires ParseVariant(t, c, m) == Success(p)
    ensures Parse(JObject(m)) == Success(p)
  {
  }

  /** A `session.end` body with only its three required fields. */
  lemma MinimalSessionEndParses(sessionId: string, conversationId: string)
    ensures var m := [("type", JStr("session.end")), ("session_id", JStr(sessionId)),
                      ("conversation_id", JStr(conversationId))];
      Parse(JObject(m)) == Success(SessionEnd(Common(sessionId, conversationId, None, None, None),
        None, None, None, None, None, None, None, None, None, None, None))
  {
    var m := [("type", JStr("session.end")), ("session_id", JStr(sessionId)),
              ("conversation_id", JStr(conversationId))];
    var c := Common(sessionId, conversationId, None, None, None);
    MinimalGets(m, sessionId, conversationId);
    BareCommonReads(m, SessionEndEvent, sessionId, conversationId);
    BareSessionEndReads(c, m);
    ParseOfStages(m, SessionEndEvent, c, SessionEnd(c, None, None, None, None, None, None, None, None, None, None, None));
  }

  /** What the three-field body holds, and which keys it lacks. */
  lemma MinimalGets(m: Members, sessionId: string, conversationId: string)
    requires m == [("type", JStr("session.end")), ("session_id", JStr(sessionId)),
                   ("conversation_id", JStr(conversationId))]
    ensures Get(m, "type") == Some(JStr(TypeName(SessionEndEvent)))
    ensures Get(m, "session_id") == Some(JStr(sessionId))
    ensures Get(m, "conversation_id") == Some(JStr(conversationId))
    ensures !HasKey(m, "metadata") && !HasKey(m, "from_phone_number") && !HasKey(m, "to_phone_number")
    ensures !HasKey(m, "agent_id") && !HasKey(m, "started_at") && !HasKey(m, "ended_at")
    ensures !HasKey(m, "duration") && !HasKey(m, "transcription_duration_seconds")
    ensures !HasKey(m, "tts_duration_seconds") && !HasKey(m, "latency") && !HasKey(m, "ip_address")
    ensures !HasKey(m, "country_code") && !HasKey(m, "recording_status") && !HasKey(m, "transcript")
  {
    GetOfDistinct(m, 0);
    GetOfDistinct(m, 1);
    GetOfDistinct(m, 2);
    AbsentFromThree(m, "metadata");
    AbsentFromThree(m, "from_phone_number");
    AbsentFromThree(m, "to_phone_number");
    AbsentFromThree(m, "agent_id");
    AbsentFromThree(m, "started_at");
    AbsentFromThree(m, "ended_at");
    AbsentFromThree(m, "duration");
    AbsentFromThree(m, "transcription_duration_seconds");
    AbsentFromThree(m, "tts_duration_seconds");
    AbsentFromThree(m, "latency");
    AbsentFromThree(m, "ip_address");
    AbsentFromThree(m, "country_code");
    AbsentFromThree(m, "recording_status");
    AbsentFromThree(m, "transcript");
  }

  /** A body without `session_id` or without `conversation_id` is refused, whatever its type. */
  lemma MissingCommonRejected(m: Members)
    requires !HasKey(m, "session_id") || !HasKey(m, "conversation_id")
    ensures Parse(JObject(m)).Failure?
  {
    if !HasKey(m, "session_id") {
      AbsentFieldReads(m, "session_id");
    } else {
      AbsentFieldReads(m, "conversation_id");
    }
  }

  /** A `session.update` body with only its three required fields. */
  lemma MinimalSessionUpdateParses(sessionId: string, conversationId: string)
    ensures var m := [("type", JStr("session.update")), ("session_id", JStr(sessionId)),
                      ("conversation_id", JStr(conversationId))];
      Parse(JObject(m)) == Success(SessionUpdate(Common(sessionId, conversationId, None, None, None),
        None, None, None, None))
  {
    var m := [("type", JStr("session.update")), ("session_id", JStr(sessionId)),
              ("conversation_id", JStr(conversationId))];
    var c := Common(sessionId, conversationId, None, None, None);
    MinimalUpdateGets(m, sessionId, conversationId);
    BareCommonReads(m, SessionUpdateEvent, sessionId, conversationId);
    AbsentFieldReads(m, "recording_status");
    AbsentFieldReads(m, "recording_url");
    AbsentFieldReads(m, "recording_duration");
    AbsentFieldReads(m, "error_message");
    assert ParseVariant(SessionUpdateEvent, c, m) == Success(SessionUpdate(c, None, None, None, None));
    ParseOfStages(m, SessionUpdateEvent, c, SessionUpdate(c, None, None, None, None));
  }

  /** What the three-field `session.update` body holds, and which keys it lacks. */
  lemma MinimalUpdateGets(m: Members, sessionId: string, conversationId: string)
    requires m == [("type", JStr("session.update")), ("session_id", JStr(sessionId)),
                   ("conversation_id", JStr(conversationId))]
    ensures Get(m, "type") == Some(JStr(TypeName(SessionUpdateEvent)))
    ensures Get(m, "session_id") == Some(JStr(sessionId))
    ensures Get(m, "conversation_id") == Some(JStr(conversationId))
    ensures !HasKey(m, "metadata") && !HasKey(m, "from_phone_number") && !HasKey(m, "to_phone_number")
    ensures !HasKey(m, "recording_status") && !HasKey(m, "recording_url")
    ensures !HasKey(m, "recording_duration") && !HasKey(m, "error_message")
  {
    GetOfDistinct(m, 0);
    GetOfDistinct(m, 1);
    GetOfDistinct(m, 2);
    AbsentFromThree(m, "metadata");
    AbsentFromThree(m, "from_phone_number");
    AbsentFromThree(m, "to_phone_number");
    AbsentFromThree(m, "recording_status");
    AbsentFromThree(m, "recording_url");
    AbsentFromThree(m, "recording_duration");
    AbsentFromThree(m, "error_message");
  }

  lemma AbsentFromThree(m: Members, key: string)
    requires |m| == 3 && key != m[0].0 && key != m[1].0 && key != m[2].0
    ensures !HasKey(m, key)
  {
  }
}
