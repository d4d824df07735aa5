/**
 * The robot's raw event log as the backend receives it from the bridge, its
 * normalisation into stored run documents (`POST /ingest`), and the
 * conversion of a stored document into JSON-ready form.
 */
module RunLog {
  import opened Wrappers

  /** Event codes the robot writes to its EEPROM log. */
  const EventCodes: map<int, string> :=
    map[1 := "Start", 2 := "ZoneChange", 3 := "Shot", 4 := "Obstacle", 5 := "Stop", 6 := "Error"]

  /** Zone ids the robot reports in a log entry's data field. */
  const ZoneNames: map<int, string> :=
    map[0 := "Start", 1 := "Red Zone", 2 := "Blue Zone", 3 := "Green Zone", 4 := "Center", 5 := "Unknown"]

  const UnknownName: string := "Unknown"

  /** `EVENT_CODES.get(code, "Unknown")`. */
  function EventName(code: int): string
  {
    if code in EventCodes then EventCodes[code] else UnknownName
  }

  /** `ZONE_NAMES.get(zone_id, "Unknown")`. */
  function ZoneName(zoneId: int): string
  {
    if zoneId in ZoneNames then ZoneNames[zoneId] else UnknownName
  }

  /**
   * An event is "Unknown" exactly when its code is not one of 1 to 6, and
   * it is a zone change exactly when its code is 2.
   */
  lemma EventNameSpec(code: int)
    ensures EventName(code) == UnknownName <==> !(1 <= code <= 6)
    ensures EventName(code) == "ZoneChange" <==> code == 2
  {
  }

  /**
   * A zone is "Unknown" both for the id 5, which names it so, and for any id
   * outside 0 to 5.
   */
  lemma ZoneNameSpec(zoneId: int)
    ensures ZoneName(zoneId) == UnknownName <==> zoneId == 5 || !(0 <= zoneId <= 5)
  {
  }

  /**
   * One entry of the log the robot sends: the three fields ingest reads, each
   * of which may be missing, and the entry's other fields (such as `state`).
   */
  datatype RawLog = RawLog(event: Option<int>, data: Option<int>, timestamp: Option<int>, others: OtherFields)

  /** The fields of a raw entry other than `event`, `data` and `timestamp`, so that each entry has one form. */
  type OtherFields = m: map<string, Value> | "event" !in m && "data" !in m && "timestamp" !in m
    witness map[]

  /** One entry of a stored run, with the names looked up and the original kept. */
  datatype ProcessedLog = ProcessedLog(
    eventCode: int, eventName: string, zoneId: int, zoneName: string, timestampMs: int, raw: RawLog)

  /** The normalisation of one raw entry; missing fields read as 0. */
  function Normalize(log: RawLog): ProcessedLog
  {
    var eventCode := log.event.GetOr(0);
    var zoneId := log.data.GetOr(0);
    ProcessedLog(eventCode, EventName(eventCode), zoneId, ZoneName(zoneId), log.timestamp.GetOr(0), log)
  }

  /**
   * A normalised entry keeps the raw entry and its three numbers, with 0 for
   * a missing one, and names the event and zone by the two tables; so a
   * missing event reads as "Unknown" while missing data reads as zone 0,
   * "Start".
   */
  lemma NormalizeSpec(log: RawLog)
    ensures Normalize(log).raw == log
    ensures Normalize(log).eventCode == (if log.event.Some? then log.event.value else 0)
    ensures Normalize(log).zoneId == (if log.data.Some? then log.data.value else 0)
    ensures Normalize(log).timestampMs == (if log.timestamp.Some? then log.timestamp.value else 0)
    ensures Normalize(log).eventName == EventName(Normalize(log).eventCode)
    ensures Normalize(log).zoneName == ZoneName(Normalize(log).zoneId)
    ensures log.event.None? ==> Normalize(log).eventName == UnknownName
    ensures log.data.None? ==> Normalize(log).zoneName == "Start"
  {
  }

  /** The normalisation loop: one processed entry per raw entry, in the same order. */
  method NormalizeLogs(logs: seq<RawLog>) returns (processed: seq<ProcessedLog>)
    ensures |processed| == |logs|
    ensures forall i :: 0 <= i < |logs| ==> processed[i] == Normalize(logs[i])
  {
    processed := [];
    for i := 0 to |logs|
      invariant |processed| == i
      invariant forall j :: 0 <= j < i ==> processed[j] == Normalize(logs[j])
    {
      var log := logs[i];
      var eventCode := log.event.GetOr(0);
      var zoneId := log.data.GetOr(0);
      processed := processed + [ProcessedLog(eventCode, EventName(eventCode), zoneId, ZoneName(zoneId),
                                             log.timestamp.GetOr(0), log)];
    }
  }

  /** The run's free-form metadata object, kept as text values. */
  type Metadata = map<string, string>

  /**
   * A JSON object posted to `/ingest`: the fields the handler reads, each
   * possibly missing, and how many other fields it has.
   */
  datatype IngestBody = IngestBody(
    logs: Option<seq<RawLog>>, robotId: Option<string>, runNumber: Option<int>,
    metadata: Option<Metadata>, otherFields: nat)

  /** Python's `not data`: no JSON object, or one without any field. */
  predicate NoIngestData(body: Option<IngestBody>)
  {
    body.None? ||
    (body.value.logs.None? && body.value.robotId.None? && body.value.runNumber.None? &&
     body.value.metadata.None? && body.value.otherFields == 0)
  }

  /** The document `/ingest` stores for a run; the creation time is not modelled. */
  datatype RunDoc = RunDoc(
    robotId: string, runNumber: int, logs: seq<ProcessedLog>, metadata: Metadata, analyzed: bool)

  /** The reply: an error with its status, or the stored document and the number of its entries. */
  datatype IngestResponse =
    | IngestFailed(status: int, error: string)
    | IngestCreated(status: int, doc: RunDoc, logsCount: nat)

  const NoDataError: string := "No data provided"
  const MissingLogsError: string := "Missing 'logs' field"

  /**
   * `POST /ingest`. A missing or empty body and a body without `logs` are
   * rejected with 400; otherwise every entry is normalised, in order, into a
   * new unanalysed run document, which is stored and acknowledged with 201
   * and the entry count. An empty `logs` list is accepted.
   */
  method Ingest(body: Option<IngestBody>) returns (r: IngestResponse)
    ensures NoIngestData(body) ==> r == IngestFailed(400, NoDataError)
    ensures !NoIngestData(body) && body.value.logs.None? ==> r == IngestFailed(400, MissingLogsError)
    ensures body.Some? && body.value.logs.Some? ==>
              var logs := body.value.logs.value;
              && r.IngestCreated? && r.status == 201
              && r.logsCount == |logs| == |r.doc.logs|
              && (forall i :: 0 <= i < |logs| ==> r.doc.logs[i] == Normalize(logs[i]))
              && r.doc.robotId == body.value.robotId.GetOr("unknown")
              && r.doc.runNumber == body.value.runNumber.GetOr(0)
              && r.doc.metadata == body.value.metadata.GetOr(map[])
              && !r.doc.analyzed
  {
    if NoIngestData(body) {
      return IngestFailed(400, NoDataError);
    }
    var data := body.value;
    if data.logs.None? {
      return IngestFailed(400, MissingLogsError);
    }
    var processed := NormalizeLogs(data.logs.value);
    var doc := RunDoc(data.robotId.GetOr("unknown"), data.runNumber.GetOr(0), processed,
                      data.metadata.GetOr(map[]), false);
    r := IngestCreated(201, doc, |processed|);
  }

  /** A field value of a log entry or a stored document, as far as its conversion to JSON cares. */
  datatype Value =
    | ObjectIdValue(hex: string)
    | DateTimeValue(instant: int)
    | StringValue(text: string)
    | IntValue(n: int)
    | NullValue
    | OtherValue

  /**
   * Whether `serialize_doc` gets past a timestamp field: Python's
   * `"k" in doc and doc["k"]` skips a missing or falsy value and calls
   * `isoformat` on any other, which only a datetime has.
   */
  predicate TimestampField(fields: map<string, Value>, k: string)
  {
    k !in fields || fields[k].DateTimeValue? || fields[k].NullValue?
    || fields[k] == StringValue("") || fields[k] == IntValue(0)
  }

  /**
   * Python's `str` of a value: an ObjectId gives its hex text and a string
   * itself; the text of every other value is the parameter `repr`.
   */
  function Str(v: Value, repr: Value -> string): string
  {
    match v
    case ObjectIdValue(hex) => hex
    case StringValue(text) => text
    case _ => repr(v)
  }

  /** The conversion of `_id` to its text and of each present datetime to its ISO text. */
  function SerializedFields(fields: map<string, Value>, isoformat: int -> string, repr: Value -> string): map<string, Value>
    requires "_id" in fields
  {
    var withId := fields["_id" := StringValue(Str(fields["_id"], repr))];
    var withCreated :=
      if "created_at" in withId && withId["created_at"].DateTimeValue?
      then withId["created_at" := StringValue(isoformat(withId["created_at"].instant))]
      else withId;
    if "analyzed_at" in withCreated && withCreated["analyzed_at"].DateTimeValue?
    then withCreated["analyzed_at" := StringValue(isoformat(withCreated["analyzed_at"].instant))]
    else withCreated
  }

  /**
   * The conversion keeps the set of fields and every field other than the
   * three it converts; `_id` always becomes text (an ObjectId its hex, a
   * string itself), a datetime timestamp its ISO text, and any other
   * timestamp stays as it was.
   */
  lemma SerializedFieldsSpec(fields: map<string, Value>, isoformat: int -> string, repr: Value -> string, k: string)
    requires "_id" in fields
    ensures SerializedFields(fields, isoformat, repr).Keys == fields.Keys
    ensures SerializedFields(fields, isoformat, repr)["_id"].StringValue?
    ensures fields["_id"].ObjectIdValue? ==> SerializedFields(fields, isoformat, repr)["_id"] == StringValue(fields["_id"].hex)
    ensures fields["_id"].StringValue? ==> SerializedFields(fields, isoformat, repr)["_id"] == fields["_id"]
    ensures k in fields && k != "_id" && k != "created_at" && k != "analyzed_at" ==>
              SerializedFields(fields, isoformat, repr)[k] == fields[k]
    ensures "created_at" in fields && fields["created_at"].DateTimeValue? ==>
              SerializedFields(fields, isoformat, repr)["created_at"] == StringValue(isoformat(fields["created_at"].instant))
    ensures "analyzed_at" in fields && fields["analyzed_at"].DateTimeValue? ==>
              SerializedFields(fields, isoformat, repr)["analyzed_at"] == StringValue(isoformat(fields["analyzed_at"].instant))
    ensures "created_at" in fields && !fields["created_at"].DateTimeValue? ==>
              SerializedFields(fields, isoformat, repr)["created_at"] == fields["created_at"]
    ensures "analyzed_at" in fields && !fields["analyzed_at"].DateTimeValue? ==>
              SerializedFields(fields, isoformat, repr)["analyzed_at"] == fields["analyzed_at"]
  {
  }

  /** A document as read from the database, changed in place by `Serialize`. */
  class Document {
    var fields: map<string, Value>

    constructor(fields: map<string, Value>)
      ensures this.fields == fields
    {
      this.fields := fields;
    }

    /** A document `serialize_doc` converts without raising: it has an `_id`, and its timestamps are datetimes or falsy. */
    predicate Stored()
      reads this
    {
      "_id" in fields
      && TimestampField(fields, "created_at") && TimestampField(fields, "analyzed_at")
    }
  }

  /**
   * `serialize_doc`: no document gives no document; otherwise the document
   * itself is converted in place and returned.
   */
  method Serialize(doc: Document?, isoformat: int -> string, repr: Value -> string) returns (r: Document?)
    requires doc != null ==> doc.Stored()
    modifies if doc == null then {} else {doc}
    ensures r == doc
    ensures doc != null ==> doc.fields == SerializedFields(old(doc.fields), isoformat, repr)
  {
    if doc == null {
      return null;
    }
    doc.fields := doc.fields["_id" := StringValue(Str(doc.fields["_id"], repr))];
    if "created_at" in doc.fields && doc.fields["created_at"].DateTimeValue? {
      doc.fields := doc.fields["created_at" := StringValue(isoformat(doc.fields["created_at"].instant))];
    }
    if "analyzed_at" in doc.fields && doc.fields["analyzed_at"].DateTimeValue? {
      doc.fields := doc.fields["analyzed_at" := StringValue(isoformat(doc.fields["analyzed_at"].instant))];
    }
    r := doc;
  }

  /** `serialize_doc(None)` is `None`, whatever the conversion of datetimes. */
  method SerializeNothing(isoformat: int -> string, repr: Value -> string) returns (r: Document?)
    ensures r == null
  {
    r := Serialize(null, isoformat, repr);
  }
}
