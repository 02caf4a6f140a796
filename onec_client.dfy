/**
 * The pure half of the 1C client: building the client from its configuration and
 * turning an automation payload into the document that is sent to 1C.
 */
module OnecClient {
  import opened JsonValue

  /** Connection settings (`OneCConfig`); `timeout` is in seconds. */
  datatype OneCConfig = OneCConfig(baseURL: string, username: string, password: string, timeout: int)

  /** The client (`OneCClient`); `timeoutSeconds` is the timeout its HTTP client is given. */
  datatype OneCClient = OneCClient(baseURL: string, username: string, password: string, timeoutSeconds: int)

  /** Document metadata (`DocumentMetadata`), without its floating-point fields. */
  datatype DocumentMetadata = DocumentMetadata(originalName: string, processedBy: string)

  /** The document sent to 1C (`DocumentData`); `createdAt` is a clock reading. */
  datatype DocumentData = DocumentData(
    id: string,
    documentType: string,
    createdAt: int,
    fields: map<string, Json>,
    metadata: DocumentMetadata)

  /** The answer 1C gives to a document (`OneCResponse`). */
  datatype OneCResponse = OneCResponse(success: bool, message: string, reference: string, error: string)

  const DefaultTimeout: int := 30
  const Unknown: string := "unknown"
  const ProcessedBy: string := "Document AI"

  /** The top-level payload keys copied into the fields as they are, whatever their type. */
  const ExtraKeys: set<string> := {"dates", "amounts", "contacts"}

  /** `NewOneCClient`: credentials copied, timeout the configured one when positive, else 30 s. */
  function NewOneCClient(config: OneCConfig): (c: OneCClient)
    ensures c.baseURL == config.baseURL && c.username == config.username && c.password == config.password
    ensures c.timeoutSeconds > 0
    ensures config.timeout > 0 <==> c.timeoutSeconds == config.timeout
    ensures config.timeout <= 0 ==> c.timeoutSeconds == DefaultTimeout
  {
    OneCClient(config.baseURL, config.username, config.password,
               if config.timeout > 0 then config.timeout else DefaultTimeout)
  }

  /** `getStringValue`: the string under `key` when there is one, else `default`. */
  function GetStringValue(data: Object, key: string, default: string): (v: string)
    ensures HasString(data, key) ==> v == data[key].s
    ensures !HasString(data, key) ==> v == default
  {
    if HasString(data, key) then data[key].s else default
  }

  /** The payload's `extracted_data` when it is an object, else nothing. */
  function ExtractedData(data: Object): Object {
    if "extracted_data" in data && data["extracted_data"].JObject? then data["extracted_data"].fields
    else map[]
  }

  /** `fields[key] = data[key]` when the payload has `key`, whatever its value. */
  function WithExtra(f: map<string, Json>, data: Object, key: string): map<string, Json> {
    if key in data then f[key := data[key]] else f
  }

  /**
   * The fields `ParseN8nResponse` collects: every entry of an object-valued
   * `extracted_data`, overridden by the top-level `dates`, `amounts` and `contacts`
   * whenever these are present, and nothing else.
   */
  function ParsedFields(data: Object): (f: map<string, Json>)
    ensures f.Keys == ExtractedData(data).Keys + (ExtraKeys * data.Keys)
    ensures forall k :: k in ExtraKeys && k in data ==> f[k] == data[k]
    ensures forall k :: k in ExtractedData(data) && !(k in ExtraKeys && k in data) ==> f[k] == ExtractedData(data)[k]
  {
    WithExtra(WithExtra(WithExtra(ExtractedData(data), data, "dates"), data, "amounts"), data, "contacts")
  }

  /**
   * The document `ParseN8nResponse` builds. `freshId` stands for `generateID()` and
   * `now` for `time.Now()`.
   */
  function ParsedDocument(data: Object, freshId: string, now: int): (d: DocumentData)
    ensures d.id == if HasString(data, "id") then data["id"].s else freshId
    ensures d.documentType == if HasString(data, "document_type") then data["document_type"].s else Unknown
    ensures d.createdAt == now
    ensures d.fields == ParsedFields(data)
    ensures d.metadata.originalName == if HasString(data, "original_name") then data["original_name"].s else Unknown
    ensures d.metadata.processedBy == ProcessedBy
  {
    DocumentData(
      GetStringValue(data, "id", freshId),
      GetStringValue(data, "document_type", Unknown),
      now,
      ParsedFields(data),
      DocumentMetadata(GetStringValue(data, "original_name", Unknown), ProcessedBy))
  }

  /** `ParseN8nResponse`: copies `extracted_data` entry by entry, then adds the extra keys. */
  method ParseN8nResponse(n8nData: Object, freshId: string, now: int) returns (doc: DocumentData)
    ensures doc == ParsedDocument(n8nData, freshId, now)
  {
    var documentType := GetStringValue(n8nData, "document_type", Unknown);
    var fields: map<string, Json> := map[];
    if "extracted_data" in n8nData && n8nData["extracted_data"].JObject? {
      var extracted := n8nData["extracted_data"].fields;
      var remaining := extracted.Keys;
      while remaining != {}
        invariant remaining <= extracted.Keys
        invariant fields == map k | k in extracted && k !in remaining :: extracted[k]
        decreases remaining
      {
        var key :| key in remaining;
        fields := fields[key := extracted[key]];
        remaining := remaining - {key};
      }
      assert fields == extracted;
    }
    if "dates" in n8nData {
      fields := fields["dates" := n8nData["dates"]];
    }
    if "amounts" in n8nData {
      fields := fields["amounts" := n8nData["amounts"]];
    }
    if "contacts" in n8nData {
      fields := fields["contacts" := n8nData["contacts"]];
    }
    var metadata := DocumentMetadata(GetStringValue(n8nData, "original_name", Unknown), ProcessedBy);
    doc := DocumentData(GetStringValue(n8nData, "id", freshId), documentType, now, fields, metadata);
  }
}
