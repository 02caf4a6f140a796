/**
 * The decision logic of the 1C integration service: repairing its configuration,
 * renaming fields for a document type, and deciding whether and what to send.
 * The HTTP send itself is an oracle `send`: what `SendDocument` would answer for a
 * given document.
 */
module OnecService {
  import opened Optional
  import opened JsonValue
  import opened OnecClient

  /** How one document type is mapped (`DocumentTypeConfig`): source field name to 1C field name. */
  datatype DocumentTypeConfig = DocumentTypeConfig(targetObject: string, fields: map<string, string>)

  /** The outcome reported for one payload (`IntegrationResult`). */
  datatype IntegrationResult = IntegrationResult(success: bool, documentID: string, oneCRef: string, errorMessage: string)

  /** What `SendDocument` returns: an error, or the response 1C gave. */
  datatype SendOutcome = SendFailed(error: string) | Delivered(response: OneCResponse)

  /** The field that names the 1C object a mapped document is created as. */
  const TargetObjectKey: string := "_target_object"

  /** "Integration disabled". */
  const DisabledMessage: string := "Интеграция отключена"
  /** "Data prepared, auto-send disabled". */
  const NotSentMessage: string := "Данные подготовлены, автоотправка отключена"
  /** "Integration with 1C disabled", reported by a manual send. */
  const ManualDisabledMessage: string := "Интеграция с 1С отключена"
  /** The error a manual send returns when the integration is disabled. */
  const ManualDisabledError: string := "интеграция отключена"

  /** The integration settings (`IntegrationConfig`, with its embedded `OneCConfig`), shared by pointer. */
  class IntegrationConfig {
    var baseURL: string
    var username: string
    var password: string
    var timeout: int
    var enabled: bool
    var autoSend: bool
    /** None is Go's nil map. */
    var mapping: Option<map<string, DocumentTypeConfig>>

    constructor (baseURL: string, username: string, password: string, timeout: int,
                 enabled: bool, autoSend: bool, mapping: Option<map<string, DocumentTypeConfig>>)
      ensures this.baseURL == baseURL && this.username == username && this.password == password
      ensures this.timeout == timeout && this.enabled == enabled && this.autoSend == autoSend
      ensures this.mapping == mapping
    {
      this.baseURL, this.username, this.password := baseURL, username, password;
      this.timeout, this.enabled, this.autoSend, this.mapping := timeout, enabled, autoSend, mapping;
    }

    /** The mapping as lookups see it: a nil map has no keys. */
    function Mapping(): map<string, DocumentTypeConfig>
      reads this
    {
      if mapping.Some? then mapping.value else map[]
    }

    /** What `setDefaults` guarantees: a timeout, a mapping, and no enabled integration without credentials. */
    predicate Defaulted()
      reads this
    {
      && timeout != 0
      && mapping.Some?
      && (enabled ==> baseURL != "" && username != "" && password != "")
    }
  }

  /** `setDefaults`: fills in the timeout and the mapping, and disables an integration without credentials. */
  method SetDefaults(config: IntegrationConfig)
    modifies config
    ensures config.timeout == if old(config.timeout) == 0 then DefaultTimeout else old(config.timeout)
    ensures config.mapping == if old(config.mapping).None? then Some(map[]) else old(config.mapping)
    ensures config.enabled == (old(config.enabled) && config.baseURL != "" && config.username != "" && config.password != "")
    ensures config.baseURL == old(config.baseURL) && config.username == old(config.username)
    ensures config.password == old(config.password) && config.autoSend == old(config.autoSend)
    ensures config.Defaulted()
    ensures old(config.Defaulted()) ==> unchanged(config)
  {
    if config.timeout == 0 {
      config.timeout := DefaultTimeout;
    }
    if config.mapping.None? {
      config.mapping := Some(map[]);
    }
    if config.baseURL == "" || config.username == "" || config.password == "" {
      if config.enabled {
        config.enabled := false;
      }
    }
  }

  /** The names the mapped source fields that are present are renamed to. */
  function MappedTargets(fields: map<string, Json>, tc: DocumentTypeConfig): set<string> {
    set s | s in tc.fields && s in fields :: tc.fields[s]
  }

  /** The present fields the mapping does not mention. */
  function Unmapped(fields: map<string, Json>, tc: DocumentTypeConfig): set<string> {
    set k | k in fields && k !in tc.fields
  }

  /**
   * What `applyFieldMapping` may produce from `fields`. Its keys are the target names of
   * the present mapped fields, the unmapped fields and `_target_object`. `_target_object`
   * names the target object, an unmapped field keeps its value, and any other key holds
   * the value of some present source field renamed to it. When two sources share a target,
   * which value wins depends on Go's map order.
   */
  ghost predicate IsFieldMapping(fields: map<string, Json>, tc: DocumentTypeConfig, mapped: map<string, Json>) {
    && mapped.Keys == MappedTargets(fields, tc) + Unmapped(fields, tc) + {TargetObjectKey}
    && mapped[TargetObjectKey] == JString(tc.targetObject)
    && (forall k :: k in fields && k !in tc.fields && k != TargetObjectKey ==> mapped[k] == fields[k])
    && (forall t :: t in mapped && t != TargetObjectKey && t !in Unmapped(fields, tc) ==>
          exists s :: s in tc.fields && s in fields && tc.fields[s] == t && mapped[t] == fields[s])
  }

  /**
   * When the mapping renames the present fields to distinct names that collide neither with
   * an unmapped field nor with `_target_object`, every present mapped field appears under
   * its new name with its value.
   */
  lemma MappingWithoutClashes(fields: map<string, Json>, tc: DocumentTypeConfig, mapped: map<string, Json>)
    requires IsFieldMapping(fields, tc, mapped)
    requires forall s1, s2 :: s1 in tc.fields && s1 in fields && s2 in tc.fields && s2 in fields && s1 != s2 ==>
               tc.fields[s1] != tc.fields[s2]
    requires forall s :: s in tc.fields && s in fields ==>
               tc.fields[s] != TargetObjectKey && tc.fields[s] !in Unmapped(fields, tc)
    ensures forall s :: s in tc.fields && s in fields ==> tc.fields[s] in mapped && mapped[tc.fields[s]] == fields[s]
  {
    forall s | s in tc.fields && s in fields
      ensures tc.fields[s] in mapped && mapped[tc.fields[s]] == fields[s]
    {
      var t := tc.fields[s];
      assert t in MappedTargets(fields, tc);
      var s' :| s' in tc.fields && s' in fields && tc.fields[s'] == t && mapped[t] == fields[s'];
    }
  }

  /**
   * After the renaming loop has visited every source but `sources`: `mf` holds the targets
   * of the visited sources present in `fields`, each with the value of one of them.
   */
  ghost predicate SourcesRenamed(fields: map<string, Json>, tc: DocumentTypeConfig,
                                 sources: set<string>, mf: map<string, Json>) {
    && sources <= tc.fields.Keys
    && mf.Keys == (set s | s in tc.fields && s !in sources && s in fields :: tc.fields[s])
    && forall t :: t in mf ==>
         exists s :: s in tc.fields && s !in sources && s in fields && tc.fields[s] == t && mf[t] == fields[s]
  }

  /** Visiting one more source keeps `SourcesRenamed`. */
  lemma RenameStep(fields: map<string, Json>, tc: DocumentTypeConfig, sources: set<string>,
                   mf: map<string, Json>, src: string)
    requires SourcesRenamed(fields, tc, sources, mf) && src in sources
    ensures SourcesRenamed(fields, tc, sources - {src},
                           if src in fields then mf[tc.fields[src] := fields[src]] else mf)
  {
    var rest := sources - {src};
    if src in fields {
      var mf' := mf[tc.fields[src] := fields[src]];
      forall t | t in mf'
        ensures exists s :: s in tc.fields && s !in rest && s in fields && tc.fields[s] == t && mf'[t] == fields[s]
      {
        if t == tc.fields[src] {
          assert src in tc.fields && src !in rest && src in fields && tc.fields[src] == t && mf'[t] == fields[src];
        } else {
          var s :| s in tc.fields && s !in sources && s in fields && tc.fields[s] == t && mf[t] == fields[s];
          assert s !in rest && mf'[t] == fields[s];
        }
      }
    }
  }

  /**
   * After the copying loop has visited every field but `keys`: `mf` holds the mapped targets
   * and the visited unmapped fields, those with their own values and the others with the
   * value of a source renamed to them.
   */
  ghost predicate UnmappedCopied(fields: map<string, Json>, tc: DocumentTypeConfig,
                                 keys: set<string>, mf: map<string, Json>) {
    && keys <= fields.Keys
    && mf.Keys == MappedTargets(fields, tc) + (Unmapped(fields, tc) - keys)
    && (forall k :: k in Unmapped(fields, tc) && k !in keys ==> mf[k] == fields[k])
    && forall t :: t in mf && !(t in Unmapped(fields, tc) && t !in keys) ==>
         exists s :: s in tc.fields && s in fields && tc.fields[s] == t && mf[t] == fields[s]
  }

  /** The renaming loop's result is where the copying loop starts. */
  lemma RenamedAll(fields: map<string, Json>, tc: DocumentTypeConfig, mf: map<string, Json>)
    requires SourcesRenamed(fields, tc, {}, mf)
    ensures UnmappedCopied(fields, tc, fields.Keys, mf)
  {
    assert mf.Keys == MappedTargets(fields, tc);
  }

  /** Visiting one more field keeps `UnmappedCopied`. */
  lemma CopyStep(fields: map<string, Json>, tc: DocumentTypeConfig, keys: set<string>,
                 mf: map<string, Json>, key: string)
    requires UnmappedCopied(fields, tc, keys, mf) && key in keys
    ensures UnmappedCopied(fields, tc, keys - {key},
                           if key !in tc.fields then mf[key := fields[key]] else mf)
  {
    var rest := keys - {key};
    var mf' := if key !in tc.fields then mf[key := fields[key]] else mf;
    forall t | t in mf' && !(t in Unmapped(fields, tc) && t !in rest)
      ensures exists s :: s in tc.fields && s in fields && tc.fields[s] == t && mf'[t] == fields[s]
    {
      assert t != key || key in tc.fields;
      var s :| s in tc.fields && s in fields && tc.fields[s] == t && mf[t] == fields[s];
      assert mf'[t] == fields[s];
    }
  }

  /** Recording the target object after both loops yields a field mapping. */
  lemma CopiedAll(fields: map<string, Json>, tc: DocumentTypeConfig, mf: map<string, Json>)
    requires UnmappedCopied(fields, tc, {}, mf)
    ensures IsFieldMapping(fields, tc, mf[TargetObjectKey := JString(tc.targetObject)])
  {
  }

  /** The document that is sent: renamed when its type has a mapping, else the parsed one as it is. */
  ghost predicate Prepared(parsed: DocumentData, mapping: map<string, DocumentTypeConfig>, doc: DocumentData) {
    if parsed.documentType in mapping then
      doc == parsed.(fields := doc.fields) && IsFieldMapping(parsed.fields, mapping[parsed.documentType], doc.fields)
    else
      doc == parsed
  }

  /**
   * What `ProcessN8nResponse` may return for `data`: `sent` is the document handed to
   * `SendDocument`, if any, and `send` says how 1C answers a document.
   */
  ghost predicate ProcessOutcome(enabled: bool, mapping: map<string, DocumentTypeConfig>, autoSend: bool,
                                 data: Object, freshId: string, now: int, send: DocumentData -> SendOutcome,
                                 result: IntegrationResult, err: Option<string>, sent: Option<DocumentData>)
  {
    if !enabled then
      result == IntegrationResult(true, "", "", DisabledMessage) && err == None && sent == None
    else
      var parsed := ParsedDocument(data, freshId, now);
      if !autoSend then
        result == IntegrationResult(true, parsed.id, "", NotSentMessage) && err == None && sent == None
      else
        && sent.Some?
        && Prepared(parsed, mapping, sent.value)
        && match send(sent.value)
           case SendFailed(e) =>
             result == IntegrationResult(false, parsed.id, "", e) && err == Some(e)
           case Delivered(response) =>
             && err == None
             && result == if response.success then IntegrationResult(true, parsed.id, response.reference, "")
                          else IntegrationResult(false, parsed.id, "", response.error)
  }

  /** The integration service (`OneCService`); its client only sends, so it is the oracle here. */
  class OneCService {
    var config: IntegrationConfig
    var enabled: bool

    /** The service value `NewOneCService` returns once the connection test has decided `enabled`. */
    constructor (config: IntegrationConfig, enabled: bool)
      ensures this.config == config && this.enabled == enabled
    {
      this.config := config;
      this.enabled := enabled;
    }

    /** `IsEnabled`. */
    function IsEnabled(): (on: bool)
      reads this
      ensures on <==> enabled
    {
      enabled
    }

    /**
     * `applyFieldMapping`: renames the mapped fields that are present, copies the unmapped
     * ones, then records the target object.
     */
    method ApplyFieldMapping(docData: DocumentData, typeConfig: DocumentTypeConfig) returns (mapped: DocumentData)
      ensures mapped == docData.(fields := mapped.fields)
      ensures IsFieldMapping(docData.fields, typeConfig, mapped.fields)
    {
      var fields := docData.fields;
      var mappedFields: map<string, Json> := map[];
      var sources := typeConfig.fields.Keys;
      while sources != {}
        invariant SourcesRenamed(fields, typeConfig, sources, mappedFields)
        decreases sources
      {
        var sourceField :| sourceField in sources;
        RenameStep(fields, typeConfig, sources, mappedFields, sourceField);
        if sourceField in fields {
          mappedFields := mappedFields[typeConfig.fields[sourceField] := fields[sourceField]];
        }
        sources := sources - {sourceField};
      }
      RenamedAll(fields, typeConfig, mappedFields);
      var keys := fields.Keys;
      while keys != {}
        invariant UnmappedCopied(fields, typeConfig, keys, mappedFields)
        decreases keys
      {
        var key :| key in keys;
        CopyStep(fields, typeConfig, keys, mappedFields, key);
        if key !in typeConfig.fields {
          mappedFields := mappedFields[key := fields[key]];
        }
        keys := keys - {key};
      }
      CopiedAll(fields, typeConfig, mappedFields);
      mappedFields := mappedFields[TargetObjectKey := JString(typeConfig.targetObject)];
      mapped := docData.(fields := mappedFields);
    }

    /**
     * `ProcessN8nResponse`: nothing happens when the integration is disabled; otherwise the
     * payload is parsed (with `freshId` and `now` for the generated id and the clock), mapped
     * when its type has a mapping, and sent only when auto-send is on.
     */
    method ProcessN8nResponse(n8nData: Object, freshId: string, now: int, send: DocumentData -> SendOutcome)
      returns (result: IntegrationResult, err: Option<string>, sent: Option<DocumentData>)
      ensures ProcessOutcome(enabled, config.Mapping(), config.autoSend, n8nData, freshId, now, send, result, err, sent)
      ensures !enabled ==> result.success && err == None && sent == None
      ensures enabled ==> result.documentID == ParsedDocument(n8nData, freshId, now).id
      ensures sent.Some? <==> enabled && config.autoSend
      ensures err.Some? ==> !result.success
    {
      result := IntegrationResult(false, "", "", "");
      err, sent := None, None;
      if !enabled {
        result := result.(success := true, errorMessage := DisabledMessage);
        return;
      }
      var docData := ParseN8nResponse(n8nData, freshId, now);
      result := result.(documentID := docData.id);
      var mapping := config.Mapping();
      if docData.documentType in mapping {
        docData := ApplyFieldMapping(docData, mapping[docData.documentType]);
      }
      if !config.autoSend {
        result := result.(success := true, errorMessage := NotSentMessage);
        return;
      }
      sent := Some(docData);
      match send(docData) {
        case SendFailed(e) =>
          result := result.(errorMessage := e);
          err := Some(e);
        case Delivered(response) =>
          if response.success {
            result := result.(success := true, oneCRef := response.reference);
          } else {
            result := result.(errorMessage := response.error);
          }
      }
    }

    /**
     * `SendManually`: refused when the integration is disabled; otherwise processes the
     * payload as if auto-send were on and then restores the configured auto-send flag.
     * `documentID` is reported only on the refusal.
     */
    method SendManually(documentID: string, n8nData: Object, freshId: string, now: int,
                        send: DocumentData -> SendOutcome)
      returns (result: IntegrationResult, err: Option<string>, sent: Option<DocumentData>)
      modifies config
      ensures unchanged(config)
      ensures !enabled ==>
                result == IntegrationResult(false, documentID, "", ManualDisabledMessage)
                && err == Some(ManualDisabledError) && sent == None
      ensures enabled ==>
                ProcessOutcome(true, config.Mapping(), true, n8nData, freshId, now, send, result, err, sent)
    {
      if !enabled {
        return IntegrationResult(false, documentID, "", ManualDisabledMessage), Some(ManualDisabledError), None;
      }
      var originalAutoSend := config.autoSend;
      config.autoSend := true;
      result, err, sent := ProcessN8nResponse(n8nData, freshId, now, send);
      config.autoSend := originalAutoSend;
    }
  }
}
