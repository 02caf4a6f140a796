/**
 * The two HTTP handlers around the result history, stripped of their transport:
 * `handleN8nWebhook` (normalise one callback, append it) and the single-post
 * scenario its test drives. The results endpoint is `ResultStore.Snapshot`.
 */
module Handlers {
  import opened Optional
  import opened JsonValue
  import opened Webhook
  import opened Store

  const StatusOK: int := 200
  const StatusBadRequest: int := 400
  const StatusMethodNotAllowed: int := 405

  /**
   * One webhook request. `body` is None when reading the request body failed;
   * `decoded` is what `json.Unmarshal` made of it; `id` and `timestamp` are the
   * generated identifier and the clock reading given to the new record.
   */
  method HandleN8nWebhook(store: ResultStore, httpMethod: string, body: Option<string>,
                          decoded: Option<Object>, id: string, timestamp: int, r: Renderer)
    returns (code: int, ghost order: seq<string>)
    modifies store
    ensures code == (if httpMethod != "POST" then StatusMethodNotAllowed
                     else if body.None? then StatusBadRequest
                     else StatusOK)
    ensures code != StatusOK ==> store.responses == old(store.responses)
    ensures code == StatusOK ==>
              && ValidOrder(decoded, order)
              && (decoded.Some? ==> AllIn(order, decoded.value))
              && store.responses == KeepNewest(old(store.responses) + [Record(id,
                   StoredText(ChosenText(body.value, decoded, order, r)), timestamp, StatusOf(decoded))],
                   store.maxResponses)
    ensures code == StatusOK ==> store.Valid()
  {
    order := [];
    if httpMethod != "POST" {
      return StatusMethodNotAllowed, order;
    }
    if body.None? {
      return StatusBadRequest, order;
    }
    var text, status;
    text, status, order := NormalizeWebhook(body.value, decoded, r);
    store.Append(Record(id, text, timestamp, status));
    code := StatusOK;
  }

  /** The text the handler test sends. */
  const TestText: string := "Обработанный текст документа"

  /** The payload the handler test posts. */
  function TestPayload(): Object {
    map["id" := JString("test-webhook-id"), "text" := JString(TestText), "status" := JString("completed")]
  }

  /**
   * The test payload carries a usable text, its text, and its own status `"completed"`,
   * which happens to equal the default status.
   */
  lemma TestPayloadFields()
    ensures NonEmptyString(TestPayload(), "text") && TestPayload()["text"].s == TestText
    ensures StatusOf(Some(TestPayload())) == DefaultStatus
  {
    var m := TestPayload();
    assert m["text"] == JString(TestText) && m["status"] == JString(DefaultStatus);
  }

  /**
   * A store of capacity 20 that receives one POST of a payload with a non-empty `text`
   * holds exactly one record afterwards: that text, the payload's status, and the
   * generated id rather than any id in the payload.
   */
  method PostToEmptyStore(body: string, payload: Object, id: string, timestamp: int, r: Renderer)
    returns (code: int, stored: seq<Record>)
    requires NonEmptyString(payload, "text")
    ensures code == StatusOK
    ensures stored == [Record(id, payload["text"].s, timestamp, StatusOf(Some(payload)))]
  {
    var store := new ResultStore(20);
    ghost var order;
    code, order := HandleN8nWebhook(store, "POST", Some(body), Some(payload), id, timestamp, r);
    assert [] + [Record(id, payload["text"].s, timestamp, StatusOf(Some(payload)))]
        == [Record(id, payload["text"].s, timestamp, StatusOf(Some(payload)))];
    var data := store.Snapshot();
    stored := data[..];
  }

  /**
   * The handler test: one POST of `{"id": "test-webhook-id", "text": ..., "status":
   * "completed"}` to an empty store leaves exactly one record, with that text, status
   * "completed" and the generated id.
   */
  method PostValidPayloadToEmptyStore(id: string, timestamp: int, r: Renderer)
    returns (code: int, stored: seq<Record>)
    ensures code == StatusOK
    ensures |stored| == 1
    ensures stored[0] == Record(id, TestText, timestamp, DefaultStatus)
  {
    var body := "{\"id\":\"test-webhook-id\",\"status\":\"completed\",\"text\":\"" + TestText + "\"}";
    TestPayloadFields();
    code, stored := PostToEmptyStore(body, TestPayload(), id, timestamp, r);
  }
}
