/** The fal.ai webhook route (`POST /api/webhooks/fal`): it dispatches on the job status a
    notification carries and, for a completed job, rehosts the payload's media the way
    `processAndStoreResult` does, with three differences: an item qualifies only when its `url` is a
    string, a stored item is also marked `webhook_processed: true`, and blob names start with
    `webhook_`. The route's own `getFileExtension` is the same eleven-row table as the library's. */
module FalWebhook {
  import opened Options
  import opened JsText
  import opened JsValue
  import opened FalUtils

  // ---------------------------------------------------------------------------------------------
  // Storing one media file.

  /** The blob name `storeWebhookMediaFile` builds: `webhook_` followed by the library's name. */
  function WebhookFilename(modelName: string, requestId: string, fieldName: string, now: nat, extension: string): string {
    "webhook_" + Filename(modelName, requestId, fieldName, now, extension)
  }

  /** Webhook blob names carry the `webhook_` prefix, keep the slash-free model name right after
      it, and end with the extension. */
  lemma WebhookFilenameShape(modelName: string, requestId: string, fieldName: string, now: nat, extension: string)
    ensures var f := WebhookFilename(modelName, requestId, fieldName, now, extension);
      StartsWith(f, "webhook_") &&
      StartsWith(f[|"webhook_"|..], ReplaceChar(modelName, '/', '-')) &&
      EndsWith(f, "." + extension)
  {
    var g := Filename(modelName, requestId, fieldName, now, extension);
    FilenameShape(modelName, requestId, fieldName, now, extension);
    assert WebhookFilename(modelName, requestId, fieldName, now, extension)[|"webhook_"|..] == g;
  }

  /** `storeWebhookMediaFile`, with the model name and request id as the handler has them (any
      value): the blob url of the stored copy, or `url` itself when the fetch throws, the response
      is not ok, the model name is not a string (so that `modelName.replace` throws inside the
      `try`), or the upload throws. The request id enters the name as `String(requestId)`. */
  function StoreWebhookMediaFile(st: Storage, show: Json -> string, url: string, modelName: Json, requestId: Json, fieldName: string): string {
    match st.fetch(JStr(url))
    case FetchThrew => url
    case Response(ok, header) =>
      if !ok || !modelName.JStr? then url
      else
        var contentType := ContentType(header);
        var filename := WebhookFilename(modelName.s, Str(show, requestId), fieldName, st.now, GetFileExtension(contentType));
        match st.put(filename, contentType)
        case Some(blobUrl) => blobUrl
        case None => url
  }

  /** The stored url is the original one unless the fetch succeeded, the model name is a string,
      and the upload of the `webhook_` blob, under the content type the response announced, gave
      back that url; when all three succeed, it is the url the upload gave back. */
  lemma StoreWebhookFallback(st: Storage, show: Json -> string, url: string, modelName: Json, requestId: Json, fieldName: string)
    ensures var r := StoreWebhookMediaFile(st, show, url, modelName, requestId, fieldName);
      var fetched := st.fetch(JStr(url));
      (fetched.FetchThrew? || !fetched.ok || !modelName.JStr? ==> r == url) &&
      (r != url ==>
        fetched.Response? && fetched.ok && modelName.JStr? &&
        var contentType := ContentType(fetched.contentTypeHeader);
        var name := WebhookFilename(modelName.s, Str(show, requestId), fieldName, st.now, GetFileExtension(contentType));
        StartsWith(name, "webhook_") && st.put(name, contentType) == Some(r)) &&
      (fetched.Response? && fetched.ok && modelName.JStr? ==>
        var contentType := ContentType(fetched.contentTypeHeader);
        var name := WebhookFilename(modelName.s, Str(show, requestId), fieldName, st.now, GetFileExtension(contentType));
        st.put(name, contentType).Some? ==> r == st.put(name, contentType).value)
  {
    var fetched := st.fetch(JStr(url));
    if fetched.Response? && fetched.ok && modelName.JStr? {
      var contentType := ContentType(fetched.contentTypeHeader);
      WebhookFilenameShape(modelName.s, Str(show, requestId), fieldName, st.now, GetFileExtension(contentType));
    }
  }

  // ---------------------------------------------------------------------------------------------
  // Normalising the payload's media fields.

  /** `item && typeof item === "object" && item.url && typeof item.url === "string"`: an object
      whose `url` is a non-empty string. */
  predicate HasStringUrl(item: Json) {
    Truthy(item) && TypeOf(item) == "object" && Truthy(Member(item, "url")) && Member(item, "url").JStr?
  }

  /** One media item after storing: `{...item, original_url, stored_url, webhook_processed: true}`
      for an item with a string `url`, the item itself otherwise. */
  function WebhookItem(st: Storage, show: Json -> string, item: Json, modelName: Json, requestId: Json, fieldName: string): Json {
    if HasStringUrl(item) then
      var url := Member(item, "url").s;
      var storedUrl := StoreWebhookMediaFile(st, show, url, modelName, requestId, fieldName);
      JObj(Put(Put(Put(Spread(item), "original_url", JStr(url)), "stored_url", JStr(storedUrl)), "webhook_processed", JBool(true)))
    else item
  }

  /** An item without a string `url` is returned as it is. An item with one is an object that keeps
      its properties, in order, and gains `original_url` (the url), `stored_url` (what storing
      returned) and `webhook_processed: true`. */
  lemma WebhookItemShape(st: Storage, show: Json -> string, item: Json, modelName: Json, requestId: Json, fieldName: string)
    ensures var r := WebhookItem(st, show, item, modelName, requestId, fieldName);
      (!HasStringUrl(item) ==> r == item) &&
      (HasStringUrl(item) ==>
        var url := Member(item, "url").s;
        item.JObj? && r.JObj? &&
        Get(r.fields, "original_url") == JStr(url) &&
        Get(r.fields, "stored_url") == JStr(StoreWebhookMediaFile(st, show, url, modelName, requestId, fieldName)) &&
        Get(r.fields, "webhook_processed") == JBool(true) &&
        (forall k :: k != "original_url" && k != "stored_url" && k != "webhook_processed" ==>
           Get(r.fields, k) == Get(item.fields, k)) &&
        |Keys(r.fields)| >= |Keys(item.fields)| && Keys(r.fields)[..|Keys(item.fields)|] == Keys(item.fields))
  {
    if HasStringUrl(item) {
      var url := Member(item, "url").s;
      var storedUrl := StoreWebhookMediaFile(st, show, url, modelName, requestId, fieldName);
      assert Spread(item) == item.fields;
      PutThrice(item.fields, "original_url", JStr(url), "stored_url", JStr(storedUrl), "webhook_processed", JBool(true));
    }
  }

  /** The `Promise.all` over an array field: one item per item, in order, the `index`-th stored under
      `field_index`. */
  function WebhookItems(st: Storage, show: Json -> string, items: seq<Json>, field: string, modelName: Json, requestId: Json): (r: seq<Json>)
    ensures |r| == |items|
    ensures forall i :: 0 <= i < |items| ==> r[i] == WebhookItem(st, show, items[i], modelName, requestId, FieldName(field, i))
  {
    seq(|items|, i requires 0 <= i < |items| => WebhookItem(st, show, items[i], modelName, requestId, FieldName(field, i)))
  }

  /** One iteration of `processWebhookPayload`'s loop, on the copied payload `fs`. */
  function WebhookField(st: Storage, show: Json -> string, fs: Fields, field: string, modelName: Json, requestId: Json): Fields {
    var value := Get(fs, field);
    if !Truthy(value) then fs
    else if value.JArr? then Put(fs, field, JArr(WebhookItems(st, show, value.items, field, modelName, requestId)))
    else if HasStringUrl(value) then Put(fs, field, WebhookItem(st, show, value, modelName, requestId, field))
    else fs
  }

  /** That iteration as a step of the fold over the media fields. */
  function WebhookStep(st: Storage, show: Json -> string, modelName: Json, requestId: Json): (Fields, string) -> Fields {
    (fs: Fields, field: string) => WebhookField(st, show, fs, field, modelName, requestId)
  }

  /** `metadata?.model || "unknown"`. */
  function ModelNameOf(metadata: Json): Json {
    Or(Member(metadata, "model"), JStr("unknown"))
  }

  /** `metadata?.request_id || "unknown"`. */
  function RequestIdOf(metadata: Json): Json {
    Or(Member(metadata, "request_id"), JStr("unknown"))
  }

  /** The `webhook_metadata` object appended to the payload; `processedAt` is the ISO rendering of
      the clock. */
  function WebhookMetadata(processedAt: string, modelName: Json, requestId: Json): Json {
    JObj([("processed_at", JStr(processedAt)), ("model", modelName), ("request_id", requestId)])
  }

  /** The payload `processWebhookPayload` returns, described by the fold. */
  function ProcessedPayload(st: Storage, show: Json -> string, processedAt: string, payload: Json, metadata: Json): Fields {
    var modelName := ModelNameOf(metadata);
    var requestId := RequestIdOf(metadata);
    var processed := FoldFields(WebhookStep(st, show, modelName, requestId), MediaFields, Spread(payload), |MediaFields|);
    Put(processed, "webhook_metadata", WebhookMetadata(processedAt, modelName, requestId))
  }

  /** `processWebhookPayload`. It never throws: storing catches every failure. */
  method ProcessWebhookPayload(st: Storage, show: Json -> string, processedAt: string, payload: Json, metadata: Json)
    returns (result: Fields)
    ensures result == ProcessedPayload(st, show, processedAt, payload, metadata)
  {
    var processedPayload := Spread(payload);
    var modelName := Or(Member(metadata, "model"), JStr("unknown"));
    var requestId := Or(Member(metadata, "request_id"), JStr("unknown"));
    ghost var step := WebhookStep(st, show, modelName, requestId);

    for i := 0 to |MediaFields|
      invariant processedPayload == FoldFields(step, MediaFields, Spread(payload), i)
    {
      ghost var before := processedPayload;
      var field := MediaFields[i];
      var value := Get(processedPayload, field);
      if Truthy(value) {
        if value.JArr? {
          processedPayload := Put(processedPayload, field, JArr(WebhookItems(st, show, value.items, field, Or(modelName, JStr("unknown")), Or(requestId, JStr("unknown")))));
        } else if Truthy(value) && TypeOf(value) == "object" && Truthy(Member(value, "url")) && Member(value, "url").JStr? {
          var url := Member(value, "url").s;
          var storedUrl := StoreWebhookMediaFile(st, show, url, Or(modelName, JStr("unknown")), Or(requestId, JStr("unknown")), field);
          processedPayload := Put(processedPayload, field,
            JObj(Put(Put(Put(Spread(value), "original_url", JStr(url)), "stored_url", JStr(storedUrl)), "webhook_processed", JBool(true))));
        }
      }
      assert processedPayload == WebhookField(st, show, before, field, modelName, requestId);
    }

    result := Put(processedPayload, "webhook_metadata",
      JObj([("processed_at", JStr(processedAt)), ("model", modelName), ("request_id", requestId)]));
  }

  /** What becomes of a media field's value: a falsy value stays, an array keeps its length and
      order with each item stored under `field_index`, and any other value is stored as a single
      item under `field`. */
  function WebhookFieldValue(st: Storage, show: Json -> string, value: Json, field: string, modelName: Json, requestId: Json): Json {
    if !Truthy(value) then value
    else if value.JArr? then JArr(WebhookItems(st, show, value.items, field, modelName, requestId))
    else WebhookItem(st, show, value, modelName, requestId, field)
  }

  /** The facts about one iteration: the keys and their order stay, the field gets its
      `WebhookFieldValue`, and every other field reads as before. */
  lemma WebhookFieldFacts(st: Storage, show: Json -> string, fs: Fields, field: string, modelName: Json, requestId: Json)
    ensures var r := WebhookField(st, show, fs, field, modelName, requestId);
      Keys(r) == Keys(fs) &&
      Get(r, field) == WebhookFieldValue(st, show, Get(fs, field), field, modelName, requestId) &&
      forall k :: k != field ==> Get(r, k) == Get(fs, k)
  {
    var value := Get(fs, field);
    if field !in Keys(fs) {
      GetAbsent(fs, field);
    }
    if Truthy(value) && value.JArr? {
      PutFacts(fs, field, JArr(WebhookItems(st, show, value.items, field, modelName, requestId)));
    } else if Truthy(value) && HasStringUrl(value) {
      PutFacts(fs, field, WebhookItem(st, show, value, modelName, requestId, field));
    } else if Truthy(value) {
      WebhookItemShape(st, show, value, modelName, requestId, field);
    }
  }

  lemma WebhookStepKeeps(st: Storage, show: Json -> string, modelName: Json, requestId: Json)
    ensures KeepsOthers(WebhookStep(st, show, modelName, requestId))
  {
    var step := WebhookStep(st, show, modelName, requestId);
    forall fs, field
      ensures Keys(step(fs, field)) == Keys(fs)
      ensures forall k :: k != field ==> Get(step(fs, field), k) == Get(fs, k)
    {
      WebhookFieldFacts(st, show, fs, field, modelName, requestId);
    }
  }

  /** After the loop: the payload's keys in their order, every key other than the six media
      fields as in the payload, and each media field holding its `WebhookFieldValue`. */
  lemma ProcessedMedia(st: Storage, show: Json -> string, original: Fields, modelName: Json, requestId: Json)
    ensures var r := FoldFields(WebhookStep(st, show, modelName, requestId), MediaFields, original, |MediaFields|);
      Keys(r) == Keys(original) &&
      (forall k :: k !in MediaFields ==> Get(r, k) == Get(original, k)) &&
      forall i :: 0 <= i < |MediaFields| ==>
        Get(r, MediaFields[i]) == WebhookFieldValue(st, show, Get(original, MediaFields[i]), MediaFields[i], modelName, requestId)
  {
    var step := WebhookStep(st, show, modelName, requestId);
    WebhookStepKeeps(st, show, modelName, requestId);
    FoldKeeps(step, MediaFields, original, |MediaFields|);
    assert MediaFields[..|MediaFields|] == MediaFields;
    MediaFieldsDistinct();
    forall i | 0 <= i < |MediaFields|
      ensures Get(FoldFields(step, MediaFields, original, |MediaFields|), MediaFields[i]) ==
              WebhookFieldValue(st, show, Get(original, MediaFields[i]), MediaFields[i], modelName, requestId)
    {
      FoldAt(step, MediaFields, original, i);
      WebhookFieldFacts(st, show, FoldFields(step, MediaFields, original, i), MediaFields[i], modelName, requestId);
    }
  }

  /** The processed payload: the payload's own keys in their order, then `webhook_metadata` unless
      the payload had it already; every key other than the six media fields and
      `webhook_metadata` as in the payload; each media field holding its `WebhookFieldValue`; and
      `webhook_metadata` holding the time, the model name and the request id. */
  lemma ProcessedPayloadShape(st: Storage, show: Json -> string, processedAt: string, payload: Json, metadata: Json)
    ensures var r := ProcessedPayload(st, show, processedAt, payload, metadata);
      var original := Spread(payload);
      var modelName := ModelNameOf(metadata);
      var requestId := RequestIdOf(metadata);
      Keys(r) == (if "webhook_metadata" in Keys(original) then Keys(original) else Keys(original) + ["webhook_metadata"]) &&
      Get(r, "webhook_metadata") == WebhookMetadata(processedAt, modelName, requestId) &&
      (forall k :: k !in MediaFields && k != "webhook_metadata" ==> Get(r, k) == Get(original, k)) &&
      forall i :: 0 <= i < |MediaFields| ==>
        Get(r, MediaFields[i]) == WebhookFieldValue(st, show, Get(original, MediaFields[i]), MediaFields[i], modelName, requestId)
  {
    var original := Spread(payload);
    var modelName := ModelNameOf(metadata);
    var requestId := RequestIdOf(metadata);
    var processed := FoldFields(WebhookStep(st, show, modelName, requestId), MediaFields, original, |MediaFields|);
    ProcessedMedia(st, show, original, modelName, requestId);
    PutFacts(processed, "webhook_metadata", WebhookMetadata(processedAt, modelName, requestId));
    assert "webhook_metadata" !in MediaFields;
  }

  /** The model name and the request id are `"unknown"` exactly when the metadata is not an object
      with a truthy value there (or holds `"unknown"` itself), and are never falsy. */
  lemma MetadataDefaults(metadata: Json)
    ensures Truthy(ModelNameOf(metadata)) && Truthy(RequestIdOf(metadata))
    ensures !Truthy(Member(metadata, "model")) ==> ModelNameOf(metadata) == JStr("unknown")
    ensures Truthy(Member(metadata, "model")) ==> metadata.JObj? && ModelNameOf(metadata) == Get(metadata.fields, "model")
    ensures !Truthy(Member(metadata, "request_id")) ==> RequestIdOf(metadata) == JStr("unknown")
    ensures Truthy(Member(metadata, "request_id")) ==> metadata.JObj? && RequestIdOf(metadata) == Get(metadata.fields, "request_id")
  {
  }

  // ---------------------------------------------------------------------------------------------
  // Dispatching on the status.

  /** The route's answers: the three status cases echo `request_id` and `status`; `Failed` is the
      500 answer to a thrown error, whose message is the engine's (every error thrown here is an
      `Error`, so the "Webhook processing failed" text is never used). */
  datatype WebhookResponse =
    | Processed(requestId: Json, status: Json)
    | JobFailed(requestId: Json, status: Json, error: Json)
    | Acknowledged(requestId: Json, status: Json)
    | Failed

  /** The HTTP status of an answer. */
  function HttpStatus(r: WebhookResponse): nat {
    if r.Failed? then 500 else 200
  }

  /** `success` in an answer's body. */
  predicate Success(r: WebhookResponse) {
    r.Processed? || r.Acknowledged?
  }

  /** The answer for a request whose body parsed to `body` (`None` when `request.json()` throws);
      destructuring `null` throws a TypeError. */
  function Dispatch(body: Option<Json>): WebhookResponse {
    match body
    case None => Failed
    case Some(b) =>
      if Nullish(b) then Failed
      else
        var requestId := Member(b, "request_id");
        var status := Member(b, "status");
        var payload := Member(b, "payload");
        if status == JStr("COMPLETED") && Truthy(payload) then Processed(requestId, status)
        else if status == JStr("FAILED") then JobFailed(requestId, status, payload)
        else Acknowledged(requestId, status)
  }

  /** `POST`: the answer, and the processed payload the handler computes (and only logs) for a
      completed job. */
  method HandleWebhook(st: Storage, show: Json -> string, processedAt: string, body: Option<Json>)
    returns (response: WebhookResponse, processedPayload: Option<Fields>)
    ensures response == Dispatch(body)
    ensures processedPayload.Some? <==> response.Processed?
    ensures response.Processed? ==>
      processedPayload.value == ProcessedPayload(st, show, processedAt, Member(body.value, "payload"), Member(body.value, "metadata"))
  {
    if body.None? || Nullish(body.value) {
      return Failed, None;
    }
    var requestId := Member(body.value, "request_id");
    var status := Member(body.value, "status");
    var payload := Member(body.value, "payload");
    var metadata := Member(body.value, "metadata");

    if status == JStr("COMPLETED") && Truthy(payload) {
      var processed := ProcessWebhookPayload(st, show, processedAt, payload, metadata);
      return Processed(requestId, status), Some(processed);
    } else if status == JStr("FAILED") {
      return JobFailed(requestId, status, payload), None;
    }
    return Acknowledged(requestId, status), None;
  }

  /** The dispatch: a completed job with a truthy payload is processed; a failed job answers
      `success: false` with the payload as its error; every other parsed body, a completed job
      without payload included, is acknowledged with `success: true`; and the route answers 500
      exactly when the body does not parse or is `null`. */
  lemma DispatchCases(body: Option<Json>)
    ensures var r := Dispatch(body);
      var parsed := body.Some? && !Nullish(body.value);
      (r.Processed? <==>
         parsed && Member(body.value, "status") == JStr("COMPLETED") && Truthy(Member(body.value, "payload"))) &&
      (r.JobFailed? <==> parsed && Member(body.value, "status") == JStr("FAILED")) &&
      (r.JobFailed? ==> r.error == Member(body.value, "payload") && !Success(r)) &&
      (r.Acknowledged? <==>
         parsed && Member(body.value, "status") != JStr("FAILED") &&
         !(Member(body.value, "status") == JStr("COMPLETED") && Truthy(Member(body.value, "payload")))) &&
      (HttpStatus(r) == 500 <==> !parsed) &&
      (parsed ==> r.requestId == Member(body.value, "request_id") && r.status == Member(body.value, "status"))
  {
  }
}
