/** The helpers of lib/fal-utils.ts: the content-type table, the rehosting of one media file in
    blob storage with its fallback to the original url, the normalisation of a result's media
    fields, and the validation of a model's input against its schema. */
module FalUtils {
  import opened Options
  import opened JsText
  import opened JsValue

  // ---------------------------------------------------------------------------------------------
  // Content types and file names.

  /** The content types `getFileExtension` knows, with their extensions. */
  const ExtensionTable: map<string, string> := map[
    "image/jpeg" := "jpg",
    "image/png" := "png",
    "image/gif" := "gif",
    "image/webp" := "webp",
    "video/mp4" := "mp4",
    "video/webm" := "webm",
    "video/quicktime" := "mov",
    "audio/wav" := "wav",
    "audio/mpeg" := "mp3",
    "audio/mp4" := "m4a",
    "application/octet-stream" := "bin"
  ]

  /** The media types among them: the table without its explicit `bin` row. */
  const MediaTypes: set<string> := ExtensionTable.Keys - {"application/octet-stream"}

  /** `getFileExtension`: the table's extension, else `bin` (every value in the table is truthy,
      so `|| "bin"` only applies to types the table lacks). */
  function GetFileExtension(contentType: string): (r: string)
    ensures r == "bin" <==> contentType !in MediaTypes
    ensures r != [] && '.' !in r && '/' !in r
  {
    if contentType in ExtensionTable then ExtensionTable[contentType] else "bin"
  }

  /** `response.headers.get("content-type") || "application/octet-stream"`. */
  function ContentType(header: Option<string>): string {
    match header
    case Some(t) => if t != "" then t else "application/octet-stream"
    case None => "application/octet-stream"
  }

  /** The blob name `storeMediaFile` builds: the model name with every `/` turned into `-`, then
      the request id, the field name, the clock and the extension. */
  function Filename(modelName: string, requestId: string, fieldName: string, now: nat, extension: string): string {
    ReplaceChar(modelName, '/', '-') + "_" + requestId + "_" + fieldName + "_" + NatToString(now) + "." + extension
  }

  /** The name starts with the model name, slash-free, and ends with the extension. */
  lemma FilenameShape(modelName: string, requestId: string, fieldName: string, now: nat, extension: string)
    ensures var f := Filename(modelName, requestId, fieldName, now, extension);
      StartsWith(f, ReplaceChar(modelName, '/', '-')) && '/' !in ReplaceChar(modelName, '/', '-') &&
      EndsWith(f, "." + extension)
  {
    var f := Filename(modelName, requestId, fieldName, now, extension);
    var m := ReplaceChar(modelName, '/', '-');
    var tail := "_" + requestId + "_" + fieldName + "_" + NatToString(now);
    assert f == m + (tail + "." + extension);
    assert f == (m + tail) + ("." + extension);
  }

  /** The field name of the `index`-th item of an array field. */
  function FieldName(field: string, index: nat): string {
    field + "_" + NatToString(index)
  }

  /** Decimal renderings of different numbers differ. */
  lemma {:induction false} NatToStringInjective(a: nat, b: nat)
    requires NatToString(a) == NatToString(b)
    ensures a == b
    decreases a
  {
    if a < 10 && b < 10 {
      assert DigitChar(a) == NatToString(a)[0];
    } else if a < 10 || b < 10 {
      assert false;
    } else {
      var pa, pb := NatToString(a / 10), NatToString(b / 10);
      SplitLastDigit(a);
      SplitLastDigit(b);
      assert pa == pb && DigitChar(a % 10) == DigitChar(b % 10);
      NatToStringInjective(a / 10, b / 10);
    }
  }

  /** The rendering of a number of two or more digits, read back as its leading digits and its
      last digit. */
  lemma SplitLastDigit(n: nat)
    requires n >= 10
    ensures var s := NatToString(n);
      |s| >= 2 && s[..|s| - 1] == NatToString(n / 10) && s[|s| - 1] == DigitChar(n % 10)
  {
    var p := NatToString(n / 10);
    assert NatToString(n) == p + [DigitChar(n % 10)];
  }

  /** The items of one array field get distinct field names. */
  lemma FieldNamesDistinct(field: string, i: nat, j: nat)
    requires i != j
    ensures FieldName(field, i) != FieldName(field, j)
  {
    if FieldName(field, i) == FieldName(field, j) {
      var p := field + "_";
      assert FieldName(field, i) == p + NatToString(i) && FieldName(field, j) == p + NatToString(j);
      assert NatToString(i) == FieldName(field, i)[|p|..] == FieldName(field, j)[|p|..] == NatToString(j);
      NatToStringInjective(i, j);
    }
  }

  /** A string with no `.` in it followed by `_`, digits, `.` and a `.`-free rest: the first `.` of
      such a string tells where the field name ends. */
  lemma TailSplit(f1: string, f2: string, d: string, e1: string, e2: string)
    requires '.' !in f1 && '.' !in f2 && '.' !in d && '.' !in e1 && '.' !in e2
    requires f1 + "_" + d + "." + e1 == f2 + "_" + d + "." + e2
    ensures f1 == f2 && e1 == e2
  {
    var x1, x2 := f1 + "_" + d + "." + e1, f2 + "_" + d + "." + e2;
    var k1, k2 := |f1| + 1 + |d|, |f2| + 1 + |d|;
    assert x1[k1] == '.' && x2[k2] == '.';
    assert forall k :: 0 <= k < k1 ==> x1[k] != '.' by {
      forall k | 0 <= k < k1 ensures x1[k] != '.' {
        if k < |f1| { assert x1[k] == f1[k]; }
        else if k > |f1| { assert x1[k] == d[k - |f1| - 1]; }
      }
    }
    assert forall k :: 0 <= k < k2 ==> x2[k] != '.' by {
      forall k | 0 <= k < k2 ensures x2[k] != '.' {
        if k < |f2| { assert x2[k] == f2[k]; }
        else if k > |f2| { assert x2[k] == d[k - |f2| - 1]; }
      }
    }
    assert k1 == k2;
    assert f1 == x1[..|f1|] == x2[..|f2|] == f2;
    assert e1 == x1[k1 + 1..] == x2[k2 + 1..] == e2;
  }

  /** Blob names of one result stored at the same instant differ when their field names differ:
      the items of an array, named `field_index`, never overwrite each other. */
  lemma FilenamesDistinct(modelName: string, requestId: string, f1: string, f2: string, now: nat, e1: string, e2: string)
    requires '.' !in f1 && '.' !in f2 && '.' !in e1 && '.' !in e2 && f1 != f2
    ensures Filename(modelName, requestId, f1, now, e1) != Filename(modelName, requestId, f2, now, e2)
  {
    var p := ReplaceChar(modelName, '/', '-') + "_" + requestId + "_";
    var d := NatToString(now);
    var x1, x2 := f1 + "_" + d + "." + e1, f2 + "_" + d + "." + e2;
    assert Filename(modelName, requestId, f1, now, e1) == p + x1;
    assert Filename(modelName, requestId, f2, now, e2) == p + x2;
    if p + x1 == p + x2 {
      assert x1 == (p + x1)[|p|..] == (p + x2)[|p|..] == x2;
      assert '.' !in d by {
        forall k | 0 <= k < |d| ensures d[k] != '.' { }
      }
      TailSplit(f1, f2, d, e1, e2);
    }
  }

  // ---------------------------------------------------------------------------------------------
  // Storing one media file.

  /** What `fetch(url)` gives: a rejection (a network error, or a url that is not one), or a
      response with its `ok` flag and its `content-type` header. Reading the body is taken not to
      fail. */
  datatype Fetched = FetchThrew | Response(ok: bool, contentTypeHeader: Option<string>)

  /** The outside world of the storage helpers: `fetch`, blob `put` (a blob url, or `None` when the
      upload throws) and the clock `Date.now()`, read once per request. */
  datatype Storage = Storage(fetch: Json -> Fetched, put: (string, string) -> Option<string>, now: nat)

  /** `storeMediaFile`: the blob url of the stored copy, or the original `url` when the fetch
      throws, the response is not ok, or the upload throws. */
  function StoreMediaFile(st: Storage, url: Json, modelName: string, requestId: string, fieldName: string): (r: Json)
    ensures st.fetch(url).FetchThrew? || !st.fetch(url).ok ==> r == url
    ensures st.fetch(url).Response? && st.fetch(url).ok ==>
      var contentType := ContentType(st.fetch(url).contentTypeHeader);
      var name := Filename(modelName, requestId, fieldName, st.now, GetFileExtension(contentType));
      r == match st.put(name, contentType) case Some(blobUrl) => JStr(blobUrl) case None => url
  {
    match st.fetch(url)
    case FetchThrew => url
    case Response(ok, header) =>
      if !ok then url
      else
        var contentType := ContentType(header);
        var extension := GetFileExtension(contentType);
        var filename := Filename(modelName, requestId, fieldName, st.now, extension);
        match st.put(filename, contentType)
        case Some(blobUrl) => JStr(blobUrl)
        case None => url
  }

  // ---------------------------------------------------------------------------------------------
  // Normalising a result's media fields.

  /** The fields `processAndStoreResult` looks at, in order. */
  const MediaFields: seq<string> := ["images", "image", "video", "audio", "videos", "audios"]

  /** `item && typeof item === "object" && item.url`: an object with a truthy `url`. */
  predicate HasUrl(item: Json) {
    Truthy(item) && TypeOf(item) == "object" && Truthy(Member(item, "url"))
  }

  /** One media item after storing: an item with a truthy `url` becomes `{...item, original_url:
      item.url, stored_url}`; any other item is returned as it is. */
  function StoredItem(st: Storage, item: Json, modelName: string, requestId: string, fieldName: string): Json {
    if HasUrl(item) then
      var url := Member(item, "url");
      var storedUrl := StoreMediaFile(st, url, modelName, requestId, fieldName);
      JObj(Put(Put(Spread(item), "original_url", url), "stored_url", storedUrl))
    else item
  }

  /** An item without a truthy `url` is returned as it is. An item with one is an object, and its
      stored form keeps every property of it, in order, except that `original_url` holds the url,
      `stored_url` holds what `storeMediaFile` returned for it, and those two keys come last if
      they were new. */
  lemma StoredItemShape(st: Storage, item: Json, modelName: string, requestId: string, fieldName: string)
    ensures var r := StoredItem(st, item, modelName, requestId, fieldName);
      (!HasUrl(item) ==> r == item) &&
      (HasUrl(item) ==>
        item.JObj? && r.JObj? &&
        Get(r.fields, "original_url") == Member(item, "url") &&
        Get(r.fields, "stored_url") == StoreMediaFile(st, Member(item, "url"), modelName, requestId, fieldName) &&
        (forall k :: k != "original_url" && k != "stored_url" ==> Get(r.fields, k) == Get(item.fields, k)) &&
        |Keys(r.fields)| >= |Keys(item.fields)| && Keys(r.fields)[..|Keys(item.fields)|] == Keys(item.fields))
  {
    if HasUrl(item) {
      var url := Member(item, "url");
      var storedUrl := StoreMediaFile(st, url, modelName, requestId, fieldName);
      assert Spread(item) == item.fields;
      PutTwice(item.fields, "original_url", url, "stored_url", storedUrl);
    }
  }

  /** `Promise.all(items.map(...))` for an array field: one stored item per item, in order, the
      `index`-th named `field_index`. */
  function StoredItems(st: Storage, items: seq<Json>, field: string, modelName: string, requestId: string): (r: seq<Json>)
    ensures |r| == |items|
    ensures forall i :: 0 <= i < |items| ==> r[i] == StoredItem(st, items[i], modelName, requestId, FieldName(field, i))
  {
    seq(|items|, i requires 0 <= i < |items| => StoredItem(st, items[i], modelName, requestId, FieldName(field, i)))
  }

  /** One iteration of `processAndStoreResult`'s loop, on the copied object `fs`. */
  function ProcessField(st: Storage, fs: Fields, field: string, modelName: string, requestId: string): Fields {
    var value := Get(fs, field);
    if !Truthy(value) then fs
    else if value.JArr? then Put(fs, field, JArr(StoredItems(st, value.items, field, modelName, requestId)))
    else if HasUrl(value) then Put(fs, field, StoredItem(st, value, modelName, requestId, field))
    else fs
  }

  /** The loop over `fields` as a fold: the object after the first `n` iterations of `step`. */
  function FoldFields(step: (Fields, string) -> Fields, fields: seq<string>, result: Fields, n: nat): Fields
    requires n <= |fields|
  {
    if n == 0 then result else step(FoldFields(step, fields, result, n - 1), fields[n - 1])
  }

  /** The iteration of `processAndStoreResult`'s loop, as a step of that fold. */
  function ProcessStep(st: Storage, modelName: string, requestId: string): (Fields, string) -> Fields {
    (fs: Fields, field: string) => ProcessField(st, fs, field, modelName, requestId)
  }

  /** `processAndStoreResult`. */
  method ProcessAndStoreResult(st: Storage, result: Fields, modelName: string, requestId: string)
    returns (processedResult: Fields)
    ensures processedResult == FoldFields(ProcessStep(st, modelName, requestId), MediaFields, result, |MediaFields|)
  {
    processedResult := result;
    for i := 0 to |MediaFields|
      invariant processedResult == FoldFields(ProcessStep(st, modelName, requestId), MediaFields, result, i)
    {
      ghost var before := processedResult;
      var field := MediaFields[i];
      var value := Get(processedResult, field);
      if Truthy(value) {
        if value.JArr? {
          processedResult := Put(processedResult, field, JArr(StoredItems(st, value.items, field, modelName, requestId)));
        } else if Truthy(value) && TypeOf(value) == "object" && Truthy(Member(value, "url")) {
          var url := Member(value, "url");
          var storedUrl := StoreMediaFile(st, url, modelName, requestId, field);
          processedResult := Put(processedResult, field, JObj(Put(Put(Spread(value), "original_url", url), "stored_url", storedUrl)));
        }
      }
      assert processedResult == ProcessField(st, before, field, modelName, requestId);
    }
  }

  /** What becomes of the value of a media field, described without the loop: a falsy value stays,
      an array keeps its length and order with each item stored under `field_index`, and any other
      value is stored as a single item under `field`. */
  function FieldValue(st: Storage, value: Json, field: string, modelName: string, requestId: string): Json {
    if !Truthy(value) then value
    else if value.JArr? then JArr(StoredItems(st, value.items, field, modelName, requestId))
    else StoredItem(st, value, modelName, requestId, field)
  }

  /** A step that keeps the keys and their order and changes no field but the one it is given. */
  ghost predicate KeepsOthers(step: (Fields, string) -> Fields) {
    (forall fs, field :: Keys(step(fs, field)) == Keys(fs)) &&
    (forall fs, field, k :: k != field ==> Get(step(fs, field), k) == Get(fs, k))
  }

  /** One iteration keeps the keys and their order and changes only `field`... */
  lemma ProcessFieldKeeps(st: Storage, modelName: string, requestId: string)
    ensures KeepsOthers(ProcessStep(st, modelName, requestId))
  {
    var step := ProcessStep(st, modelName, requestId);
    forall fs, field
      ensures Keys(step(fs, field)) == Keys(fs)
      ensures forall k :: k != field ==> Get(step(fs, field), k) == Get(fs, k)
    {
      ProcessFieldFacts(st, fs, field, modelName, requestId);
    }
  }

  /** ... and gives that field its `FieldValue`. */
  lemma ProcessFieldSets(st: Storage, fs: Fields, field: string, modelName: string, requestId: string)
    ensures Get(ProcessStep(st, modelName, requestId)(fs, field), field) ==
            FieldValue(st, Get(fs, field), field, modelName, requestId)
  {
    ProcessFieldFacts(st, fs, field, modelName, requestId);
  }

  /** The facts about one iteration, on `ProcessField` itself. */
  lemma ProcessFieldFacts(st: Storage, fs: Fields, field: string, modelName: string, requestId: string)
    ensures var r := ProcessField(st, fs, field, modelName, requestId);
      Keys(r) == Keys(fs) &&
      Get(r, field) == FieldValue(st, Get(fs, field), field, modelName, requestId) &&
      forall k :: k != field ==> Get(r, k) == Get(fs, k)
  {
    var value := Get(fs, field);
    if field !in Keys(fs) {
      GetAbsent(fs, field);
    }
    if Truthy(value) && value.JArr? {
      PutFacts(fs, field, JArr(StoredItems(st, value.items, field, modelName, requestId)));
    } else if Truthy(value) && HasUrl(value) {
      PutFacts(fs, field, StoredItem(st, value, modelName, requestId, field));
    } else if Truthy(value) {
      StoredItemShape(st, value, modelName, requestId, field);
    }
  }

  /** A fold of such a step keeps the keys and their order, and leaves every field it has not
      reached yet as it was. */
  lemma {:induction false} FoldKeeps(step: (Fields, string) -> Fields, fields: seq<string>, result: Fields, n: nat)
    requires KeepsOthers(step) && n <= |fields|
    ensures var r := FoldFields(step, fields, result, n);
      Keys(r) == Keys(result) && forall k :: k !in fields[..n] ==> Get(r, k) == Get(result, k)
  {
    if n > 0 {
      FoldKeeps(step, fields, result, n - 1);
      assert fields[..n] == fields[..n - 1] + [fields[n - 1]];
    }
  }

  /** Once the fold has handled field `i`, later steps over other keys leave it alone. */
  lemma {:induction false} FoldSettled(step: (Fields, string) -> Fields, fields: seq<string>, result: Fields, i: nat, n: nat)
    requires KeepsOthers(step) && i < n <= |fields|
    requires forall j :: i < j < n ==> fields[j] != fields[i]
    ensures Get(FoldFields(step, fields, result, n), fields[i]) == Get(FoldFields(step, fields, result, i + 1), fields[i])
  {
    if n > i + 1 {
      FoldSettled(step, fields, result, i, n - 1);
    }
  }

  /** Over distinct keys, field `i` after the fold holds what its own step made of its original
      value. */
  lemma FoldAt(step: (Fields, string) -> Fields, fields: seq<string>, result: Fields, i: nat)
    requires KeepsOthers(step) && i < |fields|
    requires forall j, k :: 0 <= j < k < |fields| ==> fields[j] != fields[k]
    ensures var before := FoldFields(step, fields, result, i);
      Get(before, fields[i]) == Get(result, fields[i]) &&
      Get(FoldFields(step, fields, result, |fields|), fields[i]) == Get(step(before, fields[i]), fields[i])
  {
    FoldSettled(step, fields, result, i, |fields|);
    FoldKeeps(step, fields, result, i);
    assert fields[i] !in fields[..i];
  }

  /** The six media fields are six different keys. */
  lemma MediaFieldsDistinct()
    ensures forall j, k :: 0 <= j < k < |MediaFields| ==> MediaFields[j] != MediaFields[k]
  {
  }

  /** The normalised copy: the same keys in the same order, every field other than the six media
      fields untouched, and each media field holding its `FieldValue` computed from the original
      result. */
  lemma ProcessedResult(st: Storage, result: Fields, modelName: string, requestId: string)
    ensures var r := FoldFields(ProcessStep(st, modelName, requestId), MediaFields, result, |MediaFields|);
      Keys(r) == Keys(result) &&
      (forall k :: k !in MediaFields ==> Get(r, k) == Get(result, k)) &&
      forall i :: 0 <= i < |MediaFields| ==>
        Get(r, MediaFields[i]) == FieldValue(st, Get(result, MediaFields[i]), MediaFields[i], modelName, requestId)
  {
    var step := ProcessStep(st, modelName, requestId);
    ProcessFieldKeeps(st, modelName, requestId);
    FoldKeeps(step, MediaFields, result, |MediaFields|);
    assert MediaFields[..|MediaFields|] == MediaFields;
    MediaFieldsDistinct();
    forall i | 0 <= i < |MediaFields|
      ensures Get(FoldFields(step, MediaFields, result, |MediaFields|), MediaFields[i]) ==
              FieldValue(st, Get(result, MediaFields[i]), MediaFields[i], modelName, requestId)
    {
      FoldAt(step, MediaFields, result, i);
      ProcessFieldSets(st, FoldFields(step, MediaFields, result, i), MediaFields[i], modelName, requestId);
    }
  }

  // ---------------------------------------------------------------------------------------------
  // Validating a model's input.

  /** What `validateModelInput` returns: `errors` is absent when the input is valid. */
  datatype Validation = Validation(isValid: bool, errors: Option<seq<string>>)

  /** What `for...of` iterates: an array's elements, a string's characters; every other value is
      not iterable and throws. */
  function Iterate(v: Json): Option<seq<Json>> {
    match v
    case JArr(items) => Some(items)
    case JStr(s) => Some(seq(|s|, i requires 0 <= i < |s| => JStr([s[i]])))
    case _ => None
  }

  function MissingMessage(show: Json -> string, field: Json): string {
    "Missing required field: " + Str(show, field)
  }

  /** The errors a loop pushes over the first `n` elements of `xs`, in order, `check` giving the
      errors of one element. */
  function Gather<T>(check: T -> seq<string>, xs: seq<T>, n: nat): seq<string>
    requires n <= |xs|
  {
    if n == 0 then [] else Gather(check, xs, n - 1) + check(xs[n - 1])
  }

  /** No error is gathered exactly when no element has one. */
  lemma {:induction false} GatherEmpty<T>(check: T -> seq<string>, xs: seq<T>, n: nat)
    requires n <= |xs|
    ensures Gather(check, xs, n) == [] <==> forall j :: 0 <= j < n ==> check(xs[j]) == []
  {
    if n > 0 {
      GatherEmpty(check, xs, n - 1);
    }
  }

  /** A loop over the first `n` elements of `xs` that throws at the first element passing `test`
      and otherwise gathers the errors `check` gives: `None` when it throws. */
  function Scan<T>(test: T -> bool, check: T -> seq<string>, xs: seq<T>, n: nat): Option<seq<string>>
    requires n <= |xs|
  {
    if n == 0 then Some([])
    else match Scan(test, check, xs, n - 1)
      case None => None
      case Some(errors) => if test(xs[n - 1]) then None else Some(errors + check(xs[n - 1]))
  }

  /** Once the loop has thrown, it has thrown for every longer prefix. */
  lemma {:induction false} ScanStays<T>(test: T -> bool, check: T -> seq<string>, xs: seq<T>, n: nat, m: nat)
    requires n <= m <= |xs| && Scan(test, check, xs, n).None?
    ensures Scan(test, check, xs, m).None?
    decreases m - n
  {
    if n < m {
      ScanStays(test, check, xs, n + 1, m);
    }
  }

  /** The loop throws exactly when some element passes `test`, and otherwise gathers the errors of
      every element. */
  lemma {:induction false} ScanThrows<T>(test: T -> bool, check: T -> seq<string>, xs: seq<T>, n: nat)
    requires n <= |xs|
    ensures Scan(test, check, xs, n).None? <==> exists j :: 0 <= j < n && test(xs[j])
    ensures Scan(test, check, xs, n).Some? ==> Scan(test, check, xs, n).value == Gather(check, xs, n)
  {
    if n > 0 {
      ScanThrows(test, check, xs, n - 1);
    }
  }

  /** The test of the first loop: a required field whose key (`field in input` converts it with
      `String`) the input lacks. */
  function MissingCheck(input: Fields, show: Json -> string): Json -> seq<string> {
    (field: Json) => if Str(show, field) in Keys(input) then [] else [MissingMessage(show, field)]
  }

  /** A schema entry whose field is in the input but whose schema is `null`: reading its `.type`
      throws. */
  predicate Unreadable(input: Fields, entry: (string, Json)) {
    entry.0 in Keys(input) && Nullish(entry.1)
  }

  function UnreadableTest(input: Fields): ((string, Json)) -> bool {
    (entry: (string, Json)) => Unreadable(input, entry)
  }

  /** The type test of the second loop: a present field whose declared type is truthy, differs from
      its value's `typeof`, and is not excused by the value being an array or a numeric string
      declared a number. `isNumeric` stands for `!isNaN(Number(value))`. */
  predicate Mismatch(input: Fields, isNumeric: string -> bool, entry: (string, Json)) {
    var value := Get(input, entry.0);
    var expectedType := Member(entry.1, "type");
    entry.0 in Keys(input) && Truthy(expectedType) && JStr(TypeOf(value)) != expectedType && !value.JArr? &&
    !(expectedType == JStr("number") && value.JStr? && isNumeric(value.s))
  }

  function TypeMessage(show: Json -> string, field: string, expectedType: Json, value: Json): string {
    "Field " + field + " should be of type " + Str(show, expectedType) + ", got " + TypeOf(value)
  }

  /** The test of the second loop, on one schema entry. */
  function TypeCheck(input: Fields, show: Json -> string, isNumeric: string -> bool): ((string, Json)) -> seq<string> {
    (entry: (string, Json)) => TypeErrors(input, show, isNumeric, entry)
  }

  function TypeErrors(input: Fields, show: Json -> string, isNumeric: string -> bool, entry: (string, Json)): seq<string> {
    if Mismatch(input, isNumeric, entry)
    then [TypeMessage(show, entry.0, Member(entry.1, "type"), Get(input, entry.0))]
    else []
  }

  /** What `validateModelInput` returns, or the TypeError it throws. */
  function Validate(input: Fields, schema: Json, show: Json -> string, isNumeric: string -> bool): Completion<Validation> {
    if !Truthy(schema) || !Truthy(Member(schema, "properties")) then Normal(Validation(true, None))
    else
      match Iterate(Or(Member(schema, "required"), JArr([])))
      case None => Thrown(None)
      case Some(required) =>
        var entries := Spread(Member(schema, "properties"));
        match Scan(UnreadableTest(input), TypeCheck(input, show, isNumeric), entries, |entries|)
        case None => Thrown(None)
        case Some(typeErrors) =>
          var errors := Gather(MissingCheck(input, show), required, |required|) + typeErrors;
          Normal(Validation(|errors| == 0, if |errors| > 0 then Some(errors) else None))
  }

  /** `validateModelInput`. */
  method ValidateModelInput(input: Fields, schema: Json, show: Json -> string, isNumeric: string -> bool)
    returns (r: Completion<Validation>)
    ensures r == Validate(input, schema, show, isNumeric)
  {
    if !Truthy(schema) || !Truthy(Member(schema, "properties")) {
      return Normal(Validation(true, None));
    }

    var iterated := Iterate(Or(Member(schema, "required"), JArr([])));
    if iterated.None? {
      return Thrown(None);
    }
    var errors := CheckRequired(input, show, iterated.value);

    var entries := Spread(Member(schema, "properties"));
    var typeErrors := CheckTypes(input, show, isNumeric, entries);
    if typeErrors.None? {
      return Thrown(None);
    }
    errors := errors + typeErrors.value;

    return Normal(Validation(|errors| == 0, if |errors| > 0 then Some(errors) else None));
  }

  /** The loop over the required fields. */
  method CheckRequired(input: Fields, show: Json -> string, required: seq<Json>) returns (errors: seq<string>)
    ensures errors == Gather(MissingCheck(input, show), required, |required|)
  {
    errors := [];
    for i := 0 to |required|
      invariant errors == Gather(MissingCheck(input, show), required, i)
    {
      var field := required[i];
      ghost var found := MissingCheck(input, show)(field);
      if Str(show, field) !in Keys(input) {
        errors := errors + [MissingMessage(show, field)];
        assert found == [MissingMessage(show, field)];
      } else {
        assert found == [];
      }
    }
  }

  /** The loop over the schema's properties: it stops with a TypeError (`None`) at the first
      present field whose schema is `null`, and otherwise yields the type errors. */
  method CheckTypes(input: Fields, show: Json -> string, isNumeric: string -> bool, entries: Fields)
    returns (typeErrors: Option<seq<string>>)
    ensures typeErrors == Scan(UnreadableTest(input), TypeCheck(input, show, isNumeric), entries, |entries|)
  {
    var errors := [];
    for j := 0 to |entries|
      invariant Scan(UnreadableTest(input), TypeCheck(input, show, isNumeric), entries, j) == Some(errors)
    {
      var stop, found := CheckEntry(input, show, isNumeric, entries[j]);
      if stop {
        ScanStays(UnreadableTest(input), TypeCheck(input, show, isNumeric), entries, j + 1, |entries|);
        return None;
      }
      errors := errors + found;
    }
    return Some(errors);
  }

  /** One iteration of that loop, on the entry `[field, fieldSchema]`: `stop` when reading the
      schema's type throws, otherwise the errors the iteration pushes. */
  method CheckEntry(input: Fields, show: Json -> string, isNumeric: string -> bool, entry: (string, Json))
    returns (stop: bool, found: seq<string>)
    ensures stop == UnreadableTest(input)(entry)
    ensures !stop ==> found == TypeCheck(input, show, isNumeric)(entry)
  {
    var (field, fieldSchema) := entry;
    ghost var mismatch := Mismatch(input, isNumeric, entry);
    found := [];
    stop := false;
    if field in Keys(input) {
      var value := Get(input, field);
      if Nullish(fieldSchema) {
        return true, found;
      }
      var expectedType := Member(fieldSchema, "type");
      if Truthy(expectedType) && JStr(TypeOf(value)) != expectedType && !value.JArr? {
        if !(expectedType == JStr("number") && value.JStr? && isNumeric(value.s)) {
          found := [TypeMessage(show, field, expectedType, value)];
          assert mismatch;
        } else {
          assert !mismatch;
        }
      } else {
        assert !mismatch;
      }
    } else {
      assert !mismatch;
    }
  }

  /** Validation throws exactly when there is a schema with properties and either its `required`
      is a truthy value that cannot be iterated, or a present field has a `null` schema. */
  lemma ValidThrows(input: Fields, schema: Json, show: Json -> string, isNumeric: string -> bool)
    ensures var entries := Spread(Member(schema, "properties"));
      Validate(input, schema, show, isNumeric).Thrown? <==>
        Truthy(schema) && Truthy(Member(schema, "properties")) &&
        (Iterate(Or(Member(schema, "required"), JArr([]))).None? ||
         exists j :: 0 <= j < |entries| && Unreadable(input, entries[j]))
  {
    var entries := Spread(Member(schema, "properties"));
    ScanThrows(UnreadableTest(input), TypeCheck(input, show, isNumeric), entries, |entries|);
  }

  /** When validation returns, the input is valid exactly when there is no schema to check, or
      every required field is present and no present field has the wrong type; `errors` is absent
      exactly when valid. */
  lemma ValidIff(input: Fields, schema: Json, show: Json -> string, isNumeric: string -> bool)
    requires Validate(input, schema, show, isNumeric).Normal?
    ensures var v := Validate(input, schema, show, isNumeric).value;
      var required := Iterate(Or(Member(schema, "required"), JArr([])));
      var entries := Spread(Member(schema, "properties"));
      (v.isValid <==> v.errors.None?) &&
      (v.isValid <==>
         !(Truthy(schema) && Truthy(Member(schema, "properties"))) ||
         ((forall i :: 0 <= i < |required.value| ==> Str(show, required.value[i]) in Keys(input)) &&
          (forall j :: 0 <= j < |entries| ==> !Mismatch(input, isNumeric, entries[j]))))
  {
    if Truthy(schema) && Truthy(Member(schema, "properties")) {
      var required := Iterate(Or(Member(schema, "required"), JArr([]))).value;
      var entries := Spread(Member(schema, "properties"));
      var check := TypeCheck(input, show, isNumeric);
      ScanThrows(UnreadableTest(input), check, entries, |entries|);
      GatherEmpty(MissingCheck(input, show), required, |required|);
      GatherEmpty(check, entries, |entries|);
    }
  }
}
