/** The Replicate route (`POST /api/replicate`): it builds the model's input from the request body
    with JavaScript `||` defaults, asks Replicate for a prediction, polls while the prediction is
    still running, and answers with the output images, each stored by `storeMediaFile`. */
module Replicate {
  import opened Options
  import opened JsText
  import opened JsValue
  import opened FalUtils

  // ---------------------------------------------------------------------------------------------
  // The model's input.

  /** The defaulted fields of the input, in the order the object literal lists them, with the value
      each takes when the body's value is falsy. */
  const Defaults: seq<(string, Json)> := [
    ("num_outputs", JNum(4.0)), ("aspect_ratio", JStr("4:3")), ("output_format", JStr("webp")),
    ("output_quality", JNum(80.0)), ("num_inference_steps", JNum(28.0)), ("guidance_scale", JNum(3.5)),
    ("lora_scale", JNum(1.0)), ("disable_safety_checker", JBool(false))]

  /** The fields copied into the input only when the body's value is truthy, in the order the
      route copies them. */
  const OptionalKeys: seq<string> :=
    ["seed", "model", "image", "mask", "prompt_strength", "megapixels", "extra_lora", "extra_lora_scale"]

  /** The keys of the object literal the input starts as, in order. */
  const BaseKeys: seq<string> := ["prompt", "num_outputs", "aspect_ratio", "output_format", "output_quality",
    "num_inference_steps", "guidance_scale", "lora_scale", "go_fast", "disable_safety_checker"]

  /** The values of that literal, key by key. */
  function BaseValues(body: Json): seq<Json> {
    [Member(body, "prompt"),
     Or(Member(body, "num_outputs"), JNum(4.0)),
     Or(Member(body, "aspect_ratio"), JStr("4:3")),
     Or(Member(body, "output_format"), JStr("webp")),
     Or(Member(body, "output_quality"), JNum(80.0)),
     Or(Member(body, "num_inference_steps"), JNum(28.0)),
     Or(Member(body, "guidance_scale"), JNum(3.5)),
     Or(Member(body, "lora_scale"), JNum(1.0)),
     JBool(Member(body, "go_fast") != JBool(false)),
     Or(Member(body, "disable_safety_checker"), JBool(false))]
  }

  /** The object literal the input starts as. */
  function BaseInput(body: Json): Fields {
    Record(BaseKeys, BaseValues(body))
  }

  /** `if (body.k) input.k = body.k`, as a step of a fold over the optional keys. */
  function CopyStep(body: Json): (Fields, string) -> Fields {
    (fs: Fields, k: string) => if Truthy(Member(body, k)) then Put(fs, k, Member(body, k)) else fs
  }

  /** The input sent to Replicate. */
  function InputOf(body: Json): Fields {
    FoldFields(CopyStep(body), OptionalKeys, BaseInput(body), |OptionalKeys|)
  }

  /** The input-building statements of `POST`: the object literal, then the eight conditional
      assignments. */
  method BuildInput(body: Json) returns (input: Fields)
    ensures input == InputOf(body)
  {
    ghost var step := CopyStep(body);
    ghost var base := BaseInput(body);
    input := BaseInput(body);

    if Truthy(Member(body, "seed")) { input := Put(input, "seed", Member(body, "seed")); }
    assert input == FoldFields(step, OptionalKeys, base, 1);
    if Truthy(Member(body, "model")) { input := Put(input, "model", Member(body, "model")); }
    assert input == FoldFields(step, OptionalKeys, base, 2);
    if Truthy(Member(body, "image")) { input := Put(input, "image", Member(body, "image")); }
    assert input == FoldFields(step, OptionalKeys, base, 3);
    if Truthy(Member(body, "mask")) { input := Put(input, "mask", Member(body, "mask")); }
    assert input == FoldFields(step, OptionalKeys, base, 4);
    if Truthy(Member(body, "prompt_strength")) { input := Put(input, "prompt_strength", Member(body, "prompt_strength")); }
    assert input == FoldFields(step, OptionalKeys, base, 5);
    if Truthy(Member(body, "megapixels")) { input := Put(input, "megapixels", Member(body, "megapixels")); }
    assert input == FoldFields(step, OptionalKeys, base, 6);
    if Truthy(Member(body, "extra_lora")) { input := Put(input, "extra_lora", Member(body, "extra_lora")); }
    assert input == FoldFields(step, OptionalKeys, base, 7);
    if Truthy(Member(body, "extra_lora_scale")) { input := Put(input, "extra_lora_scale", Member(body, "extra_lora_scale")); }
  }

  /** The first `n` of `ks` whose value in `src` is truthy, in order. */
  function Present(src: Json, ks: seq<string>, n: nat): seq<string>
    requires n <= |ks|
  {
    if n == 0 then [] else Present(src, ks, n - 1) + (if Truthy(Member(src, ks[n - 1])) then [ks[n - 1]] else [])
  }

  lemma {:induction false} PresentIn(src: Json, ks: seq<string>, n: nat, k: string)
    requires n <= |ks|
    ensures k in Present(src, ks, n) <==> k in ks[..n] && Truthy(Member(src, k))
  {
    if n > 0 {
      PresentIn(src, ks, n - 1, k);
      assert ks[..n] == ks[..n - 1] + [ks[n - 1]];
    }
  }

  /** Copying the truthy values of `ks` onto an object that has none of those keys appends the
      present keys, in order, sets each to the body's value, and leaves every other key alone. */
  lemma {:induction false} CopyFold(src: Json, ks: seq<string>, base: Fields, n: nat)
    requires n <= |ks|
    requires forall i, j :: 0 <= i < j < |ks| ==> ks[i] != ks[j]
    requires forall i :: 0 <= i < |ks| ==> ks[i] !in Keys(base)
    ensures var r := FoldFields(CopyStep(src), ks, base, n);
      Keys(r) == Keys(base) + Present(src, ks, n) &&
      forall k :: Get(r, k) == if k in ks[..n] && Truthy(Member(src, k)) then Member(src, k) else Get(base, k)
  {
    if n > 0 {
      var k := ks[n - 1];
      var before := FoldFields(CopyStep(src), ks, base, n - 1);
      CopyFold(src, ks, base, n - 1);
      assert ks[..n] == ks[..n - 1] + [k];
      assert FoldFields(CopyStep(src), ks, base, n) == CopyStep(src)(before, k);
      if Truthy(Member(src, k)) {
        PresentIn(src, ks, n - 1, k);
        assert k !in ks[..n - 1];
        PutFacts(before, k, Member(src, k));
      }
    }
  }

  lemma BaseKeysApart()
    ensures forall i, j :: 0 <= i < j < |BaseKeys| ==> BaseKeys[i] != BaseKeys[j]
    ensures forall i, j :: 0 <= i < j < |OptionalKeys| ==> OptionalKeys[i] != OptionalKeys[j]
    ensures forall i :: 0 <= i < |OptionalKeys| ==> OptionalKeys[i] !in BaseKeys
    ensures forall i :: 0 <= i < |Defaults| ==> Defaults[i].0 !in OptionalKeys
    ensures "prompt" !in OptionalKeys && "go_fast" !in OptionalKeys
  {
  }

  /** The object literal has the ten keys, in order; `prompt` and `go_fast` hold what the literal
      says, and each defaulted field `body.k || default`. */
  lemma BaseInputFacts(body: Json)
    ensures Keys(BaseInput(body)) == BaseKeys
    ensures forall i :: 0 <= i < |Defaults| ==>
      Get(BaseInput(body), Defaults[i].0) == Or(Member(body, Defaults[i].0), Defaults[i].1)
    ensures Get(BaseInput(body), "prompt") == Member(body, "prompt")
    ensures Get(BaseInput(body), "go_fast") == JBool(Member(body, "go_fast") != JBool(false))
  {
    BaseKeysApart();
    RecordFacts(BaseKeys, BaseValues(body));
    DefaultsAligned(body);
    assert forall i :: 0 <= i < |Defaults| ==> Get(BaseInput(body), BaseKeys[DefaultAt[i]]) == BaseValues(body)[DefaultAt[i]];
    assert BaseKeys[0] == "prompt" && BaseKeys[8] == "go_fast";
  }

  /** Where each row of `Defaults` sits in the literal. */
  const DefaultAt: seq<nat> := [1, 2, 3, 4, 5, 6, 7, 9]

  /** Each row of `Defaults` names a key of the literal whose value is `body.k || default`. */
  lemma DefaultsAligned(body: Json)
    ensures forall i :: 0 <= i < |Defaults| ==>
      DefaultAt[i] < |BaseKeys| && BaseKeys[DefaultAt[i]] == Defaults[i].0 &&
      BaseValues(body)[DefaultAt[i]] == Or(Member(body, Defaults[i].0), Defaults[i].1)
  {
  }

  /** The copying of the optional fields onto the object literal. */
  lemma InputCopies(body: Json)
    ensures var input := InputOf(body);
      Keys(input) == BaseKeys + Present(body, OptionalKeys, |OptionalKeys|) &&
      forall k :: Get(input, k) == if k in OptionalKeys && Truthy(Member(body, k)) then Member(body, k) else Get(BaseInput(body), k)
  {
    BaseInputFacts(body);
    BaseKeysApart();
    CopyFold(body, OptionalKeys, BaseInput(body), |OptionalKeys|);
    assert OptionalKeys[..|OptionalKeys|] == OptionalKeys;
  }

  /** The input sent to Replicate: the ten keys of the object literal followed by the optional keys
      whose body value is truthy, in the route's order. `prompt` is the body's prompt; each
      defaulted field is the body's value when truthy and its default otherwise; and `go_fast` is
      true unless the body says exactly `false`. */
  lemma InputDefaults(body: Json)
    ensures var input := InputOf(body);
      Keys(input) == BaseKeys + Present(body, OptionalKeys, |OptionalKeys|) &&
      Get(input, "prompt") == Member(body, "prompt") &&
      Get(input, "go_fast") == JBool(Member(body, "go_fast") != JBool(false)) &&
      forall i :: 0 <= i < |Defaults| ==>
        Get(input, Defaults[i].0) == if Truthy(Member(body, Defaults[i].0)) then Member(body, Defaults[i].0) else Defaults[i].1
  {
    var input := InputOf(body);
    var base := BaseInput(body);
    InputCopies(body);
    BaseInputFacts(body);
    BaseKeysApart();
    forall i | 0 <= i < |Defaults|
      ensures Get(input, Defaults[i].0) == Get(base, Defaults[i].0)
    {
    }
  }

  /** An optional field is in the input exactly when the body's value is truthy, and then holds that
      value; otherwise reading it gives `undefined`. */
  lemma InputOptional(body: Json, i: nat)
    requires i < |OptionalKeys|
    ensures var input := InputOf(body);
      var k := OptionalKeys[i];
      (k in Keys(input) <==> Truthy(Member(body, k))) &&
      Get(input, k) == if Truthy(Member(body, k)) then Member(body, k) else JUndefined
  {
    var k := OptionalKeys[i];
    InputCopies(body);
    BaseInputFacts(body);
    BaseKeysApart();
    assert OptionalKeys[..|OptionalKeys|] == OptionalKeys;
    PresentIn(body, OptionalKeys, |OptionalKeys|, k);
    GetAbsent(BaseInput(body), k);
  }

  // ---------------------------------------------------------------------------------------------
  // Polling.

  /** The number of status requests `POST` allows `pollForCompletion`. */
  const MaxAttempts: nat := 120

  /** One answer to a status request: the request throws, or a response with its `ok`, its status
      text and its parsed body (`None` when `response.json()` throws). */
  datatype Polled = PollThrew | Polled(ok: bool, statusText: string, body: Option<Json>)

  /** What one attempt decides: keep polling, or finish with the prediction or a thrown error. */
  datatype Step = Pending | Finished(outcome: Completion<Json>)

  /** One iteration of `pollForCompletion`'s loop. A thrown `Error` carries its message; an error
      the engine throws (network failure, bad JSON, a property of `null`) carries `None`. */
  function Attempt(p: Polled, show: Json -> string): Step {
    match p
    case PollThrew => Finished(Thrown(None))
    case Polled(ok, statusText, body) =>
      if !ok then Finished(Thrown(Some("Failed to check prediction status: " + statusText)))
      else
        match body
        case None => Finished(Thrown(None))
        case Some(prediction) =>
          if Nullish(prediction) then Finished(Thrown(None))
          else
            var status := Member(prediction, "status");
            if status == JStr("succeeded") then Finished(Normal(prediction))
            else if status == JStr("failed") || status == JStr("canceled") then
              Finished(Thrown(Some(Str(show, Or(Member(prediction, "error"), JStr("Prediction failed"))))))
            else Pending
  }

  /** The outcome of polling from attempt `i` on, `check(i)` being the answer to the `i`-th status
      request. */
  function Poll(check: nat -> Polled, show: Json -> string, i: nat, maxAttempts: nat): Completion<Json>
    decreases maxAttempts - i
  {
    if i >= maxAttempts then Thrown(Some("Prediction timed out"))
    else
      match Attempt(check(i), show)
      case Pending => Poll(check, show, i + 1, maxAttempts)
      case Finished(outcome) => outcome
  }

  /** `pollForCompletion`. */
  method PollForCompletion(check: nat -> Polled, show: Json -> string, maxAttempts: nat) returns (r: Completion<Json>)
    ensures r == Poll(check, show, 0, maxAttempts)
  {
    for i := 0 to maxAttempts
      invariant Poll(check, show, i, maxAttempts) == Poll(check, show, 0, maxAttempts)
    {
      var response := check(i);
      if response.PollThrew? {
        return Thrown(None);
      }
      if !response.ok {
        return Thrown(Some("Failed to check prediction status: " + response.statusText));
      }
      if response.body.None? {
        return Thrown(None);
      }
      var prediction := response.body.value;
      if Nullish(prediction) {
        return Thrown(None);
      }
      if Member(prediction, "status") == JStr("succeeded") {
        return Normal(prediction);
      }
      if Member(prediction, "status") == JStr("failed") || Member(prediction, "status") == JStr("canceled") {
        return Thrown(Some(Str(show, Or(Member(prediction, "error"), JStr("Prediction failed")))));
      }
    }
    return Thrown(Some("Prediction timed out"));
  }

  /** Attempt `k` is the first to finish, every attempt from `i` before it pending. */
  ghost predicate FirstFinished(check: nat -> Polled, show: Json -> string, i: nat, k: nat) {
    i <= k && Attempt(check(k), show).Finished? && forall j :: i <= j < k ==> Attempt(check(j), show).Pending?
  }

  /** Polling returns a prediction exactly when some attempt within the bound finishes with one and
      every earlier attempt was pending, and the prediction returned has status `succeeded`;
      `PollFirst` says which prediction it is. */
  lemma {:induction false} PollSucceeds(check: nat -> Polled, show: Json -> string, i: nat, maxAttempts: nat)
    ensures Poll(check, show, i, maxAttempts).Normal? <==>
      exists k: nat :: k < maxAttempts && FirstFinished(check, show, i, k) && Attempt(check(k), show).outcome.Normal?
    ensures Poll(check, show, i, maxAttempts).Normal? ==>
      Member(Poll(check, show, i, maxAttempts).value, "status") == JStr("succeeded")
    decreases maxAttempts - i
  {
    if i < maxAttempts {
      PollSucceeds(check, show, i + 1, maxAttempts);
      if Attempt(check(i), show).Pending? {
        if Poll(check, show, i, maxAttempts).Normal? {
          var k: nat :| k < maxAttempts && FirstFinished(check, show, i + 1, k) && Attempt(check(k), show).outcome.Normal?;
          assert FirstFinished(check, show, i, k);
        }
        forall k: nat | k < maxAttempts && FirstFinished(check, show, i, k)
          ensures FirstFinished(check, show, i + 1, k)
        {
        }
      } else {
        forall k: nat | FirstFinished(check, show, i, k) ensures k == i {
          assert i < k ==> Attempt(check(i), show).Pending?;
        }
        assert FirstFinished(check, show, i, i);
      }
    }
  }

  /** Polling ends with the outcome of the first attempt that finishes within the bound. */
  lemma {:induction false} PollFirst(check: nat -> Polled, show: Json -> string, i: nat, maxAttempts: nat, k: nat)
    requires k < maxAttempts && FirstFinished(check, show, i, k)
    ensures Poll(check, show, i, maxAttempts) == Attempt(check(k), show).outcome
    decreases k - i
  {
    if i < k {
      assert Attempt(check(i), show).Pending?;
      PollFirst(check, show, i + 1, maxAttempts, k);
    }
  }

  /** What the first finishing attempt makes polling return: the prediction it saw when its status is
      `succeeded`; an `Error` with the provider's error, or `Prediction failed`, when the status is
      `failed` or `canceled`; an `Error` with the status text when the response is not ok; and the
      engine's error when the request or the parsing of its body throws, or the body is `null`. */
  lemma PollOutcome(check: nat -> Polled, show: Json -> string, i: nat, maxAttempts: nat, k: nat)
    requires k < maxAttempts && FirstFinished(check, show, i, k)
    ensures var r := Poll(check, show, i, maxAttempts);
      var p := check(k);
      (p.PollThrew? ==> r == Thrown(None)) &&
      (p.Polled? && !p.ok ==> r == Thrown(Some("Failed to check prediction status: " + p.statusText))) &&
      (p.Polled? && p.ok && (p.body.None? || Nullish(p.body.value)) ==> r == Thrown(None)) &&
      (p.Polled? && p.ok && p.body.Some? && !Nullish(p.body.value) ==>
        var prediction := p.body.value;
        var status := Member(prediction, "status");
        (status == JStr("succeeded") ==> r == Normal(prediction)) &&
        (status == JStr("failed") || status == JStr("canceled") ==>
           r == Thrown(Some(Str(show, Or(Member(prediction, "error"), JStr("Prediction failed")))))))
  {
    PollFirst(check, show, i, maxAttempts, k);
  }

  /** When every attempt within the bound is pending, polling throws the timeout error. */
  lemma {:induction false} PollTimesOut(check: nat -> Polled, show: Json -> string, i: nat, maxAttempts: nat)
    requires forall j :: i <= j < maxAttempts ==> Attempt(check(j), show).Pending?
    ensures Poll(check, show, i, maxAttempts) == Thrown(Some("Prediction timed out"))
    decreases maxAttempts - i
  {
    if i < maxAttempts {
      PollTimesOut(check, show, i + 1, maxAttempts);
    }
  }

  /** Polling makes at most `maxAttempts` status requests: answers to later requests do not
      matter. */
  lemma {:induction false} PollBounded(check: nat -> Polled, check': nat -> Polled, show: Json -> string, i: nat, maxAttempts: nat)
    requires forall j :: i <= j < maxAttempts ==> check(j) == check'(j)
    ensures Poll(check, show, i, maxAttempts) == Poll(check', show, i, maxAttempts)
    decreases maxAttempts - i
  {
    if i < maxAttempts {
      PollBounded(check, check', show, i + 1, maxAttempts);
    }
  }

  // ---------------------------------------------------------------------------------------------
  // The route.

  /** The model name the stored images are filed under. */
  const ModelName: string := "tylerbishopdev-tyler"

  /** The answer to Replicate's prediction request: the request throws, or a response with its `ok`,
      its HTTP status, its status text and its parsed body (`None` when `response.json()`
      throws). */
  datatype Upstream = UpstreamThrew | Upstream(ok: bool, status: nat, statusText: string, body: Option<Json>)

  /** The route's answers. `RouteError` is the 500 answer to a thrown error, carrying the error's
      message (`None` for the engine's own message). */
  datatype ReplicateResponse =
    | MissingToken
    | UpstreamError(status: nat, reason: string)
    | PredictionFailed(error: Json)
    | Generated(requestId: Json, images: seq<Json>, retrievedAt: string)
    | RouteError(message: Option<string>)

  function HttpStatus(r: ReplicateResponse): nat {
    match r
    case UpstreamError(status, _) => status
    case Generated(_, _, _) => 200
    case _ => 500
  }

  /** The `Promise.all` over the output urls: `{url, stored_url}` per url, in order, the `index`-th
      stored under the field name `image_index`. */
  function Images(st: Storage, show: Json -> string, urls: seq<Json>, requestId: Json): (r: seq<Json>)
    ensures |r| == |urls|
    ensures forall i :: 0 <= i < |urls| ==>
      r[i] == JObj([("url", urls[i]), ("stored_url", StoreMediaFile(st, urls[i], ModelName, Str(show, requestId), FieldName("image", i)))])
  {
    seq(|urls|, i requires 0 <= i < |urls| =>
      JObj([("url", urls[i]), ("stored_url", StoreMediaFile(st, urls[i], ModelName, Str(show, requestId), FieldName("image", i)))]))
  }

  /** `result.id || \`replicate-${Date.now()}\``. */
  function RequestIdOf(st: Storage, result: Json): Json {
    Or(Member(result, "id"), JStr("replicate-" + NatToString(st.now)))
  }

  /** The answer built from the final prediction: `result.output || []` must be an array (`.map` on
      anything else throws a TypeError). */
  function Finish(st: Storage, show: Json -> string, retrievedAt: string, result: Json): ReplicateResponse {
    var requestId := RequestIdOf(st, result);
    var outputUrls := Or(Member(result, "output"), JArr([]));
    if outputUrls.JArr? then Generated(requestId, Images(st, show, outputUrls.items, requestId), retrievedAt)
    else RouteError(None)
  }

  /** Polling happens only for these statuses. */
  predicate Running(result: Json) {
    Member(result, "status") == JStr("processing") || Member(result, "status") == JStr("starting")
  }

  /** What `POST` answers. `token` is `REPLICATE_API_TOKEN`, `body` what `request.json()` gives
      (`None` when it throws), `upstream` the answer to the prediction request for a given input,
      `check` the answers to the status requests, and `retrievedAt` the ISO rendering of the clock. */
  function Generate(st: Storage, show: Json -> string, retrievedAt: string, token: Option<string>, body: Option<Json>,
                    upstream: Fields -> Upstream, check: nat -> Polled): ReplicateResponse {
    match body
    case None => RouteError(None)
    case Some(b) =>
      if token.None? || token.value == "" then MissingToken
      else if Nullish(b) then RouteError(None)
      else
        match upstream(InputOf(b))
        case UpstreamThrew => RouteError(None)
        case Upstream(ok, status, statusText, responseBody) =>
          if !ok then UpstreamError(status, "Replicate API error: " + statusText)
          else
            match responseBody
            case None => RouteError(None)
            case Some(result) =>
              if Nullish(result) then RouteError(None)
              else if Member(result, "status") == JStr("failed") then
                PredictionFailed(Or(Member(result, "error"), JStr("Prediction failed")))
              else
                var final := if Running(result) then Poll(check, show, 0, MaxAttempts) else Normal(result);
                match final
                case Thrown(message) => RouteError(message)
                case Normal(prediction) => Finish(st, show, retrievedAt, prediction)
  }

  /** `POST`. */
  method HandleReplicate(st: Storage, show: Json -> string, retrievedAt: string, token: Option<string>, body: Option<Json>,
                         upstream: Fields -> Upstream, check: nat -> Polled)
    returns (response: ReplicateResponse)
    ensures response == Generate(st, show, retrievedAt, token, body, upstream, check)
  {
    if body.None? {
      return RouteError(None);
    }
    var replicateToken := token;
    if replicateToken.None? || replicateToken.value == "" {
      return MissingToken;
    }
    if Nullish(body.value) {
      return RouteError(None);
    }
    var input := BuildInput(body.value);

    var answer := upstream(input);
    if answer.UpstreamThrew? {
      return RouteError(None);
    }
    if !answer.ok {
      return UpstreamError(answer.status, "Replicate API error: " + answer.statusText);
    }
    if answer.body.None? {
      return RouteError(None);
    }
    var result := answer.body.value;
    if Nullish(result) {
      return RouteError(None);
    }
    if Member(result, "status") == JStr("failed") {
      return PredictionFailed(Or(Member(result, "error"), JStr("Prediction failed")));
    }
    if Member(result, "status") == JStr("processing") || Member(result, "status") == JStr("starting") {
      var polled := PollForCompletion(check, show, MaxAttempts);
      if polled.Thrown? {
        return RouteError(polled.message);
      }
      result := polled.value;
    }

    var requestId := Or(Member(result, "id"), JStr("replicate-" + NatToString(st.now)));
    var outputUrls := Or(Member(result, "output"), JArr([]));
    if !outputUrls.JArr? {
      return RouteError(None);
    }
    var processedImages := Images(st, show, outputUrls.items, requestId);
    return Generated(requestId, processedImages, retrievedAt);
  }

  /** A parsed body without a token is answered with the explicit 500 before any request to
      Replicate: the answer does not depend on Replicate at all. */
  lemma TokenChecked(st: Storage, show: Json -> string, retrievedAt: string, token: Option<string>, body: Option<Json>,
                     upstream: Fields -> Upstream, check: nat -> Polled, upstream': Fields -> Upstream, check': nat -> Polled)
    requires body.Some? && (token.None? || token.value == "")
    ensures Generate(st, show, retrievedAt, token, body, upstream, check) == MissingToken
    ensures Generate(st, show, retrievedAt, token, body, upstream', check') == MissingToken
    ensures HttpStatus(MissingToken) == 500
  {
  }

  /** Only a prediction that is still `processing` or `starting` is polled: otherwise the answer does
      not depend on the status requests. */
  lemma PollOnlyWhenRunning(st: Storage, show: Json -> string, retrievedAt: string, token: Option<string>, body: Option<Json>,
                            upstream: Fields -> Upstream, check: nat -> Polled, check': nat -> Polled)
    requires body.Some? && upstream(InputOf(body.value)).Upstream? && upstream(InputOf(body.value)).body.Some?
    requires !Running(upstream(InputOf(body.value)).body.value)
    ensures Generate(st, show, retrievedAt, token, body, upstream, check) ==
            Generate(st, show, retrievedAt, token, body, upstream, check')
  {
  }

  /** A non-ok answer from Replicate is passed on with its HTTP status; a `failed` prediction is a
      500 whose error is the prediction's, or "Prediction failed". */
  lemma UpstreamFailures(st: Storage, show: Json -> string, retrievedAt: string, token: Option<string>, body: Option<Json>,
                         upstream: Fields -> Upstream, check: nat -> Polled)
    requires body.Some? && token.Some? && token.value != "" && !Nullish(body.value)
    ensures var answer := upstream(InputOf(body.value));
      var r := Generate(st, show, retrievedAt, token, body, upstream, check);
      (answer.Upstream? && !answer.ok ==> r.UpstreamError? && HttpStatus(r) == answer.status) &&
      (answer.Upstream? && answer.ok && answer.body.Some? && !Nullish(answer.body.value) &&
       Member(answer.body.value, "status") == JStr("failed") ==>
         HttpStatus(r) == 500 && Truthy(r.error) &&
         r.error == (if Truthy(Member(answer.body.value, "error")) then Member(answer.body.value, "error") else JStr("Prediction failed")))
  {
  }

  /** A generated answer carries one image per output url, in order, each `{url, stored_url}` with
      the stored copy filed under `image_index`; its request id is the prediction's id, or
      `replicate-` and the clock when the id is falsy. */
  lemma GeneratedShape(st: Storage, show: Json -> string, retrievedAt: string, result: Json)
    ensures var r := Finish(st, show, retrievedAt, result);
      var output := Member(result, "output");
      (r.Generated? <==> !Truthy(output) || output.JArr?) &&
      (r.Generated? ==>
        var urls := if Truthy(output) then output.items else [];
        HttpStatus(r) == 200 && r.retrievedAt == retrievedAt &&
        |r.images| == |urls| &&
        (forall i :: 0 <= i < |urls| ==>
           Get(r.images[i].fields, "url") == urls[i] &&
           Get(r.images[i].fields, "stored_url") ==
             StoreMediaFile(st, urls[i], ModelName, Str(show, r.requestId), FieldName("image", i))) &&
        r.requestId == (if Truthy(Member(result, "id")) then Member(result, "id") else JStr("replicate-" + NatToString(st.now))))
  {
  }
}
