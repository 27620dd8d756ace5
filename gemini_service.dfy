/**
 * services/geminiService.ts: `breakdownScript` around the remote call. The
 * call and `JSON.parse` are outside the model; their combined effect is the
 * `Reply` parameter, either the value they threw or the parsed body.
 */
module GeminiService {
  import opened Wrappers
  import opened Strings
  import opened Seqs
  import opened Types
  import Locales

  /** A parsed JSON value. Numbers are exact reals. */
  datatype Json =
    | JNull
    | JBool(b: bool)
    | JNumber(n: real)
    | JString(s: string)
    | JArray(items: seq<Json>)
    | JObject(fields: map<string, Json>)

  /** What the remote call and `JSON.parse` produced: a thrown value, or the parsed body. */
  datatype Reply = Rejected(reason: Thrown) | Parsed(body: Json)

  /** The three caller-supplied messages, already translated. */
  datatype Messages = Messages(apiKeyMissing: string, invalidResponse: string, general: string)

  /**
   * The request handed to the remote model: the model name, the language and
   * arguments the prompt is built from, and the response settings.
   */
  datatype GenerateRequest = GenerateRequest(
    model: string,
    lang: string,
    promptArgs: Locales.PromptTemplateArgs,
    responseMimeType: string,
    required: seq<string>)

  /** The prompt text of a request, from the repository's templates. */
  function Contents(request: GenerateRequest): string {
    Locales.GetPromptTemplate(Locales.SourceWording, request.lang, request.promptArgs)
  }

  /** The schema description of `visualDescription` in a request. */
  function VisualDescriptionHint(request: GenerateRequest): string {
    Locales.GetVisualDescSchemaDescription(request.lang)
  }

  const ModelName: string := "gemini-2.5-flash"
  const ResponseMimeType: string := "application/json"

  /** The schema's `required` list. */
  const RequiredFields: seq<string> := ["sceneNumber", "originalText", "visualDescription", "imagePrompt"]

  // ---- The item filter ----

  /** `item.key` on a parsed value other than `null`: an object's field, `undefined` (None) otherwise. */
  function Property(item: Json, key: string): Option<Json>
    requires item != JNull
  {
    if item.JObject? && key in item.fields then Some(item.fields[key]) else None
  }

  predicate IsNumber(v: Option<Json>) {
    v.Some? && v.value.JNumber?
  }

  predicate IsString(v: Option<Json>) {
    v.Some? && v.value.JString?
  }

  /** The filter's test: a number `sceneNumber` and string `originalText`, `visualDescription` and `imagePrompt`. */
  predicate IsWellFormedScene(item: Json) {
    item != JNull
    && IsNumber(Property(item, "sceneNumber"))
    && IsString(Property(item, "originalText"))
    && IsString(Property(item, "visualDescription"))
    && IsString(Property(item, "imagePrompt"))
  }

  /** The items the filter keeps when none of them makes it throw. */
  function KeepWellFormed(items: seq<Json>): seq<Json> {
    Filter(items, IsWellFormedScene)
  }

  /** The TypeError message of reading `sceneNumber` from `null`. */
  const NullAccessMessage: string :=
    "Cannot " + "read " + "properties " + "of null " + "(reading '" + "sceneNumber" + "')"

  /**
   * `parsedData.filter(...)` as written: the test reads `item.sceneNumber`
   * first, which throws on a `null` item, and the exception ends the filter.
   */
  function FilterAsWritten(items: seq<Json>): (r: Result<seq<Json>, Thrown>)
    ensures r.Failure? <==> JNull in items
    ensures r.Failure? ==> r.error == ErrorWith(NullAccessMessage)
    ensures r.Success? ==> r.value == KeepWellFormed(items)
  {
    if items == [] then Success([])
    else if items[0] == JNull then Failure(ErrorWith(NullAccessMessage))
    else
      match FilterAsWritten(items[1..])
      case Failure(e) => Failure(e)
      case Success(rest) => Success(if IsWellFormedScene(items[0]) then [items[0]] + rest else rest)
  }

  /**
   * A filtered item is a scene: every required field is present with its JSON
   * type. An absent or non-string `translatedText` is read as absent.
   */
  function ToScene(item: Json): (scene: Scene)
    requires IsWellFormedScene(item)
    ensures JNumber(scene.sceneNumber) == item.fields["sceneNumber"]
    ensures JString(scene.originalText) == item.fields["originalText"]
    ensures JString(scene.visualDescription) == item.fields["visualDescription"]
    ensures JString(scene.imagePrompt) == item.fields["imagePrompt"]
  {
    var f := item.fields;
    Scene(f["sceneNumber"].n, f["originalText"].s,
      if "translatedText" in f && f["translatedText"].JString? then Some(f["translatedText"].s) else None,
      f["visualDescription"].s, f["imagePrompt"].s)
  }

  // ---- Error classification ----

  const ApiKeyInvalidMarker: string := "API key not valid"
  const ApiKeyInvalidMessage: string := ApiKeyInvalidMarker + ". Please check your key."

  /** The catch block: `json` first, then the invalid-key text, then the general message. */
  function ClassifyError(e: Thrown, m: Messages): (message: string)
    ensures e.ErrorWith? && Contains(e.message, "json") ==> message == m.invalidResponse
    ensures e.ErrorWith? && !Contains(e.message, "json") && Contains(e.message, ApiKeyInvalidMarker)
      ==> message == ApiKeyInvalidMessage
    ensures e.NonError? ==> message == m.general
    ensures e.ErrorWith? && !Contains(e.message, "json") && !Contains(e.message, ApiKeyInvalidMarker)
      ==> message == m.general
  {
    match e
    case ErrorWith(msg) =>
      if Contains(msg, "json") then m.invalidResponse
      else if Contains(msg, ApiKeyInvalidMarker) then ApiKeyInvalidMessage
      else m.general
    case NonError => m.general
  }

  // ---- The whole call ----

  /** What the `try` block throws, if anything, or the scenes it returns. */
  function TryBlock(reply: Reply, m: Messages): Result<seq<Json>, Thrown> {
    match reply
    case Rejected(reason) => Failure(reason)
    case Parsed(body) =>
      if !body.JArray? then Failure(ErrorWith(m.invalidResponse))
      else FilterAsWritten(body.items)
  }

  /** The outcome of `breakdownScript` as written: the key guard, then the `try` block with every failure reclassified. */
  function Outcome(apiKey: string, m: Messages, reply: Reply): Result<seq<Json>, string> {
    if apiKey == "" then Failure(m.apiKeyMissing)
    else
      match TryBlock(reply, m)
      case Success(scenes) => Success(scenes)
      case Failure(e) => Failure(ClassifyError(e, m))
  }

  /**
   * `breakdownScript`. `targetWordCount` is the caller's rounded product of
   * duration and reading speed. `request` is the request sent, `None` when the
   * key guard fails before any client exists. The service passes no
   * translation language to the template, so its clause is always absent.
   */
  method BreakdownScript(
    apiKey: string, scriptText: string, duration: int, themeName: string, targetWordCount: int,
    aspectRatioValue: string, imageStylePrompt: string, characterDefinitions: string, lang: string,
    m: Messages, reply: Reply)
    returns (r: Result<seq<Json>, string>, request: Option<GenerateRequest>)
    ensures r == Outcome(apiKey, m, reply)
    ensures request.None? <==> apiKey == ""
    ensures request.Some? ==> request.value == GenerateRequest(ModelName, lang,
      Locales.PromptTemplateArgs(duration, themeName, targetWordCount, imageStylePrompt, aspectRatioValue,
        characterDefinitions, "", scriptText), ResponseMimeType, RequiredFields)
  {
    if apiKey == "" {
      return Failure(m.apiKeyMissing), None;
    }
    var args := Locales.PromptTemplateArgs(duration, themeName, targetWordCount, imageStylePrompt,
      aspectRatioValue, characterDefinitions, "", scriptText);
    request := Some(GenerateRequest(ModelName, lang, args, ResponseMimeType, RequiredFields));

    var caught: Option<Thrown> := None;
    var scenes: seq<Json> := [];
    match reply {
      case Rejected(reason) =>
        caught := Some(reason);
      case Parsed(body) =>
        if !body.JArray? {
          caught := Some(ErrorWith(m.invalidResponse));
        } else {
          match FilterAsWritten(body.items) {
            case Failure(e) => caught := Some(e);
            case Success(kept) => scenes := kept;
          }
        }
    }
    if caught.Some? {
      return Failure(ClassifyError(caught.value, m)), request;
    }
    return Success(scenes), request;
  }

  // ---- Properties of the outcome ----

  /** An empty key fails with the missing-key message whatever the remote side would have done. */
  lemma EmptyKeyFailsFirst(m: Messages, reply: Reply)
    ensures Outcome("", m, reply) == Failure(m.apiKeyMissing)
  {
  }

  /** Every failure carries one of the four messages the service can throw. */
  lemma FailureMessages(apiKey: string, m: Messages, reply: Reply)
    ensures Outcome(apiKey, m, reply).Failure? ==>
      Outcome(apiKey, m, reply).error in {m.apiKeyMissing, m.invalidResponse, ApiKeyInvalidMessage, m.general}
  {
  }

  /**
   * A successful call returned a parsed array, and its scenes are an
   * order-preserving subsequence of it that holds exactly its well-formed items.
   */
  lemma SuccessIsFilteredArray(apiKey: string, m: Messages, reply: Reply)
    requires Outcome(apiKey, m, reply).Success?
    ensures reply.Parsed? && reply.body.JArray?
    ensures var items, scenes := reply.body.items, Outcome(apiKey, m, reply).value;
      && IsSubsequence(scenes, items)
      && |scenes| <= |items|
      && (forall i :: 0 <= i < |scenes| ==> IsWellFormedScene(scenes[i]))
      && (forall i :: 0 <= i < |items| && IsWellFormedScene(items[i]) ==> items[i] in scenes)
      && (|scenes| == |items| <==> forall i :: 0 <= i < |items| ==> IsWellFormedScene(items[i]))
  {
    var items := reply.body.items;
    FilterIsSubsequence(items, IsWellFormedScene);
    FilterKeepsAllIff(items, IsWellFormedScene);
  }

  /** Every kept item has all of the schema's required fields. */
  lemma WellFormedHasRequiredFields(item: Json)
    requires IsWellFormedScene(item)
    ensures forall i :: 0 <= i < |RequiredFields| ==> RequiredFields[i] in item.fields
  {
  }

  /** Filtering the filter's own output changes nothing. */
  lemma KeepWellFormedIdempotent(items: seq<Json>)
    ensures KeepWellFormed(KeepWellFormed(items)) == KeepWellFormed(items)
    ensures FilterAsWritten(KeepWellFormed(items)) == Success(KeepWellFormed(items))
  {
    FilterIdempotent(items, IsWellFormedScene);
  }

  /** A parsed value that is not an array is never returned. */
  lemma NonArrayIsRejected(apiKey: string, m: Messages, body: Json)
    requires apiKey != "" && !body.JArray?
    ensures Outcome(apiKey, m, Parsed(body)) == Failure(ClassifyError(ErrorWith(m.invalidResponse), m))
  {
  }

  /**
   * The non-array error is caught by the same `try`, so it keeps its message
   * only if that message itself contains `json`.
   */
  lemma NonArrayReportedAsGeneral(apiKey: string, m: Messages, body: Json)
    requires apiKey != "" && !body.JArray?
    requires !Contains(m.invalidResponse, "json") && !Contains(m.invalidResponse, ApiKeyInvalidMarker)
    ensures Outcome(apiKey, m, Parsed(body)) == Failure(m.general)
  {
  }

  /** A message without a `j` or a `P` holds neither marker. */
  lemma UnmarkedMessage(message: string)
    requires 'j' !in message && 'P' !in message
    ensures !Contains(message, "json") && !Contains(message, ApiKeyInvalidMarker)
  {
    NotContainsMissingChar(message, "json", 0);
    NotContainsMissingChar(message, ApiKeyInvalidMarker, 1);
  }

  /** Neither marker letter occurs in the null-access message. */
  lemma NullAccessMessageLetters()
    ensures 'j' !in NullAccessMessage && 'P' !in NullAccessMessage
  {
  }

  /** One `null` item makes the whole call fail with the general message, even beside well-formed items. */
  lemma NullItemFailsWholeReply(apiKey: string, m: Messages, items: seq<Json>)
    requires apiKey != "" && JNull in items
    ensures Outcome(apiKey, m, Parsed(JArray(items))) == Failure(m.general)
  {
    var e := FilterAsWritten(items).error;
    NullAccessMessageLetters();
    UnmarkedMessage(e.message);
  }

  // ---- The intended behaviour ----

  /**
   * The outcome the code evidently means: the array check surfaces its own
   * message, and the filter drops a `null` item like any other malformed one.
   */
  function IntendedOutcome(apiKey: string, m: Messages, reply: Reply): (r: Result<seq<Json>, string>)
    ensures r.Success? ==> reply.Parsed? && reply.body.JArray? && r.value == KeepWellFormed(reply.body.items)
  {
    if apiKey == "" then Failure(m.apiKeyMissing)
    else
      match reply
      case Rejected(reason) => Failure(ClassifyError(reason, m))
      case Parsed(body) =>
        if !body.JArray? then Failure(m.invalidResponse)
        else Success(KeepWellFormed(body.items))
  }

  /** Intended: an array-less reply reports the invalid-response message, whatever its wording. */
  lemma IntendedNonArrayReportsInvalidResponse(apiKey: string, m: Messages, body: Json)
    requires apiKey != "" && !body.JArray?
    ensures IntendedOutcome(apiKey, m, Parsed(body)) == Failure(m.invalidResponse)
  {
  }

  /** Intended: every parsed array succeeds with its well-formed items, `null` items included in what is dropped. */
  lemma IntendedArrayAlwaysSucceeds(apiKey: string, m: Messages, items: seq<Json>)
    requires apiKey != ""
    ensures IntendedOutcome(apiKey, m, Parsed(JArray(items))) == Success(KeepWellFormed(items))
    ensures JNull !in KeepWellFormed(items)
  {
  }

  /** The two agree wherever the written code neither meets a non-array nor a `null` item. */
  lemma IntendedAgreesElsewhere(apiKey: string, m: Messages, reply: Reply)
    requires reply.Parsed? ==> reply.body.JArray? && JNull !in reply.body.items
    ensures IntendedOutcome(apiKey, m, reply) == Outcome(apiKey, m, reply)
  {
  }
}
