/** The decision logic of the two POST handlers in apps/server.ts. Each handler
    is a method that returns the single response it sends and the list of
    collaborator calls it made, in order. */
module Server {
  import opened Js
  import OpenAi

  // ---------------------------------------------------------------------------
  // Responses
  // ---------------------------------------------------------------------------

  /** What `res.json(...)` or `res.send(buffer)` sends. */
  datatype Body = JsonBody(json: JsValue) | BinaryBody(bytes: Bytes)

  /** A status, the headers set with `res.set`, and the body. */
  datatype Response = Response(status: int, headers: map<JsString, JsString>, body: Body)

  /** `res.status(status).json(value)`; `res.json(value)` is status 200. */
  function JsonResponse(status: int, value: JsValue): Response {
    Response(status, map[], JsonBody(value))
  }

  const ERROR := Ascii("error")
  const DETAILS := Ascii("details")

  /** `{ error: message }`. */
  function ErrorBody(message: JsString): JsValue {
    Single(ERROR, Str(message))
  }

  // ---------------------------------------------------------------------------
  // POST /api/sensor/generate-prompt
  // ---------------------------------------------------------------------------

  const TIMESTAMP := Ascii("timestamp")
  const ZONE := Ascii("zone")
  const SENSOR_SNAPSHOT := Ascii("sensorSnapshot")
  const MUSIC_BRIEF := Ascii("musicBrief")
  const PROMPT := Ascii("prompt")

  const FIELDS_REQUIRED := Ascii("Timestamp and zone are required")
  const OPENAI_KEY_MISSING := Ascii("OpenAI API key not configured")
  const PROMPT_FAILED := Ascii("Failed to generate music prompt")
  const UNKNOWN_ERROR := Ascii("Unknown error")

  /** The message of the `TypeError` thrown by reading `timestamp` from an
      absent body. */
  function NullishReadMessage(body: JsValue): JsString {
    Ascii("Cannot read properties of ") + (if body.Null? then Ascii("null") else Ascii("undefined"))
    + Ascii(" (reading 'timestamp')")
  }

  /** `error instanceof Error ? error.message : 'Unknown error'`. */
  function Details(e: Thrown): JsString {
    match e
    case ErrorObject(message) => message
    case NonError => UNKNOWN_ERROR
  }

  /** The 500 answer of the `catch` block. */
  function GenerationFailed(e: Thrown): Response {
    JsonResponse(500, Obj(map[ERROR := Str(PROMPT_FAILED), DETAILS := Str(Details(e))]))
  }

  /** `{ sensorSnapshot, musicBrief, prompt, timestamp }`. */
  function PromptEnvelope(snapshot: JsValue, brief: JsValue, prompt: JsString, now: JsString): JsValue {
    Obj(map[SENSOR_SNAPSHOT := snapshot, MUSIC_BRIEF := brief, PROMPT := Str(prompt), TIMESTAMP := Str(now)])
  }

  /** A call of one of the two generators of apps/libs/openai.ts. */
  datatype GeneratorCall = BriefRequested(snapshot: JsValue) | PromptRequested(brief: JsValue)

  /** The two required fields are truthy. */
  predicate HasRequiredFields(body: JsValue) {
    Truthy(Prop(body, TIMESTAMP)) && Truthy(Prop(body, ZONE))
  }

  /** The model endpoint and the JSON functions the generators use. */
  datatype Generators = Generators(
    briefModel: JsString -> Result<JsValue>,
    promptModel: JsString -> Result<JsValue>,
    parse: JsString -> Option<JsValue>,
    stringify: JsValue -> JsString,
    stringifyIndented: JsValue -> JsString)

  function Brief(g: Generators, snapshot: JsValue): Result<JsValue> {
    OpenAi.BriefOutcome(snapshot, g.briefModel, g.parse, g.stringify)
  }

  function Prompt(g: Generators, brief: JsValue): Result<JsString> {
    OpenAi.PromptOutcome(brief, g.promptModel, g.stringifyIndented)
  }

  /** The handler for `POST /api/sensor/generate-prompt`. `body` is `req.body`,
      `openaiKey` is `process.env.OPENAI_API_KEY`, `now` is
      `new Date().toISOString()` at the time of the answer.
      Missing fields are reported before missing configuration, and neither
      makes a generator call; otherwise the brief generator runs on the body,
      the prompt generator on exactly its result, and the first failure
      becomes a 500 with its message. */
  method GeneratePrompt(body: JsValue, openaiKey: Option<JsString>, g: Generators, now: JsString)
    returns (resp: Response, calls: seq<GeneratorCall>)
    ensures body.Undefined? || body.Null? ==>
      resp == GenerationFailed(ErrorObject(NullishReadMessage(body))) && calls == []
    ensures !body.Undefined? && !body.Null? && !HasRequiredFields(body) ==>
      resp == JsonResponse(400, ErrorBody(FIELDS_REQUIRED)) && calls == []
    ensures !body.Undefined? && !body.Null? && HasRequiredFields(body) && !IsSet(openaiKey) ==>
      resp == JsonResponse(500, ErrorBody(OPENAI_KEY_MISSING)) && calls == []
    ensures !body.Undefined? && !body.Null? && HasRequiredFields(body) && IsSet(openaiKey) ==>
      && calls != [] && calls[0] == BriefRequested(body)
      && (Brief(g, body).Err? ==> calls == [BriefRequested(body)] && resp == GenerationFailed(Brief(g, body).error))
      && (Brief(g, body).Ok? ==>
            && calls == [BriefRequested(body), PromptRequested(Brief(g, body).value)]
            && var prompt := Prompt(g, Brief(g, body).value);
               && (prompt.Err? ==> resp == GenerationFailed(prompt.error))
               && (prompt.Ok? ==> resp == JsonResponse(200, PromptEnvelope(body, Brief(g, body).value, prompt.value, now))))
    ensures resp.status == 200 <==> |calls| == 2 && Brief(g, body).Ok? && Prompt(g, calls[1].brief).Ok?
  {
    calls := [];
    if body.Undefined? || body.Null? {
      // reading `sensorSnapshot.timestamp` throws inside the `try`
      return GenerationFailed(ErrorObject(NullishReadMessage(body))), calls;
    }
    var sensorSnapshot := body;
    if !Truthy(Prop(sensorSnapshot, TIMESTAMP)) || !Truthy(Prop(sensorSnapshot, ZONE)) {
      return JsonResponse(400, ErrorBody(FIELDS_REQUIRED)), calls;
    }
    if !IsSet(openaiKey) {
      return JsonResponse(500, ErrorBody(OPENAI_KEY_MISSING)), calls;
    }
    calls := calls + [BriefRequested(sensorSnapshot)];
    var musicBrief := OpenAi.GenerateMusicBrief(sensorSnapshot, g.briefModel, g.parse, g.stringify);
    assert musicBrief == Brief(g, body);
    if musicBrief.Err? {
      return GenerationFailed(musicBrief.error), calls;
    }
    calls := calls + [PromptRequested(musicBrief.value)];
    var prompt := OpenAi.GenerateMusicPrompt(musicBrief.value, g.promptModel, g.stringifyIndented);
    assert prompt == Prompt(g, calls[1].brief);
    if prompt.Err? {
      return GenerationFailed(prompt.error), calls;
    }
    resp := JsonResponse(200, PromptEnvelope(sensorSnapshot, musicBrief.value, prompt.value, now));
  }

  /** Whatever the generators do, a 200 answer carries a brief that passed the
      type guard, and the prompt that came from exactly that brief. */
  lemma SuccessCarriesValidatedBrief(body: JsValue, g: Generators, now: JsString)
    requires Brief(g, body).Ok? && Prompt(g, Brief(g, body).value).Ok?
    ensures var brief := Brief(g, body).value;
      var envelope := PromptEnvelope(body, brief, Prompt(g, brief).value, now);
      && OpenAi.IsMusicBrief(Prop(envelope, MUSIC_BRIEF))
      && Prop(envelope, SENSOR_SNAPSHOT) == body
      && Prop(envelope, PROMPT) == Str(Prompt(g, brief).value)
  {
    var brief := Brief(g, body).value;
    EnvelopeFields(body, brief, Prompt(g, brief).value, now);
  }

  /** The envelope holds each of its four parts under its own name. */
  lemma EnvelopeFields(snapshot: JsValue, brief: JsValue, prompt: JsString, now: JsString)
    ensures var envelope := PromptEnvelope(snapshot, brief, prompt, now);
      && Prop(envelope, SENSOR_SNAPSHOT) == snapshot
      && Prop(envelope, MUSIC_BRIEF) == brief
      && Prop(envelope, PROMPT) == Str(prompt)
      && Prop(envelope, TIMESTAMP) == Str(now)
  {
  }

  /** The falsy field values `""`, `0`, `false` and `null` are refused like an
      absent one. */
  lemma FalsyFieldsAreMissing(zone: JsValue)
    requires zone == Str([]) || zone == Number(0.0) || zone == Bool(false) || zone == Null
    ensures !HasRequiredFields(Obj(map[TIMESTAMP := Str(Ascii("2025-01-28T12:05:00")), ZONE := zone]))
  {
    assert TIMESTAMP != ZONE;
  }

  // ---------------------------------------------------------------------------
  // POST /api/music/compose
  // ---------------------------------------------------------------------------

  const MUSIC_LENGTH_MS := Ascii("music_length_ms")
  const MODEL_ID := Ascii("model_id")
  const DEFAULT_MUSIC_LENGTH_MS: real := 60000.0
  const DEFAULT_MODEL_ID := Ascii("music_v1")

  const PROMPT_REQUIRED := Ascii("Prompt is required")
  const ELEVENLABS_KEY_MISSING := Ascii("ElevenLabs API key not configured")
  const INTERNAL_ERROR := Ascii("Internal server error")

  const CONTENT_TYPE := Ascii("Content-Type")
  const CONTENT_LENGTH := Ascii("Content-Length")
  const CONTENT_DISPOSITION := Ascii("Content-Disposition")
  const AUDIO_MPEG := Ascii("audio/mpeg")
  const ATTACHMENT := Ascii("attachment; filename=\"generated-music.mp3\"")

  /** A destructuring default: it applies to `undefined` only, not to `null`. */
  function DefaultIfUndefined(v: JsValue, fallback: JsValue): (r: JsValue)
    ensures v.Undefined? ==> r == fallback
    ensures !v.Undefined? ==> r == v
  {
    if v.Undefined? then fallback else v
  }

  /** The request to the music API: the key of the `xi-api-key` header and the
      object whose `JSON.stringify` is the request body. */
  datatype MusicRequest = MusicRequest(apiKey: JsString, payload: JsValue)

  /** A status a `fetch` response can carry. */
  type HttpStatus = s: int | 200 <= s <= 599 witness 200

  /** What `fetch` and the reading of its body give: a rejection, or a status
      with the body read as text (`response.text()`) and as bytes
      (`response.arrayBuffer()`). */
  datatype Upstream = Rejected(thrown: Thrown) | Answered(status: HttpStatus, text: JsString, audio: Bytes)

  /** `response.ok`. */
  predicate IsOk(status: HttpStatus) { 200 <= status <= 299 }

  /** The request the handler sends for a body, defaults applied. */
  function ComposeRequest(body: JsValue, apiKey: JsString): MusicRequest {
    MusicRequest(apiKey, Obj(map[
      PROMPT := Prop(body, PROMPT),
      MUSIC_LENGTH_MS := DefaultIfUndefined(Prop(body, MUSIC_LENGTH_MS), Number(DEFAULT_MUSIC_LENGTH_MS)),
      MODEL_ID := DefaultIfUndefined(Prop(body, MODEL_ID), Str(DEFAULT_MODEL_ID))]))
  }

  /** The headers of a successful answer. */
  function AudioHeaders(audio: Bytes): map<JsString, JsString> {
    map[CONTENT_TYPE := AUDIO_MPEG,
        CONTENT_LENGTH := DecimalString(|audio|),
        CONTENT_DISPOSITION := ATTACHMENT]
  }

  /** The handler for `POST /api/music/compose`. `elevenLabsKey` is
      `process.env.ELEVENLABS_API_KEY`, `fetchMusic` the music API.
      A missing prompt is reported before a missing key, and neither sends a
      request; a non-ok upstream status is passed through with the upstream
      text; on success the audio is sent unchanged with its length. */
  method Compose(body: JsValue, elevenLabsKey: Option<JsString>, fetchMusic: MusicRequest -> Upstream)
    returns (resp: Response, requests: seq<MusicRequest>)
    ensures body.Undefined? || body.Null? ==>
      resp == JsonResponse(500, ErrorBody(INTERNAL_ERROR)) && requests == []
    ensures !body.Undefined? && !body.Null? && !Truthy(Prop(body, PROMPT)) ==>
      resp == JsonResponse(400, ErrorBody(PROMPT_REQUIRED)) && requests == []
    ensures !body.Undefined? && !body.Null? && Truthy(Prop(body, PROMPT)) && !IsSet(elevenLabsKey) ==>
      resp == JsonResponse(500, ErrorBody(ELEVENLABS_KEY_MISSING)) && requests == []
    ensures !body.Undefined? && !body.Null? && Truthy(Prop(body, PROMPT)) && IsSet(elevenLabsKey) ==>
      && var request := ComposeRequest(body, elevenLabsKey.value);
         && requests == [request]
         && match fetchMusic(request)
            case Rejected(_) => resp == JsonResponse(500, ErrorBody(INTERNAL_ERROR))
            case Answered(status, text, audio) =>
              if IsOk(status) then resp == Response(200, AudioHeaders(audio), BinaryBody(audio))
              else resp == JsonResponse(status, ErrorBody(text))
  {
    requests := [];
    if body.Undefined? || body.Null? {
      // destructuring `req.body` throws inside the `try`
      return JsonResponse(500, ErrorBody(INTERNAL_ERROR)), requests;
    }
    var prompt := Prop(body, PROMPT);
    var musicLengthMs := Prop(body, MUSIC_LENGTH_MS);
    if musicLengthMs.Undefined? {
      musicLengthMs := Number(DEFAULT_MUSIC_LENGTH_MS);
    }
    var modelId := Prop(body, MODEL_ID);
    if modelId.Undefined? {
      modelId := Str(DEFAULT_MODEL_ID);
    }
    if !Truthy(prompt) {
      return JsonResponse(400, ErrorBody(PROMPT_REQUIRED)), requests;
    }
    if !IsSet(elevenLabsKey) {
      return JsonResponse(500, ErrorBody(ELEVENLABS_KEY_MISSING)), requests;
    }
    var request := MusicRequest(elevenLabsKey.value,
      Obj(map[PROMPT := prompt, MUSIC_LENGTH_MS := musicLengthMs, MODEL_ID := modelId]));
    requests := requests + [request];
    var response := fetchMusic(request);
    if response.Rejected? {
      return JsonResponse(500, ErrorBody(INTERNAL_ERROR)), requests;
    }
    if !IsOk(response.status) {
      return JsonResponse(response.status, ErrorBody(response.text)), requests;
    }
    var audioBuffer := response.audio;
    resp := Response(200, AudioHeaders(audioBuffer), BinaryBody(audioBuffer));
  }

  /** The request forwards the prompt unchanged and fills in 60000 ms and
      `music_v1` only where the body leaves them out; an explicit `null` is
      forwarded as `null`. */
  lemma ComposeDefaults(body: JsValue, apiKey: JsString)
    ensures var p := ComposeRequest(body, apiKey).payload;
      && Prop(p, PROMPT) == Prop(body, PROMPT)
      && (Prop(body, MUSIC_LENGTH_MS).Undefined? ==> Prop(p, MUSIC_LENGTH_MS) == Number(60000.0))
      && (!Prop(body, MUSIC_LENGTH_MS).Undefined? ==> Prop(p, MUSIC_LENGTH_MS) == Prop(body, MUSIC_LENGTH_MS))
      && (Prop(body, MODEL_ID).Undefined? ==> Prop(p, MODEL_ID) == Str(Ascii("music_v1")))
      && (!Prop(body, MODEL_ID).Undefined? ==> Prop(p, MODEL_ID) == Prop(body, MODEL_ID))
      && p.props.Keys == {PROMPT, MUSIC_LENGTH_MS, MODEL_ID}
  {
    assert PROMPT != MODEL_ID && PROMPT != MUSIC_LENGTH_MS && MODEL_ID != MUSIC_LENGTH_MS;
  }

  /** A successful answer's `Content-Length` reads back as the number of audio
      bytes, which the body holds unchanged. */
  lemma ContentLengthIsAudioLength(audio: Bytes)
    ensures CONTENT_LENGTH in AudioHeaders(audio)
    ensures DecimalValue(AudioHeaders(audio)[CONTENT_LENGTH]) == Some(|audio|)
  {
    assert CONTENT_LENGTH != CONTENT_DISPOSITION;
    DecimalRoundTrip(|audio|);
  }
}
