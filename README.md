# grid-sound-ambient, modelled in Dafny

grid-sound-ambient turns a building sensor snapshot into ambient music. A
language model writes a "music brief" from the readings and then a
natural-language prompt from the brief. A music API composes audio from the
prompt. Helper libraries name and store the audio files and keep a history of
generations in a GridDB container.

This project models the rules that sit around those external services:

- `js.dfy` (module `Js`): the JavaScript values the code handles.
  - Strings are sequences of UTF-16 code units.
  - JSON-like values have JS truthiness and property access.
  - Thrown values are modelled, and so are `x || default` for environment
    variables and `n.toString()` for non-negative integers below 10^21, which
    every byte length is.
- `file_utils.dfy` (module `FileUtils`, for `apps/libs/fileUtils.ts`):
  - the audio filename transform;
  - an `AudioStore` class for the audio directory.
- `open_ai.dfy` (module `OpenAi`, for `apps/libs/openai.ts`):
  - the `isMusicBrief` type guard;
  - the defensive text extraction from a model response;
  - the two generators. `generateMusicBrief` has a failure ladder, and `generateMusicPrompt` trims its answer.
  - Each generator is a specification function plus the step-by-step method proved equal to it.
- `server.dfy` (module `Server`, for `apps/server.ts`):
  - the two POST handlers, as methods;
  - each returns the one response it sends and the calls it made, in order.
- `grid_db.dfy` (module `GridDb`, for `apps/libs/griddb.ts`):
  - the configuration guards and the id arithmetic;
  - the 20-column schema and the record/row shuffling;
  - the create-only-if-absent rule;
  - a `GridDbModule` class. It holds the lazily created client and a log of every request sent through it.

Collaborators are parameters of the operations that use them:

- the OpenAI endpoint (`JsString -> Result<JsValue>`);
- `JSON.parse` (`JsString -> Option<JsValue>`, where `None` means it threw) and `JSON.stringify`;
- the music API (`MusicRequest -> Upstream`);
- the GridDB store (a `Remote` value giving the answer to each kind of request);
- `new Date(s).toISOString()` and `new Date(s)`;
- the value of `Date.now()` and the random component of an id.

`apps/server.ts` has only two POST handlers: `POST /api/sensor/generate-prompt`
and `POST /api/music/compose`. Neither calls `fileUtils.ts` or `griddb.ts`, so
those two files are modelled as libraries in their own right. The model has no
generate-and-save pipeline.

In the filename, only the zone is lower-cased. The `T` and `Z` of the
timestamp part stay upper-case, and a zone such as `Cafeteria!!` gives
`cafeteria__`, with one `_` per replaced code unit.

## Model

| member | source | states |
|---|---|---|
| FileUtils.ReplaceNonAlnum | apps/libs/fileUtils.ts:19 | `replace(/[^a-zA-Z0-9]/g, '_')` keeps the length. At each position it keeps an ASCII letter or digit and writes `_` for any other code unit, including each half of a surrogate pair. |
| FileUtils.LowerAscii | apps/libs/fileUtils.ts:19 | On the ASCII-only result of the replacement, `toLowerCase` keeps the length and maps each code unit by ASCII lower-casing. |
| FileUtils.CleanTimestamp | apps/libs/fileUtils.ts:20 | `replace(/[:.]/g, '-')` keeps the length, puts `-` wherever there was `:` or `.`, and keeps every other code unit. |
| FileUtils.GenerateAudioFilename | apps/libs/fileUtils.ts:18-22 | Fails exactly when the timestamp is an invalid date, with the `RangeError` message "Invalid time value". Otherwise the result is the filename built from the zone and the ISO string. |
| FileUtils.CleanZoneAt | apps/libs/fileUtils.ts:19 | The zone part has the zone's length. A letter or digit becomes its lower-case self and everything else becomes `_`, so only `a-z`, `0-9` and `_` occur. |
| FileUtils.CleanZoneCollision | apps/libs/fileUtils.ts:19 | Two zones give the same zone part if and only if they have equal length and agree at every position, up to ASCII case or by both being non-alphanumeric. |
| FileUtils.CleanZoneExample | apps/libs/fileUtils.ts:19 | `Cafe!` and `cafe?` both give `cafe_`. |
| FileUtils.ZonesDifferingInCaseCollide | apps/libs/fileUtils.ts:18-22 | `Cafe!` and `cafe?` get the same filename for the same timestamp: there is no de-duplication. |
| FileUtils.CleanTimestampAt | apps/libs/fileUtils.ts:20 | The timestamp part keeps the length and has no `:` or `.`. Every other code unit, the upper-case `T` and `Z` included, is unchanged. |
| FileUtils.AudioFilenameLayout | apps/libs/fileUtils.ts:21 | The filename is exactly the zone part, `_`, the timestamp part and `.mp3`, with the lengths adding up, so it always ends in `.mp3`. |
| FileUtils.CanonicalIsoHasNoUnderscore | apps/libs/fileUtils.ts:20 | The timestamp part made from a string of either `toISOString` shape contains no `_`. |
| FileUtils.CleanTimestampInjective | apps/libs/fileUtils.ts:20 | On `toISOString` output, distinct ISO strings give distinct timestamp parts. |
| FileUtils.AudioFilenameSplits | apps/libs/fileUtils.ts:21 | When the timestamp parts hold no `_`, equal filenames have equal zone parts and equal timestamp parts. |
| FileUtils.AudioFilenameCollision | apps/libs/fileUtils.ts:18-22 | For `toISOString` output, two filenames are equal if and only if the zones clean to the same zone part and the instants are equal. |
| FileUtils.AudioStore.constructor | apps/libs/fileUtils.ts:9 | The store starts with the given directory path, directory flag and files, and satisfies its invariant. |
| FileUtils.AudioStore.EnsureAudioDirectory | apps/libs/fileUtils.ts:11-15 | Afterwards the directory exists and no file has changed. A call when the directory already exists changes nothing, so a second call is a no-op. |
| FileUtils.AudioStore.SaveAudioFile | apps/libs/fileUtils.ts:25-35 | The directory is ensured first. On a successful write, the result is `/audio/<filename>`, the store maps the filename to exactly the given bytes, nothing else changes, and the file then exists. A failed write rejects with its error and leaves the files as they were. |
| FileUtils.AudioStore.GetAudioFilePath | apps/libs/fileUtils.ts:38-40 | The path is the audio directory, one `/` and the filename. |
| FileUtils.AudioStore.NoFileWithoutDirectory | apps/libs/fileUtils.ts:11-46 | While the audio directory does not exist, `audioFileExists` is false for every name. The constructor establishes this and every store operation keeps it. |
| FileUtils.AudioStore.GetAudioFilePathInjective | apps/libs/fileUtils.ts:38-40 | Two names give the same full path if and only if they are the same name. This holds for names that `path.join` leaves as they are; see "Left out". |
| FileUtils.SaveTwiceLastWins | apps/libs/fileUtils.ts:25-35 | Two saves under one name report the same path, and the store keeps only the second buffer. |
| OpenAi.DecodeBrief | apps/libs/openai.ts:25-36 | A decoded brief has each typed field equal to the value under the corresponding JSON property. |
| OpenAi.IsMusicBriefIffDecodes | apps/libs/openai.ts:53-67 | The type guard holds if and only if the value carries a typed brief. That means `mood`, `texture_notes` and `rationale` are strings; `energy`, `tension` and `duration_sec` are numbers; `loopable` is a boolean; `bpm` is an array of exactly two numbers; and `instrument_focus` is an array. |
| OpenAi.BriefRoundTrip | apps/libs/openai.ts:53-67 | Every typed brief, laid over any other properties, passes the guard and decodes back to itself. |
| OpenAi.OnlyObjectsAreBriefs | apps/libs/openai.ts:55-56 | No non-object passes the guard: `null`, `undefined` and the falsy primitives fail at `x &&`, and every other non-object fails at `mood`. |
| OpenAi.AcceptsUncheckedValues | apps/libs/openai.ts:56-65 | The guard checks types only. Reversed BPM bounds, energy 500, negative tension, an unlisted mood, non-string instruments, a numeric `key_suggestion` and extra fields all pass. |
| OpenAi.ExtractFirstText | apps/libs/openai.ts:41-48 | The first content item of the first output item wins when it is an `output_text` item with a string `text`. Otherwise a string top-level `output_text` is used. The result is absent if and only if neither exists. |
| OpenAi.ExtractFromOutputItem | apps/libs/openai.ts:43-44 | The documented response shape yields the first item's text, even when a top-level `output_text` is also present. |
| OpenAi.ExtractFallsBackToOutputText | apps/libs/openai.ts:43-46 | A first output item without content, such as a reasoning item, falls back to the top-level `output_text`. |
| OpenAi.ExtractIgnoresOtherItemTypes | apps/libs/openai.ts:44-47 | A first content item of another type is skipped even when it has a string `text`. |
| OpenAi.Snippet | apps/libs/openai.ts:126 | The snippet is the prefix of the output text of length min(300, length). |
| OpenAi.BriefPayload | apps/libs/openai.ts:101-104 | The user message is the snapshot itself when it is a string, and its `JSON.stringify` otherwise. |
| OpenAi.BriefOutcome | apps/libs/openai.ts:117-137 | A brief is only ever returned when it passes `isMusicBrief`. |
| OpenAi.GenerateMusicBrief | apps/libs/openai.ts:72-138 | The step-by-step generator, with its reassigned `parsed` and early throws, computes BriefOutcome, and what it returns passes the guard. |
| OpenAi.BriefFailureOrder | apps/libs/openai.ts:117-137 | The failure ladder, where the first failing step decides. A failed model call is passed on unchanged. Then come no text ("Model returned no text…"), unparsable text (the parse message plus the snippet) and a wrong shape (the shape message plus the snippet). Otherwise the result is exactly the parsed value. Success holds if and only if every step passes. |
| OpenAi.TrimStart | apps/libs/openai.ts:173 | The result is the suffix left after the leading ECMAScript whitespace. Everything removed is whitespace, and the result does not start with whitespace. |
| OpenAi.TrimEnd | apps/libs/openai.ts:173 | The result is the prefix left before the trailing whitespace. Everything removed is whitespace, and the result does not end with whitespace. |
| OpenAi.TrimKeepsTheCore | apps/libs/openai.ts:173 | `trim` returns a contiguous run of the input with only whitespace before and after it, and the run neither starts nor ends with whitespace. |
| OpenAi.TrimmedAtUnique | apps/libs/openai.ts:173 | There is only one such run, so the property above determines `trim` completely. |
| OpenAi.TrimIdempotent | apps/libs/openai.ts:173 | Trimming twice gives the same result as trimming once. |
| OpenAi.GenerateMusicPrompt | apps/libs/openai.ts:140-174 | The step-by-step prompt generator computes its specification PromptOutcome. |
| OpenAi.PromptFailures | apps/libs/openai.ts:171-172 | A failed model call is passed on unchanged. Once the model has answered, the generator fails if and only if no text was extracted, and then with "No output generated from model." |
| OpenAi.PromptIsTrimmedText | apps/libs/openai.ts:171-173 | When text was extracted, the prompt is that text trimmed: the unique run without leading or trailing whitespace. |
| OpenAi.BlankAnswerGivesEmptyPrompt | apps/libs/openai.ts:172-173 | An answer of blanks is text, so it gives the empty prompt rather than an error. |
| Server.GeneratePrompt | apps/server.ts:28-61 | Missing body: 500 with the `TypeError` message as details. Falsy `timestamp` or `zone`: 400, even without a key, with no generator call. No OpenAI key: 500, with no generator call. Otherwise the brief generator runs on the body, and the prompt generator runs on exactly the brief it returned. A failure of either gives 500 "Failed to generate music prompt" with its message, or "Unknown error" as details. The status is 200 if and only if both generators succeed. |
| Server.SuccessCarriesValidatedBrief | apps/server.ts:43-53 | A 200 answer echoes the snapshot, carries a brief that passed `isMusicBrief`, and carries the prompt made from that brief. |
| Server.EnvelopeFields | apps/server.ts:48-53 | The success envelope holds the snapshot, the brief, the prompt and the time, each under its own name. |
| Server.FalsyFieldsAreMissing | apps/server.ts:33-35 | A zone of `""`, `0`, `false` or `null` is refused like an absent one. |
| Server.DefaultIfUndefined | apps/server.ts:65 | A destructuring default replaces `undefined` only. |
| Server.Compose | apps/server.ts:63-110 | Missing body: 500 "Internal server error". Falsy prompt: 400, before the key check. No ElevenLabs key: 500. Neither of the last two sends a request. Otherwise exactly one request is sent. A rejected fetch gives 500. A non-ok upstream gives the upstream status with the upstream text as `error` and no audio. Success gives 200 with `audio/mpeg`, the length and the attachment name as headers, and the audio bytes unchanged. |
| Server.ComposeDefaults | apps/server.ts:65-86 | The request carries exactly `prompt`, `music_length_ms` and `model_id`. The prompt is forwarded unchanged. An absent length becomes 60000 and an absent model `music_v1`; any given value, `null` included, is forwarded as it is. |
| Server.ContentLengthIsAudioLength | apps/server.ts:98-105 | The `Content-Length` of a successful answer reads back as the number of audio bytes sent. |
| Js.DecimalString | apps/server.ts:100 | `n.toString()` is a non-empty run of decimal digits without a leading zero. |
| Js.DecimalRoundTrip | apps/server.ts:100 | Reading the decimal rendering of `n` gives `n` back. |
| Js.OrDefault | apps/libs/griddb.ts:5-7 | `env || fallback` gives the variable when it is set to a non-empty string and the fallback otherwise. |
| GridDb.ConfiguredIffUrlSet | apps/libs/griddb.ts:4-11 | The store is configured if and only if `GRIDDB_WEBAPI_URL` is a non-empty string. Unset or empty credentials become `admin`. |
| GridDb.ColumnsFollowRecord | apps/libs/griddb.ts:91-112 | The schema has 20 columns: an INTEGER `id` first, then the 19 record fields in the interface's declaration order. Both timestamps are TIMESTAMP columns, and `id` is not a record field. |
| GridDb.ColumnNamesDistinct | apps/libs/griddb.ts:91-112 | No column is listed twice: the 20 columns are pairwise distinct both as fields and by the wire names sent in the schema. |
| GridDb.NameInjective | apps/libs/griddb.ts:91-112 | Two fields have the same wire name if and only if they are the same field. |
| GridDb.InsertDataCarriesRecord | apps/libs/griddb.ts:174-195 | The inserted row is every record field unchanged, plus the fresh id. Only `timestamp` and `generation_timestamp` are turned into dates, and the row fills exactly the schema's columns. |
| GridDb.InsertDataAt | apps/libs/griddb.ts:174-195 | Field by field: the id, the date of each timestamp, and every other field copied from the record. |
| GridDb.RowToRecordCopiesFields | apps/libs/griddb.ts:235-255 | A mapped record has exactly the 19 record fields, each copied from the row's property of the same name. The row's `id` is dropped. |
| GridDb.RowsToRecords | apps/libs/griddb.ts:289-309 | Mapping keeps the number and the order of the rows, one record per row. |
| GridDb.MakeId | apps/libs/griddb.ts:167-171 | 0 ≤ id ≤ 999,999,999 < 2,147,483,647, the INTEGER limit. id mod 1000 is the random component and id div 1000 is the clock reading mod 1000000. |
| GridDb.MakeIdCollision | apps/libs/griddb.ts:171 | Two ids are equal if and only if the clock readings agree modulo 1000000 and the random components agree. |
| GridDb.IdRepeatsAfterAMillionMilliseconds | apps/libs/griddb.ts:167-171 | The "unique" id is not unique over time: readings 1000000 ms apart with the same random component give the same id. |
| GridDb.CreateOnlyIfAbsent | apps/libs/griddb.ts:64-122 | A creation request is sent if and only if the store reports that the container does not exist, and it uses the 20 columns with a row key. An existing container is never recreated and counts as success. |
| GridDb.SchemaDoesNotMatter | apps/libs/griddb.ts:70-85 | For an existing container, the schema that is read decides nothing. An INTEGER id, any other id and a failed schema read lead to the same requests and the same result. |
| GridDb.Client.constructor | apps/libs/griddb.ts:18 | A client is built from the configuration. |
| GridDb.GridDbModule.constructor | apps/libs/griddb.ts:4-13 | At load time there is no client and nothing has been sent. |
| GridDb.GridDbModule.GetGridDBClient | apps/libs/griddb.ts:16-21 | The first call constructs a fresh client from the configuration. Every later call returns that same object. No request is sent. |
| GridDb.GridDbModule.CreateContainerIfNotExists | apps/libs/griddb.ts:58-128 | The requests sent are the existence check followed by either the schema read or the creation. A failed check or a failed creation is rethrown. |
| GridDb.GridDbModule.InitGridDB | apps/libs/griddb.ts:24-33 | A client exists afterwards. It is the previous one if there was one, and otherwise a fresh one built from the configuration. Then come the container requests, and failures are rethrown. |
| GridDb.GridDbModule.InitGridDBOnStartup | apps/libs/griddb.ts:36-55 | When unconfigured, nothing changes. Otherwise it runs the initialisation, and a failure is swallowed, never propagated. The client is kept, or created fresh if there was none. |
| GridDb.GridDbModule.SaveMusicGeneration | apps/libs/griddb.ts:154-210 | Unconfigured: success, with no state touched. Otherwise the initialisation runs, and its failure is rethrown before any insert. Then exactly one insert of the record's row under the computed id is sent, and the insert's outcome is returned. On every configured path the client is kept, or created fresh if there was none. |
| GridDb.GridDbModule.GetMusicGenerations | apps/libs/griddb.ts:213-262 | Unconfigured: `[]`, with no state touched. Otherwise the initialisation runs, then one select with order `generation_timestamp DESC` and limit 100 unless another is given. The rows come back mapped one record per row, and failures are rethrown. On every configured path the client is kept, or created fresh if there was none. |
| GridDb.GridDbModule.GetMusicGenerationsByZone | apps/libs/griddb.ts:265-316 | As above, with the filter `zone = ?` bound to the zone and a default limit of 50. The client is kept or created fresh in the same way. |

## Left out

- I/O and services.
  - The OpenAI `responses.create` calls, the ElevenLabs `fetch` and the GridDB client's requests are abstract. Each is a parameter that gives a result or an error.
  - The fixed system prompts, model name and request options of the OpenAI calls are not modelled.
- Store semantics. Ordering, the limit and zone filtering happen inside the GridDB library. The model records only that these were requested.
- `apps/libs/elevenlabs.ts` is not part of this model. Its defaults, key check and status handling repeat those of the compose handler.
- Dates and the clock.
  - `new Date(s).toISOString()` depends on the process time zone, so it is an input: `None` stands for an invalid date.
  - `new Date(s)` in the insert is an input reduced to a millisecond value or an Invalid Date.
  - `Date.now()` is an input `nat`.
  - `new Date().toISOString()` in the generate-prompt answer is an input string.
- GridDb.MakeId: the random component is an integer input in [0, 999]. This stands in for `Math.floor(Math.random() * 1000)`, because floating point is not modelled.
- JSON. `JSON.parse` and `JSON.stringify` are abstract functions. Numbers are `real`, and NaN and the infinities are not modelled. `JSON.parse` can give `Infinity` (for `1e400`), but the code only tests a number's `typeof` and truthiness, and there any non-zero `real` behaves as an infinity does.
- Js.Prop: reading a property of a string or an array (such as `length`) is not modelled. No key the code reads names one.
- Js.First: the first character of a string under `?.[0]` is not modelled. Every use reads a further property of the result, which is `undefined` on a string as well.
- FileUtils.LowerAscii: `toLowerCase` is modelled on ASCII only. That is all the replacement leaves behind.
- FileUtils.AudioStore.GetAudioFilePath: `path.join` normalisation is not modelled. The path is the directory, `/` and the name as given, and `..`, `.` and repeated separators are not resolved.
- FileUtils.AudioStore.SaveAudioFile:
  - files are keyed by the filename as given, not by the normalised path;
  - a failing `mkdirSync` is not modelled;
  - a partial write is not modelled; a write either stores every byte or fails without change.
- FileUtils.AudioStore.AudioFileExists is a predicate on the stored names. Its property is stated in SaveAudioFile's contract.
- Server.Compose: a failure while reading the upstream body (`response.text()` or `response.arrayBuffer()`) is not modelled. In the source it ends in the same 500 "Internal server error" as a rejected fetch.
- GridDb.RowToRecord: a `null` or `undefined` row, on which `row.timestamp` would throw a `TypeError`, is mapped to a record whose fields are all `undefined`. Rows come from the abstract store, which is not modelled.
- OpenAi: creating the OpenAI client when the module loads, from `OPENAI_API_KEY`, is not modelled, and neither is any failure of that constructor. If the SDK refuses an unset key there, the "not configured" 500 of the generate-prompt handler is reachable only with an empty key.
- Js.DecimalString: the exponent form `toString` uses from 10^21 on (`1e+21`), and the rounding of integers above 2^53 to the nearest double, are not modelled. The only rendered number is a byte length, far below both.
- Server.GeneratePrompt: the details of a missing body are V8's `TypeError` text for reading `timestamp`, which is engine-specific.
- Logging. Every `console` call is left out, the schema-drift messages of `createContainerIfNotExists` included.
- Server wiring outside the two handlers: CORS, the body parsers, static serving, the SPA catch-all, `listen` and the health endpoint. These hold no decision logic beyond a fixed answer.
- Concurrency. Each handler's awaits are taken as strictly sequential, and no two calls interleave.
- The React UI and the build configuration.
