/** The language-model side (apps/libs/openai.ts): the `MusicBrief` type guard,
    the defensive text extraction, and the two generators with their failure
    ladder. The model endpoint, `JSON.parse` and `JSON.stringify` are
    collaborators passed in as functions. */
module OpenAi {
  import opened Js

  // ---------------------------------------------------------------------------
  // Property names
  // ---------------------------------------------------------------------------

  const MOOD := Ascii("mood")
  const ENERGY := Ascii("energy")
  const TENSION := Ascii("tension")
  const BPM := Ascii("bpm")
  const DURATION_SEC := Ascii("duration_sec")
  const LOOPABLE := Ascii("loopable")
  const KEY_SUGGESTION := Ascii("key_suggestion")
  const INSTRUMENT_FOCUS := Ascii("instrument_focus")
  const TEXTURE_NOTES := Ascii("texture_notes")
  const RATIONALE := Ascii("rationale")

  const OUTPUT := Ascii("output")
  const CONTENT := Ascii("content")
  const TYPE := Ascii("type")
  const TEXT := Ascii("text")
  const OUTPUT_TEXT := Ascii("output_text")

  /** The property names `type` and `text` differ in their second code unit. */
  lemma KeysDistinct()
    ensures TYPE != TEXT
  {
    assert TYPE[1] != TEXT[1];
  }

  // ---------------------------------------------------------------------------
  // isMusicBrief
  // ---------------------------------------------------------------------------

  /** `isMusicBrief(x)`: a check of JavaScript types only. It does not look at
      value ranges, at the order of the two BPM bounds, at which mood is named,
      at the elements of `instrument_focus`, at `key_suggestion`, or at extra
      properties. */
  predicate IsMusicBrief(x: JsValue) {
    && Truthy(x)
    && Prop(x, MOOD).Str?
    && Prop(x, ENERGY).Number?
    && Prop(x, TENSION).Number?
    && Prop(x, BPM).Arr? && |Prop(x, BPM).items| == 2
    && Prop(x, BPM).items[0].Number? && Prop(x, BPM).items[1].Number?
    && Prop(x, DURATION_SEC).Number?
    && Prop(x, LOOPABLE).Bool?
    && Prop(x, INSTRUMENT_FOCUS).Arr?
    && Prop(x, TEXTURE_NOTES).Str?
    && Prop(x, RATIONALE).Str?
  }

  /** The fields `isMusicBrief` vouches for, as typed values. `instrumentFocus`
      holds whatever the array held: its elements are not checked. */
  datatype MusicBrief = MusicBrief(
    mood: JsString,
    energy: real,
    tension: real,
    bpmLow: real,
    bpmHigh: real,
    durationSec: real,
    loopable: bool,
    instrumentFocus: seq<JsValue>,
    textureNotes: JsString,
    rationale: JsString)

  /** A JSON object carrying `b`, on top of any other properties `extra`. */
  function BriefToJson(b: MusicBrief, extra: map<JsString, JsValue>): JsValue {
    Obj(extra + map[
      MOOD := Str(b.mood),
      ENERGY := Number(b.energy),
      TENSION := Number(b.tension),
      BPM := Arr([Number(b.bpmLow), Number(b.bpmHigh)]),
      DURATION_SEC := Number(b.durationSec),
      LOOPABLE := Bool(b.loopable),
      INSTRUMENT_FOCUS := Arr(b.instrumentFocus),
      TEXTURE_NOTES := Str(b.textureNotes),
      RATIONALE := Str(b.rationale)])
  }

  /** Reads the typed fields back out of a JSON value. */
  function DecodeBrief(x: JsValue): (r: Option<MusicBrief>)
    ensures r.Some? ==> && Prop(x, MOOD) == Str(r.value.mood)
                        && Prop(x, ENERGY) == Number(r.value.energy)
                        && Prop(x, TENSION) == Number(r.value.tension)
                        && Prop(x, BPM) == Arr([Number(r.value.bpmLow), Number(r.value.bpmHigh)])
                        && Prop(x, DURATION_SEC) == Number(r.value.durationSec)
                        && Prop(x, LOOPABLE) == Bool(r.value.loopable)
                        && Prop(x, INSTRUMENT_FOCUS) == Arr(r.value.instrumentFocus)
                        && Prop(x, TEXTURE_NOTES) == Str(r.value.textureNotes)
                        && Prop(x, RATIONALE) == Str(r.value.rationale)
  {
    match (Prop(x, MOOD), Prop(x, ENERGY), Prop(x, TENSION), Prop(x, BPM), Prop(x, DURATION_SEC))
    case (Str(mood), Number(energy), Number(tension), Arr(bpm), Number(duration)) =>
      if |bpm| != 2 || !bpm[0].Number? || !bpm[1].Number? then None
      else
        (match (Prop(x, LOOPABLE), Prop(x, INSTRUMENT_FOCUS), Prop(x, TEXTURE_NOTES), Prop(x, RATIONALE))
         case (Bool(loopable), Arr(instruments), Str(texture), Str(rationale)) =>
           assert bpm == [bpm[0], bpm[1]];
           Some(MusicBrief(mood, energy, tension, bpm[0].n, bpm[1].n, duration, loopable, instruments, texture, rationale))
         case _ => None)
    case _ => None
  }

  /** The type guard accepts exactly the values that carry a typed brief. */
  lemma IsMusicBriefIffDecodes(x: JsValue)
    ensures IsMusicBrief(x) <==> DecodeBrief(x).Some?
  {
    if DecodeBrief(x).Some? {
      assert Prop(x, MOOD).Str?;
    }
  }

  /** Every typed brief passes the type guard, whatever else the object holds,
      and reads back unchanged. */
  lemma BriefRoundTrip(b: MusicBrief, extra: map<JsString, JsValue>)
    ensures IsMusicBrief(BriefToJson(b, extra))
    ensures DecodeBrief(BriefToJson(b, extra)) == Some(b)
  {
    var x := BriefToJson(b, extra);
    assert Prop(x, MOOD) == Str(b.mood);
    assert Prop(x, BPM) == Arr([Number(b.bpmLow), Number(b.bpmHigh)]);
    assert Prop(x, RATIONALE) == Str(b.rationale);
  }

  /** Nothing but an object can pass: `null`, `undefined`, `false`, `0` and
      `""` fail at the leading `x &&`, every other non-object fails at `mood`. */
  lemma OnlyObjectsAreBriefs(x: JsValue)
    requires !x.Obj?
    ensures !IsMusicBrief(x)
  {
  }

  /** The guard does not strengthen the declared type: reversed BPM bounds, an
      energy of 500, a negative tension, a mood outside the prompt's list,
      numbers in `instrument_focus` and a numeric `key_suggestion` all pass. */
  lemma AcceptsUncheckedValues()
    ensures IsMusicBrief(BriefToJson(
      MusicBrief(Ascii("party"), 500.0, -3.0, 120.0, 60.0, 0.0, false, [Number(1.0)], [], []),
      map[KEY_SUGGESTION := Number(7.0), Ascii("extra") := Null]))
  {
    BriefRoundTrip(MusicBrief(Ascii("party"), 500.0, -3.0, 120.0, 60.0, 0.0, false, [Number(1.0)], [], []),
                   map[KEY_SUGGESTION := Number(7.0), Ascii("extra") := Null]);
  }

  // ---------------------------------------------------------------------------
  // extractFirstText
  // ---------------------------------------------------------------------------

  /** `output?.output?.[0]?.content?.[0]`. */
  function FirstContent(response: JsValue): JsValue {
    First(Prop(First(Prop(response, OUTPUT)), CONTENT))
  }

  /** The first content item has `type === "output_text"` and a string `text`. */
  predicate HasOutputText(c0: JsValue) {
    Prop(c0, TYPE) == Str(OUTPUT_TEXT) && Prop(c0, TEXT).Str?
  }

  /** `extractFirstText(output)`: the text of the first content item of the
      first output item when that item is an `output_text`, otherwise a string
      `output_text` at the top level, otherwise nothing. */
  function ExtractFirstText(response: JsValue): (r: Option<JsString>)
    ensures HasOutputText(FirstContent(response)) ==> r == Some(Prop(FirstContent(response), TEXT).s)
    ensures !HasOutputText(FirstContent(response)) && Prop(response, OUTPUT_TEXT).Str? ==>
              r == Some(Prop(response, OUTPUT_TEXT).s)
    ensures r.None? <==> !HasOutputText(FirstContent(response)) && !Prop(response, OUTPUT_TEXT).Str?
  {
    var c0 := FirstContent(response);
    if Prop(c0, TYPE) == Str(OUTPUT_TEXT) && Prop(c0, TEXT).Str? then Some(Prop(c0, TEXT).s)
    else if Prop(response, OUTPUT_TEXT).Str? then Some(Prop(response, OUTPUT_TEXT).s)
    else None
  }

  /** A content item `{ type: "output_text", text }` with other properties. */
  function TextItem(text: JsString, extra: map<JsString, JsValue>): JsValue {
    Obj(extra + map[TYPE := Str(OUTPUT_TEXT), TEXT := Str(text)])
  }

  /** The documented response shape yields the first item's text, and it takes
      precedence over a top-level `output_text`. */
  lemma ExtractFromOutputItem(text: JsString, moreContent: seq<JsValue>, moreItems: seq<JsValue>,
                              itemExtra: map<JsString, JsValue>, extra: map<JsString, JsValue>)
    ensures ExtractFirstText(Obj(extra[OUTPUT := Arr([Obj(itemExtra[CONTENT := Arr([TextItem(text, map[])] + moreContent)])] + moreItems)]))
            == Some(text)
  {
    KeysDistinct();
    var c0 := TextItem(text, map[]);
    var item := Obj(itemExtra[CONTENT := Arr([c0] + moreContent)]);
    var response := Obj(extra[OUTPUT := Arr([item] + moreItems)]);
    assert First(Prop(response, OUTPUT)) == item;
    assert First(Prop(item, CONTENT)) == c0;
    assert Prop(c0, TYPE) == Str(OUTPUT_TEXT) && Prop(c0, TEXT) == Str(text);
  }

  /** When the first output item carries no content (as a reasoning item
      does), the top-level `output_text` is used. */
  lemma ExtractFallsBackToOutputText(text: JsString, first: map<JsString, JsValue>, moreItems: seq<JsValue>)
    requires CONTENT !in first
    ensures ExtractFirstText(Obj(map[OUTPUT := Arr([Obj(first)] + moreItems), OUTPUT_TEXT := Str(text)])) == Some(text)
  {
    var response := Obj(map[OUTPUT := Arr([Obj(first)] + moreItems), OUTPUT_TEXT := Str(text)]);
    assert First(Prop(response, OUTPUT)) == Obj(first);
    assert FirstContent(response) == Undefined;
  }

  /** A first content item of another type (a refusal, say) is skipped even if
      it has a string `text`; without a top-level `output_text` nothing is found. */
  lemma ExtractIgnoresOtherItemTypes(text: JsString, kind: JsString)
    requires kind != OUTPUT_TEXT
    ensures ExtractFirstText(Obj(map[OUTPUT := Arr([Obj(map[CONTENT := Arr([Obj(map[TYPE := Str(kind), TEXT := Str(text)])])])])])) == None
  {
    KeysDistinct();
    var c0 := Obj(map[TYPE := Str(kind), TEXT := Str(text)]);
    var response := Obj(map[OUTPUT := Arr([Obj(map[CONTENT := Arr([c0])])])]);
    assert FirstContent(response) == c0;
    assert Prop(c0, TYPE) == Str(kind);
    assert OUTPUT_TEXT !in response.props;
  }

  // ---------------------------------------------------------------------------
  // Error messages
  // ---------------------------------------------------------------------------

  const NO_BRIEF_TEXT := Ascii("Model returned no text for music brief.")
  const PARSE_FAILED := Ascii("Failed to parse music brief JSON. First 300 chars: \n")
  const SHAPE_MISMATCH := Ascii("Model output didn't match MusicBrief shape. First 300 chars: \n")
  const NO_PROMPT_TEXT := Ascii("No output generated from model.")

  const SNIPPET_LENGTH := 300

  /** `outputText.slice(0, 300)`: the first min(300, length) code units. */
  function Snippet(text: JsString): (r: JsString)
    ensures |r| == if |text| < SNIPPET_LENGTH then |text| else SNIPPET_LENGTH
    ensures r == text[..|r|]
  {
    if |text| <= SNIPPET_LENGTH then text else text[..SNIPPET_LENGTH]
  }

  // ---------------------------------------------------------------------------
  // generateMusicBrief
  // ---------------------------------------------------------------------------

  /** The user message: the snapshot itself when it is a string, its
      `JSON.stringify` otherwise. */
  function BriefPayload(snapshot: JsValue, stringify: JsValue -> JsString): (p: JsString)
    ensures snapshot.Str? ==> p == snapshot.s
    ensures !snapshot.Str? ==> p == stringify(snapshot)
  {
    if snapshot.Str? then snapshot.s else stringify(snapshot)
  }

  /** `if (!outputText)`: `undefined` and the empty string both count as no text. */
  predicate NoText(text: Option<JsString>) {
    text.None? || text.value == []
  }

  /** What `generateMusicBrief(snapshot)` resolves or rejects with. `respond`
      is the model call for a user message (the system prompt is fixed),
      `parse` is `JSON.parse` (`None` when it throws). */
  function BriefOutcome(snapshot: JsValue, respond: JsString -> Result<JsValue>,
                        parse: JsString -> Option<JsValue>, stringify: JsValue -> JsString): (r: Result<JsValue>)
    ensures r.Ok? ==> IsMusicBrief(r.value)
  {
    match respond(BriefPayload(snapshot, stringify))
    case Err(e) => Err(e)
    case Ok(response) =>
      var text := ExtractFirstText(response);
      if NoText(text) then Err(ErrorObject(NO_BRIEF_TEXT))
      else match parse(text.value)
        case None => Err(ErrorObject(PARSE_FAILED + Snippet(text.value)))
        case Some(parsed) =>
          if IsMusicBrief(parsed) then Ok(parsed)
          else Err(ErrorObject(SHAPE_MISMATCH + Snippet(text.value)))
  }

  /** The step-by-step `generateMusicBrief`, with its reassigned `parsed` and
      early throws, computes BriefOutcome. */
  method GenerateMusicBrief(snapshot: JsValue, respond: JsString -> Result<JsValue>,
                            parse: JsString -> Option<JsValue>, stringify: JsValue -> JsString)
    returns (r: Result<JsValue>)
    ensures r == BriefOutcome(snapshot, respond, parse, stringify)
    ensures r.Ok? ==> IsMusicBrief(r.value)
  {
    var userPayload := if snapshot.Str? then snapshot.s else stringify(snapshot);
    var reply := respond(userPayload);
    if reply.Err? {
      return Err(reply.error);
    }
    var outputText := ExtractFirstText(reply.value);
    if outputText.None? || outputText.value == [] {
      return Err(ErrorObject(NO_BRIEF_TEXT));
    }
    var parsed: JsValue;
    var attempt := parse(outputText.value);
    if attempt.None? {
      var snippet := Snippet(outputText.value);
      return Err(ErrorObject(PARSE_FAILED + snippet));
    }
    parsed := attempt.value;
    if !IsMusicBrief(parsed) {
      var snippet := Snippet(outputText.value);
      return Err(ErrorObject(SHAPE_MISMATCH + snippet));
    }
    r := Ok(parsed);
  }

  /** The failure ladder: a failed call is passed on unchanged, then missing
      text, then unparsable text, then a value of the wrong shape, each with
      its own message; the first failing step decides. Success returns exactly
      what `JSON.parse` produced, and it passes the type guard. */
  lemma BriefFailureOrder(snapshot: JsValue, respond: JsString -> Result<JsValue>,
                          parse: JsString -> Option<JsValue>, stringify: JsValue -> JsString)
    ensures var reply := respond(BriefPayload(snapshot, stringify));
      var r := BriefOutcome(snapshot, respond, parse, stringify);
      && (reply.Err? ==> r == Err(reply.error))
      && (reply.Ok? && NoText(ExtractFirstText(reply.value)) ==> r == Err(ErrorObject(NO_BRIEF_TEXT)))
      && (reply.Ok? && !NoText(ExtractFirstText(reply.value)) ==>
            var text := ExtractFirstText(reply.value).value;
            && (parse(text).None? ==> r == Err(ErrorObject(PARSE_FAILED + text[..if |text| < 300 then |text| else 300])))
            && (parse(text).Some? && !IsMusicBrief(parse(text).value) ==>
                  r == Err(ErrorObject(SHAPE_MISMATCH + text[..if |text| < 300 then |text| else 300])))
            && (parse(text).Some? && IsMusicBrief(parse(text).value) ==> r == Ok(parse(text).value)))
      && (r.Ok? <==> reply.Ok? && !NoText(ExtractFirstText(reply.value))
                     && parse(ExtractFirstText(reply.value).value).Some?
                     && IsMusicBrief(parse(ExtractFirstText(reply.value).value).value))
  {
    var reply := respond(BriefPayload(snapshot, stringify));
    if reply.Ok? && !NoText(ExtractFirstText(reply.value)) {
      var text := ExtractFirstText(reply.value).value;
      assert Snippet(text) == text[..if |text| < 300 then |text| else 300];
    }
  }

  // ---------------------------------------------------------------------------
  // String.prototype.trim
  // ---------------------------------------------------------------------------

  /** ECMAScript WhiteSpace and LineTerminator code units, the set `trim`
      removes: TAB, LF, VT, FF, CR, SPACE, NBSP, OGHAM SPACE MARK, U+2000 to
      U+200A, LINE and PARAGRAPH SEPARATOR, NNBSP, MMSP, IDEOGRAPHIC SPACE and
      the byte order mark. */
  predicate IsJsWhitespace(c: CodeUnit) {
    || 0x09 <= c <= 0x0D
    || c == 0x20 || c == 0xA0 || c == 0x1680
    || 0x2000 <= c <= 0x200A
    || c == 0x2028 || c == 0x2029 || c == 0x202F || c == 0x205F
    || c == 0x3000 || c == 0xFEFF
  }

  /** `s.trimStart()`: the suffix left after the leading whitespace. */
  function TrimStart(s: JsString): (r: JsString)
    ensures |r| <= |s| && r == s[|s| - |r|..]
    ensures forall k :: 0 <= k < |s| - |r| ==> IsJsWhitespace(s[k])
    ensures r != [] ==> !IsJsWhitespace(r[0])
  {
    if s != [] && IsJsWhitespace(s[0]) then TrimStart(s[1..]) else s
  }

  /** `s.trimEnd()`: the prefix left before the trailing whitespace. */
  function TrimEnd(s: JsString): (r: JsString)
    ensures |r| <= |s| && r == s[..|r|]
    ensures forall k :: |r| <= k < |s| ==> IsJsWhitespace(s[k])
    ensures r != [] ==> !IsJsWhitespace(r[|r| - 1])
  {
    if s != [] && IsJsWhitespace(s[|s| - 1]) then TrimEnd(s[..|s| - 1]) else s
  }

  /** `s.trim()`. */
  function Trim(s: JsString): JsString {
    TrimEnd(TrimStart(s))
  }

  /** `r` is the run of `s` starting at `i` with only whitespace before and
      after it, and it neither starts nor ends with whitespace. */
  predicate TrimmedAt(s: JsString, i: nat, r: JsString) {
    && i + |r| <= |s|
    && r == s[i..i + |r|]
    && (forall k :: 0 <= k < i ==> IsJsWhitespace(s[k]))
    && (forall k :: i + |r| <= k < |s| ==> IsJsWhitespace(s[k]))
    && (r != [] ==> !IsJsWhitespace(r[0]) && !IsJsWhitespace(r[|r| - 1]))
  }

  /** `trim` keeps such a run. */
  lemma TrimKeepsTheCore(s: JsString)
    ensures TrimmedAt(s, |s| - |TrimStart(s)|, Trim(s))
  {
    TrimmedAtOfParts(s, TrimStart(s), TrimEnd(TrimStart(s)));
  }

  /** A whitespace-free-at-the-front suffix `t` after leading whitespace, cut
      down to a whitespace-free-at-the-end prefix `r` before trailing
      whitespace, is such a run. */
  lemma TrimmedAtOfParts(s: JsString, t: JsString, r: JsString)
    requires |t| <= |s| && t == s[|s| - |t|..]
    requires forall k :: 0 <= k < |s| - |t| ==> IsJsWhitespace(s[k])
    requires t != [] ==> !IsJsWhitespace(t[0])
    requires |r| <= |t| && r == t[..|r|]
    requires forall k :: |r| <= k < |t| ==> IsJsWhitespace(t[k])
    requires r != [] ==> !IsJsWhitespace(r[|r| - 1])
    ensures TrimmedAt(s, |s| - |t|, r)
  {
    var i := |s| - |t|;
    assert r == s[i..i + |r|];
    forall k | i + |r| <= k < |s|
      ensures IsJsWhitespace(s[k])
    {
      assert s[k] == t[k - i];
    }
    if r != [] {
      assert r[0] == t[0];
    }
  }

  /** There is only one such run, so TrimmedAt specifies `trim` completely. */
  lemma TrimmedAtUnique(s: JsString, i: nat, r: JsString, j: nat, q: JsString)
    requires TrimmedAt(s, i, r) && TrimmedAt(s, j, q)
    ensures r == q
  {
    if r != [] && q != [] {
      // the first and the last non-whitespace code units fix both runs
      assert i == j;
    }
  }

  /** Trimming twice changes nothing more. */
  lemma TrimIdempotent(s: JsString)
    ensures Trim(Trim(s)) == Trim(s)
  {
    var r := Trim(s);
    TrimKeepsTheCore(s);
    if r != [] {
      assert TrimStart(r) == r;
      assert TrimEnd(r) == r;
    }
  }

  // ---------------------------------------------------------------------------
  // generateMusicPrompt
  // ---------------------------------------------------------------------------

  /** What `generateMusicPrompt(brief)` resolves or rejects with. `respond` is
      the model call for a user message, `stringifyIndented` is
      `JSON.stringify(brief, null, 2)`. */
  function PromptOutcome(brief: JsValue, respond: JsString -> Result<JsValue>,
                         stringifyIndented: JsValue -> JsString): Result<JsString>
  {
    match respond(stringifyIndented(brief))
    case Err(e) => Err(e)
    case Ok(response) =>
      var text := ExtractFirstText(response);
      if NoText(text) then Err(ErrorObject(NO_PROMPT_TEXT)) else Ok(Trim(text.value))
  }

  method GenerateMusicPrompt(brief: JsValue, respond: JsString -> Result<JsValue>,
                             stringifyIndented: JsValue -> JsString)
    returns (r: Result<JsString>)
    ensures r == PromptOutcome(brief, respond, stringifyIndented)
  {
    var reply := respond(stringifyIndented(brief));
    if reply.Err? {
      return Err(reply.error);
    }
    var outputText := ExtractFirstText(reply.value);
    if outputText.None? || outputText.value == [] {
      return Err(ErrorObject(NO_PROMPT_TEXT));
    }
    r := Ok(Trim(outputText.value));
  }

  /** The prompt generator passes a failed call on unchanged and fails with
      its own message exactly when the model answered without text. */
  lemma PromptFailures(brief: JsValue, respond: JsString -> Result<JsValue>,
                       stringifyIndented: JsValue -> JsString)
    ensures var reply := respond(stringifyIndented(brief));
      var r := PromptOutcome(brief, respond, stringifyIndented);
      && (reply.Err? ==> r == Err(reply.error))
      && (reply.Ok? ==> (r.Err? <==> NoText(ExtractFirstText(reply.value))))
      && (reply.Ok? && NoText(ExtractFirstText(reply.value)) ==> r == Err(ErrorObject(NO_PROMPT_TEXT)))
  {
  }

  /** Otherwise it returns the extracted text with leading and trailing
      whitespace removed and nothing else. */
  lemma PromptIsTrimmedText(brief: JsValue, respond: JsString -> Result<JsValue>,
                            stringifyIndented: JsValue -> JsString)
    requires respond(stringifyIndented(brief)).Ok?
    requires !NoText(ExtractFirstText(respond(stringifyIndented(brief)).value))
    ensures var text := ExtractFirstText(respond(stringifyIndented(brief)).value).value;
      var r := PromptOutcome(brief, respond, stringifyIndented);
      r.Ok? && TrimmedAt(text, |text| - |TrimStart(text)|, r.value)
  {
    var reply := respond(stringifyIndented(brief));
    var extracted := ExtractFirstText(reply.value);
    assert PromptOutcome(brief, respond, stringifyIndented) == Ok(Trim(extracted.value));
    TrimKeepsTheCore(extracted.value);
  }

  /** An answer of blanks gives the empty prompt, not an error. */
  lemma BlankAnswerGivesEmptyPrompt(brief: JsValue, respond: JsString -> Result<JsValue>,
                                    stringifyIndented: JsValue -> JsString)
    requires respond(stringifyIndented(brief)) == Ok(Obj(map[OUTPUT_TEXT := Str(Ascii("  "))]))
    ensures PromptOutcome(brief, respond, stringifyIndented) == Ok([])
  {
    var response := Obj(map[OUTPUT_TEXT := Str(Ascii("  "))]);
    assert FirstContent(response) == Undefined;
    var blank := Ascii("  ");
    assert blank[0] == 32 && blank[1] == 32;
    assert TrimStart(blank) == [];
  }
}
