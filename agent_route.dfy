/** The server's intent endpoint, `POST /api/chat/agent`: it checks the
    uploaded form, picks the wake-word or the intent prompt from the state
    tag, asks the language model, strips code fences from its answer, parses
    it, stores a note for a `CREATE_NOTE` intent and answers with a JSON
    envelope. The model, `JSON.parse` and the note store are oracles passed
    in as functions; the handler itself keeps no state between calls. */
module AgentRoute {
  import opened Wrappers
  import opened Text
  import opened Json

  /** A multipart form field: an uploaded file or a plain text value. */
  datatype FormValue = File(mimeType: string, bytes: seq<bv8>) | TextField(text: string)

  /** The two fields the handler reads from `request.formData()`. */
  datatype Form = Form(audio: Option<FormValue>, state: Option<FormValue>)

  /** The inline audio part handed to the model (its base64 encoding is
      left to the oracle). */
  datatype AudioPart = AudioPart(bytes: seq<bv8>, mimeType: string)

  /** Which of the two prompts a call carries; its text is `PromptText`. */
  datatype Prompt = WakeCheck | IntentCheck

  /** One call of the model: the prompt and the audio part. */
  datatype ModelCall = ModelCall(prompt: Prompt, audio: AudioPart)

  /** What the note store answers to one insert. */
  datatype Stored = Stored | StoreFailed(message: string)

  datatype Response = Response(status: int, body: map<string, Value>)

  /** The response together with the two effects the handler can have. */
  datatype Handled = Handled(response: Response, modelCall: Option<ModelCall>, note: Option<Value>)

  /** A template literal that opens and closes on its own line: each line
      follows a line break. */
  function Lines(ls: seq<string>): string
    decreases |ls|
  {
    if ls == [] then "" else "\n" + ls[0] + Lines(ls[1..])
  }

  const WakePrompt: string := Lines([
    "        Listen to this audio. Does the user clearly say the name \"Ginger\" (or similar sounding like \"Jinger\")? ",
    "        If YES, return JSON: {\"detected\": true}. ",
    "        If NO, return JSON: {\"detected\": false}.",
    "        Only return the JSON.",
    "        "])

  const IntentPrompt: string := Lines(IntentLines)

  const DefaultMimeType := "audio/m4a"

  /** The message of the TypeError thrown when a non-empty text field stands
      where the audio file is expected. */
  const NotAFileMessage := "audioFile.arrayBuffer is not a function"

  /** The message of the TypeError thrown by `data.action` when the model's
      JSON is `null`. */
  const NullDataMessage := "Cannot read properties of null (reading 'action')"

  /** `!audioFile`: a missing field or an empty text value. */
  predicate AudioMissing(audio: Option<FormValue>) {
    audio == None || audio == Some(TextField(""))
  }

  /** `(state as string) || 'IDLE'` compared with `'IDLE'`: a missing or
      empty state counts as `IDLE`; a file value is truthy and never equals
      the string. */
  predicate IsIdleTag(state: Option<FormValue>) {
    state == None || state == Some(TextField("")) || state == Some(TextField("IDLE"))
  }

  function PromptFor(state: Option<FormValue>): Prompt {
    if IsIdleTag(state) then WakeCheck else IntentCheck
  }

  /** The text sent for each prompt. */
  function PromptText(p: Prompt): string {
    match p
    case WakeCheck => WakePrompt
    case IntentCheck => IntentPrompt
  }

  /** `audioFile.type || 'audio/m4a'`. */
  function MimeTypeOf(fileType: string): (r: string)
    ensures fileType != "" ==> r == fileType
    ensures fileType == "" ==> r == DefaultMimeType
  {
    if fileType == "" then DefaultMimeType else fileType
  }

  /** `text.replace(/```json|```/g, '')`: left to right, an occurrence of
      "```json" is deleted when it starts here, otherwise one of "```". */
  function StripFences(s: string): string
    decreases |s|
  {
    if StartsWith(s, "```") then
      (if StartsWith(s[3..], "json") then StripFences(s[7..]) else StripFences(s[3..]))
    else if s == [] then []
    else [s[0]] + StripFences(s[1..])
  }

  /** The cleaned model text handed to `JSON.parse`. */
  function CleanModelText(raw: string): string {
    Trim(StripFences(raw))
  }

  /** The parsed reply asks for a note: `data.action === 'CREATE_NOTE' &&
      data.content`. */
  predicate WantsNote(data: Value) {
    FieldIs(data, "action", "CREATE_NOTE") && Truthy(Field(data, "content"))
  }

  /** `{ success: true, ...data }`: the parsed properties are copied after
      the flag, so a parsed `success` property replaces it. */
  function SuccessBody(data: Value): map<string, Value> {
    map["success" := JBool(true)] + OwnFields(data)
  }

  /** The error envelope `{ success: false, error: message }` with status 500. */
  predicate IsFailureEnvelope(r: Response) {
    r.status == 500 && r.body.Keys == {"success", "error"}
    && r.body["success"] == JBool(false) && r.body["error"].JStr?
  }

  function Failure(message: string): (r: Response)
    ensures IsFailureEnvelope(r) && r.body["error"] == JStr(message)
  {
    Response(500, map["success" := JBool(false), "error" := JStr(message)])
  }

  /** The note's content: `data.content`, when the reply asks for a note. */
  function NoteContent(data: Value): Value
    requires WantsNote(data)
  {
    Field(data, "content").value
  }

  /** What the model's answer decodes to: the JSON of its cleaned text, or
      the message of the error the model call or `JSON.parse` threw. */
  function Decode(call: ModelCall,
                  model: ModelCall -> Result<string, string>,
                  parse: string -> Result<Value, string>): Result<Value, string>
  {
    match model(call)
    case Err(message) => Err(message)
    case Ok(raw) => parse(CleanModelText(raw))
  }
  /** A model error is passed on as it is; otherwise the parser is given the
      model's text with no fence left in it and already trimmed, so that
      cleaning it again would change nothing. */
  lemma DecodeSeesCleanText(call: ModelCall,
                            model: ModelCall -> Result<string, string>,
                            parse: string -> Result<Value, string>)
    ensures model(call).Err? ==> Decode(call, model, parse) == Err(model(call).error)
    ensures model(call).Ok? ==>
      var text := CleanModelText(model(call).value);
      Decode(call, model, parse) == parse(text) && !Contains(text, "```") && CleanModelText(text) == text
  {
    if model(call).Ok? {
      CleanLeavesNoFence(model(call).value);
      CleanIdempotent(model(call).value);
    }
  }


  /** After the model call: store the note a `CREATE_NOTE` reply asks for,
      then answer. A note is stored exactly when the reply asks for one and
      the store succeeds; the answer is a success exactly when the reply
      decoded to something other than `null` and any note it asked for was
      stored; everything else is the failure envelope. */
  function Act(call: ModelCall, decoded: Result<Value, string>, insert: Value -> Stored): (h: Handled)
    ensures h.modelCall == Some(call)
    ensures h.note.Some? <==>
      decoded.Ok? && WantsNote(decoded.value) && insert(NoteContent(decoded.value)) == Stored
    ensures h.note.Some? ==> h.note.value == NoteContent(decoded.value)
    ensures h.response.status == 200 <==>
      decoded.Ok? && decoded.value != JNull && (WantsNote(decoded.value) ==> h.note.Some?)
    ensures h.response.status == 200 ==> h.response.body == SuccessBody(decoded.value)
    ensures h.response.status != 200 ==> IsFailureEnvelope(h.response) && h.note == None
    // The envelope carries the message of the error that was thrown.
    ensures decoded.Err? ==> h.response == Failure(decoded.error)
    ensures decoded == Ok(JNull) ==> h.response == Failure(NullDataMessage)
    ensures decoded.Ok? && decoded.value != JNull && WantsNote(decoded.value)
            && insert(NoteContent(decoded.value)).StoreFailed? ==>
      h.response == Failure(insert(NoteContent(decoded.value)).message)
  {
    match decoded
    case Err(message) => Handled(Failure(message), Some(call), None)
    case Ok(data) =>
      if data == JNull then Handled(Failure(NullDataMessage), Some(call), None)
      else if WantsNote(data) then
        match insert(NoteContent(data))
        case StoreFailed(message) => Handled(Failure(message), Some(call), None)
        case Stored => Handled(Response(200, SuccessBody(data)), Some(call), Some(NoteContent(data)))
      else Handled(Response(200, SuccessBody(data)), Some(call), None)
  }

  /** The model call for an uploaded file: the prompt the state tag picks,
      the file's bytes and its MIME type. */
  function CallFor(f: Form): ModelCall
    requires f.audio.Some? && f.audio.value.File?
  {
    ModelCall(PromptFor(f.state), AudioPart(f.audio.value.bytes, MimeTypeOf(f.audio.value.mimeType)))
  }

  /** The handler. A form without audio is refused with 400 before anything
      else happens; a file is sent to the model, once, with the wake-word
      prompt exactly when the state tag is IDLE; every error thrown on the
      way (an unreadable body, a text value where the file belongs, and all
      of the errors of `Act`) ends in the failure envelope. */
  function Post(form: Result<Form, string>,
                model: ModelCall -> Result<string, string>,
                parse: string -> Result<Value, string>,
                insert: Value -> Stored): (h: Handled)
    ensures form.Ok? && AudioMissing(form.value.audio) ==>
      h == Handled(Response(400, map["error" := JStr("No audio")]), None, None)
    ensures h.modelCall.Some? <==> form.Ok? && form.value.audio.Some? && form.value.audio.value.File?
    ensures h.modelCall.Some? ==>
      h.modelCall.value.prompt == (if IsIdleTag(form.value.state) then WakeCheck else IntentCheck)
      && h.modelCall.value.audio.bytes == form.value.audio.value.bytes
      && h.modelCall.value.audio.mimeType == MimeTypeOf(form.value.audio.value.mimeType)
      && h == Act(h.modelCall.value, Decode(h.modelCall.value, model, parse), insert)
    ensures h.modelCall.None? ==>
      h.note == None && h.response.status != 200
      && (h.response.status == 400 <==> form.Ok? && AudioMissing(form.value.audio))
      && (h.response.status != 400 ==> IsFailureEnvelope(h.response))
    // An unreadable body, or a text value where the file belongs, is
    // answered with the message of the error it raised.
    ensures form.Err? ==> h.response == Failure(form.error)
    ensures form.Ok? && !AudioMissing(form.value.audio) && form.value.audio.value.TextField? ==>
      h.response == Failure(NotAFileMessage)
  {
    match form
    case Err(message) => Handled(Failure(message), None, None)
    case Ok(f) =>
      if AudioMissing(f.audio) then
        Handled(Response(400, map["error" := JStr("No audio")]), None, None)
      else
        match f.audio.value
        case TextField(_) => Handled(Failure(NotAFileMessage), None, None)
        case File(_, _) => Act(CallFor(f), Decode(CallFor(f), model, parse), insert)
  }

  /** A parsed `success` property wins over the handler's own flag. */
  lemma SuccessFlagOverridden(data: Value)
    requires data.JObj? && "success" in data.fields
    ensures SuccessBody(data)["success"] == data.fields["success"]
    ensures SuccessBody(data).Keys == data.fields.Keys
  {
  }

  /** The wake-word prompt asks for `detected`. */
  lemma WakePromptAsksDetected()
    ensures Contains(PromptText(WakeCheck), "\"detected\"")
  {
    var wake := [
      "        Listen to this audio. Does the user clearly say the name \"Ginger\" (or similar sounding like \"Jinger\")? ",
      "        If YES, return JSON: {\"detected\": true}. ",
      "        If NO, return JSON: {\"detected\": false}.",
      "        Only return the JSON.",
      "        "];
    assert OccursAt(wake[1], "\"detected\"", 30);
    ContainsIffOccurs(wake[1], "\"detected\"");
    LineContained(wake, 1, "\"detected\"");
  }

  /** The lines of the intent prompt. */
  const IntentLines := [
    "        You are an AI agent named Ginger. Use the audio to determine the user's intent.",
    "        Available actions:",
    "        1. " + "\"CREATE_NOTE\"" + ": If user wants to create a note, save it. Return {\"action\": \"CREATE_NOTE\", \"content\": \"note text\", \"reply\": \"Saving note...\"}",
    "        2. " + "\"STOP\"" + ": If user says \"Stop\" or \"Cancel\". Return {\"action\": \"STOP\", \"reply\": \"Deactivating agent.\"}",
    "        3. " + "\"UNKNOWN\"" + ": If unclear. Return {\"action\": \"UNKNOWN\", \"reply\": \"I didn't catch that.\"}",
    "        ",
    "        Return ONLY the JSON.",
    "        "]

  /** A piece of a line of the intent prompt is part of the prompt. */
  lemma IntentPieceContained(i: nat, before: string, piece: string, after: string)
    requires i < |IntentLines| && IntentLines[i] == before + piece + after
    ensures Contains(IntentPrompt, piece)
  {
    assert OccursAt(piece, piece, 0);
    ContainsIffOccurs(piece, piece);
    ContainsInConcat(before, piece, piece);
    ContainsInConcat(before + piece, after, piece);
    LineContained(IntentLines, i, piece);
  }

  /** The intent prompt names the three actions. */
  lemma IntentPromptNamesActions()
    ensures Contains(PromptText(IntentCheck), "\"CREATE_NOTE\"")
    ensures Contains(PromptText(IntentCheck), "\"STOP\"")
    ensures Contains(PromptText(IntentCheck), "\"UNKNOWN\"")
  {
    var line2, line3, line4 := IntentLines[2], IntentLines[3], IntentLines[4];
    IntentPieceContained(2, "        1. ", "\"CREATE_NOTE\"", line2[11 + 13..]);
    IntentPieceContained(3, "        2. ", "\"STOP\"", line3[11 + 6..]);
    IntentPieceContained(4, "        3. ", "\"UNKNOWN\"", line4[11 + 9..]);
  }

  /** A line's text is part of the template it belongs to. */
  lemma {:induction false} LineContained(ls: seq<string>, i: nat, p: string)
    requires i < |ls| && Contains(ls[i], p)
    ensures Contains(Lines(ls), p)
    decreases i
  {
    if i == 0 {
      ContainsInConcat("\n", ls[0], p);
      ContainsInConcat("\n" + ls[0], Lines(ls[1..]), p);
    } else {
      LineContained(ls[1..], i - 1, p);
      ContainsInConcat("\n" + ls[0], Lines(ls[1..]), p);
    }
  }

  // Code-fence cleanup

  /** A character that does not start "```" is kept, at the front. */
  lemma StripKeepsHead(s: string)
    requires s != [] && !StartsWith(s, "```")
    ensures StripFences(s) == [s[0]] + StripFences(s[1..])
  {
  }

  /** After the deletion no "```" is left, not even one formed from the
      pieces around a deleted fence. */
  lemma {:induction false} StripLeavesNoFence(s: string)
    ensures !Contains(StripFences(s), "```")
    decreases |s|
  {
    if StartsWith(s, "```") {
      if StartsWith(s[3..], "json") {
        StripLeavesNoFence(s[7..]);
      } else {
        StripLeavesNoFence(s[3..]);
      }
    } else if s != [] {
      StripKeepsHead(s);
      var r := StripFences(s[1..]);
      StripLeavesNoFence(s[1..]);
      assert StripFences(s)[1..] == r;
      if s[0] == '`' && |r| >= 2 {
        // s starts with one or two backticks, never three.
        var t := s[1..];
        if t[0] == '`' {
          assert |s| == 2 || s[2] != '`';
          assert !StartsWith(t, "```");
          StripKeepsHead(t);
          assert |t| >= 2;
          assert !StartsWith(t[1..], "```");
          StripKeepsHead(t[1..]);
          assert r[1] == s[2];
        } else {
          assert !StartsWith(t, "```");
          StripKeepsHead(t);
          assert r[0] == t[0];
        }
      }
    }
  }

  /** Text without "```" passes the deletion unchanged. */
  lemma {:induction false} StripFenceFree(s: string)
    requires !Contains(s, "```")
    ensures StripFences(s) == s
    decreases |s|
  {
    if s != [] {
      StripFenceFree(s[1..]);
    }
  }

  /** Without backticks there is nothing to delete. */
  lemma {:induction false} StripWithoutBackticks(s: string)
    requires forall k :: 0 <= k < |s| ==> s[k] != '`'
    ensures StripFences(s) == s
    decreases |s|
  {
    if s != [] {
      assert s[0] != '`';
      StripWithoutBackticks(s[1..]);
    }
  }

  /** The cleaned text holds no fence. */
  lemma CleanLeavesNoFence(raw: string)
    ensures !Contains(CleanModelText(raw), "```")
  {
    var stripped := StripFences(raw);
    StripLeavesNoFence(raw);
    var a, b := TrimSlice(stripped);
    if Contains(CleanModelText(raw), "```") {
      ContainsInSlice(stripped, "```", a, b);
    }
  }

  /** Cleaning is idempotent. */
  lemma CleanIdempotent(raw: string)
    ensures CleanModelText(CleanModelText(raw)) == CleanModelText(raw)
  {
    CleanLeavesNoFence(raw);
    StripFenceFree(CleanModelText(raw));
    TrimIdempotent(StripFences(raw));
  }

  /** Backtick-free text is only trimmed. */
  lemma CleanWithoutBackticks(raw: string)
    requires forall k :: 0 <= k < |raw| ==> raw[k] != '`'
    ensures CleanModelText(raw) == Trim(raw)
  {
    StripWithoutBackticks(raw);
  }

  /** The fenced reply of the kind the intent prompt invites: whatever the
      fences around it, an `UNKNOWN` reply comes back as a success echoing
      the action, and no note is stored. */
  lemma UnknownIntentEchoed(form: Result<Form, string>,
                            model: ModelCall -> Result<string, string>,
                            parse: string -> Result<Value, string>,
                            insert: Value -> Stored,
                            fields: map<string, Value>)
    requires form.Ok? && form.value.audio.Some? && form.value.audio.value.File?
    requires Decode(CallFor(form.value), model, parse) == Ok(JObj(fields))
    requires "action" in fields && fields["action"] == JStr("UNKNOWN")
    ensures var h := Post(form, model, parse, insert);
      h.response.status == 200
      && "action" in h.response.body && h.response.body["action"] == JStr("UNKNOWN")
      && "success" in h.response.body
      && h.response.body["success"] == (if "success" in fields then fields["success"] else JBool(true))
      && h.note == None
  {
    var data := JObj(fields);
    assert !WantsNote(data);
    ActWithoutNote(CallFor(form.value), data, insert);
    SuccessBodyLookup(fields);
  }

  /** The success body of a parsed object holds its properties, and its
      `success` is the parsed one when there is one. */
  lemma SuccessBodyLookup(fields: map<string, Value>)
    ensures forall key :: key in fields ==> key in SuccessBody(JObj(fields)) && SuccessBody(JObj(fields))[key] == fields[key]
    ensures "success" in SuccessBody(JObj(fields))
    ensures SuccessBody(JObj(fields))["success"] == (if "success" in fields then fields["success"] else JBool(true))
  {
  }

  /** A decoded reply that asks for no note is answered with its success
      body, and nothing is stored. */
  lemma ActWithoutNote(call: ModelCall, data: Value, insert: Value -> Stored)
    requires data != JNull && !WantsNote(data)
    ensures Act(call, Ok(data), insert) == Handled(Response(200, SuccessBody(data)), Some(call), None)
  {
  }
}
