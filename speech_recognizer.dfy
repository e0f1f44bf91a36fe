/** The hidden speech-recognition component: the page script's `onresult`
    handler, which folds recognition results into one message for the app,
    the prop rule that starts and stops recognition, and the app-side
    message handler. */
module SpeechRecognizer {
  import opened Wrappers
  import opened Text
  import opened Json

  /** One entry of `event.results`: its `isFinal` flag and the transcript of
      its first alternative. */
  datatype RecognitionResult = RecognitionResult(isFinal: bool, transcript: string)

  /** The transcripts of the final results, concatenated in order. */
  function FinalText(rs: seq<RecognitionResult>): string
    decreases |rs|
  {
    if rs == [] then ""
    else FinalText(rs[..|rs| - 1]) + (if rs[|rs| - 1].isFinal then rs[|rs| - 1].transcript else "")
  }

  /** The transcripts of the non-final results, concatenated in order. */
  function InterimText(rs: seq<RecognitionResult>): string
    decreases |rs|
  {
    if rs == [] then ""
    else InterimText(rs[..|rs| - 1]) + (if rs[|rs| - 1].isFinal then "" else rs[|rs| - 1].transcript)
  }

  /** The results the handler reads: those from `resultIndex` on. */
  function Fresh(rs: seq<RecognitionResult>, resultIndex: nat): seq<RecognitionResult> {
    if resultIndex <= |rs| then rs[resultIndex..] else []
  }

  /** `finalTranscript || interimTranscript`: an empty final text gives way
      to the interim text, a blank but non-empty one does not. */
  function Chosen(finalText: string, interimText: string): string {
    if finalText != "" then finalText else interimText
  }

  /** The text of the `result` message posted for the chosen text, if one is
      posted: only for text that is not blank, and then trimmed and lower-cased. */
  function ResultMessage(text: string): (m: Option<string>)
    ensures m.Some? <==> !AllSpace(text)
    ensures m.Some? ==> m.value == Lower(Trim(text)) && m.value != ""
  {
    TrimEmptyIffBlank(text);
    if Trim(text) != "" then Some(Lower(Trim(text))) else None
  }

  /** The `onresult` handler: the loop over the fresh results, then the
      choice and the message. */
  method OnResult(results: seq<RecognitionResult>, resultIndex: nat) returns (posted: Option<string>)
    ensures posted == ResultMessage(Chosen(FinalText(Fresh(results, resultIndex)),
                                           InterimText(Fresh(results, resultIndex))))
  {
    var finalTranscript := "";
    var interimTranscript := "";
    var i := resultIndex;
    while i < |results|
      invariant resultIndex <= |results| ==> resultIndex <= i <= |results|
      invariant resultIndex <= |results| ==> finalTranscript == FinalText(results[resultIndex..i])
      invariant resultIndex <= |results| ==> interimTranscript == InterimText(results[resultIndex..i])
      invariant resultIndex > |results| ==> i == resultIndex && finalTranscript == "" && interimTranscript == ""
    {
      assert results[resultIndex..i + 1][..i - resultIndex] == results[resultIndex..i];
      if results[i].isFinal {
        finalTranscript := finalTranscript + results[i].transcript;
      } else {
        interimTranscript := interimTranscript + results[i].transcript;
      }
      i := i + 1;
    }
    if resultIndex <= |results| {
      assert results[resultIndex..i] == Fresh(results, resultIndex);
    }
    var text := if finalTranscript != "" then finalTranscript else interimTranscript;
    TrimEmptyIffBlank(text);
    if Trim(text) != "" {
      posted := Some(Lower(Trim(text)));
    } else {
      posted := None;
    }
  }

  /** Final text distributes over concatenation of result lists: each batch
      contributes its own finals, in order. */
  lemma {:induction false} FinalTextAppend(a: seq<RecognitionResult>, b: seq<RecognitionResult>)
    ensures FinalText(a + b) == FinalText(a) + FinalText(b)
    decreases |b|
  {
    if b != [] {
      var b' := b[..|b| - 1];
      assert (a + b)[..|a + b| - 1] == a + b';
      FinalTextAppend(a, b');
    } else {
      assert a + b == a;
    }
  }

  /** Interim text distributes over concatenation in the same way. */
  lemma {:induction false} InterimTextAppend(a: seq<RecognitionResult>, b: seq<RecognitionResult>)
    ensures InterimText(a + b) == InterimText(a) + InterimText(b)
    decreases |b|
  {
    if b != [] {
      var b' := b[..|b| - 1];
      assert (a + b)[..|a + b| - 1] == a + b';
      InterimTextAppend(a, b');
    } else {
      assert a + b == a;
    }
  }

  /** Each transcript lands, in its place, in exactly one of the two texts:
      a final one between the finals before and after it, with the interim
      text not holding it, and the mirror case for a non-final one. */
  lemma TranscriptLandsOnce(rs: seq<RecognitionResult>, k: nat)
    requires k < |rs|
    ensures rs[k].isFinal ==>
      FinalText(rs) == FinalText(rs[..k]) + rs[k].transcript + FinalText(rs[k + 1..])
      && InterimText(rs) == InterimText(rs[..k]) + InterimText(rs[k + 1..])
    ensures !rs[k].isFinal ==>
      InterimText(rs) == InterimText(rs[..k]) + rs[k].transcript + InterimText(rs[k + 1..])
      && FinalText(rs) == FinalText(rs[..k]) + FinalText(rs[k + 1..])
  {
    SplitAt(rs, k);
    FinalOfSplit(rs[..k], rs[k], rs[k + 1..]);
    InterimOfSplit(rs[..k], rs[k], rs[k + 1..]);
  }

  /** A sequence is what comes before position `k`, the element there, and what follows. */
  lemma SplitAt(rs: seq<RecognitionResult>, k: nat)
    requires k < |rs|
    ensures rs == rs[..k] + [rs[k]] + rs[k + 1..]
  {
  }

  /** The final text around one result. */
  lemma FinalOfSplit(before: seq<RecognitionResult>, r: RecognitionResult, after: seq<RecognitionResult>)
    ensures r.isFinal ==> FinalText(before + [r] + after) == FinalText(before) + r.transcript + FinalText(after)
    ensures !r.isFinal ==> FinalText(before + [r] + after) == FinalText(before) + FinalText(after)
  {
    var upTo := before + [r];
    assert upTo[..|upTo| - 1] == before;
    FinalTextAppend(upTo, after);
    assert FinalText(before) + "" == FinalText(before);
  }

  /** The interim text around one result. */
  lemma InterimOfSplit(before: seq<RecognitionResult>, r: RecognitionResult, after: seq<RecognitionResult>)
    ensures !r.isFinal ==> InterimText(before + [r] + after) == InterimText(before) + r.transcript + InterimText(after)
    ensures r.isFinal ==> InterimText(before + [r] + after) == InterimText(before) + InterimText(after)
  {
    var upTo := before + [r];
    assert upTo[..|upTo| - 1] == before;
    InterimTextAppend(upTo, after);
    assert InterimText(before) + "" == InterimText(before);
  }

  /** Results before `resultIndex` never matter. */
  lemma StaleResultsIgnored(seen: seq<RecognitionResult>, latest: seq<RecognitionResult>)
    ensures Fresh(seen + latest, |seen|) == latest
  {
    assert (seen + latest)[|seen|..] == latest;
  }

  /** A blank but non-empty final text wins over the interim text, and then
      nothing is posted. */
  lemma BlankFinalSuppressesInterim(finalText: string, interimText: string)
    requires finalText != "" && AllSpace(finalText)
    ensures ResultMessage(Chosen(finalText, interimText)) == None
  {
  }

  /** A posted text is already trimmed and lower-case: posting it again
      would post the same text. */
  lemma PostedTextIsNormal(text: string)
    requires ResultMessage(text).Some?
    ensures ResultMessage(ResultMessage(text).value) == ResultMessage(text)
  {
    var t := Trim(text);
    var a, b := TrimSlice(text);
    LowerKeepsSpace(t[0]);
    LowerKeepsSpace(t[|t| - 1]);
    var l := Lower(t);
    assert TrimStart(l) == l;
    assert TrimEnd(l) == l;
    LowerIdempotent(t);
  }

  // Starting and stopping recognition

  datatype Command = StartRecognition | StopRecognition

  /** `componentDidUpdate`: a command is injected only when `isListening`
      changed and the page is mounted; it starts recognition when the prop
      became true and stops it when it became false. */
  function DidUpdate(wasListening: bool, isListening: bool, mounted: bool): (c: Option<Command>)
    ensures c.Some? <==> mounted && wasListening != isListening
    ensures c.Some? ==> (c.value == StartRecognition <==> isListening)
  {
    if isListening != wasListening && mounted then
      Some(if isListening then StartRecognition else StopRecognition)
    else None
  }

  /** The commands injected over a run of prop values, the first being the
      value the component was mounted with. */
  function Commands(values: seq<bool>): seq<Command>
    requires values != []
    decreases |values|
  {
    if |values| == 1 then []
    else
      var c := DidUpdate(values[|values| - 2], values[|values| - 1], true);
      Commands(values[..|values| - 1]) + (if c.Some? then [c.value] else [])
  }

  /** Over any run of prop changes the injected commands alternate, and the
      last one agrees with the current prop: once `isListening` has changed,
      the page was last told to start exactly when the prop is true. */
  lemma {:induction false} CommandsTrackListening(values: seq<bool>)
    requires values != []
    ensures var cs := Commands(values);
      (forall k :: 0 <= k < |cs| - 1 ==> cs[k] != cs[k + 1])
      && (cs != [] ==> (cs[|cs| - 1] == StartRecognition <==> values[|values| - 1]))
      && (cs != [] ==> (cs[0] == StartRecognition <==> !values[0]))
      && (cs == [] <==> forall k :: 0 <= k < |values| ==> values[k] == values[0])
    decreases |values|
  {
    if |values| > 1 {
      var prefix := values[..|values| - 1];
      CommandsTrackListening(prefix);
      var cs := Commands(prefix);
      var last := values[|values| - 1];
      var c := DidUpdate(values[|values| - 2], last, true);
      assert prefix[|prefix| - 1] == values[|values| - 2];
      if cs == [] {
        assert forall k :: 0 <= k < |prefix| ==> prefix[k] == values[0];
        if c.None? {
          forall k | 0 <= k < |values| ensures values[k] == values[0] {
            if k < |prefix| { assert values[k] == prefix[k]; }
          }
        } else {
          assert values[|values| - 1] != values[0];
        }
      } else {
        assert !(forall k :: 0 <= k < |values| ==> values[k] == values[0]) by {
          var k :| 0 <= k < |prefix| && prefix[k] != values[0];
          assert values[k] == prefix[k];
        }
      }
    }
  }

  // Messages from the page

  /** `handleMessage`: when the message parses to something with
      `type === 'result'`, `onSpeechResult` is called with its `text`
      property (`None` inside stands for `undefined`); any parse failure, a
      `null` message or another type calls nothing and throws nothing. */
  function HandleMessage(raw: string, parse: string -> Result<Value, string>): (call: Option<Option<Value>>)
    ensures call.Some? <==> parse(raw).Ok? && parse(raw).value != JNull && FieldIs(parse(raw).value, "type", "result")
    ensures call.Some? ==> call.value == Field(parse(raw).value, "text")
  {
    match parse(raw)
    case Err(_) => None
    case Ok(data) =>
      if data != JNull && FieldIs(data, "type", "result") then Some(Field(data, "text")) else None
  }

  /** A parsed result object hands its text to `onSpeechResult` unchanged.
      The page's `JSON.stringify` is not modelled: that `parse` gives back
      the posted object is this lemma's assumption, not a proved round-trip. */
  lemma ResultDelivered(text: string, raw: string, parse: string -> Result<Value, string>)
    requires parse(raw) == Ok(JObj(map["type" := JStr("result"), "text" := JStr(text)]))
    ensures HandleMessage(raw, parse) == Some(Some(JStr(text)))
  {
  }
}
